/** Each operation on a version keeps the whole invariant and changes the pending accesses by
    exactly one access. */
module DependenceSteps {
  import opened Wrappers
  import opened AccessOrder
  import opened VersionList
  import opened Dependence
  import opened DependenceInv
  import opened DependenceCounts

  /** Everything that holds inside the critical section. `owed` are unblocked tasks not notified
      yet, `except` the task whose own sets are being dismantled. */
  ghost predicate Core(s: State, h: Shadow, owed: set<Task>, except: set<Task>) {
    && Structure(s, h)
    && Counts(s, h, owed)
    && Accesses(s, h)
    && Holdings(s, h, except)
    && Trash(s, h)
  }

  // ----- placing a new access

  ghost predicate Placeable(s: State, h: Shadow, d: Signature, a: seq<Access>, b: seq<Access>, t: Task) {
    && t < |s.tasks| && t !in s.released && t !in h.done
    && Pending(h, d) == a + b
    && !Occurs(a + b, t)
    && (b == [] || (b[0].write && b[0].task in s.released))
  }

  lemma PlacedNoDup(a: seq<Access>, x: Access, b: seq<Access>)
    requires NoDup(a + b) && !Occurs(a + b, x.task)
    ensures NoDup(a + [x] + b)
  {
    var q, p := a + b, a + [x] + b;
    forall i, j | 0 <= i < j < |p| ensures p[i].task != p[j].task {
      var i', j' := if i < |a| then i else i - 1, if j < |a| then j else j - 1;
      assert i != |a| ==> p[i] == q[i'];
      assert j != |a| ==> p[j] == q[j'];
    }
  }

  lemma PlacedFree(ga: seq<Cell>, x: Access, gb: seq<Cell>, rel: set<Task>)
    requires Free(ga + gb, rel) && x.task !in rel
    ensures Free(Extend(ga, x) + gb, rel)
  {
    var g, g': seq<Cell> := ga + gb, Extend(ga, x) + gb;
    assert forall i :: 0 <= i < |ga| ==> ga[i] == g[i];
    assert forall i :: 0 <= i < |gb| ==> gb[i] == g[|ga| + i];
    forall i | 0 <= i < |g'| && g'[i].writer.Some? ensures g'[i].readers !! rel {
      if i < |ga| {
        assert ga[i].readers !! rel;
      } else if i >= |Extend(ga, x)| {
        assert g'[i] == gb[i - |Extend(ga, x)|];
      }
    }
  }

  lemma PlacedAccesses(s: State, h: Shadow, s': State, h': Shadow, d: Signature, a: seq<Access>, x: Access,
      b: seq<Access>)
    requires Accesses(s, h) && Placeable(s, h, d, a, b, x.task)
    requires |s'.tasks| == |s.tasks| && s'.released == s.released && h'.done == h.done
    requires h'.pend == h.pend[d := a + [x] + b]
    ensures Accesses(s', h')
  {
    var p := a + [x] + b;
    assert d !in h.pend ==> a + b == [];
    if d !in h.pend {
      VersionsShape(a + b);
      assert NoDup(a + b) && Free(Versions(a + b), s.released);
    }
    PlacedNoDup(a, x, b);
    VersionsSplit(a, b);
    VersionsSplit(a + [x], b);
    VersionsOfAppend(a, x);
    hide Versions, NoDup, Occurs;
    PlacedFree(Versions(a), x, Versions(b), s.released);
    forall k | 0 <= k < |p| ensures p[k].task < |s.tasks| && p[k].task !in h.done {
      if k != |a| {
        var k' := if k < |a| then k else k - 1;
        assert p[k] == (a + b)[k'];
      }
    }
  }

  lemma PlacedCounts(s: State, h: Shadow, s': State, h': Shadow, d: Signature, a: seq<Access>, x: Access,
      b: seq<Access>)
    requires Counts(s, h, {}) && Accesses(s, h) && Placeable(s, h, d, a, b, x.task)
    requires |s'.tasks| == |s.tasks| && s'.released == s.released
    requires h'.pend == h.pend[d := a + [x] + b] && h'.surplus == h.surplus
    requires forall u :: 0 <= u < |s.tasks| ==>
               s'.tasks[u].submitDep == s.tasks[u].submitDep + One(u == x.task && a != [] && (x.write || !AllReads(a)))
    ensures Counts(s', h', {})
  {
    if d !in h.pend {
      assert a + b == [];
    }
    PlacedNoDup(a, x, b);
    hide NoDup, Occurs, Versions;
    forall u | 0 <= u < |s.tasks| && u !in s.released
      ensures s'.tasks[u].submitDep - h'.surplus[u] + One(CellBlocked(Versions(Pending(h, d)), u))
           == s.tasks[u].submitDep - h.surplus[u] + One(CellBlocked(Versions(a + [x] + b), u)) + One(u in {})
    {
      PlaceBlocks(a, x, b, u);
    }
    CountsUpdate(s, h, s', h', d, a + [x] + b, {});
  }

  lemma PlacedTrash(s: State, h: Shadow, s': State, h': Shadow, d: Signature)
    requires Trash(s, h) && d !in h.dead && d in h.lists
    requires s'.versionTrashcan == s.versionTrashcan && h'.dead == h.dead
    requires h'.lists.Keys == h.lists.Keys && forall e :: e in h.lists && e != d ==> h'.lists[e] == h.lists[e]
    requires forall a :: a in s.versions ==> a in s'.versions && s'.versions[a].signature == s.versions[a].signature
    ensures Trash(s', h')
  {
    assert forall e :: e != d ==> Grave(h', e) == Grave(h, e) && (NotNewest(h, e) ==> NotNewest(h', e));
    hide Grave, NotNewest;
  }

  /** The effect of `AddProducer` on what `Holdings` looks at. */
  lemma ProducerSets(m: Memory, v: Address, t: Task, block: Address)
    requires Known(m, v) && block !in m && m[v].last != Some(v)
    ensures Produced(m, v, t, block).Keys == m.Keys + {block}
    ensures Produced(m, v, t, block)[block].consumers == {} && Produced(m, v, t, block)[block].status == IDLE
    ensures Produced(m, v, t, block)[block].myProducer == Some(t)
    ensures forall a :: a in m ==>
              && Produced(m, v, t, block)[a].consumers == m[a].consumers
              && Produced(m, v, t, block)[a].status == m[a].status
              && Produced(m, v, t, block)[a].myProducer == m[a].myProducer
              && Produced(m, v, t, block)[a].signature == m[a].signature
  {
  }

  lemma ProducerHoldings(s: State, h: Shadow, h': Shadow, v: Address, t: Task, block: Address)
    requires h'.done == h.done
    requires Holdings(s, h, {}) && Trash(s, h) && t < |s.tasks|
    requires Known(s.versions, v) && block !in s.versions && s.versions[v].last != Some(v)
    ensures Holdings(AddProducer(s, v, t, block), h', {})
  {
    ProducerSets(s.versions, v, t, block);
    var s' := AddProducer(s, v, t, block);
    hide Produced;
    forall u | 0 <= u < |s.tasks| && u !in h.done
      ensures s'.tasks[u].ins == InsOf(s', u) && s'.tasks[u].outs == OutsOf(s', u)
    {
      assert s.tasks[u].ins == InsOf(s, u) && s.tasks[u].outs == OutsOf(s, u);
      assert InsOf(s', u) == InsOf(s, u);
      assert OutsOf(s', u) == OutsOf(s, u) + (if u == t then {block} else {});
    }
  }

  /** `AddProducer` puts a write in front of the version it is called on. */
  lemma ProducerCore(s: State, h: Shadow, d: Signature, a: seq<Access>, b: seq<Access>, v: Address, t: Task,
      block: Address)
    requires Core(s, h, {}, {}) && d in s.vaMap && d in h.lists && Slot(s, h, d, a, b, v) && Placeable(s, h, d, a, b, t)
    requires block !in s.versions
    ensures Known(s.versions, v) && s.versions[v].last != Some(v)
    ensures Core(AddProducer(s, v, t, block),
                 Updated(h, d, InsertAt(h.lists[d], |Versions(a)|, block), a + [Access(t, true)] + b), {}, {})
  {
    hide Structure, Produced, Holdings, AddProducer, Counts, Accesses, Trash, Versions, AllReads, Occurs;
    var h' := Updated(h, d, InsertAt(h.lists[d], |Versions(a)|, block), a + [Access(t, true)] + b);
    ProducerStructure(s, h, d, a, b, v, t, block);
    SlotLast(s, h, d, a, b, v);
    ProducerSets(s.versions, v, t, block);
    ProducerHoldings(s, h, h', v, t, block);
    ProducerTasks(s, v, t, block);
    var s' := AddProducer(s, v, t, block);
    PlacedAccesses(s, h, s', h', d, a, Access(t, true), b);
    PlacedCounts(s, h, s', h', d, a, Access(t, true), b);
    PlacedTrash(s, h, s', h', d);
  }

  lemma ProducerTasks(s: State, v: Address, t: Task, block: Address)
    requires Known(s.versions, v) && t < |s.tasks| && block !in s.versions && s.versions[v].last != Some(v)
    requires s.versions[v].last.Some? ==> !s.versions[s.versions[v].last.value].status.CONSUMED?
    ensures var s' := AddProducer(s, v, t, block);
            && s'.versions == Produced(s.versions, v, t, block)
            && s'.vaMap == s.vaMap && s'.released == s.released && s'.versionTrashcan == s.versionTrashcan
            && |s'.tasks| == |s.tasks|
            && forall u :: 0 <= u < |s.tasks| ==>
                 s'.tasks[u].submitDep == s.tasks[u].submitDep + One(u == t && s.versions[v].last.Some?)
  {
  }

  /** What stands in front of a slot: the newest version of `a`, if there is one. */
  lemma SlotLast(s: State, h: Shadow, d: Signature, a: seq<Access>, b: seq<Access>, v: Address)
    requires Structure(s, h) && d in s.vaMap && Slot(s, h, d, a, b, v)
    ensures Known(s.versions, v)
    ensures s.versions[v].last.Some? <==> a != []
    ensures a != [] ==> (s.versions[s.versions[v].last.value].status.IDLE? <==> !AllReads(a))
    ensures a != [] ==> !s.versions[s.versions[v].last.value].status.CONSUMED?
  {
    hide Versions, NoDup;
    var full, root, ga := h.lists[d], s.vaMap[d], Versions(a);
    assert DatumOk(s, h, d);
    VersionsShape(a);
    VersionsSplit(a, b);
    OwnerLinks(s.versions, d, root, full, |ga|);
    if a != [] {
      NewestUnproduced(a);
      hide Linked;
      var g: seq<Cell> := ga + Versions(b);
      assert g[|ga| - 1] == ga[|ga| - 1];
      assert CellMatch(s.versions[full[|ga| - 1]], g, |ga| - 1, s.released);
    }
  }

  function Target(m: Memory, v: Address, nest: NestType, block: Address): Address
    requires v in m
  {
    if nest.PARENTIN? then v else if m[v].last.None? then block else m[v].last.value
  }

  /** The effect of `AddConsumer` on what the invariant looks at. */
  lemma ConsumerEffect(s: State, v: Address, t: Task, nest: NestType, block: Address)
    requires Known(s.versions, v) && t < |s.tasks| && block !in s.versions
    requires var c := Target(s.versions, v, nest, block); c in s.versions ==> !s.versions[c].status.CONSUMED?
    ensures var s', c := AddConsumer(s, v, t, nest, block), Target(s.versions, v, nest, block);
            && s'.vaMap == s.vaMap && s'.released == s.released && s'.versionTrashcan == s.versionTrashcan
            && s'.versions.Keys == s.versions.Keys + {c}
            && (forall a :: a in s.versions ==>
                  && s'.versions[a].consumers == s.versions[a].consumers + (if a == c then {t} else {})
                  && s'.versions[a].status == s.versions[a].status
                  && s'.versions[a].myProducer == s.versions[a].myProducer
                  && s'.versions[a].signature == s.versions[a].signature)
            && (c !in s.versions ==> s'.versions[c].consumers == {t} && s'.versions[c].status == READY)
    ensures var s', c := AddConsumer(s, v, t, nest, block), Target(s.versions, v, nest, block);
            ConsumerCounted(s, s', t, c)
  {
    ConsumerTasks(s, v, t, nest, block);
    hide ConsumerCounted;
  }

  /** What a new reader of version `c` means to the tasks. */
  ghost predicate ConsumerCounted(s: State, s': State, t: Task, c: Address) {
    && |s'.tasks| == |s.tasks|
    && forall u :: 0 <= u < |s.tasks| ==>
         && s'.tasks[u].submitDep
            == s.tasks[u].submitDep + One(u == t && c in s.versions && s.versions[c].status.IDLE?)
         && s'.tasks[u].ins == s.tasks[u].ins + (if u == t then {c} else {})
         && s'.tasks[u].outs == s.tasks[u].outs
  }

  lemma ConsumerTasks(s: State, v: Address, t: Task, nest: NestType, block: Address)
    requires Known(s.versions, v) && t < |s.tasks| && block !in s.versions
    requires var c := Target(s.versions, v, nest, block); c in s.versions ==> !s.versions[c].status.CONSUMED?
    ensures ConsumerCounted(s, AddConsumer(s, v, t, nest, block), t, Target(s.versions, v, nest, block))
  {
  }

  lemma JoinHoldings(s: State, h: Shadow, s': State, h': Shadow, c: Address, t: Task)
    requires Holdings(s, h, {}) && h'.done == h.done && c !in s.versionTrashcan
    requires s'.versionTrashcan == s.versionTrashcan && |s'.tasks| == |s.tasks|
    requires s'.versions.Keys == s.versions.Keys + {c}
    requires forall a :: a in s.versions ==>
               && s'.versions[a].consumers == s.versions[a].consumers + (if a == c then {t} else {})
               && s'.versions[a].status == s.versions[a].status
               && s'.versions[a].myProducer == s.versions[a].myProducer
    requires c !in s.versions ==> s'.versions[c].consumers == {t} && s'.versions[c].status == READY
    requires forall u :: 0 <= u < |s.tasks| ==>
               && s'.tasks[u].ins == s.tasks[u].ins + (if u == t then {c} else {})
               && s'.tasks[u].outs == s.tasks[u].outs
    ensures Holdings(s', h', {})
  {
    forall u | 0 <= u < |s.tasks| && u !in h.done
      ensures s'.tasks[u].ins == InsOf(s', u) && s'.tasks[u].outs == OutsOf(s', u)
    {
      assert s.tasks[u].ins == InsOf(s, u) && s.tasks[u].outs == OutsOf(s, u);
      assert OutsOf(s', u) == OutsOf(s, u);
      if u == t {
        assert InsOf(s', u) == InsOf(s, u) + {c};
      } else {
        assert InsOf(s', u) == InsOf(s, u);
      }
    }
  }

  /** A version of a datum that has nothing to recycle is not in the recycling list. */
  lemma NotTrash(s: State, h: Shadow, a: Address)
    requires Trash(s, h)
    requires a in s.versions ==> s.versions[a].signature !in h.dead
    ensures a !in s.versionTrashcan
  {
  }

  lemma LinkedTarget(m: Memory, d: Signature, root: Address, full: seq<Address>, i: nat, nest: NestType, block: Address)
    requires Linked(m, d, root, full) && i <= |full| && !nest.PARENTIN? && block !in m
    ensures Known(m, Owner(full, root, i))
    ensures var c := Target(m, Owner(full, root, i), nest, block); c in m ==> m[c].signature == d
  {
    OwnerLinks(m, d, root, full, i);
    assert i > 0 ==> NodeOk(m, d, root, full, i - 1);
  }

  lemma SlotTarget(s: State, h: Shadow, d: Signature, a: seq<Access>, b: seq<Access>, v: Address, nest: NestType,
      block: Address)
    requires Structure(s, h) && d in s.vaMap && d in h.lists && Slot(s, h, d, a, b, v) && !nest.PARENTIN?
             && block !in s.versions
    ensures Known(s.versions, v)
    ensures var c := Target(s.versions, v, nest, block); c in s.versions ==> s.versions[c].signature == d
  {
    hide Versions, NoDup, Matches, Linked, Target, Placed;
    assert DatumOk(s, h, d);
    LinkedTarget(s.versions, d, s.vaMap[d], h.lists[d], |Versions(a)|, nest, block);
  }

  /** `AddConsumer` puts a read in front of the version it is called on. */
  lemma ConsumerCore(s: State, h: Shadow, d: Signature, a: seq<Access>, b: seq<Access>, v: Address, t: Task,
                     nest: NestType, block: Address)
    requires Core(s, h, {}, {}) && d in s.vaMap && d in h.lists && Slot(s, h, d, a, b, v) && Placeable(s, h, d, a, b, t)
    requires block !in s.versions && !nest.PARENTIN?
    ensures Known(s.versions, v)
    ensures Core(AddConsumer(s, v, t, nest, block), ReadAdded(h, d, a, b, t, block), {}, {})
  {
    hide Structure, Holdings, AddConsumer, Counts, Accesses, Trash, Versions, AllReads, Occurs;
    var h' := ReadAdded(h, d, a, b, t, block);
    if a == [] {
      FirstReaderStructure(s, h, d, b, v, t, nest, block);
    } else {
      LaterReaderStructure(s, h, d, a, b, v, t, nest, block);
    }
    SlotLast(s, h, d, a, b, v);
    SlotTarget(s, h, d, a, b, v, nest, block);
    NotTrash(s, h, Target(s.versions, v, nest, block));
    ConsumerEffect(s, v, t, nest, block);
    var s' := AddConsumer(s, v, t, nest, block);
    JoinHoldings(s, h, s', h', Target(s.versions, v, nest, block), t);
    PlacedAccesses(s, h, s', h', d, a, Access(t, false), b);
    PlacedCounts(s, h, s', h', d, a, Access(t, false), b);
    PlacedTrash(s, h, s', h', d);
  }

  lemma JoinedFree(a: seq<Access>, t: Task, b: seq<Access>, rel: set<Task>)
    requires AllReads(a) && a != [] && Free(Versions(a + b), rel)
    ensures Free(Versions(a + [Access(t, false)] + b), rel)
    ensures forall u :: u != t
              ==> (CellBlocked(Versions(a + [Access(t, false)] + b), u) <==> CellBlocked(Versions(a + b), u))
    ensures !Occurs(a + b, t) ==> !CellBlocked(Versions(a + b), t)
                                  && !CellBlocked(Versions(a + [Access(t, false)] + b), t)
  {
    JoinOldest(a, t, b);
    OldestRead(a, b);
    var g, g' := Versions(a + b), Versions(a + [Access(t, false)] + b);
    VersionsMembers(a + b, t);
    hide Versions;
    assert forall i :: 0 < i < |g| ==> g'[i] == g[i];
    assert g[0].writer.None? && g'[0].writer.None?;
    forall u | u != t ensures CellBlocked(g', u) <==> CellBlocked(g, u) {
      SameKeepsBlocked(g, g', u);
    }
    if !Occurs(a + b, t) {
      assert forall i :: 0 <= i < |g| ==> t !in g[i].readers && g[i].writer != Some(t);
    }
  }

  lemma {:induction false} OldestRead(a: seq<Access>, b: seq<Access>)
    requires AllReads(a) && a != []
    ensures Versions(a + b) != [] && Versions(a + b)[0].writer == None
  {
    if b == [] {
      assert a + b == a;
      VersionsOfReads(a);
      VersionsShape(a);
    } else {
      OldestRead(a, b[..|b| - 1]);
      assert (a + b)[..|a + b| - 1] == a + b[..|b| - 1];
    }
  }

  /** A child reading what its running parent reads joins the parent's version without waiting. */
  lemma ParentInCore(s: State, h: Shadow, d: Signature, a: seq<Access>, b: seq<Access>, t: Task, block: Address)
    requires Core(s, h, {}, {}) && d in s.vaMap && d in h.lists && d !in h.dead && d in h.pend && h.pend[d] == a + b
    requires t < |s.tasks| && t !in s.released && t !in h.done && !Occurs(a + b, t) && block !in s.versions
    requires AllReads(a) && a != []
    ensures h.lists[d] != [] && Known(s.versions, h.lists[d][0])
    ensures Core(AddConsumer(s, h.lists[d][0], t, PARENTIN, block), ReadAdded(h, d, a, b, t, block), {}, {})
  {
    hide Holdings, AddConsumer, Counts, Trash, Versions, AllReads, Occurs, NoDup, Free, Structure;
    var p, h' := a + [Access(t, false)] + b, ReadAdded(h, d, a, b, t, block);
    ParentInStructure(s, h, d, a, b, t, block);
    ParentInTarget(s, h, d, a, b);
    var v := h.lists[d][0];
    NotTrash(s, h, v);
    ConsumerEffect(s, v, t, PARENTIN, block);
    var s' := AddConsumer(s, v, t, PARENTIN, block);
    JoinHoldings(s, h, s', h', v, t);
    PlacedTrash(s, h, s', h', d);
    JoinedFree(a, t, b, s.released);
    PlacedNoDup(a, Access(t, false), b);
    assert h'.pend == h.pend[d := p];
    assert Accesses(s', h') by {
      forall k | 0 <= k < |p| ensures p[k].task < |s.tasks| && p[k].task !in h.done {
        if k != |a| {
          assert p[k] == h.pend[d][if k < |a| then k else k - 1];
        }
      }
    }
    JoinedCounts(s, h, s', h', d, a, t, b);
  }

  lemma JoinedCounts(s: State, h: Shadow, s': State, h': Shadow, d: Signature, a: seq<Access>, t: Task, b: seq<Access>)
    requires Counts(s, h, {}) && d in h.pend && h.pend[d] == a + b && !Occurs(a + b, t)
    requires AllReads(a) && a != [] && Free(Versions(a + b), s.released)
    requires |s'.tasks| == |s.tasks| && s'.released == s.released && h'.surplus == h.surplus
    requires h'.pend == h.pend[d := a + [Access(t, false)] + b]
    requires forall u :: 0 <= u < |s.tasks| ==> s'.tasks[u].submitDep == s.tasks[u].submitDep
    ensures Counts(s', h', {})
  {
    JoinedFree(a, t, b, s.released);
    hide Versions, AllReads, Occurs, Free;
    CountsUpdate(s, h, s', h', d, a + [Access(t, false)] + b, {});
  }

  lemma ParentInTarget(s: State, h: Shadow, d: Signature, a: seq<Access>, b: seq<Access>)
    requires Structure(s, h) && d in s.vaMap && d in h.lists && d !in h.dead && Pending(h, d) == a + b
    requires AllReads(a) && a != []
    ensures h.lists[d] != [] && Known(s.versions, h.lists[d][0])
    ensures s.versions[h.lists[d][0]].signature == d && s.versions[h.lists[d][0]].status == READY
  {
    hide Versions;
    OldestRead(a, b);
    assert DatumOk(s, h, d);
    var full := h.lists[d];
    OwnerLinks(s.versions, d, s.vaMap[d], full, 0);
    assert NodeOk(s.versions, d, s.vaMap[d], full, 0);
    assert CellMatch(s.versions[full[0]], Versions(a + b), 0, s.released);
  }

  /** Registering the same read once more adds a reference that no notification will return,
      unless the version is already produced. */
  lemma RepeatCore(s: State, h: Shadow, v: Address, t: Task, nest: NestType, block: Address)
    requires Core(s, h, {}, {}) && Known(s.versions, v) && t < |s.tasks| && t !in s.released && t !in h.done
    requires block !in s.versions
    requires var c := Target(s.versions, v, nest, block);
             c in s.versions && t in s.versions[c].consumers && !s.versions[c].status.CONSUMED?
               && c !in s.versionTrashcan
    ensures |h.surplus| == |s.tasks|
    ensures var again := s.versions[Target(s.versions, v, nest, block)].status.IDLE?;
            Core(AddConsumer(s, v, t, nest, block), h.(surplus := h.surplus[t := h.surplus[t] + One(again)]), {}, {})
  {
    hide Structure, Accesses, Trash, AddConsumer, DepSet;
    var c := Target(s.versions, v, nest, block);
    var s', again := AddConsumer(s, v, t, nest, block), s.versions[c].status.IDLE?;
    assert s.tasks[t].ins == InsOf(s, t);
    RepeatEffect(s, v, t, nest, block);
    assert |h.surplus| == |s.tasks|;
    hide Core, InsOf, OutsOf, Holdings;
    SameCore(s, h, s', h.(surplus := h.surplus[t := h.surplus[t] + One(again)]));
  }

  lemma RepeatEffect(s: State, v: Address, t: Task, nest: NestType, block: Address)
    requires Known(s.versions, v) && t < |s.tasks| && block !in s.versions
    requires var c := Target(s.versions, v, nest, block);
             c in s.versions && t in s.versions[c].consumers && !s.versions[c].status.CONSUMED? && c in s.tasks[t].ins
    ensures AddConsumer(s, v, t, nest, block)
         == if s.versions[Target(s.versions, v, nest, block)].status.IDLE? then IncDepRef(s, t) else s
  {
    var c := Target(s.versions, v, nest, block);
    assert s.versions[c].consumers + {t} == s.versions[c].consumers;
    assert Consumed(s.versions, c, t) == s.versions;
    assert s.tasks[t].ins + {c} == s.tasks[t].ins;
  }

  lemma StructureSame(s: State, h: Shadow, s': State, h': Shadow)
    requires Structure(s, h)
    requires s'.versions == s.versions && s'.vaMap == s.vaMap && s'.released == s.released
    requires h'.lists == h.lists && h'.dead == h.dead && h'.pend == h.pend
    ensures Structure(s', h')
  {
    hide Linked, Matches, Versions;
    forall d | d in s.vaMap ensures DatumOk(s', h', d) {
      assert DatumOk(s, h, d);
    }
    forall a | a in s.versions ensures Placed(s', h', a) {
      assert Placed(s, h, a);
    }
  }

  lemma HoldingsSame(s: State, h: Shadow, s': State, h': Shadow, except: set<Task>)
    requires Holdings(s, h, except)
    requires s'.versions == s.versions && s'.versionTrashcan == s.versionTrashcan && h'.done == h.done
    requires |s'.tasks| == |s.tasks|
    requires forall u :: 0 <= u < |s.tasks| ==> s'.tasks[u].ins == s.tasks[u].ins && s'.tasks[u].outs == s.tasks[u].outs
    ensures Holdings(s', h', except)
  {
    forall u | 0 <= u < |s.tasks| && u !in h.done && u !in except
      ensures s'.tasks[u].ins == InsOf(s', u) && s'.tasks[u].outs == OutsOf(s', u)
    {
      assert s.tasks[u].ins == InsOf(s, u) && s.tasks[u].outs == OutsOf(s, u);
      assert InsOf(s', u) == InsOf(s, u) && OutsOf(s', u) == OutsOf(s, u);
    }
  }

  lemma SameCore(s: State, h: Shadow, s': State, h': Shadow)
    requires Core(s, h, {}, {}) && |s'.tasks| == |s.tasks| && s' == s.(tasks := s'.tasks)
    requires h' == h.(surplus := h'.surplus) && |h'.surplus| == |h.surplus|
    requires forall u :: 0 <= u < |s.tasks| ==>
               && s'.tasks[u].ins == s.tasks[u].ins && s'.tasks[u].outs == s.tasks[u].outs
               && s'.tasks[u].submitDep - h'.surplus[u] == s.tasks[u].submitDep - h.surplus[u]
               && (u in s.released ==> s'.tasks[u].submitDep == s.tasks[u].submitDep)
    ensures Core(s', h', {}, {})
  {
    hide Structure, Holdings, NoDup, Free, Versions, DepSet;
    StructureSame(s, h, s', h');
    HoldingsSame(s, h, s', h', {});
  }

  // ----- new tasks and new data

  function NewRoot(s: State, d: Signature, block: Address): State {
    s.(vaMap := s.vaMap[d := block], versions := s.versions[block := NewVersion(d, None, None, IDLE)])
  }

  /** `Entity::VA2Ctx` on an unknown signature. */
  lemma RootCore(s: State, h: Shadow, d: Signature, block: Address)
    requires Core(s, h, {}, {}) && d !in s.vaMap && block !in s.versions
    ensures Core(NewRoot(s, d, block), h.(lists := h.lists[d := []]), {}, {})
  {
    hide NoDup, Free, Structure, Versions, Holdings, DepSet, Trash, Counts, Accesses;
    var s', h' := NewRoot(s, d, block), h.(lists := h.lists[d := []]);
    RootTrash(s, h, d, block);
    SameCounts(s, h, s', h');
    RootStructure(s, h, d, block);
    RootHoldings(s, h, d, block);
  }

  lemma RootTrash(s: State, h: Shadow, d: Signature, block: Address)
    requires Structure(s, h) && Trash(s, h) && d !in s.vaMap && block !in s.versions
    ensures Trash(NewRoot(s, d, block), h.(lists := h.lists[d := []]))
  {
    hide DatumOk, Placed, Linked, Matches;
    assert d !in h.dead && d !in h.lists;
    var h' := h.(lists := h.lists[d := []]);
    assert forall e :: Grave(h', e) == Grave(h, e) && (NotNewest(h, e) ==> NotNewest(h', e));
    hide Grave, NotNewest, Structure;
  }

  lemma SameCounts(s: State, h: Shadow, s': State, h': Shadow)
    requires Counts(s, h, {}) && Accesses(s, h)
    requires s'.tasks == s.tasks && s'.released == s.released && h'.pend == h.pend && h'.surplus == h.surplus
             && h'.done == h.done
    ensures Counts(s', h', {}) && Accesses(s', h')
  {
  }

  lemma RootStructure(s: State, h: Shadow, d: Signature, block: Address)
    requires Structure(s, h) && d !in s.vaMap && block !in s.versions
    ensures Structure(NewRoot(s, d, block), h.(lists := h.lists[d := []]))
  {
    hide Linked, Matches, Versions;
    var s', h' := NewRoot(s, d, block), h.(lists := h.lists[d := []]);
    forall e | e in s'.vaMap ensures DatumOk(s', h', e) {
      if e == d {
        EmptyDatum(s', h', d);
      } else {
        assert DatumOk(s, h, e);
        DatumFrame(s, h, s', h', e);
      }
    }
    forall a | a in s'.versions ensures Placed(s', h', a) {
      if a != block {
        assert Placed(s, h, a);
      }
    }
  }

  lemma RootHoldings(s: State, h: Shadow, d: Signature, block: Address)
    requires Holdings(s, h, {}) && block !in s.versions
    ensures Holdings(NewRoot(s, d, block), h.(lists := h.lists[d := []]), {})
  {
    var s' := NewRoot(s, d, block);
    forall u | 0 <= u < |s.tasks| && u !in h.done
      ensures s'.tasks[u].ins == InsOf(s', u) && s'.tasks[u].outs == OutsOf(s', u)
    {
      assert s.tasks[u].ins == InsOf(s, u) && s.tasks[u].outs == OutsOf(s, u);
      assert InsOf(s', u) == InsOf(s, u) && OutsOf(s', u) == OutsOf(s, u);
    }
  }

  lemma EmptyDatum(s: State, h: Shadow, d: Signature)
    requires d in s.vaMap && d in h.lists && h.lists[d] == [] && d !in h.dead && Pending(h, d) == []
    requires s.vaMap[d] in s.versions && s.versions[s.vaMap[d]] == NewVersion(d, None, None, IDLE)
    ensures DatumOk(s, h, d)
  {
    VersionsShape([]);
  }

  function NewTask(s: State): State {
    s.(tasks := s.tasks + [TaskCtx({}, {}, 0, 0)])
  }

  lemma NewTaskCore(s: State, h: Shadow)
    requires Core(s, h, {}, {}) && |s.tasks| !in h.done
    ensures Core(NewTask(s), h.(surplus := h.surplus + [0]), {}, {})
  {
    hide Structure, NoDup, Free, Versions, DepSet, Holdings;
    var s', h', t := NewTask(s), h.(surplus := h.surplus + [0]), |s.tasks|;
    StructureSame(s, h, s', h');
    NobodyHolds(s, h, t);
    NewTaskHoldings(s, h);
    NobodyWaits(s, h, t);
  }

  lemma NewTaskHoldings(s: State, h: Shadow)
    requires Holdings(s, h, {})
    requires forall a :: a in s.versions && a !in s.versionTrashcan ==>
               |s.tasks| !in s.versions[a].consumers
                 && !(s.versions[a].status.IDLE? && s.versions[a].myProducer == Some(|s.tasks|))
    ensures Holdings(NewTask(s), h.(surplus := h.surplus + [0]), {})
  {
    var s' := NewTask(s);
    forall u | 0 <= u < |s'.tasks| && u !in h.done
      ensures s'.tasks[u].ins == InsOf(s', u) && s'.tasks[u].outs == OutsOf(s', u)
    {
      assert InsOf(s', u) == InsOf(s, u) && OutsOf(s', u) == OutsOf(s, u);
      if u < |s.tasks| {
        assert s.tasks[u].ins == InsOf(s, u) && s.tasks[u].outs == OutsOf(s, u);
      }
    }
  }

  lemma NobodyWaits(s: State, h: Shadow, t: Task)
    requires Accesses(s, h) && t >= |s.tasks|
    ensures DepSet(h.pend, t) == {}
  {
    hide NoDup, Free;
    forall d | d in h.pend ensures !CellBlocked(Versions(h.pend[d]), t) {
      VersionsMembers(h.pend[d], t);
      hide Versions;
      assert !InVersions(Versions(h.pend[d]), t);
    }
  }

  lemma NobodyHolds(s: State, h: Shadow, t: Task)
    requires Structure(s, h) && Accesses(s, h) && Trash(s, h) && t >= |s.tasks|
    ensures forall a :: a in s.versions && a !in s.versionTrashcan ==>
              t !in s.versions[a].consumers && !(s.versions[a].status.IDLE? && s.versions[a].myProducer == Some(t))
  {
    forall a | a in s.versions && a !in s.versionTrashcan
      ensures t !in s.versions[a].consumers && !(s.versions[a].status.IDLE? && s.versions[a].myProducer == Some(t))
    {
      assert Placed(s, h, a);
      var d := s.versions[a].signature;
      if a == s.vaMap[d] {
        assert DatumOk(s, h, d);
      } else {
        var i := Whereabouts(s, h, a);
        VersionsMembers(Pending(h, d), t);
        assert InVersions(Versions(Pending(h, d)), t) ==> Occurs(Pending(h, d), t);
      }
    }
  }

  /** Every record that is neither a root nor waiting to be recycled stands for a version. */
  lemma Whereabouts(s: State, h: Shadow, a: Address) returns (i: nat)
    requires Structure(s, h) && Trash(s, h) && a in s.versions && a !in s.versionTrashcan
    requires s.versions[a].signature in s.vaMap && a != s.vaMap[s.versions[a].signature]
    ensures s.versions[a].signature in h.lists
    ensures var d := s.versions[a].signature; var g := Versions(Pending(h, d));
            && i < |g| && i < |LiveNodes(h, d)| && LiveNodes(h, d)[i] == a
            && CellMatch(s.versions[a], g, i, s.released)
  {
    hide Versions, Linked, LiveNodes;
    assert Placed(s, h, a);
    var d := s.versions[a].signature;
    assert DatumOk(s, h, d);
    hide Structure;
    assert d in h.dead ==> Grave(h, d).value in s.versionTrashcan;
    hide Trash;
    i := LiveIndex(h, d, a);
  }

  lemma LiveIndex(h: Shadow, d: Signature, a: Address) returns (i: nat)
    requires d in h.lists && a in h.lists[d]
    requires d in h.dead ==> h.dead[d] < |h.lists[d]| && h.lists[d][h.dead[d]] != a
    ensures i < |LiveNodes(h, d)| && LiveNodes(h, d)[i] == a
  {
    var full := h.lists[d];
    var k :| 0 <= k < |full| && full[k] == a;
    i := if d in h.dead && k > h.dead[d] then k - 1 else k;
  }
}
