/** What is true of the dependence state at every point inside `criticalMutex_`: for each datum
    the linked versions are exactly the versions of its pending accesses. */
module DependenceInv {
  import opened Wrappers
  import opened AccessOrder
  import opened VersionList
  import opened Dependence

  /** Proof-only companions of the state: the list of addresses of each datum, the position in it
      of the version waiting to be recycled, the pending accesses in order, the dependence
      references a task will never get back, and the finished tasks. */
  datatype Shadow = Shadow(
    lists: map<Signature, seq<Address>>,
    dead: map<Signature, nat>,
    pend: map<Signature, seq<Access>>,
    surplus: seq<nat>,
    done: set<Task>)

  function Pending(h: Shadow, d: Signature): seq<Access> {
    if d in h.pend then h.pend[d] else []
  }

  function LiveNodes(h: Shadow, d: Signature): seq<Address>
    requires d in h.lists
  {
    if d in h.dead && h.dead[d] < |h.lists[d]| then RemoveAt(h.lists[d], h.dead[d]) else h.lists[d]
  }

  /** A version points at the producer of the next one as long as that task has not been released. */
  function NextProducer(g: seq<Cell>, i: nat, rel: set<Task>): Option<Task> {
    if i + 1 < |g| && g[i + 1].writer.Some? && g[i + 1].writer.value !in rel then g[i + 1].writer else None
  }

  ghost predicate CellMatch(v: Version, g: seq<Cell>, i: nat, rel: set<Task>)
    requires i < |g|
  {
    && v.consumers == g[i].readers
    && v.status == (if g[i].writer.None? then READY else IDLE)
    && (g[i].writer.Some? ==> v.myProducer == g[i].writer)
    && v.nextProducer == NextProducer(g, i, rel)
  }

  ghost predicate Matches(m: Memory, ns: seq<Address>, g: seq<Cell>, rel: set<Task>) {
    && |ns| == |g|
    && forall i :: 0 <= i < |ns| ==> ns[i] in m && CellMatch(m[ns[i]], g, i, rel)
  }

  ghost predicate DatumOk(s: State, h: Shadow, d: Signature) {
    && d in s.vaMap && d in h.lists
    && Linked(s.versions, d, s.vaMap[d], h.lists[d])
    && (d in h.dead ==> h.dead[d] < |h.lists[d]|)
    && Matches(s.versions, LiveNodes(h, d), Versions(Pending(h, d)), s.released)
  }

  ghost predicate Placed(s: State, h: Shadow, a: Address)
    requires a in s.versions
  {
    var d := s.versions[a].signature;
    d in s.vaMap && d in h.lists && (a == s.vaMap[d] || a in h.lists[d])
  }

  /** Every datum is represented, and every allocated record belongs to some datum. */
  ghost predicate Structure(s: State, h: Shadow) {
    && h.lists.Keys == s.vaMap.Keys
    && h.pend.Keys <= s.vaMap.Keys
    && h.dead.Keys <= s.vaMap.Keys
    && (forall d {:trigger DatumOk(s, h, d)} :: d in s.vaMap ==> DatumOk(s, h, d))
    && (forall a {:trigger Placed(s, h, a)} :: a in s.versions ==> Placed(s, h, a))
  }

  /** `m'` differs from `m` in records of datum `d` only, and has no new ones except `extra`. */
  ghost predicate Footprint(m: Memory, m': Memory, d: Signature, extra: set<Address>) {
    && (forall a :: a in m && m[a].signature != d ==> a in m' && m'[a] == m[a])
    && (forall a :: a in m' && m'[a].signature != d ==> a in m && m'[a] == m[a])
    && (forall a :: a in m' && m'[a].signature == d ==> a in extra || (a in m && m[a].signature == d))
  }

  /** `h'` differs from `h` in what it says of datum `d` only. */
  ghost predicate SameElsewhere(h: Shadow, h': Shadow, d: Signature) {
    && h'.lists.Keys == h.lists.Keys
    && (forall e :: e in h.lists && e != d ==> h'.lists[e] == h.lists[e])
    && (forall e :: e != d ==> (e in h'.pend <==> e in h.pend) && (e in h.pend ==> h'.pend[e] == h.pend[e]))
    && (forall e :: e != d ==> (e in h'.dead <==> e in h.dead) && (e in h.dead ==> h'.dead[e] == h.dead[e]))
  }

  lemma StructureFrame(s: State, h: Shadow, s': State, h': Shadow, d: Signature, extra: set<Address>)
    requires Structure(s, h) && d in s.vaMap
    requires s'.vaMap == s.vaMap && s'.released == s.released
    requires Footprint(s.versions, s'.versions, d, extra) && SameElsewhere(h, h', d)
    requires DatumOk(s', h', d)
    requires forall a :: a in extra || a in h.lists[d] ==> a in h'.lists[d] || a !in s'.versions
    ensures Structure(s', h')
  {
    hide Linked, Matches;
    forall e | e in s.vaMap && e != d ensures DatumOk(s', h', e) {
      assert DatumOk(s, h, e);
      DatumFrame(s, h, s', h', e);
    }
    forall a | a in s'.versions ensures Placed(s', h', a) {
      if a in s.versions {
        assert Placed(s, h, a);
      }
    }
  }

  function Updated(h: Shadow, d: Signature, full: seq<Address>, p: seq<Access>): Shadow {
    h.(lists := h.lists[d := full], pend := h.pend[d := p])
  }

  lemma StructureUpdate(s: State, h: Shadow, s': State, d: Signature, full: seq<Address>, p: seq<Access>,
      extra: set<Address>)
    requires Structure(s, h) && d in s.vaMap && d !in h.dead
    requires s'.vaMap == s.vaMap && s'.released == s.released
    requires Footprint(s.versions, s'.versions, d, extra)
    requires Linked(s'.versions, d, s.vaMap[d], full) && Matches(s'.versions, full, Versions(p), s.released)
    requires forall a :: a in extra || a in h.lists[d] ==> a in full
    ensures Structure(s', Updated(h, d, full, p))
  {
    hide Linked, Matches, Footprint, Versions;
    var h' := Updated(h, d, full, p);
    assert DatumOk(s', h', d);
    StructureFrame(s, h, s', h', d, extra);
  }

  lemma DatumFrame(s: State, h: Shadow, s': State, h': Shadow, e: Signature)
    requires DatumOk(s, h, e)
    requires e in s'.vaMap && s'.vaMap[e] == s.vaMap[e] && s'.released == s.released
    requires e in h'.lists && h'.lists[e] == h.lists[e] && Pending(h', e) == Pending(h, e)
    requires (e in h'.dead <==> e in h.dead) && (e in h.dead ==> h'.dead[e] == h.dead[e])
    requires forall a :: a in s.versions && s.versions[a].signature == e
               ==> a in s'.versions && s'.versions[a] == s.versions[a]
    ensures DatumOk(s', h', e)
  {
    var full := h.lists[e];
    forall i | 0 <= i < |full| ensures full[i] in s.versions && full[i] in s'.versions
        && s'.versions[full[i]] == s.versions[full[i]] {
      assert NodeOk(s.versions, e, s.vaMap[e], full, i);
    }
    LinkedFrame(s.versions, s'.versions, e, s.vaMap[e], full);
    var ns := LiveNodes(h, e);
    assert LiveNodes(h', e) == ns;
    forall i | 0 <= i < |ns|
      ensures ns[i] in s'.versions && CellMatch(s'.versions[ns[i]], Versions(Pending(h, e)), i, s.released)
    {
      assert ns[i] in full;
    }
  }

  // ----- a new producer

  lemma MatchesWriter(m: Memory, m': Memory, ns: seq<Address>, ga: seq<Cell>, gb: seq<Cell>, t: Task, block: Address,
      rel: set<Task>)
    requires Matches(m, ns, ga + gb, rel) && Distinct(ns) && block !in m && t !in rel
    requires gb == [] || (gb[0].writer.Some? && gb[0].writer.value in rel)
    requires block in m' && m'[block].consumers == {} && m'[block].status == IDLE
          && m'[block].myProducer == Some(t) && m'[block].nextProducer == None
    requires forall j :: 0 <= j < |ns| ==>
               && ns[j] in m'
               && m'[ns[j]].consumers == m[ns[j]].consumers && m'[ns[j]].status == m[ns[j]].status
               && m'[ns[j]].myProducer == m[ns[j]].myProducer
               && m'[ns[j]].nextProducer == (if j + 1 == |ga| then Some(t) else m[ns[j]].nextProducer)
    ensures Matches(m', InsertAt(ns, |ga|, block), ga + [Cell(Some(t), {})] + gb, rel)
  {
    var g, g', i := ga + gb, ga + [Cell(Some(t), {})] + gb, |ga|;
    var ns' := InsertAt(ns, i, block);
    forall j | 0 <= j < |ns'| ensures ns'[j] in m' && CellMatch(m'[ns'[j]], g', j, rel) {
      if j < i {
        assert ns'[j] == ns[j] && g'[j] == g[j];
        assert CellMatch(m[ns[j]], g, j, rel);
        if j + 1 < i {
          assert g'[j + 1] == g[j + 1];
        }
      } else if j > i {
        assert ns'[j] == ns[j - 1] && g'[j] == g[j - 1];
        assert CellMatch(m[ns[j - 1]], g, j - 1, rel);
        if j + 1 < |g'| {
          assert g'[j + 1] == g[j];
        }
      } else {
        assert i + 1 < |g'| ==> g'[i + 1] == gb[0];
      }
    }
  }

  lemma ProducedLinks(m: Memory, d: Signature, root: Address, full: seq<Address>, i: nat, v: Address, t: Task,
      block: Address)
    requires Linked(m, d, root, full) && i <= |full| && v == Owner(full, root, i) && block !in m
    ensures Known(m, v) && m[v].last == Pred(full, i) && m[v].last != Some(v) && m[v].signature == d
    ensures Linked(Produced(m, v, t, block), d, root, InsertAt(full, i, block))
    ensures Footprint(m, Produced(m, v, t, block), d, {block})
  {
    ProducedFootprint(m, d, root, full, i, v, t, block);
    hide Footprint;
    assert i > 0 ==> NodeOk(m, d, root, full, i - 1);
    var m1, m' := Preceded(m, v, t), Produced(m, v, t, block);
    LinkedFrame(m, m1, d, root, full);
    InsertLinked(m1, d, root, full, i, block, IDLE);
    hide Linked;
    LinkedFrame(CreateChild(m1, v, block, IDLE), m', d, root, InsertAt(full, i, block));
  }

  lemma ProducedFootprint(m: Memory, d: Signature, root: Address, full: seq<Address>, i: nat, v: Address, t: Task,
      block: Address)
    requires Linked(m, d, root, full) && i <= |full| && v == Owner(full, root, i) && block !in m
    ensures Known(m, v) && m[v].last == Pred(full, i) && m[v].last != Some(v) && m[v].signature == d
    ensures Footprint(m, Produced(m, v, t, block), d, {block})
  {
    assert i > 0 ==> NodeOk(m, d, root, full, i - 1);
    assert i < |full| ==> NodeOk(m, d, root, full, i);
    assert m[root].signature == d;
    hide Linked;
  }

  lemma ProducedFields(m: Memory, d: Signature, root: Address, full: seq<Address>, i: nat, v: Address, t: Task,
      block: Address)
    requires Linked(m, d, root, full) && i <= |full| && v == Owner(full, root, i) && block !in m
    requires i > 0 ==> full[i - 1] in m && !m[full[i - 1]].status.CONSUMED?
    ensures Known(m, v) && m[v].last == Pred(full, i) && m[v].last != Some(v)
    ensures forall j :: 0 <= j < |full| ==>
              && full[j] in m && full[j] in Produced(m, v, t, block)
              && Produced(m, v, t, block)[full[j]].consumers == m[full[j]].consumers
              && Produced(m, v, t, block)[full[j]].status == m[full[j]].status
              && Produced(m, v, t, block)[full[j]].myProducer == m[full[j]].myProducer
              && Produced(m, v, t, block)[full[j]].nextProducer == (if j + 1 == i then Some(t)
                else m[full[j]].nextProducer)
  {
    assert i > 0 ==> NodeOk(m, d, root, full, i - 1);
    assert i < |full| ==> NodeOk(m, d, root, full, i);
    forall j | 0 <= j < |full| ensures full[j] in m && full[j] != root {
      assert NodeOk(m, d, root, full, j);
    }
  }

  /** Inserting the version of `t` at position `|ga|` of the list. */
  lemma ProducedMemory(m: Memory, d: Signature, root: Address, full: seq<Address>, ga: seq<Cell>, gb: seq<Cell>,
                       v: Address, t: Task, block: Address, rel: set<Task>)
    requires Linked(m, d, root, full) && Matches(m, full, ga + gb, rel)
    requires v == Owner(full, root, |ga|) && block !in m && t !in rel
    requires gb == [] || (gb[0].writer.Some? && gb[0].writer.value in rel)
    ensures Known(m, v) && m[v].last == Pred(full, |ga|) && m[v].last != Some(v)
    ensures Linked(Produced(m, v, t, block), d, root, InsertAt(full, |ga|, block))
    ensures Matches(Produced(m, v, t, block), InsertAt(full, |ga|, block), ga + [Cell(Some(t), {})] + gb, rel)
    ensures Footprint(m, Produced(m, v, t, block), d, {block})
  {
    var i := |ga|;
    ProducedLinks(m, d, root, full, i, v, t, block);
    assert i > 0 ==> CellMatch(m[full[i - 1]], ga + gb, i - 1, rel);
    ProducedFields(m, d, root, full, i, v, t, block);
    assert Distinct(full);
    hide Linked, Footprint, NodeOk, CreateChild, Preceded;
    MatchesWriter(m, Produced(m, v, t, block), full, ga, gb, t, block, rel);
  }

  ghost predicate Slot(s: State, h: Shadow, d: Signature, a: seq<Access>, b: seq<Access>, v: Address)
    requires d in h.lists && d in s.vaMap
  {
    && Pending(h, d) == a + b
    && d !in h.dead
    && |Versions(a)| <= |h.lists[d]|
    && v == Owner(h.lists[d], s.vaMap[d], |Versions(a)|)
    && (b == [] || (b[0].write && b[0].task in s.released))
  }

  lemma ProducerStructure(s: State, h: Shadow, d: Signature, a: seq<Access>, b: seq<Access>, v: Address, t: Task,
      block: Address)
    requires Structure(s, h) && d in s.vaMap && Slot(s, h, d, a, b, v)
    requires t < |s.tasks| && t !in s.released && block !in s.versions
    ensures Known(s.versions, v) && s.versions[v].last != Some(v)
    ensures Structure(AddProducer(s, v, t, block),
                      Updated(h, d, InsertAt(h.lists[d], |Versions(a)|, block), a + [Access(t, true)] + b))
  {
    hide Linked, Matches, Footprint, Versions, NoDup, Placed;
    var full, root := h.lists[d], s.vaMap[d];
    assert DatumOk(s, h, d);
    VersionsSplit(a, b);
    HeadWriter(b);
    ProducedMemory(s.versions, d, root, full, Versions(a), Versions(b), v, t, block, s.released);
    VersionsSplit(a + [Access(t, true)], b);
    VersionsOfAppend(a, Access(t, true));
    hide Produced;
    StructureUpdate(s, h, AddProducer(s, v, t, block), d, InsertAt(full, |Versions(a)|, block),
      a + [Access(t, true)] + b, {block});
  }

  lemma HeadWriter(b: seq<Access>)
    requires b == [] || b[0].write
    ensures Versions(b) == [] <==> b == []
    ensures b != [] ==> Versions(b)[0].writer == Some(b[0].task)
  {
    VersionsShape(b);
    if b != [] {
      assert b == [Access(b[0].task, true)] + b[1..];
      OwnVersion(b[0].task, b[1..]);
    }
  }

  // ----- a new consumer

  /** Adding a reader to the version at position `j`. */
  lemma JoinedMemory(m: Memory, d: Signature, root: Address, full: seq<Address>, g: seq<Cell>, j: nat, t: Task,
      rel: set<Task>)
    requires Linked(m, d, root, full) && Matches(m, full, g, rel) && j < |g|
    ensures full[j] in m && m[full[j]].signature == d && (m[full[j]].status.IDLE? <==> g[j].writer.Some?)
    ensures Linked(Consumed(m, full[j], t), d, root, full)
    ensures Matches(Consumed(m, full[j], t), full, g[j := Cell(g[j].writer, g[j].readers + {t})], rel)
    ensures Footprint(m, Consumed(m, full[j], t), d, {})
  {
    assert NodeOk(m, d, root, full, j) && CellMatch(m[full[j]], g, j, rel);
    var m', g' := Consumed(m, full[j], t), g[j := Cell(g[j].writer, g[j].readers + {t})];
    LinkedFrame(m, m', d, root, full);
    forall i | 0 <= i < |full| ensures full[i] in m' && CellMatch(m'[full[i]], g', i, rel) {
      assert CellMatch(m[full[i]], g, i, rel);
    }
  }

  /** A first reader with no version to join: an already produced version is made for it. */
  lemma FirstReaderMemory(m: Memory, d: Signature, root: Address, full: seq<Address>, g: seq<Cell>,
                          v: Address, t: Task, block: Address, rel: set<Task>)
    requires Linked(m, d, root, full) && Matches(m, full, g, rel)
    requires v == Owner(full, root, 0) && block !in m
    requires g == [] || (g[0].writer.Some? && g[0].writer.value in rel)
    ensures Known(m, v) && m[v].last == None && m[v].signature == d
    ensures Linked(Consumed(CreateChild(m, v, block, READY), block, t), d, root, [block] + full)
    ensures Matches(Consumed(CreateChild(m, v, block, READY), block, t), [block] + full, [Cell(None, {t})] + g, rel)
    ensures Footprint(m, Consumed(CreateChild(m, v, block, READY), block, t), d, {block})
  {
    assert full != [] ==> NodeOk(m, d, root, full, 0);
    InsertLinked(m, d, root, full, 0, block, READY);
    var m1 := CreateChild(m, v, block, READY);
    var m' := Consumed(m1, block, t);
    var full', g' := [block] + full, [Cell(None, {t})] + g;
    assert InsertAt(full, 0, block) == full';
    LinkedFrame(m1, m', d, root, full');
    forall i | 0 <= i < |full'| ensures full'[i] in m' && CellMatch(m'[full'[i]], g', i, rel) {
      if i > 0 {
        assert NodeOk(m, d, root, full, i - 1);
        assert CellMatch(m[full[i - 1]], g, i - 1, rel);
      }
    }
  }

  /** The shadow after the read of `t` has been placed between `a` and `b`. */
  function ReadAdded(h: Shadow, d: Signature, a: seq<Access>, b: seq<Access>, t: Task, block: Address): Shadow
    requires d in h.lists
  {
    Updated(h, d, if a == [] then [block] + h.lists[d] else h.lists[d], a + [Access(t, false)] + b)
  }

  lemma FirstReaderStructure(s: State, h: Shadow, d: Signature, b: seq<Access>, v: Address, t: Task, nest: NestType,
      block: Address)
    requires Structure(s, h) && d in s.vaMap && Slot(s, h, d, [], b, v)
    requires t < |s.tasks| && block !in s.versions && !nest.PARENTIN?
    ensures Known(s.versions, v)
    ensures Structure(AddConsumer(s, v, t, nest, block), ReadAdded(h, d, [], b, t, block))
  {
    hide Linked, Matches, Footprint, Versions, NoDup;
    var full, root := h.lists[d], s.vaMap[d];
    assert DatumOk(s, h, d);
    assert [] + b == b && [] + [Access(t, false)] == [Access(t, false)];
    VersionsSplit([Access(t, false)], b);
    VersionsOfAppend([], Access(t, false));
    VersionsShape([]);
    HeadWriter(b);
    FirstReaderMemory(s.versions, d, root, full, Versions(b), v, t, block, s.released);
    hide Consumed, CreateChild;
    StructureUpdate(s, h, AddConsumer(s, v, t, nest, block), d, [block] + full, [] + [Access(t, false)] + b, {block});
  }

  lemma LaterReaderStructure(s: State, h: Shadow, d: Signature, a: seq<Access>, b: seq<Access>, v: Address, t: Task,
                             nest: NestType, block: Address)
    requires Structure(s, h) && d in s.vaMap && Slot(s, h, d, a, b, v) && a != []
    requires t < |s.tasks| && block !in s.versions && !nest.PARENTIN?
    ensures Known(s.versions, v)
    ensures Structure(AddConsumer(s, v, t, nest, block), ReadAdded(h, d, a, b, t, block))
  {
    hide Linked, Matches, Footprint, Versions, NoDup;
    var full, root, ga, gb := h.lists[d], s.vaMap[d], Versions(a), Versions(b);
    assert DatumOk(s, h, d);
    VersionsSplit(a, b);
    VersionsSplit(a + [Access(t, false)], b);
    VersionsOfAppend(a, Access(t, false));
    VersionsShape(a);
    var j := |ga| - 1;
    OwnerLinks(s.versions, d, root, full, |ga|);
    var g: seq<Cell> := ga + gb;
    JoinedMemory(s.versions, d, root, full, g, j, t, s.released);
    assert g[j := Cell(g[j].writer, g[j].readers + {t})] == Extend(ga, Access(t, false)) + gb;
    hide Consumed;
    StructureUpdate(s, h, AddConsumer(s, v, t, nest, block), d, full, a + [Access(t, false)] + b, {});
  }

  lemma OwnerLinks(m: Memory, d: Signature, root: Address, full: seq<Address>, i: nat)
    requires Linked(m, d, root, full) && i <= |full|
    ensures Known(m, Owner(full, root, i)) && m[Owner(full, root, i)].last == Pred(full, i)
  {
    assert i > 0 ==> NodeOk(m, d, root, full, i - 1);
    assert i < |full| ==> NodeOk(m, d, root, full, i);
  }

  /** A child reads what its running parent reads: it joins the parent's version. */
  lemma ParentInStructure(s: State, h: Shadow, d: Signature, a: seq<Access>, b: seq<Access>, t: Task, block: Address)
    requires Structure(s, h) && d in s.vaMap && d !in h.dead && Pending(h, d) == a + b
    requires t < |s.tasks| && block !in s.versions && AllReads(a) && a != []
    ensures h.lists[d] != [] && Known(s.versions, h.lists[d][0])
    ensures Structure(AddConsumer(s, h.lists[d][0], t, PARENTIN, block), ReadAdded(h, d, a, b, t, block))
  {
    hide Linked, Matches, Footprint, Versions, NoDup;
    var full, root := h.lists[d], s.vaMap[d];
    assert DatumOk(s, h, d);
    JoinOldest(a, t, b);
    MatchesLength(s.versions, full, Versions(a + b), s.released);
    OwnerLinks(s.versions, d, root, full, 0);
    JoinedMemory(s.versions, d, root, full, Versions(a + b), 0, t, s.released);
    hide Consumed;
    StructureUpdate(s, h, AddConsumer(s, full[0], t, PARENTIN, block), d, full, a + [Access(t, false)] + b, {});
  }

  lemma MatchesLength(m: Memory, ns: seq<Address>, g: seq<Cell>, rel: set<Task>)
    requires Matches(m, ns, g, rel)
    ensures |ns| == |g|
  {
  }

  // ----- a finished producer or consumer

  /** The oldest version has been produced and has readers. */
  lemma ReadyMemory(m: Memory, d: Signature, root: Address, full: seq<Address>, g: seq<Cell>, rel: set<Task>)
    requires Linked(m, d, root, full) && Matches(m, full, g, rel) && g != []
    ensures full[0] in m
    ensures Linked(m[full[0] := m[full[0]].(status := READY)], d, root, full)
    ensures Matches(m[full[0] := m[full[0]].(status := READY)], full, g[0 := Cell(None, g[0].readers)], rel)
    ensures Footprint(m, m[full[0] := m[full[0]].(status := READY)], d, {})
  {
    assert NodeOk(m, d, root, full, 0) && CellMatch(m[full[0]], g, 0, rel);
    var m', g' := m[full[0] := m[full[0]].(status := READY)], g[0 := Cell(None, g[0].readers)];
    LinkedFrame(m, m', d, root, full);
    forall i | 0 <= i < |full| ensures full[i] in m' && CellMatch(m'[full[i]], g', i, rel) {
      assert CellMatch(m[full[i]], g, i, rel);
    }
  }

  /** The oldest version is used up; it stays linked until it is recycled. */
  lemma RetiredMemory(m: Memory, m': Memory, d: Signature, root: Address, full: seq<Address>, g: seq<Cell>,
      rel: set<Task>)
    requires Linked(m, d, root, full) && Matches(m, full, g, rel) && g != []
    requires full[0] in m && m' == m[full[0] := m[full[0]].(consumers := {}, status := CONSUMED, nextProducer := None)]
    ensures Linked(m', d, root, full)
    ensures Matches(m', RemoveAt(full, 0), g[1..], rel)
    ensures Footprint(m, m', d, {})
  {
    assert NodeOk(m, d, root, full, 0);
    LinkedFrame(m, m', d, root, full);
    var ns, g' := RemoveAt(full, 0), g[1..];
    forall i | 0 <= i < |ns| ensures ns[i] in m' && CellMatch(m'[ns[i]], g', i, rel) {
      assert ns[i] == full[i + 1];
      assert CellMatch(m[full[i + 1]], g, i + 1, rel);
    }
  }

  /** One of several readers of the oldest version is done. */
  lemma LessReadMemory(m: Memory, d: Signature, root: Address, full: seq<Address>, g: seq<Cell>, t: Task,
      rel: set<Task>)
    requires Linked(m, d, root, full) && Matches(m, full, g, rel) && g != []
    ensures full[0] in m
    ensures Linked(m[full[0] := m[full[0]].(consumers := m[full[0]].consumers - {t})], d, root, full)
    ensures Matches(m[full[0] := m[full[0]].(consumers := m[full[0]].consumers - {t})], full,
                    g[0 := Cell(g[0].writer, g[0].readers - {t})], rel)
    ensures Footprint(m, m[full[0] := m[full[0]].(consumers := m[full[0]].consumers - {t})], d, {})
  {
    assert NodeOk(m, d, root, full, 0) && CellMatch(m[full[0]], g, 0, rel);
    var m', g' := m[full[0] := m[full[0]].(consumers := m[full[0]].consumers - {t})],
      g[0 := Cell(g[0].writer, g[0].readers - {t})];
    LinkedFrame(m, m', d, root, full);
    forall i | 0 <= i < |full| ensures full[i] in m' && CellMatch(m'[full[i]], g', i, rel) {
      assert CellMatch(m[full[i]], g, i, rel);
    }
  }

  /** A finished parent's version takes over its newest child, which stays linked until recycled. */
  lemma MergedMemory(m: Memory, m': Memory, d: Signature, root: Address, full: seq<Address>, g: seq<Cell>, i: nat,
      rel: set<Task>)
    requires Linked(m, d, root, full) && Matches(m, full, g, rel) && 0 < i < |g| && g[i - 1].writer.Some?
    requires full[i] in m && full[i - 1] in m
    requires m' == m[full[i] := m[full[i]].(status := IDLE,
             consumers := m[full[i]].consumers + m[full[i - 1]].consumers,
                                            myProducer := m[full[i - 1]].myProducer)]
    ensures Linked(m', d, root, full)
    ensures Matches(m', RemoveAt(full, i - 1), Produce(g, i), rel)
    ensures Footprint(m, m', d, {})
  {
    assert NodeOk(m, d, root, full, i);
    assert CellMatch(m[full[i]], g, i, rel) && CellMatch(m[full[i - 1]], g, i - 1, rel);
    LinkedFrame(m, m', d, root, full);
    var ns, g' := RemoveAt(full, i - 1), Produce(g, i);
    FoldAt(g, i);
    forall j | 0 <= j < |ns| ensures ns[j] in m' && CellMatch(m'[ns[j]], g', j, rel) {
      if j < i - 1 {
        assert ns[j] == full[j];
        assert CellMatch(m[full[j]], g, j, rel);
      } else {
        assert ns[j] == full[j + 1];
        assert CellMatch(m[full[j + 1]], g, j + 1, rel);
      }
    }
  }

  /** Recycling changes links only. */
  lemma UnlinkedMemory(m: Memory, d: Signature, root: Address, full: seq<Address>, k: nat, g: seq<Cell>, rel: set<Task>)
    requires Linked(m, d, root, full) && k < |full| && Matches(m, RemoveAt(full, k), g, rel)
    ensures full[k] in m && m[full[k]].next == Some(Succ(full, root, k)) && Succ(full, root, k) in m
    ensures m[full[k]].last == Pred(full, k) && (k > 0 ==> full[k - 1] in m)
    ensures m[full[k]].signature == d
    ensures Linked(Unlink(m, full[k]), d, root, RemoveAt(full, k))
    ensures Matches(Unlink(m, full[k]), RemoveAt(full, k), g, rel)
    ensures Footprint(m, Unlink(m, full[k]), d, {}) && full[k] !in Unlink(m, full[k])
  {
    UnlinkLinked(m, d, root, full, k);
    assert NodeOk(m, d, root, full, k);
    assert k > 0 ==> NodeOk(m, d, root, full, k - 1);
    assert k + 1 < |full| ==> NodeOk(m, d, root, full, k + 1);
    var m', ns := Unlink(m, full[k]), RemoveAt(full, k);
    forall j | 0 <= j < |ns| ensures ns[j] in m' && CellMatch(m'[ns[j]], g, j, rel) {
      assert ns[j] == full[if j < k then j else j + 1];
      assert CellMatch(m[ns[j]], g, j, rel);
    }
  }
}
