/** The steps of a finishing task: each takes exactly its own access out of one datum's order. */
module DependenceFinish {
  import opened Wrappers
  import opened AccessOrder
  import opened VersionList
  import opened Dependence
  import opened DependenceInv
  import opened DependenceCounts
  import opened DependenceSteps

  /** Notifying the owed tasks restores the invariant. */
  lemma NotifyCore(s: State, h: Shadow, owed: set<Task>, except: set<Task>)
    requires Core(s, h, owed, except)
    ensures Owed(s, owed)
    ensures Core(DecDepRefs(s, owed), h, {}, except)
    ensures forall u :: u in DecDepRefs(s, owed).released && u !in s.released ==>
              u in owed && u < |h.surplus| && DepSet(h.pend, u) == {} && h.surplus[u] == 0
  {
    hide Structure, Accesses, Holdings, Trash, DepSet;
    Notified(s, h, owed);
    var s' := DecDepRefs(s, owed);
    assert forall u :: 0 <= u < |s.tasks| ==> s'.tasks[u].ins == s.tasks[u].ins && s'.tasks[u].outs == s.tasks[u].outs;
    hide DecDepRefs, Counts;
    ReleaseStructure(s, h, s');
    ReleaseAccesses(s, h, s');
    HoldingsSame(s, h, s', h, except);
    TrashSame(s, h, s', h);
  }

  lemma TrashSame(s: State, h: Shadow, s': State, h': Shadow)
    requires Trash(s, h)
    requires s'.versionTrashcan == s.versionTrashcan && h'.lists == h.lists && h'.dead == h.dead
    requires forall a :: a in s.versions ==> a in s'.versions && s'.versions[a].signature == s.versions[a].signature
    ensures Trash(s', h')
  {
    assert forall e :: Grave(h', e) == Grave(h, e) && (NotNewest(h, e) ==> NotNewest(h', e));
    hide Grave, NotNewest;
  }

  /** Only the waiting tasks entered in version `v`, and their counts, are different. */
  ghost predicate OnlyWaits(s: State, s': State, v: Address) {
    && v in s.versions && v in s'.versions
    && s' == s.(versions := s.versions[v := s'.versions[v]], tasks := s'.tasks)
    && s'.versions[v] == s.versions[v].(dataWaitTaskByThis := s'.versions[v].dataWaitTaskByThis)
    && |s'.tasks| == |s.tasks|
    && forall u :: 0 <= u < |s.tasks| ==> s'.tasks[u] == s.tasks[u].(waitDep := s'.tasks[u].waitDep)
  }

  /** Entering and waking waiting tasks touches nothing else the invariant mentions. */
  lemma WaitCore(s: State, s': State, h: Shadow, v: Address, d: Signature, except: set<Task>)
    requires OnlyWaits(s, s', v)
    requires Core(s, h, {}, except) && d in s.vaMap && s.versions[v].signature == d && v != s.vaMap[d]
    ensures Core(s', h, {}, except)
    ensures forall u :: InsOf(s', u) == InsOf(s, u) && OutsOf(s', u) == OutsOf(s, u)
  {
    hide Structure, Accesses, Counts, Trash, DepSet;
    WaitStructure(s, s', h, v, d);
    TrashSame(s, h, s', h);
    forall u ensures InsOf(s', u) == InsOf(s, u) && OutsOf(s', u) == OutsOf(s, u) {
    }
    WaitCounts(s, s', h, v);
  }

  lemma WaitCounts(s: State, s': State, h: Shadow, v: Address)
    requires Counts(s, h, {}) && Accesses(s, h) && OnlyWaits(s, s', v)
    ensures Counts(s', h, {}) && Accesses(s', h)
  {
    hide DepSet, NoDup, Free, Versions;
  }

  lemma WaitStructure(s: State, s': State, h: Shadow, v: Address, d: Signature)
    requires Structure(s, h) && OnlyWaits(s, s', v) && d in s.vaMap && s.versions[v].signature == d && v != s.vaMap[d]
    ensures Structure(s', h)
  {
    hide Versions, Linked, Matches;
    assert DatumOk(s, h, d);
    WaitDatum(s, s', h, v, d);
    StructureFrame(s, h, s', h, d, {});
  }

  lemma WaitDatum(s: State, s': State, h: Shadow, v: Address, d: Signature)
    requires DatumOk(s, h, d) && OnlyWaits(s, s', v) && s.versions[v].signature == d && v != s.vaMap[d]
    ensures DatumOk(s', h, d)
  {
    hide Versions;
    var ns, g := LiveNodes(h, d), Versions(Pending(h, d));
    LinkedFrame(s.versions, s'.versions, d, s.vaMap[d], h.lists[d]);
    hide Linked;
    forall i | 0 <= i < |ns| ensures ns[i] in s'.versions && CellMatch(s'.versions[ns[i]], g, i, s'.released) {
      assert CellMatch(s.versions[ns[i]], g, i, s.released);
    }
  }

  /** The order of `d` becomes `p`; the version at position `k` is left for recycling. */
  function Buried(h: Shadow, d: Signature, k: nat, p: seq<Access>): Shadow {
    h.(dead := h.dead[d := k], pend := h.pend[d := p])
  }

  lemma StructureBury(s: State, h: Shadow, s': State, d: Signature, k: nat, p: seq<Access>)
    requires Structure(s, h) && d in s.vaMap && d in h.lists && d !in h.dead && k < |h.lists[d]|
    requires s'.vaMap == s.vaMap && s'.released == s.released
    requires Footprint(s.versions, s'.versions, d, {})
    requires Linked(s'.versions, d, s.vaMap[d], h.lists[d])
    requires Matches(s'.versions, RemoveAt(h.lists[d], k), Versions(p), s.released)
    ensures Structure(s', Buried(h, d, k, p))
  {
    hide Linked, Matches, Footprint, Versions;
    var h' := Buried(h, d, k, p);
    assert DatumOk(s', h', d);
    StructureFrame(s, h, s', h', d, {});
  }

  /** Where a finishing producer `t` of datum `d` stands. */
  ghost predicate Producing(s: State, h: Shadow, d: Signature, a: seq<Access>, t: Task, b: seq<Access>, v: Address) {
    && d in s.vaMap && d in h.lists && d !in h.dead && d in h.pend
    && h.pend[d] == a + [Access(t, true)] + b
    && t in s.released
    && |Versions(a)| < |h.lists[d]| && v == h.lists[d][|Versions(a)|]
    && (a == [] || !AllReads(a))
  }

  lemma ProducingNode(s: State, h: Shadow, d: Signature, a: seq<Access>, t: Task, b: seq<Access>, v: Address)
    requires Structure(s, h) && Producing(s, h, d, a, t, b, v)
    ensures var g := Versions(h.pend[d]);
            && |g| == |h.lists[d]| && g[|Versions(a)|].writer == Some(t)
            && v in s.versions && v != s.vaMap[d] && s.versions[v].signature == d
            && CellMatch(s.versions[v], g, |Versions(a)|, s.released)
    ensures Linked(s.versions, d, s.vaMap[d], h.lists[d])
            && Matches(s.versions, h.lists[d], Versions(h.pend[d]), s.released)
    ensures Known(s.versions, v) && s.versions[v].last == Pred(h.lists[d], |Versions(a)|)
    ensures (Versions(a) == [] <==> a == [])
  {
    hide Versions, NoDup;
    WriteAt(a, t, b);
    VersionsShape(a);
    assert DatumOk(s, h, d);
    assert NodeOk(s.versions, d, s.vaMap[d], h.lists[d], |Versions(a)|);
    OwnerLinks(s.versions, d, s.vaMap[d], h.lists[d], |Versions(a)|);
  }

  /** The task of an access taken out of the order waits for nothing new, and those that no longer
      wait are exactly the owed ones. */
  lemma RemovedCounts(s: State, h: Shadow, s': State, h': Shadow, d: Signature, p: seq<Access>, owed: set<Task>)
    requires Counts(s, h, {}) && d in h.pend
    requires s'.tasks == s.tasks && s'.released == s.released && h'.pend == h.pend[d := p] && h'.surplus == h.surplus
    requires forall u :: u in owed ==> u < |s.tasks| && u !in s.released && CellBlocked(Versions(h.pend[d]), u)
    requires forall u :: u !in s.released ==>
               (CellBlocked(Versions(p), u) <==> CellBlocked(Versions(h.pend[d]), u) && u !in owed)
    ensures Counts(s', h', owed)
  {
    hide Versions;
    CountsUpdate(s, h, s', h', d, p, owed);
  }

  lemma RemovedAccesses(s: State, h: Shadow, s': State, h': Shadow, d: Signature, a: seq<Access>, x: Access,
      b: seq<Access>)
    requires Accesses(s, h) && d in h.pend && h.pend[d] == a + [x] + b
    requires |s'.tasks| == |s.tasks| && s'.released == s.released && h'.done == h.done
    requires h'.pend == h.pend[d := a + b] && Free(Versions(a + b), s.released)
    ensures Accesses(s', h')
  {
    hide Free, Versions;
    var p, q := h.pend[d], a + b;
    assert forall k :: 0 <= k < |q| ==> q[k] == p[if k < |a| then k else k + 1];
  }

  lemma ProducedFree(g: seq<Cell>, i: nat, rel: set<Task>)
    requires Free(g, rel) && i < |g| && g[i].writer.Some? && (i > 0 ==> g[i - 1].writer.Some?)
    ensures Free(Produce(g, i), rel)
  {
    if i > 0 {
      FoldAt(g, i);
      var g' := Produce(g, i);
      forall j | 0 <= j < |g'| && g'[j].writer.Some? ensures g'[j].readers !! rel {
        if j < i - 1 {
          assert g'[j] == g[j];
        } else if j > i - 1 {
          assert g'[j] == g[j + 1];
        } else {
          assert g[i - 1].readers !! rel && g[i].readers !! rel;
        }
      }
    }
  }

  // ----- the oldest version is produced and has readers

  lemma ReadiedCore(s: State, h: Shadow, d: Signature, t: Task, b: seq<Access>, v: Address)
    requires Core(s, h, {}, {t}) && Producing(s, h, d, [], t, b, v)
    requires v in s.versions && s.versions[v].consumers != {}
    ensures Core(Readied(s, v), h.(pend := h.pend[d := b]), s.versions[v].consumers, {t})
  {
    hide Structure, Counts, Accesses, Holdings, Trash, Versions;
    var s', h' := Readied(s, v), h.(pend := h.pend[d := b]);
    var g := Versions(h.pend[d]);
    var full := h.lists[d];
    ProducingNode(s, h, d, [], t, b, v);
    assert [] + b == b;
    ProduceIsRemoval([], t, b);
    assert Versions(b) == g[0 := Cell(None, g[0].readers)];
    assert full[0] == v;
    ReadyMemory(s.versions, d, s.vaMap[d], full, g, s.released);
    ReadiedStructure(s, h, d, b, v);
    ReadiedRest(s, h, d, t, b, v);
  }

  lemma ReadiedStructure(s: State, h: Shadow, d: Signature, b: seq<Access>, v: Address)
    requires Structure(s, h) && d in s.vaMap && d in h.lists && d !in h.dead && d in h.pend && v in s.versions
    requires Footprint(s.versions, Readied(s, v).versions, d, {})
    requires Linked(Readied(s, v).versions, d, s.vaMap[d], h.lists[d])
    requires Matches(Readied(s, v).versions, h.lists[d], Versions(b), s.released)
    ensures Structure(Readied(s, v), h.(pend := h.pend[d := b]))
  {
    hide Linked, Matches, Footprint, Versions;
    StructureUpdate(s, h, Readied(s, v), d, h.lists[d], b, {});
    StructureSame(Readied(s, v), Updated(h, d, h.lists[d], b), Readied(s, v), h.(pend := h.pend[d := b]));
  }

  lemma ReadiedRest(s: State, h: Shadow, d: Signature, t: Task, b: seq<Access>, v: Address)
    requires Counts(s, h, {}) && Accesses(s, h) && Holdings(s, h, {t}) && Trash(s, h) && d in h.pend
    requires h.pend[d] == [] + [Access(t, true)] + b && t in s.released
    requires var g := Versions(h.pend[d]);
             g != [] && g[0].writer == Some(t) && v in s.versions && CellMatch(s.versions[v], g, 0, s.released)
    requires Versions(b) == Produce(Versions(h.pend[d]), 0) && s.versions[v].consumers != {}
    ensures var s', h' := Readied(s, v), h.(pend := h.pend[d := b]);
            Counts(s', h', s.versions[v].consumers) && Accesses(s', h') && Holdings(s', h', {t}) && Trash(s', h')
  {
    var s', h', g := Readied(s, v), h.(pend := h.pend[d := b]), Versions(h.pend[d]);
    VersionsOnePlace(h.pend[d]);
    VersionsShape(h.pend[d]);
    forall u | u in g[0].readers ensures u < |s.tasks| && u !in s.released && CellBlocked(g, u) {
      VersionsMembers(h.pend[d], u);
      assert InVersions(g, u);
      assert Free(g, s.released);
    }
    hide Versions, NoDup;
    forall u | u !in s.released ensures CellBlocked(Versions(b), u) <==> CellBlocked(g, u) && u !in g[0].readers {
      ProduceUnblocks(g, 0, u);
    }
    RemovedCounts(s, h, s', h', d, b, g[0].readers);
    ProducedFree(g, 0, s.released);
    assert [] + b == b;
    hide Counts, Free, OnePlace;
    RemovedAccesses(s, h, s', h', d, [], Access(t, true), b);
    TrashSame(s, h, s', h');
    StatusHoldings(s, h, s', h', v, t);
  }

  /** Version `v` of the finishing producer is no longer an output of anybody. */
  lemma StatusHoldings(s: State, h: Shadow, s': State, h': Shadow, v: Address, t: Task)
    requires Holdings(s, h, {t}) && v in s.versions && s.versions[v].myProducer == Some(t) && h'.done == h.done
    requires s'.versions.Keys == s.versions.Keys && s'.tasks == s.tasks
    requires forall a :: a in s.versions ==> s'.versions[a].consumers == s.versions[a].consumers
    requires forall a :: a in s.versions && a != v ==> s'.versions[a] == s.versions[a]
    requires !s'.versions[v].status.IDLE?
    requires s'.versionTrashcan == s.versionTrashcan
             || (s'.versionTrashcan == s.versionTrashcan + [v] && s.versions[v].consumers == {})
    ensures Holdings(s', h', {t})
    ensures InsOf(s', t) == InsOf(s, t) && OutsOf(s', t) == OutsOf(s, t) - {v}
  {
    forall u ensures InsOf(s', u) == InsOf(s, u) && (u != t ==> OutsOf(s', u) == OutsOf(s, u)) {
    }
  }

  // ----- the oldest version is used up

  /** `t` holds the last access of the oldest version of `d`. */
  ghost predicate LastUse(s: State, h: Shadow, d: Signature, a: seq<Access>, x: Access, b: seq<Access>, v: Address) {
    && d in s.vaMap && d in h.lists && d !in h.dead && d in h.pend
    && h.pend[d] == a + [x] + b
    && x.task in s.released
    && h.lists[d] != [] && v == h.lists[d][0]
    && Versions(h.pend[d]) != []
    && Versions(h.pend[d])[0].readers - {x.task} == {}
    && (Versions(h.pend[d])[0].writer.Some? ==> Versions(h.pend[d])[0] == Cell(Some(x.task), {}))
    && Versions(a + b) == Versions(h.pend[d])[1..]
  }

  lemma RetiredStructure(s: State, h: Shadow, d: Signature, a: seq<Access>, x: Access, b: seq<Access>, v: Address)
    requires Structure(s, h) && LastUse(s, h, d, a, x, b, v)
    ensures v in s.versions && v != s.vaMap[d] && s.versions[v].signature == d
    ensures CellMatch(s.versions[v], Versions(h.pend[d]), 0, s.released)
    ensures Structure(Retired(Unread(s, v, x.task), v), Buried(h, d, 0, a + b))
  {
    hide Versions, Structure, Linked, Matches;
    var g := Versions(h.pend[d]);
    OldestNode(s, h, d);
    var s' := Retired(Unread(s, v, x.task), v);
    assert s.versions[v].consumers - {x.task} == {};
    RetiredMemory(s.versions, s'.versions, d, s.vaMap[d], h.lists[d], g, s.released);
    hide Footprint;
    StructureBury(s, h, s', d, 0, a + b);
  }

  lemma OldestNode(s: State, h: Shadow, d: Signature)
    requires Structure(s, h) && d in s.vaMap && d in h.lists && d !in h.dead && h.lists[d] != []
    ensures Linked(s.versions, d, s.vaMap[d], h.lists[d])
    ensures Matches(s.versions, h.lists[d], Versions(Pending(h, d)), s.released)
    ensures var v := h.lists[d][0];
            v in s.versions && v != s.vaMap[d] && s.versions[v].signature == d
    ensures Versions(Pending(h, d)) != []
            && CellMatch(s.versions[h.lists[d][0]], Versions(Pending(h, d)), 0, s.released)
  {
    hide Versions;
    assert DatumOk(s, h, d);
    assert NodeOk(s.versions, d, s.vaMap[d], h.lists[d], 0);
  }

  lemma RetiredRest(s: State, h: Shadow, d: Signature, a: seq<Access>, x: Access, b: seq<Access>, v: Address)
    requires Counts(s, h, {}) && Accesses(s, h) && LastUse(s, h, d, a, x, b, v)
    requires v in s.versions && CellMatch(s.versions[v], Versions(h.pend[d]), 0, s.released)
    ensures var s', h' := Retired(Unread(s, v, x.task), v), Buried(h, d, 0, a + b);
            Counts(s', h', Next(s.versions[v])) && Accesses(s', h')
  {
    var s', h', g := Retired(Unread(s, v, x.task), v), Buried(h, d, 0, a + b), Versions(h.pend[d]);
    VersionsOnePlace(h.pend[d]);
    VersionsShape(h.pend[d]);
    var owed := Next(s.versions[v]);
    forall u | u in owed ensures u < |s.tasks| && u !in s.released && CellBlocked(g, u) {
      VersionsMembers(h.pend[d], u);
      assert g[1].writer == Some(u);
      assert InVersions(g, u);
    }
    hide Versions, NoDup;
    forall u | u !in s.released ensures CellBlocked(g[1..], u) <==> CellBlocked(g, u) && u !in owed {
      DropOldest(g, u);
    }
    RemovedCounts(s, h, s', h', d, a + b, owed);
    assert Free(g, s.released);
    assert Free(g[1..], s.released) by {
      forall i | 0 <= i < |g| - 1 && g[1..][i].writer.Some? ensures g[1..][i].readers !! s.released {
        assert g[1..][i] == g[i + 1];
      }
    }
    hide Counts, Free, OnePlace;
    RemovedAccesses(s, h, s', h', d, a, x, b);
  }

  lemma BuriedTrash(s: State, h: Shadow, s': State, d: Signature, k: nat, p: seq<Access>)
    requires Trash(s, h) && d !in h.dead && d in h.lists && h.lists[d] != []
    requires (k == 0 || k + 1 < |h.lists[d]|) && h.lists[d][k] in s.versions
    requires s.versions[h.lists[d][k]].signature == d
    requires s'.versionTrashcan == s.versionTrashcan + [h.lists[d][k]]
    requires forall a :: a in s.versions ==> a in s'.versions && s'.versions[a].signature == s.versions[a].signature
    ensures Trash(s', Buried(h, d, k, p))
  {
    var h' := Buried(h, d, k, p);
    NotTrash(s, h, h.lists[d][k]);
    assert forall e :: e != d ==> Grave(h', e) == Grave(h, e) && (NotNewest(h, e) ==> NotNewest(h', e));
    assert Grave(h', d) == Some(h.lists[d][k]) && NotNewest(h', d);
    hide Grave, NotNewest;
  }

  lemma RetiredHoldings(s: State, h: Shadow, h': Shadow, v: Address, t: Task)
    requires Holdings(s, h, {t}) && v in s.versions && h'.done == h.done
    requires s.versions[v].consumers - {t} == {} && (s.versions[v].status.IDLE? ==> s.versions[v].myProducer == Some(t))
    ensures Holdings(Retired(Unread(s, v, t), v), h', {t})
    ensures InsOf(Retired(Unread(s, v, t), v), t) == InsOf(s, t) - {v}
    ensures OutsOf(Retired(Unread(s, v, t), v), t) == OutsOf(s, t) - {v}
  {
    var s' := Retired(Unread(s, v, t), v);
    assert s.versions[v].consumers <= (s.versions[v].consumers - {t}) + {t};
    forall u | u != t ensures InsOf(s', u) == InsOf(s, u) && OutsOf(s', u) == OutsOf(s, u) {
    }
  }

  lemma RetiredCore(s: State, h: Shadow, d: Signature, a: seq<Access>, x: Access, b: seq<Access>, v: Address)
    requires Core(s, h, {}, {x.task}) && LastUse(s, h, d, a, x, b, v)
    ensures v in s.versions
    ensures Core(Retired(Unread(s, v, x.task), v), Buried(h, d, 0, a + b), Next(s.versions[v]), {x.task})
    ensures InsOf(Retired(Unread(s, v, x.task), v), x.task) == InsOf(s, x.task) - {v}
    ensures OutsOf(Retired(Unread(s, v, x.task), v), x.task) == OutsOf(s, x.task) - {v}
  {
    hide Structure, Counts, Accesses, Holdings, Trash, Versions, InsOf, OutsOf;
    RetiredStructure(s, h, d, a, x, b, v);
    var s', h' := Retired(Unread(s, v, x.task), v), Buried(h, d, 0, a + b);
    RetiredRest(s, h, d, a, x, b, v);
    BuriedTrash(s, h, s', d, 0, a + b);
    RetiredHoldings(s, h, h', v, x.task);
  }

  // ----- one of several readers is done

  lemma UnreadCore(s: State, h: Shadow, d: Signature, a: seq<Access>, t: Task, b: seq<Access>, v: Address)
    requires Core(s, h, {}, {t}) && d in s.vaMap && d in h.lists && d !in h.dead && d in h.pend
    requires h.pend[d] == a + [Access(t, false)] + b && AllReads(a) && t in s.released
    requires h.lists[d] != [] && v == h.lists[d][0] && v in s.versions
    requires s.versions[v].consumers != {t}
    ensures Core(Unread(s, v, t), h.(pend := h.pend[d := a + b]), {}, {t})
    ensures InsOf(Unread(s, v, t), t) == InsOf(s, t) - {v} && OutsOf(Unread(s, v, t), t) == OutsOf(s, t)
  {
    hide Counts, Accesses, Holdings, Trash, Versions, AllReads, NoDup, InsOf, OutsOf, Structure;
    OldestNode(s, h, d);
    var s', h', full, g := Unread(s, v, t), h.(pend := h.pend[d := a + b]), h.lists[d], Versions(h.pend[d]);
    AccessesNoDup(s, h, d);
    ConsumeIsRemoval(a, t, b);
    UnreadDatum(s, h, d, a, t, b, v);
    UnreadHoldings(s, h, h', v, t);
    UnreadRest(s, h, d, a, t, b, v);
    TrashSame(s, h, s', h');
  }

  lemma AccessesNoDup(s: State, h: Shadow, d: Signature)
    requires Accesses(s, h) && d in h.pend
    ensures NoDup(h.pend[d])
  {
  }

  lemma UnreadDatum(s: State, h: Shadow, d: Signature, a: seq<Access>, t: Task, b: seq<Access>, v: Address)
    requires Structure(s, h) && d in s.vaMap && d in h.lists && d !in h.dead && d in h.pend
    requires h.lists[d] != [] && v == h.lists[d][0] && v in s.versions && s.versions[v].consumers != {t}
    requires Versions(h.pend[d]) != [] && Versions(a + b) == Consume(Versions(h.pend[d]), t)
    ensures Structure(Unread(s, v, t), h.(pend := h.pend[d := a + b]))
    ensures CellMatch(s.versions[v], Versions(h.pend[d]), 0, s.released)
  {
    hide Versions, Linked, Matches, Structure;
    var full, g := h.lists[d], Versions(h.pend[d]);
    OldestNode(s, h, d);
    LessReadMemory(s.versions, d, s.vaMap[d], full, g, t, s.released);
    hide Footprint;
    StructureUpdate(s, h, Unread(s, v, t), d, full, a + b, {});
    assert h.lists[d := full] == h.lists;
    StructureSame(Unread(s, v, t), Updated(h, d, full, a + b), Unread(s, v, t), h.(pend := h.pend[d := a + b]));
  }

  lemma UnreadHoldings(s: State, h: Shadow, h': Shadow, v: Address, t: Task)
    requires Holdings(s, h, {t}) && v in s.versions && h'.done == h.done
    ensures Holdings(Unread(s, v, t), h', {t})
    ensures InsOf(Unread(s, v, t), t) == InsOf(s, t) - {v} && OutsOf(Unread(s, v, t), t) == OutsOf(s, t)
  {
    var s' := Unread(s, v, t);
    forall u | u != t ensures InsOf(s', u) == InsOf(s, u) && OutsOf(s', u) == OutsOf(s, u) {
    }
  }

  lemma UnreadRest(s: State, h: Shadow, d: Signature, a: seq<Access>, t: Task, b: seq<Access>, v: Address)
    requires Counts(s, h, {}) && Accesses(s, h) && d in h.pend && t in s.released && v in s.versions
    requires h.pend[d] == a + [Access(t, false)] + b
    requires var g := Versions(h.pend[d]);
             && g != [] && g[0].writer == None && t in g[0].readers && g[0].readers != {t}
             && Versions(a + b) == Consume(g, t)
    ensures var s', h' := Unread(s, v, t), h.(pend := h.pend[d := a + b]); Counts(s', h', {}) && Accesses(s', h')
  {
    var s', h', g := Unread(s, v, t), h.(pend := h.pend[d := a + b]), Versions(h.pend[d]);
    VersionsOnePlace(h.pend[d]);
    hide Versions, NoDup;
    forall u | u !in s.released ensures CellBlocked(Versions(a + b), u) <==> CellBlocked(g, u) {
      ConsumeUnblocks(g, t, u);
    }
    RemovedCounts(s, h, s', h', d, a + b, {});
    var g' := Versions(a + b);
    assert Free(g, s.released);
    assert Free(g', s.released) by {
      assert forall i :: 0 < i < |g'| ==> g'[i] == g[i];
    }
    hide Counts, Free, OnePlace;
    RemovedAccesses(s, h, s', h', d, a, Access(t, false), b);
  }

  // ----- a finished parent's version takes over its newest child

  lemma MergedCore(s: State, h: Shadow, d: Signature, a: seq<Access>, t: Task, b: seq<Access>, v: Address)
    requires Core(s, h, {}, {t}) && Producing(s, h, d, a, t, b, v) && a != []
    ensures var i := |Versions(a)|;
            && i > 0 && v in s.versions && h.lists[d][i - 1] in s.versions
            && s.versions[v].last == Some(h.lists[d][i - 1])
            && s.versions[h.lists[d][i - 1]].status.IDLE?
            && s.versions[h.lists[d][i - 1]].myProducer.Some?
            && s.versions[h.lists[d][i - 1]].myProducer.value < |s.tasks|
    ensures var i, c := |Versions(a)|, h.lists[d][|Versions(a)| - 1];
            && Core(MergeIdle(s, v, c), Buried(h, d, i - 1, a + b), {}, {t})
            && InsOf(MergeIdle(s, v, c), t) == InsOf(s, t) && OutsOf(MergeIdle(s, v, c), t) == OutsOf(s, t) - {v}
  {
    hide Counts, Accesses, Holdings, Trash, Versions, NoDup, Structure, InsOf, OutsOf, Linked, Matches, MergeIdle;
    ProducingNode(s, h, d, a, t, b, v);
    MergingNode(s, h, d, a, t, b, v);
    var i, c, g := |Versions(a)|, h.lists[d][|Versions(a)| - 1], Versions(h.pend[d]);
    var s', h' := MergeIdle(s, v, c), Buried(h, d, i - 1, a + b);
    ProduceIsRemoval(a, t, b);
    MergedStructure(s, h, d, a, b, i, v);
    MergedRest(s, h, d, a, t, b, v, c);
    MergedTasks(s, v, c);
    BuriedTrash(s, h, s', d, i - 1, a + b);
    NotTrash(s, h, v);
    NotTrash(s, h, c);
    MergedHoldings(s, h, h', v, c, t);
  }

  lemma MergingNode(s: State, h: Shadow, d: Signature, a: seq<Access>, t: Task, b: seq<Access>, v: Address)
    requires Accesses(s, h) && Producing(s, h, d, a, t, b, v) && a != [] && 0 < |Versions(a)|
    requires Linked(s.versions, d, s.vaMap[d], h.lists[d])
             && Matches(s.versions, h.lists[d], Versions(h.pend[d]), s.released)
    ensures var i := |Versions(a)|; var c := h.lists[d][i - 1];
            && c in s.versions && c != v && s.versions[c].signature == d && s.versions[c].status.IDLE?
            && s.versions[c].myProducer.Some? && s.versions[c].myProducer.value < |s.tasks|
            && s.versions[c].myProducer != Some(t) && t !in s.versions[c].consumers
            && Versions(h.pend[d])[i - 1].writer.Some?
  {
    hide Free;
    var i, g := |Versions(a)|, Versions(h.pend[d]);
    var c := h.lists[d][i - 1];
    WriteAt(a, t, b);
    NewestUnproduced(a);
    assert g[..i] == Versions(a);
    assert g[i - 1] == Versions(a)[i - 1];
    assert NodeOk(s.versions, d, s.vaMap[d], h.lists[d], i - 1);
    assert CellMatch(s.versions[c], g, i - 1, s.released);
    var p := g[i - 1].writer.value;
    VersionsMembers(h.pend[d], p);
    assert InVersions(g, p);
    VersionsOnePlace(h.pend[d]);
  }

  lemma MergedStructure(s: State, h: Shadow, d: Signature, a: seq<Access>, b: seq<Access>, i: nat, v: Address)
    requires Structure(s, h) && d in s.vaMap && d in h.lists && d !in h.dead && d in h.pend
    requires Linked(s.versions, d, s.vaMap[d], h.lists[d])
             && Matches(s.versions, h.lists[d], Versions(h.pend[d]), s.released)
    requires 0 < i < |Versions(h.pend[d])| && i < |h.lists[d]| && v == h.lists[d][i] && v in s.versions
    requires Versions(h.pend[d])[i - 1].writer.Some? && Versions(a + b) == Produce(Versions(h.pend[d]), i)
    requires var c := h.lists[d][i - 1];
             c in s.versions && s.versions[c].myProducer.Some? && s.versions[c].myProducer.value < |s.tasks|
    ensures Structure(MergeIdle(s, v, h.lists[d][i - 1]), Buried(h, d, i - 1, a + b))
  {
    hide Versions, Structure, Linked;
    var s' := MergeIdle(s, v, h.lists[d][i - 1]);
    MergedMemory(s.versions, s'.versions, d, s.vaMap[d], h.lists[d], Versions(h.pend[d]), i, s.released);
    hide Matches, Footprint;
    StructureBury(s, h, s', d, i - 1, a + b);
  }

  lemma MergedTasks(s: State, v: Address, c: Address)
    requires v in s.versions && c in s.versions
    requires s.versions[c].myProducer.Some? && s.versions[c].myProducer.value < |s.tasks|
    ensures var s' := MergeIdle(s, v, c);
            && |s'.tasks| == |s.tasks| && s'.released == s.released && s'.vaMap == s.vaMap
            && s'.versionTrashcan == s.versionTrashcan + [c]
            && (forall a :: a in s.versions ==> a in s'.versions && s'.versions[a].signature == s.versions[a].signature)
            && forall u :: 0 <= u < |s.tasks| ==> s'.tasks[u].submitDep == s.tasks[u].submitDep
  {
  }

  lemma MergedRest(s: State, h: Shadow, d: Signature, a: seq<Access>, t: Task, b: seq<Access>, v: Address, c: Address)
    requires Counts(s, h, {}) && Accesses(s, h) && d in h.pend && t in s.released && v in s.versions && c in s.versions
    requires s.versions[c].myProducer.Some? && s.versions[c].myProducer.value < |s.tasks|
    requires h.pend[d] == a + [Access(t, true)] + b
    requires var g, i := Versions(h.pend[d]), |Versions(a)|;
             && 0 < i < |g| && g[i].writer == Some(t) && g[i - 1].writer.Some? && Versions(a + b) == Produce(g, i)
    ensures var s', h' := MergeIdle(s, v, c), Buried(h, d, |Versions(a)| - 1, a + b);
            Counts(s', h', {}) && Accesses(s', h')
  {
    var s', g, i := MergeIdle(s, v, c), Versions(h.pend[d]), |Versions(a)|;
    var h' := Buried(h, d, i - 1, a + b);
    MergedTasks(s, v, c);
    hide Versions, NoDup, MergeIdle;
    forall u | u !in s.released ensures CellBlocked(Versions(a + b), u) <==> CellBlocked(g, u) {
      FoldUnblocks(g, i, u);
    }
    CountsUpdate(s, h, s', h', d, a + b, {});
    assert Free(g, s.released);
    ProducedFree(g, i, s.released);
    hide Counts, Free;
    RemovedAccesses(s, h, s', h', d, a, Access(t, true), b);
  }

  lemma MergedHoldings(s: State, h: Shadow, h': Shadow, v: Address, c: Address, t: Task)
    requires Holdings(s, h, {t}) && v in s.versions && c in s.versions && v != c && h'.done == h.done
    requires v !in s.versionTrashcan && c !in s.versionTrashcan
    requires s.versions[v].status.IDLE? && s.versions[v].myProducer == Some(t)
    requires s.versions[c].status.IDLE? && s.versions[c].myProducer.Some? && s.versions[c].myProducer.value < |s.tasks|
    requires s.versions[c].myProducer != Some(t) && t !in s.versions[c].consumers
    ensures Holdings(MergeIdle(s, v, c), h', {t})
    ensures InsOf(MergeIdle(s, v, c), t) == InsOf(s, t) && OutsOf(MergeIdle(s, v, c), t) == OutsOf(s, t) - {v}
  {
    var s', p := MergeIdle(s, v, c), s.versions[c].myProducer.value;
    forall u | 0 <= u < |s.tasks| && u !in h.done && u != t
      ensures s'.tasks[u].ins == InsOf(s', u) && s'.tasks[u].outs == OutsOf(s', u)
    {
      assert s.tasks[u].ins == InsOf(s, u) && s.tasks[u].outs == OutsOf(s, u);
      assert InsOf(s', u) == if u in s.versions[c].consumers then InsOf(s, u) + {v} - {c} else InsOf(s, u);
      assert OutsOf(s', u) == if u == p then OutsOf(s, u) + {v} - {c} else OutsOf(s, u);
    }
  }

  // ----- recycling

  /** The first version of the recycling list is unlinked and freed, with its root if it was the
      last version of its datum. */
  function Swept(s: State): State
    requires s.versionTrashcan != [] && CanRecycle(s, s.versionTrashcan[0])
  {
    Recycle(s, s.versionTrashcan[0]).(versionTrashcan := s.versionTrashcan[1..])
  }

  function SweptShadow(h: Shadow, d: Signature): Shadow
    requires d in h.lists && d in h.dead && h.dead[d] < |h.lists[d]|
  {
    if |h.lists[d]| == 1 then h.(lists := h.lists - {d}, dead := h.dead - {d}, pend := h.pend - {d})
    else h.(lists := h.lists[d := RemoveAt(h.lists[d], h.dead[d])], dead := h.dead - {d})
  }

  lemma TrashHead(s: State, h: Shadow) returns (d: Signature)
    requires Structure(s, h) && Trash(s, h) && s.versionTrashcan != []
    ensures d in s.vaMap && d in h.lists && d in h.dead && h.dead[d] < |h.lists[d]|
    ensures s.versionTrashcan[0] == h.lists[d][h.dead[d]]
    ensures s.versionTrashcan[0] in s.versions && s.versions[s.versionTrashcan[0]].signature == d
    ensures h.dead[d] + 1 < |h.lists[d]| || |h.lists[d]| == 1
    ensures Linked(s.versions, d, s.vaMap[d], h.lists[d])
    ensures Matches(s.versions, RemoveAt(h.lists[d], h.dead[d]), Versions(Pending(h, d)), s.released)
    ensures CanRecycle(s, s.versionTrashcan[0])
    ensures s.versions[s.versionTrashcan[0]].next == Some(Succ(h.lists[d], s.vaMap[d], h.dead[d]))
  {
    hide Versions, Linked, Matches;
    var c := s.versionTrashcan[0];
    assert c in s.versionTrashcan;
    d := s.versions[c].signature;
    assert NotNewest(h, d) && DatumOk(s, h, d);
    hide Trash, Structure;
    UnlinkLinked(s.versions, d, s.vaMap[d], h.lists[d], h.dead[d]);
  }

  lemma SweptListed(s: State, h: Shadow, d: Signature)
    requires Structure(s, h) && d in s.vaMap && d in h.lists && d in h.dead && h.dead[d] + 1 < |h.lists[d]|
    requires s.versionTrashcan != [] && s.versionTrashcan[0] == h.lists[d][h.dead[d]]
             && CanRecycle(s, s.versionTrashcan[0])
    requires s.versions[s.versionTrashcan[0]].next == Some(Succ(h.lists[d], s.vaMap[d], h.dead[d]))
    requires Linked(s.versions, d, s.vaMap[d], h.lists[d])
    requires Matches(s.versions, RemoveAt(h.lists[d], h.dead[d]), Versions(Pending(h, d)), s.released)
    ensures Swept(s) == s.(versions := Unlink(s.versions, s.versionTrashcan[0]),
            versionTrashcan := s.versionTrashcan[1..])
    ensures Structure(Swept(s), SweptShadow(h, d))
  {
    hide Versions, Structure, Matches, Footprint;
    var full, k := h.lists[d], h.dead[d];
    UnlinkedMemory(s.versions, d, s.vaMap[d], full, k, Versions(Pending(h, d)), s.released);
    assert NodeOk(s.versions, d, s.vaMap[d], full, k + 1);
    hide Linked, Unlink;
    var s', h' := Swept(s), SweptShadow(h, d);
    assert DatumOk(s', h', d);
    assert forall a :: a in full ==> a in RemoveAt(full, k) || a == full[k];
    StructureFrame(s, h, s', h', d, {});
  }

  lemma SweptEmpty(s: State, h: Shadow, d: Signature)
    requires Structure(s, h) && d in s.vaMap && d in h.lists && d in h.dead && |h.lists[d]| == 1 && h.dead[d] == 0
    requires s.versionTrashcan != [] && s.versionTrashcan[0] == h.lists[d][0] && CanRecycle(s, s.versionTrashcan[0])
    requires Linked(s.versions, d, s.vaMap[d], h.lists[d])
    ensures Swept(s) == s.(versions := s.versions - {h.lists[d][0], s.vaMap[d]}, vaMap := s.vaMap - {d},
                           versionTrashcan := s.versionTrashcan[1..])
    ensures Structure(Swept(s), SweptShadow(h, d))
  {
    hide Versions, Matches, Structure;
    var c, root, m := h.lists[d][0], s.vaMap[d], s.versions;
    assert NodeOk(m, d, root, h.lists[d], 0);
    assert Unlink(m, c) - {root} == m - {c, root};
    SweptRoot(s, h, d, Swept(s));
  }

  lemma SweptRoot(s: State, h: Shadow, d: Signature, s': State)
    requires Structure(s, h) && d in s.vaMap && d in h.lists && d in h.dead && |h.lists[d]| == 1 && h.dead[d] == 0
    requires h.lists[d][0] in s.versions && s.versions[h.lists[d][0]].signature == d
    requires s.vaMap[d] in s.versions && s.versions[s.vaMap[d]].signature == d
    requires s'.versions == s.versions - {h.lists[d][0], s.vaMap[d]} && s'.vaMap == s.vaMap - {d}
             && s'.released == s.released
    ensures Structure(s', SweptShadow(h, d))
  {
    hide Versions, Matches, Linked;
    var h' := SweptShadow(h, d);
    forall e | e in s'.vaMap ensures DatumOk(s', h', e) {
      assert DatumOk(s, h, e);
      DatumFrame(s, h, s', h', e);
    }
    forall a | a in s'.versions ensures Placed(s', h', a) {
      assert Placed(s, h, a);
    }
  }

  lemma SweptGraves(h: Shadow, d: Signature)
    requires d in h.lists && d in h.dead && h.dead[d] < |h.lists[d]|
    ensures Grave(h, d) == Some(h.lists[d][h.dead[d]])
    ensures SweptShadow(h, d).dead.Keys == h.dead.Keys - {d}
    ensures forall e :: e != d
              ==> Grave(SweptShadow(h, d), e) == Grave(h, e) && (NotNewest(h, e) ==> NotNewest(SweptShadow(h, d), e))
  {
  }

  lemma SweptTrash(s: State, h: Shadow, s': State, d: Signature)
    requires Trash(s, h) && s.versionTrashcan != [] && d in h.lists && d in h.dead && h.dead[d] < |h.lists[d]|
    requires s.versionTrashcan[0] == h.lists[d][h.dead[d]]
    requires s'.versionTrashcan == s.versionTrashcan[1..]
    requires forall a :: a in s.versions && s.versions[a].signature != d
               ==> a in s'.versions && s'.versions[a].signature == s.versions[a].signature
    ensures Trash(s', SweptShadow(h, d))
  {
    var tr, h' := s.versionTrashcan, SweptShadow(h, d);
    SweptGraves(h, d);
    hide Grave, NotNewest, SweptShadow;
    assert tr == [tr[0]] + tr[1..];
    forall a | a in tr[1..] ensures a in tr && a != tr[0] && s.versions[a].signature != d {
      assert a in tr;
    }
    forall e | e in h'.dead ensures Grave(h', e).Some? && Grave(h', e).value in tr[1..] {
      assert Grave(h, e).value in tr;
    }
  }

  lemma SweptCounts(s: State, h: Shadow, s': State, d: Signature)
    requires Counts(s, h, {}) && Accesses(s, h) && d in h.lists && d in h.dead && h.dead[d] < |h.lists[d]|
    requires s'.tasks == s.tasks && s'.released == s.released
    requires |h.lists[d]| == 1 ==> Pending(h, d) == []
    ensures Counts(s', SweptShadow(h, d), {}) && Accesses(s', SweptShadow(h, d))
  {
    var h' := SweptShadow(h, d);
    VersionsShape([]);
    hide Versions, NoDup, Free;
    forall u ensures DepSet(h'.pend, u) == DepSet(h.pend, u) {
    }
  }

  lemma SweptHoldings(s: State, h: Shadow, s': State, h': Shadow, c: Address, root: Option<Address>, except: set<Task>)
    requires Holdings(s, h, except) && h'.done == h.done && s'.tasks == s.tasks
    requires s.versionTrashcan != [] && s.versionTrashcan[0] == c && s'.versionTrashcan == s.versionTrashcan[1..]
    requires Distinct(s.versionTrashcan)
    requires root.Some? ==> root.value in s.versions && s.versions[root.value].consumers == {}
                            && s.versions[root.value].myProducer == None
    requires s'.versions.Keys == s.versions.Keys - {c} - (if root.Some? then {root.value} else {})
    requires forall a :: a in s'.versions ==>
               && s'.versions[a].consumers == s.versions[a].consumers && s'.versions[a].status == s.versions[a].status
               && s'.versions[a].myProducer == s.versions[a].myProducer
    ensures Holdings(s', h', except)
  {
    assert s.versionTrashcan == [c] + s'.versionTrashcan;
    forall u ensures InsOf(s', u) == InsOf(s, u) && OutsOf(s', u) == OutsOf(s, u) {
    }
  }

  lemma UnlinkKeeps(m: Memory, c: Address)
    requires c in m && m[c].next.Some? && m[c].next.value in m && (m[c].last.Some? ==> m[c].last.value in m)
    requires m[c].next != Some(c)
    ensures Unlink(m, c).Keys == m.Keys - {c}
    ensures forall a :: a in Unlink(m, c) ==>
              && Unlink(m, c)[a].consumers == m[a].consumers && Unlink(m, c)[a].status == m[a].status
              && Unlink(m, c)[a].myProducer == m[a].myProducer && Unlink(m, c)[a].signature == m[a].signature
  {
  }

  /** One turn of the recycling loop: no freed record is ever reached again, because none is left
      in any list. */
  lemma SweptCore(s: State, h: Shadow, except: set<Task>) returns (d: Signature)
    requires Core(s, h, {}, except) && s.versionTrashcan != []
    ensures d in h.lists && d in h.dead && h.dead[d] < |h.lists[d]|
    ensures CanRecycle(s, s.versionTrashcan[0])
    ensures Core(Swept(s), SweptShadow(h, d), {}, except)
    ensures s.versionTrashcan[0] !in Swept(s).versions
    ensures |h.lists[d]| == 1 ==> Pending(h, d) == []
  {
    hide Structure, Counts, Accesses, Holdings, Versions, Linked, Matches, Unlink, Recycle;
    d := TrashHead(s, h);
    var c, s', h' := s.versionTrashcan[0], Swept(s), SweptShadow(h, d);
    assert Distinct(s.versionTrashcan);
    hide Trash;
    if |h.lists[d]| == 1 {
      SweptEmpty(s, h, d);
      NothingPending(s, h, d);
      RootBlank(s, h, d);
      SweptHoldings(s, h, s', h', c, Some(s.vaMap[d]), except);
    } else {
      SweptListed(s, h, d);
      UnlinkKeeps(s.versions, c);
      SweptHoldings(s, h, s', h', c, None, except);
    }
    SweptTrash(s, h, s', d);
    SweptCounts(s, h, s', d);
  }

  lemma RootBlank(s: State, h: Shadow, d: Signature)
    requires d in h.lists && d in s.vaMap && Linked(s.versions, d, s.vaMap[d], h.lists[d]) && |h.lists[d]| == 1
    ensures s.vaMap[d] in s.versions && s.versions[s.vaMap[d]].consumers == {}
            && s.versions[s.vaMap[d]].myProducer == None
    ensures s.versions[s.vaMap[d]].signature == d && h.lists[d][0] in s.versions
            && s.versions[h.lists[d][0]].signature == d
  {
    assert NodeOk(s.versions, d, s.vaMap[d], h.lists[d], 0);
  }

  lemma NothingPending(s: State, h: Shadow, d: Signature)
    requires d in h.lists && d in h.dead && h.dead[d] == 0 && |h.lists[d]| == 1
    requires Matches(s.versions, RemoveAt(h.lists[d], h.dead[d]), Versions(Pending(h, d)), s.released)
    ensures Pending(h, d) == []
  {
    VersionsShape(Pending(h, d));
  }
}
