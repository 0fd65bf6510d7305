/** Where the guarantees of the dependence manager end: merging a child version that has already
    been produced, naming an input twice, children that go beyond the data of their parent or are waited for
    by it, and waiting for a datum behind one's own read of it. */
module DependenceLimits {
  import opened Wrappers
  import opened AccessOrder
  import opened VersionList
  import opened Dependence
  import opened DependenceInv
  import opened DependenceCounts
  import opened DependenceSteps
  import opened DependenceOrder
  import opened TaskOrder
  import opened DependenceSafety
  import opened DependenceTheorems
  import opened DependenceWaits
  import opened DependenceWaitSteps
  import opened DependencePatience
  import opened DependenceManager
  import opened DependenceProgress

  // ----- merging a produced child

  /** Task `t` is about to finish as the producer of version `v` of datum `d`. */
  ghost predicate AboutToProduce(s: State, h: Shadow, d: Signature, t: Task, v: Address) {
    && Core(s, h, {}, {t}) && d !in h.dead && t in s.released && t < |s.tasks|
    && v in OutsOf(s, t) && s.versions[v].signature == d
  }

  /** Reads directly in front of a write: the write's version is the second one. */
  lemma ReadsThenWrite(p: seq<Access>, k: nat, t: Task)
    requires 0 < k < |p| && p[k] == Access(t, true) && AllReads(p[..k]) && NoDup(p)
    ensures var g := Versions(p);
            && |g| > 1 && g[0].writer == None && p[0].task in g[0].readers && g[1].writer == Some(t) && OnePlace(g)
    ensures |Versions(p[..k])| == 1 && !p[0].write && p[0].task != t
  {
    hide Versions;
    var a, b := p[..k], p[k..];
    assert p == a + b;
    VersionsOfReads(a);
    VersionsShape(a);
    VersionsSplit(a, b);
    assert a + [Access(t, true)] + p[k + 1..] == p;
    WriteAt(a, t, p[k + 1..]);
    VersionsOnePlace(p);
    FirstReader(a);
    assert a[0] == p[0];
    assert Versions(p)[0] == Versions(a)[0];
  }

  /** The cells around a finishing producer whose newest child version is already produced. */
  lemma ReadyChildCells(s: State, h: Shadow, d: Signature, t: Task, v: Address)
    requires AboutToProduce(s, h, d, t, v) && !Mergeable(Pending(h, d), t)
    ensures d in h.pend && d in h.lists && d in s.vaMap && |h.lists[d]| > 1 && v == h.lists[d][1]
    ensures h.pend[d] != [] && !h.pend[d][0].write && h.pend[d][0].task != t
    ensures var g := Versions(h.pend[d]);
            && |g| > 1 && g[0].writer == None && h.pend[d][0].task in g[0].readers && g[1].writer == Some(t)
            && OnePlace(g)
    ensures Linked(s.versions, d, s.vaMap[d], h.lists[d])
            && Matches(s.versions, h.lists[d], Versions(h.pend[d]), s.released)
  {
    hide Versions, Counts, Holdings, Trash, Linked, Free, NoDup, Matches, AllReads, OnePlace;
    OutputSlot(s, h, d, t, v);
    hide OutsOf;
    var p, k := h.pend[d], IndexOf(h.pend[d], t);
    assert NoDup(p);
    assert DatumOk(s, h, d);
    hide Structure, Accesses;
    ReadsThenWrite(p, k, t);
    MatchesLength(s.versions, h.lists[d], Versions(p), s.released);
  }

  lemma {:induction false} FirstReader(a: seq<Access>)
    requires a != [] && AllReads(a)
    ensures Versions(a) != [] && a[0].task in Versions(a)[0].readers
  {
    VersionsOfReads(a);
    if |a| > 1 {
      var b := a[..|a| - 1];
      FirstReader(b);
      VersionsOfReads(b);
    } else {
      assert a[..0] == [];
    }
  }

  lemma ReadyChild(s: State, h: Shadow, d: Signature, t: Task, v: Address)
    requires AboutToProduce(s, h, d, t, v) && !Mergeable(Pending(h, d), t)
    ensures d in h.pend && h.pend[d] != [] && !h.pend[d][0].write
    ensures CanProduce(s, v) && Merges(s.versions, v)
    ensures var c, u := s.versions[v].last.value, h.pend[d][0].task;
            && s.versions[c].status.READY? && c != v && u in s.versions[c].consumers && u !in s.versions[v].consumers
            && u != t && u < |s.tasks| && u !in h.done
  {
    hide Versions, Counts, Holdings, Trash, NoDup, Free, OutsOf, Structure, Mergeable;
    ReadyChildCells(s, h, d, t, v);
    var g, full, root := Versions(h.pend[d]), h.lists[d], s.vaMap[d];
    PairOfNodes(s, d, root, full, g);
    hide Linked, Matches;
    forall u | u in s.versions[v].consumers || u in Next(s.versions[v]) ensures u < |s.tasks|
        && s.tasks[u].submitDep > 0 {
      WaitingOwed(s, h, d, 1, u);
    }
  }

  lemma PairOfNodes(s: State, d: Signature, root: Address, full: seq<Address>, g: seq<Cell>)
    requires |full| > 1 && |g| > 1 && Linked(s.versions, d, root, full) && Matches(s.versions, full, g, s.released)
    ensures full[0] in s.versions && full[1] in s.versions && full[0] != full[1]
            && s.versions[full[1]].last == Some(full[0])
    ensures CellMatch(s.versions[full[0]], g, 0, s.released) && CellMatch(s.versions[full[1]], g, 1, s.released)
  {
    assert NodeOk(s.versions, d, root, full, 1);
    assert NodeOk(s.versions, d, root, full, 0);
  }

  lemma WaitingOwed(s: State, h: Shadow, d: Signature, i: nat, u: Task)
    requires Counts(s, h, {}) && Accesses(s, h) && d in h.pend && i < |Versions(h.pend[d])|
             && Versions(h.pend[d])[i].writer.Some?
    requires var g := Versions(h.pend[d]); u in g[i].readers || (NextProducer(g, i, s.released) == Some(u))
    ensures u < |s.tasks| && s.tasks[u].submitDep > 0
  {
    hide Versions, NoDup;
    var g := Versions(h.pend[d]);
    assert Free(g, s.released);
    assert u !in s.released && CellBlocked(g, u);
    VersionsMembers(h.pend[d], u);
    assert InVersions(g, u);
    hide Free;
    BlockedOwed(s, h, d, u);
  }

  /** The guard of the branch of `MergeChildVersion` that redirects readers without adopting them. */
  predicate ChildProduced(m: Memory, v: Address) {
    v in m && m[v].last.Some? && m[v].last.value in m && m[m[v].last.value].status.READY?
  }

  /** The order of the accesses and the state of the newest child version tell the same. */
  lemma MergeableIff(s: State, h: Shadow, d: Signature, t: Task, v: Address)
    requires AboutToProduce(s, h, d, t, v)
    ensures Mergeable(Pending(h, d), t) <==> !ChildProduced(s.versions, v)
  {
    hide Core, Mergeable, OnProduced;
    if Mergeable(Pending(h, d), t) {
      var h' := FinishWrite(s, h, d, t, v);
      if Merges(s.versions, v) {
        ChildBefore(s, h, d, t, v);
      }
    } else {
      ReadyChild(s, h, d, t, v);
    }
  }

  /** `onProduced` keeps the versions in step with the order of the accesses exactly when the newest
      child version has not been produced, or there is none. Otherwise the readers of the child are
      lost to the parent version. */
  lemma MergeKeepsOrderIff(s: State, h: Shadow, d: Signature, t: Task, v: Address)
    requires AboutToProduce(s, h, d, t, v)
    ensures CanProduce(s, v)
    ensures !ChildProduced(s.versions, v)
            <==> exists h': Shadow :: h'.done == h.done && Core(OnProduced(s, v), h', {}, {t})
  {
    hide Core, Mergeable, OnProduced;
    MergeableIff(s, h, d, t, v);
    if Mergeable(Pending(h, d), t) {
      var h' := FinishWrite(s, h, d, t, v);
      assert h'.done == h.done && Core(OnProduced(s, v), h', {}, {t}) by {
        hide DepSet;
      }
    } else {
      ReadyChild(s, h, d, t, v);
      forall h': Shadow | h'.done == h.done ensures !Core(OnProduced(s, v), h', {}, {t}) {
        LostReader(s, h, h', d, t, v);
      }
    }
  }

  lemma LostReader(s: State, h: Shadow, h': Shadow, d: Signature, t: Task, v: Address)
    requires AboutToProduce(s, h, d, t, v) && !Mergeable(Pending(h, d), t) && h'.done == h.done && CanProduce(s, v)
    ensures !Core(OnProduced(s, v), h', {}, {t})
  {
    hide Mergeable, Structure, Counts, Accesses, Trash, OutsOf;
    ReadyChild(s, h, d, t, v);
    var u, s' := h.pend[d][0].task, OnProduced(s, v);
    MergeReadyEffect(s, v, s.versions[v].last.value, u);
    hide OnProduced;
    assert v !in InsOf(s', u);
  }

  lemma MergeReadyEffect(s: State, v: Address, c: Address, u: Task)
    requires CanProduce(s, v) && Merges(s.versions, v) && s.versions[v].last == Some(c) && s.versions[c].status.READY?
             && c != v
    requires u < |s.tasks| && u in s.versions[c].consumers
    ensures var s' := OnProduced(s, v);
            && |s'.tasks| == |s.tasks| && v in s'.tasks[u].ins && v in s'.versions
            && s'.versions[v].consumers == s.versions[v].consumers
            && s'.versions[v].nextProducer == s.versions[v].nextProducer
            && c in s'.versions
  {
  }

  /** What losing a reader leads to: when the version's other readers are done, its next writer is
      released although the lost reader is still at work on the same datum. */
  lemma LostReaderOverrun(s: State, h: Shadow, d: Signature, t: Task, v: Address, r: Task, w: Task)
    requires AboutToProduce(s, h, d, t, v) && !Mergeable(Pending(h, d), t)
    requires v in s.versions && s.versions[v].consumers == {r} && s.versions[v].nextProducer == Some(w) && r != w
    requires w < |s.tasks| && s.tasks[w].submitDep == 1
    ensures CanProduce(s, v) && d in h.pend && h.pend[d] != []
    ensures var s1 := OnProduced(s, v);
            v in s1.versions && Owed(s1, Next(s1.versions[v])) && w in OnConsumed(s1, v, r).released
    ensures h.pend[d][0].task !in h.done && h.pend[d][0].task != r && Conflict(h.pend[d][0], Access(w, true))
  {
    hide Core, Mergeable, OutsOf;
    ReadyChild(s, h, d, t, v);
    hide AboutToProduce;
    OverrunSteps(s, v, s.versions[v].last.value, r, w);
  }

  lemma OverrunSteps(s: State, v: Address, c: Address, r: Task, w: Task)
    requires CanProduce(s, v) && Merges(s.versions, v) && s.versions[v].last == Some(c) && s.versions[c].status.READY?
             && c != v
    requires s.versions[v].consumers == {r} && s.versions[v].nextProducer == Some(w) && r != w
    requires w < |s.tasks| && s.tasks[w].submitDep == 1
    ensures var s1 := OnProduced(s, v);
            v in s1.versions && Owed(s1, Next(s1.versions[v])) && w in OnConsumed(s1, v, r).released
  {
    var s1 := OnProduced(s, v);
    assert |s1.tasks| == |s.tasks| && s1.tasks[w].submitDep == 1;
    assert s1.versions[v].consumers == {r} && s1.versions[v].nextProducer == Some(w);
    assert s1.versions[v].consumers - {r} == {};
  }

  // ----- an input named twice

  ghost predicate OrderIs(h: Shadow, d: Signature, p: seq<Access>) {
    Pending(h, d) == p
  }

  lemma EmptyOrder(t: Task)
    ensures !Blocked([], t) && Mergeable([], t) && Without([], t) == []
  {
  }

  /** A task with references nobody returns is never handed to the scheduler. */
  lemma NeverReady(s: State, h: Shadow, g: History, u: Task)
    requires Sound(s, h, g) && u < |h.surplus| && h.surplus[u] > 0
    ensures u !in s.released && u !in h.done
  {
    hide Core, AllExclusive, AllSorted;
  }

  /** A writer, and a reader that names the datum twice: when the writer is done nothing conflicts
      with the reader any more, but it is not ready, and never will be. */
  method RepeatedInput() returns (m: Manager)
    ensures fresh(m) && m.Valid() && |m.tasks| == 2 && m.shadow.done == {0}
    ensures 1 !in m.released && |m.shadow.surplus| == 2 && m.shadow.surplus[1] > 0
    ensures WaitsForNothing(m.shadow, 1)
  {
    hide Sound, WaitsOk, ChildrenOk, ChildrenLeft, ReleasedBy, DepSet, Ordered, Writes, WaitsForNothing,
      NoAwaitedRepeat, Within, Mergeable, Without, Enlist, Blocked, OrderIs;
    m := new Manager();
    ghost var h := m.shadow;
    var w := m.OnSubmit(None, [], [Dep(0, false)], None);
    OneWriter(h, m.shadow);
    h := m.shadow;
    var r := m.OnSubmit(None, [Dep(0, false), Dep(0, false)], [], None);
    ReaderBehind(h, m.shadow);
    h := m.shadow;
    m.OnTaskDone(0);
    ReaderLeft(h, m.shadow);
    NeverReady(m.St(), m.shadow, m.Log(), 1);
  }

  lemma OneWriter(h: Shadow, h': Shadow)
    requires forall d :: Pending(h, d) == []
    requires forall d :: Pending(h', d) == Ordered(Pending(h, d), None, 0, Writes([Dep(0, false)], None, d),
               d in Pointers([]))
    ensures OrderIs(h', 0, [Access(0, true)]) && (forall d :: d != 0 ==> OrderIs(h', d, [])) && WaitsForNothing(h', 0)
  {
    assert Pointers([Dep(0, false)])[0] == 0;
    forall d ensures Pending(h', d) == if d == 0 then [Access(0, true)] else [] {
      assert Pending(h', d) == Ordered(Pending(h, d), None, 0, Writes([Dep(0, false)], None, d), d in Pointers([]));
    }
  }

  lemma ReaderBehind(h: Shadow, h': Shadow)
    requires OrderIs(h, 0, [Access(0, true)]) && (forall d :: d != 0 ==> OrderIs(h, d, []))
    requires forall d :: Pending(h', d) == Ordered(Pending(h, d), None, 1, Writes([], None, d),
               d in Pointers([Dep(0, false), Dep(0, false)]))
    ensures OrderIs(h', 0, [Access(0, true), Access(1, false)]) && (forall d :: d != 0 ==> OrderIs(h', d, []))
    ensures forall d :: Mergeable(Pending(h', d), 0)
    ensures !NoAwaitedRepeat(h', 1, [Dep(0, false), Dep(0, false)], [], None)
  {
    var ins := [Dep(0, false), Dep(0, false)];
    assert Pointers(ins) == [0, 0];
    forall d ensures Pending(h', d) == if d == 0 then [Access(0, true), Access(1, false)] else [] {
      assert d != 0 ==> OrderIs(h, d, []);
      assert Pending(h', d) == Ordered(Pending(h, d), None, 1, Writes([], None, d), d in Pointers(ins));
    }
    var p := [Access(0, true), Access(1, false)];
    assert Conflict(p[0], p[1]) && Blocked(p, 1);
    assert multiset(Pointers(ins))[0] == 2;
    assert IndexOf(p, 0) == 0;
    EmptyOrder(0);
  }

  lemma ReaderLeft(h: Shadow, h': Shadow)
    requires OrderIs(h, 0, [Access(0, true), Access(1, false)]) && (forall d :: d != 0 ==> OrderIs(h, d, []))
    requires forall d :: Pending(h', d) == Without(Pending(h, d), 0)
    ensures WaitsForNothing(h', 1)
  {
    forall d ensures !Blocked(Pending(h', d), 1) {
      assert d != 0 ==> OrderIs(h, d, []);
      assert Pending(h', d) == Without(Pending(h, d), 0);
    }
  }

  // ----- a child that uses more than its parent

  /** Task 0 writes datum 0, task 1 reads datum 0 and writes datum 1, and task 2, a child of task 0,
      writes datum 0 and reads datum 1. Tasks 1 and 2 end up waiting for each other. */
  method NestedDeadlock() returns (m: Manager)
    ensures fresh(m) && m.Valid() && |m.tasks| == 3 && m.shadow.done == {0} && !m.orderly
    ensures m.shadow.surplus == [0, 0, 0]
    ensures (forall t :: !Active(m.St(), m.shadow, t)) && Standstill(SceneOf(m), {1, 2})
  {
    hide Sound, WaitsOk, ChildrenOk, ChildrenLeft, ReleasedBy, DepSet, Mergeable, Without, OrderIs, Active, Patient,
      Standstill;
    m := NestedTasks();
    ghost var s, h := m.St(), m.shadow;
    m.OnTaskDone(0);
    Crossed(s, h, m.St(), m.shadow);
    CrossedStand(s, h, SceneOf(m));
  }

  /** The submissions of the run. */
  method NestedTasks() returns (m: Manager)
    ensures fresh(m) && m.Valid() && |m.tasks| == 3 && m.released == {0} && m.shadow.done == {} && !m.orderly
    ensures m.shadow.surplus == [0, 0, 0] && m.tasks[0].waitDep == 0 && m.joining == {}
    ensures OrderIs(m.shadow, 0, [Access(2, true), Access(0, true), Access(1, false)])
    ensures OrderIs(m.shadow, 1, [Access(1, true), Access(2, false)]) && forall d :: Mergeable(Pending(m.shadow, d), 0)
  {
    hide Sound, WaitsOk, Ordered, Writes, WaitsForNothing, NoAwaitedRepeat, Within, Mergeable, Enlist, OrderIs, Patient,
      ChildrenOk;
    m := TwoTasks();
    ghost var h := m.shadow;
    var c := m.OnSubmit(Some(0), [Dep(1, false)], [Dep(0, false)], None);
    ChildAcross(h, m.shadow);
  }

  /** Task 0 writes datum 0; task 1 reads it and writes datum 1. */
  method TwoTasks() returns (m: Manager)
    ensures fresh(m) && m.Valid() && |m.tasks| == 2 && m.released == {0} && m.shadow.done == {}
            && m.parents == [None, None]
    ensures m.shadow.surplus == [0, 0] && m.tasks[0].waitDep == 0 && m.joining == {}
    ensures OrderIs(m.shadow, 0, [Access(0, true), Access(1, false)]) && OrderIs(m.shadow, 1, [Access(1, true)])
    ensures forall d :: d != 0 && d != 1 ==> OrderIs(m.shadow, d, [])
  {
    hide Sound, WaitsOk, Ordered, Writes, WaitsForNothing, NoAwaitedRepeat, Within, Enlist, OrderIs, Patient,
      ChildrenOk;
    m := new Manager();
    ghost var h := m.shadow;
    var p := m.OnSubmit(None, [], [Dep(0, false)], None);
    OneWriter(h, m.shadow);
    NothingRepeated(m.shadow, 0, [], [Dep(0, false)]);
    h := m.shadow;
    var q := m.OnSubmit(None, [Dep(0, false)], [Dep(1, false)], None);
    ReaderWriter(h, m.shadow);
    assert m.released == {0};
  }

  lemma NothingRepeated(h: Shadow, t: Task, ins: seq<Dep>, outs: seq<Dep>)
    requires ins == []
    ensures NoAwaitedRepeat(h, t, ins, outs, None)
  {
    assert Pointers(ins) == [];
  }

  lemma ReaderWriter(h: Shadow, h': Shadow)
    requires OrderIs(h, 0, [Access(0, true)]) && (forall d :: d != 0 ==> OrderIs(h, d, []))
    requires forall d :: Pending(h', d) == Ordered(Pending(h, d), None, 1, Writes([Dep(1, false)], None, d),
               d in Pointers([Dep(0, false)]))
    ensures OrderIs(h', 0, [Access(0, true), Access(1, false)]) && OrderIs(h', 1, [Access(1, true)])
    ensures forall d :: d != 0 && d != 1 ==> OrderIs(h', d, [])
    ensures !WaitsForNothing(h', 1) && NoAwaitedRepeat(h', 1, [Dep(0, false)], [Dep(1, false)], None)
  {
    assert Pointers([Dep(1, false)]) == [1] && Pointers([Dep(0, false)]) == [0];
    forall d ensures Pending(h', d) == if d == 0 then [Access(0, true), Access(1, false)] else if d == 1
        then [Access(1, true)] else [] {
      assert d != 0 ==> OrderIs(h, d, []);
      assert Pending(h', d) == Ordered(Pending(h, d), None, 1, Writes([Dep(1, false)], None, d),
        d in Pointers([Dep(0, false)]));
    }
    var p := [Access(0, true), Access(1, false)];
    assert Conflict(p[0], p[1]) && Blocked(p, 1);
    assert Blocked(Pending(h', 0), 1);
    assert multiset([0])[0] == 1;
  }

  lemma ChildAcross(h: Shadow, h': Shadow)
    requires OrderIs(h, 0, [Access(0, true), Access(1, false)]) && OrderIs(h, 1, [Access(1, true)])
    requires forall d :: d != 0 && d != 1 ==> OrderIs(h, d, [])
    requires forall d :: Pending(h', d) == Ordered(Pending(h, d), Some(0), 2, Writes([Dep(0, false)], None, d),
               d in Pointers([Dep(1, false)]))
    ensures OrderIs(h', 0, [Access(2, true), Access(0, true), Access(1, false)])
            && OrderIs(h', 1, [Access(1, true), Access(2, false)])
    ensures forall d :: d != 0 && d != 1 ==> OrderIs(h', d, [])
    ensures !WaitsForNothing(h', 2) && NoAwaitedRepeat(h', 2, [Dep(1, false)], [Dep(0, false)], None)
    ensures !Within(h, Some(0), [Dep(1, false)], [Dep(0, false)], None)
    ensures forall d :: Mergeable(Pending(h', d), 0)
  {
    assert Pointers([Dep(1, false)]) == [1] && Pointers([Dep(0, false)]) == [0];
    var p0, p1 := [Access(0, true), Access(1, false)], [Access(1, true)];
    assert IndexOf(p0, 0) == 0 && IndexOf(p1, 0) == 1;
    assert Place(p0, Some(0), Access(2, true)) == [Access(2, true), Access(0, true), Access(1, false)];
    assert Place(p1, Some(0), Access(2, false)) == [Access(1, true), Access(2, false)];
    forall d ensures d != 0 && d != 1 ==> Pending(h', d) == [] {
      assert d != 0 && d != 1 ==> OrderIs(h, d, []);
      assert Pending(h', d) == Ordered(Pending(h, d), Some(0), 2, Writes([Dep(0, false)], None, d),
        d in Pointers([Dep(1, false)]));
    }
    var q0, q1 := [Access(2, true), Access(0, true), Access(1, false)], [Access(1, true), Access(2, false)];
    assert Pending(h', 0) == q0 && Pending(h', 1) == q1;
    assert Conflict(q1[0], q1[1]) && Blocked(Pending(h', 1), 2);
    assert multiset([1])[1] == 1;
    assert IndexOf(q0, 0) == 1 && q0[..1][0].write && IndexOf(q1, 0) == 2;
    EmptyOrder(0);
    assert !Covered(Pending(h, 1), Some(0), false);
  }

  lemma Crossed(s: State, h: Shadow, s': State, h': Shadow)
    requires OrderIs(h, 0, [Access(2, true), Access(0, true), Access(1, false)])
             && OrderIs(h, 1, [Access(1, true), Access(2, false)])
    requires forall d :: Pending(h', d) == Without(Pending(h, d), 0)
    requires s.released == {0} && |s.tasks| == 3 && ReleasedBy(s, h, s', h') && (exists g :: Sound(s', h', g))
             && h'.done == {0}
    ensures forall t :: !Active(s', h', t)
  {
    hide Sound, DepSet;
    var q0, q1 := [Access(2, true), Access(0, true), Access(1, false)], [Access(1, true), Access(2, false)];
    assert IndexOf(q0, 0) == 1 && IndexOf(q1, 0) == 2;
    assert Without(q0, 0) == [Access(2, true), Access(1, false)];
    assert Pending(h', 0) == [Access(2, true), Access(1, false)] && Pending(h', 1) == q1;
    assert Conflict(Pending(h', 0)[0], Pending(h', 0)[1]) && Blocked(Pending(h', 0), 1);
    assert Conflict(q1[0], q1[1]) && Blocked(Pending(h', 1), 2);
    var g :| Sound(s', h', g);
    SoundAwaited(s', h', g, 1);
    SoundAwaited(s', h', g, 2);
  }

  /** The two tasks that are left wait for each other. */
  lemma CrossedStand(s: State, h: Shadow, x: Scene)
    requires OrderIs(h, 0, [Access(2, true), Access(0, true), Access(1, false)])
             && OrderIs(h, 1, [Access(1, true), Access(2, false)])
    requires forall d :: Pending(x.h, d) == Without(Pending(h, d), 0)
    requires (forall t :: !Active(x.s, x.h, t)) && |x.s.tasks| == 3 && x.h.done == {0}
    ensures Standstill(x, {1, 2})
  {
    var q0, q1 := [Access(2, true), Access(0, true), Access(1, false)], [Access(1, true), Access(2, false)];
    assert IndexOf(q0, 0) == 1 && IndexOf(q1, 0) == 2;
    assert Without(q0, 0) == [Access(2, true), Access(1, false)];
    assert Pending(x.h, 0) == [Access(2, true), Access(1, false)] && Pending(x.h, 1) == q1;
    assert Conflict(Pending(x.h, 0)[0], Pending(x.h, 0)[1]) && Precedes(Pending(x.h, 0), 2, 1);
    assert Conflict(q1[0], q1[1]) && Precedes(Pending(x.h, 1), 1, 2);
    assert !Active(x.s, x.h, 1) && !Active(x.s, x.h, 2);
    assert WaitsFor(x, 1, 2) && WaitsFor(x, 2, 1);
  }

  lemma SoundAwaited(s: State, h: Shadow, g: History, t: Task)
    requires Sound(s, h, g)
    ensures WaitsForNothing(h, t) <==> DepSet(h.pend, t) == {}
  {
    hide Structure, Counts, Holdings, Trash, Accesses, AllExclusive, AllSorted, DepSet, WaitsForNothing;
    NothingAwaited(s, h, t);
  }

  // ----- a parent that waits for its child

  /** Task 0 writes datum 0, task 1 reads it and writes datum 1, task 2, a child of task 0, reads datum 1, and
      task 0 waits for its children. Each of the three waits for another, for ever. */
  method JoinDeadlock() returns (m: Manager)
    ensures fresh(m) && m.Valid() && |m.tasks| == 3 && m.released == {0} && m.shadow.done == {} && !m.orderly
    ensures m.shadow.surplus == [0, 0, 0] && m.joining == {0}
    ensures (forall t :: !Awake(SceneOf(m), t)) && Standstill(SceneOf(m), {0, 1, 2})
  {
    hide Sound, WaitsOk, Ordered, Writes, WaitsForNothing, NoAwaitedRepeat, Within, Enlist, OrderIs, Patient,
      ChildrenOk, Standstill;
    m := TwoTasks();
    ghost var h := m.shadow;
    var c := m.OnSubmit(Some(0), [Dep(1, false)], [], None);
    ChildReads(h, m.shadow);
    assert m.parents[2] == Some(0) && 2 in ChildrenLeft(m.parents, m.shadow.done, 0);
    var suspended := m.OnWaitChildren(0);
    ThreeStand(SceneOf(m));
  }

  lemma ChildReads(h: Shadow, h': Shadow)
    requires OrderIs(h, 0, [Access(0, true), Access(1, false)]) && OrderIs(h, 1, [Access(1, true)])
    requires forall d :: d != 0 && d != 1 ==> OrderIs(h, d, [])
    requires forall d :: Pending(h', d) == Ordered(Pending(h, d), Some(0), 2, Writes([], None, d),
                           d in Pointers([Dep(1, false)]))
    ensures OrderIs(h', 0, [Access(0, true), Access(1, false)]) && OrderIs(h', 1, [Access(1, true), Access(2, false)])
    ensures !WaitsForNothing(h', 2) && NoAwaitedRepeat(h', 2, [Dep(1, false)], [], None)
    ensures !Within(h, Some(0), [Dep(1, false)], [], None)
  {
    assert Pointers([Dep(1, false)]) == [1] && Pointers([]) == [];
    var p1 := [Access(1, true)];
    assert IndexOf(p1, 0) == 1;
    assert Place(p1, Some(0), Access(2, false)) == [Access(1, true), Access(2, false)];
    assert Pending(h', 0) == [Access(0, true), Access(1, false)];
    var q1 := [Access(1, true), Access(2, false)];
    assert Pending(h', 1) == q1;
    assert Conflict(q1[0], q1[1]) && Blocked(Pending(h', 1), 2);
    assert multiset([1])[1] == 1;
    assert !Covered(Pending(h, 1), Some(0), false);
  }

  lemma ThreeStand(x: Scene)
    requires OrderIs(x.h, 0, [Access(0, true), Access(1, false)])
    requires OrderIs(x.h, 1, [Access(1, true), Access(2, false)])
    requires |x.s.tasks| == 3 && x.s.released == {0} && x.h.done == {}
    requires x.joining == {0} && x.parents == [None, None, Some(0)]
    ensures Standstill(x, {0, 1, 2}) && forall t :: !Awake(x, t)
  {
    var q0, q1 := Pending(x.h, 0), Pending(x.h, 1);
    assert Conflict(q0[0], q0[1]) && Precedes(q0, 0, 1);
    assert Conflict(q1[0], q1[1]) && Precedes(q1, 1, 2);
    assert HeldBy(x, 1, 0) && HeldBy(x, 2, 1) && Joins(x, 0, 2);
    assert WaitsFor(x, 1, 0) && WaitsFor(x, 2, 1) && WaitsFor(x, 0, 2);
  }

  // ----- runs about one datum

  /** Only datum 0 is in use, with accesses `p`. */
  ghost predicate Only(h: Shadow, p: seq<Access>) {
    OrderIs(h, 0, p) && forall d :: d != 0 ==> OrderIs(h, d, [])
  }

  function Named(use: bool): seq<Dep> {
    if use then [Dep(0, false)] else []
  }

  /** A task that writes, or reads, datum 0 and nothing else. */
  lemma OneDatum(h: Shadow, h': Shadow, p: seq<Access>, parent: Option<Task>, t: Task, write: bool)
    requires Only(h, p)
    requires forall d :: Pending(h', d) == Ordered(Pending(h, d), parent, t, Writes(Named(write), None, d),
               d in Pointers(Named(!write)))
    ensures Only(h', Place(p, parent, Access(t, write)))
  {
    hide Place;
    assert Pointers([Dep(0, false)]) == [0] && Pointers([]) == [];
    forall d ensures Pending(h', d) == if d == 0 then Place(p, parent, Access(t, write)) else [] {
      assert d != 0 ==> OrderIs(h, d, []);
    }
  }

  lemma OneDatumWaits(h: Shadow, p: seq<Access>, t: Task, write: bool)
    requires Only(h, p)
    ensures WaitsForNothing(h, t) <==> !Blocked(p, t)
    ensures NoAwaitedRepeat(h, t, Named(!write), Named(write), None)
  {
    hide Blocked;
    EmptyOrder(t);
    assert Pointers([Dep(0, false)]) == [0] && Pointers([]) == [];
    forall d ensures Blocked(Pending(h, d), t) ==> d == 0 {
      assert d != 0 ==> OrderIs(h, d, []);
    }
    assert Pending(h, 0) == p;
    if write {
      assert Pointers(Named(true)) == [0] && Writes(Named(true), None, 0);
    } else {
      assert Pointers(Named(true)) == [0] && multiset([0])[0] == 1;
    }
  }

  /** One more task, which reads or writes datum 0. */
  method Use(m: Manager, parent: Option<Task>, write: bool, ghost p: seq<Access>)
    requires m.Valid() && Running(m.St(), m.shadow, parent) && Only(m.shadow, p)
    modifies m
    ensures m.Valid() && |m.tasks| == old(|m.tasks|) + 1 && m.shadow.done == old(m.shadow).done
    ensures var t := old(|m.tasks|);
            var q := Place(p, parent, Access(t, write));
            Only(m.shadow, q) && m.released == old(m.released) + if Blocked(q, t) then {} else {t}
    ensures m.order == Enlist(old(m.order), parent, old(|m.tasks|)) && (parent.None? ==> m.orderly == old(m.orderly))
    ensures m.shadow.surplus == old(m.shadow).surplus + [0]
    ensures m.sleeping == old(m.sleeping) && m.records == old(m.records) && m.patient == old(m.patient)
    ensures forall u :: 0 <= u < old(|m.tasks|) ==> m.tasks[u].waitDep == old(m.tasks)[u].waitDep
    ensures m.tasks[old(|m.tasks|)].waitDep == 0
  {
    hide Sound, WaitsOk, ChildrenOk, Ordered, Writes, WaitsForNothing, NoAwaitedRepeat, Within, Enlist, Blocked, Place,
      Only, Patient, Running;
    if parent.None? {
      TopLevel(m.shadow, Named(!write), Named(write));
    }
    var r := m.OnSubmit(parent, Named(!write), Named(write), None);
    OneDatum(old(m.shadow), m.shadow, p, parent, r.value, write);
    OneDatumWaits(m.shadow, Place(p, parent, Access(r.value, write)), r.value, write);
  }

  lemma NothingUsed(h: Shadow)
    requires forall d :: Pending(h, d) == []
    ensures Only(h, [])
  {
  }

  lemma TopLevel(h: Shadow, ins: seq<Dep>, outs: seq<Dep>)
    ensures Within(h, None, ins, outs, None)
  {
  }

  lemma FirstAccess(write: bool)
    ensures Place([], None, Access(0, write)) == [Access(0, write)] && !Blocked([Access(0, write)], 0)
  {
  }

  // ----- a wait behind one's own read

  /** Task 0 reads datum 0, task 1 writes it, and task 0 waits for the datum: it is entered in the version of
      task 1, which waits for its read. Neither will ever go on. */
  method WaitBehindOwnRead() returns (m: Manager)
    ensures fresh(m) && m.Valid() && |m.tasks| == 2 && m.released == {0} && m.shadow.done == {}
    ensures m.orderly && m.shadow.surplus == [0, 0] && !m.patient
    ensures (forall t :: !Awake(SceneOf(m), t)) && Standstill(SceneOf(m), {0, 1})
  {
    hide Sound, WaitsOk, ChildrenOk, Enlist, Blocked, Place, Only, Patient, RecordsOf, NoWriterLeft, WaitsEarlier,
      RecordOf, Standstill;
    m := new Manager();
    NothingUsed(m.shadow);
    Use(m, None, false, []);
    FirstAccess(false);
    Use(m, None, true, [Access(0, false)]);
    WriterSecond();
    FirstTwo(m.order);
    m.OnWait(0, [0]);
    WaitsForOne(m.shadow, m.order);
    var asleep := m.Suspend(0);
    BehindOwnRead(SceneOf(m), RecordOf(m.shadow, 0, 0), 1);
  }

  lemma FirstTwo(order: seq<Task>)
    requires order == Enlist(Enlist([], None, 0), None, 1)
    ensures order == [0, 1]
  {
  }

  lemma WriterSecond()
    ensures Place([Access(0, false)], None, Access(1, true)) == [Access(0, false), Access(1, true)]
    ensures Blocked([Access(0, false), Access(1, true)], 1)
  {
    var p := [Access(0, false), Access(1, true)];
    assert Conflict(p[0], p[1]);
  }

  /** The entry of the wait, with task 1 as the awaited writer, which comes later. */
  lemma WaitsForOne(h: Shadow, order: seq<Task>)
    requires Only(h, [Access(0, false), Access(1, true)]) && order == [0, 1]
    ensures RecordOf(h, 0, 0) in RecordsOf(h, 0, [0]) && RecordOf(h, 0, 0) == WaitRecord(0, 0, {1})
    ensures !NoWriterLeft(h, 0, [0]) && !WaitsEarlier(h, order, 0, [0]) && Precedes(Pending(h, 0), 0, 1)
  {
    var p := [Access(0, false), Access(1, true)];
    assert Pending(h, 0) == p;
    assert WritesBefore(p, 2) == {1} by { assert p[1].task == 1; }
    assert Conflict(p[0], p[1]);
    assert order[0] == 0 && order[1] == 1 && Rank(order, 0) == 0;
    var deps: seq<Signature> := [0];
    assert 0 in deps && 1 in RecordOf(h, 0, 0).writers && !(Rank(order, 1) < Rank(order, 0));
    if WaitsEarlier(h, order, 0, deps) {
      assert false;
    }
  }

  // ----- a lost reader

  function FourAccesses(): seq<Access> {
    [Access(3, false), Access(0, true), Access(1, false), Access(2, true)]
  }

  method FourTasks() returns (m: Manager)
    ensures fresh(m) && m.Valid() && |m.tasks| == 4 && m.released == {0, 3} && m.shadow.done == {}
    ensures m.shadow.surplus == [0, 0, 0, 0] && Only(m.shadow, FourAccesses())
  {
    hide Sound, WaitsOk, ChildrenOk, Enlist, Blocked, Place, Only, Patient, FourAccesses;
    m := new Manager();
    NothingUsed(m.shadow);
    Use(m, None, true, []);
    FirstAccess(true);
    assert m.released == {0};
    Use(m, None, false, [Access(0, true)]);
    ReaderSecond();
    assert m.released == {0};
    Use(m, None, true, [Access(0, true), Access(1, false)]);
    WriterThird();
    assert m.released == {0};
    Use(m, Some(0), false, [Access(0, true), Access(1, false), Access(2, true)]);
    ChildFirst();
  }

  /** Task `t` is about to produce `v`, and once it has and `r` is done as well, `w` is released. */
  ghost predicate Overrun(s: State, h: Shadow, v: Address, t: Task, r: Task, w: Task) {
    && AboutToProduce(s, h, 0, t, v) && CanProduce(s, v) && w !in s.released
    && var s' := OnProduced(s, v);
      v in s'.versions && Owed(s', Next(s'.versions[v])) && w in OnConsumed(s', v, r).released
  }

  /** Task 0 writes datum 0, task 1 reads it, task 2 writes it, and task 3, a child of task 0, reads what was
      there before. When task 0 is done and then task 1, task 2 is released although task 3 may still read. */
  method ReaderOverrun() returns (m: Manager, ghost v: Address)
    ensures fresh(m) && m.Valid() && |m.tasks| == 4 && m.released == {0, 3} && m.shadow.done == {}
    ensures Only(m.shadow, FourAccesses()) && Overrun(m.St(), m.shadow, v, 0, 1, 2)
  {
    hide Sound, WaitsOk, ChildrenOk, Only, Patient, Overrun, FourAccesses;
    m := FourTasks();
    v := OverrunThere(m.St(), m.shadow, m.Log());
  }

  lemma OverrunThere(s: State, h: Shadow, g: History) returns (v: Address)
    requires Sound(s, h, g) && Only(h, FourAccesses()) && s.released == {0, 3} && |s.tasks| == 4
    requires h.surplus == [0, 0, 0, 0]
    ensures Overrun(s, h, v, 0, 1, 2)
  {
    hide Sound, Only, AboutToProduce, Mergeable, CanProduce, Owed, Conflict, OnProduced, OnConsumed, FourAccesses;
    v := MiddleVersion(s, h, g);
    LostReaderOverrun(s, h, 0, 0, v, 1, 2);
  }

  lemma ReaderSecond()
    ensures Place([Access(0, true)], None, Access(1, false)) == [Access(0, true), Access(1, false)]
    ensures Blocked([Access(0, true), Access(1, false)], 1)
  {
    var p := [Access(0, true), Access(1, false)];
    assert Conflict(p[0], p[1]);
  }

  lemma WriterThird()
    ensures var p := [Access(0, true), Access(1, false), Access(2, true)];
            Place([Access(0, true), Access(1, false)], None, Access(2, true)) == p && Blocked(p, 2)
  {
    var p := [Access(0, true), Access(1, false), Access(2, true)];
    assert Conflict(p[0], p[2]);
  }

  lemma ChildFirst()
    ensures Place([Access(0, true), Access(1, false), Access(2, true)], Some(0), Access(3, false)) == FourAccesses()
    ensures !Blocked(FourAccesses(), 3) && !Mergeable(FourAccesses(), 0)
  {
    var p := FourAccesses();
    assert IndexOf(p, 0) == 1;
    assert p[..1] == [Access(3, false)];
  }

  lemma FourVersions()
    ensures Versions(FourAccesses()) == [Cell(None, {3}), Cell(Some(0), {1}), Cell(Some(2), {})]
  {
    hide Versions;
    NoVersions();
    var a := [Access(3, false)];
    VersionsOfAppend([], a[0]);
    assert [] + a == a && Versions(a) == [Cell(None, {3})];
    var b := a + [Access(0, true)];
    VersionsOfAppend(a, Access(0, true));
    assert Versions(b) == [Cell(None, {3}), Cell(Some(0), {})];
    var c := b + [Access(1, false)];
    VersionsOfAppend(b, Access(1, false));
    assert {} + {1} == {1} && Versions(c) == [Cell(None, {3}), Cell(Some(0), {1})];
    VersionsOfAppend(c, Access(2, true));
    assert c + [Access(2, true)] == FourAccesses();
  }

  /** The version that task 0 is about to produce. */
  lemma MiddleVersion(s: State, h: Shadow, g: History) returns (v: Address)
    requires Sound(s, h, g) && Only(h, FourAccesses()) && s.released == {0, 3} && |s.tasks| == 4
    requires h.surplus == [0, 0, 0, 0]
    ensures AboutToProduce(s, h, 0, 0, v) && v in s.versions && s.versions[v].consumers == {1}
    ensures s.versions[v].nextProducer == Some(2) && s.tasks[2].submitDep == 1 && !Mergeable(Pending(h, 0), 0)
  {
    hide Sound, Trash, Versions, Accesses, Placed, Free, Mergeable, DepSet;
    ChildFirst();
    SoundCore(s, h, g);
    FourVersions();
    assert Pending(h, 0) == FourAccesses() && 0 in h.pend;
    assert DatumOk(s, h, 0);
    v := h.lists[0][1];
    assert CellMatch(s.versions[v], Versions(FourAccesses()), 1, s.released);
    OneDepth(h);
    NotTrash(s, h, v);
    assert v in OutsOf(s, 0);
    Dismantling(s, h, 0);
    assert NodeOk(s.versions, 0, s.vaMap[0], h.lists[0], 1);
    assert 2 !in s.released && s.tasks[2].submitDep == |DepSet(h.pend, 2)| + h.surplus[2];
  }

  lemma Dismantling(s: State, h: Shadow, t: Task)
    requires Core(s, h, {}, {})
    ensures Core(s, h, {}, {t})
  {
    hide Structure, Counts, Accesses, Trash, InsOf, OutsOf;
  }

  /** Task 2 waits for one datum. */
  lemma OneDepth(h: Shadow)
    requires Only(h, FourAccesses())
    ensures |DepSet(h.pend, 2)| == 1
  {
    hide Versions;
    FourVersions();
    var g := Versions(FourAccesses());
    assert g[2].writer == Some(2);
    forall d | d in h.pend ensures CellBlocked(Versions(h.pend[d]), 2) <==> d == 0 {
      assert d != 0 ==> OrderIs(h, d, []);
      assert Pending(h, d) == h.pend[d];
      NoVersions();
    }
    assert Pending(h, 0) == FourAccesses() && 0 in h.pend;
    assert DepSet(h.pend, 2) == {0};
  }

  lemma NoVersions()
    ensures Versions([]) == []
  {
  }
}
