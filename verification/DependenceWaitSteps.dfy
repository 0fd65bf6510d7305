/** Waiting tasks through every operation of the dependence manager, and what a finished wait
    means. */
module DependenceWaitSteps {
  import opened Wrappers
  import opened AccessOrder
  import opened VersionList
  import opened Dependence
  import opened DependenceInv
  import opened DependenceCounts
  import opened DependenceSteps
  import opened DependenceFinish
  import opened DependenceOrder
  import opened DependenceRun
  import opened DependenceSafety
  import opened DependenceWaits

  lemma {:induction false} TallyZero(m: Memory, u: Task)
    requires forall a :: a in m ==> u !in m[a].dataWaitTaskByThis
    ensures Tally(m)[u] == 0
    decreases |m|
  {
    if m != map[] {
      var a :| a in m;
      TallyTake(m, a);
      assert u !in multiset(m[a].dataWaitTaskByThis);
      TallyZero(m - {a}, u);
    }
  }

  // ----- submission

  lemma NewTaskWaits(s: State, h: Shadow, over: set<Task>, rs: set<WaitRecord>)
    requires WaitsOk(s, h, over, rs)
    ensures WaitsOk(NewTask(s), h.(surplus := h.surplus + [0]), over, rs)
  {
    hide NotAfterWrite, NextFree;
    var s', h' := NewTask(s), h.(surplus := h.surplus + [0]);
    forall c, u | c in s'.versions && u in s'.versions[c].dataWaitTaskByThis ensures Entry(s', h', c, u) {
      assert Entry(s, h, c, u);
    }
    forall a | a in s.versions ensures |s.tasks| !in s.versions[a].dataWaitTaskByThis {
      assert |s.tasks| in s.versions[a].dataWaitTaskByThis ==> Entry(s, h, a, |s.tasks|);
    }
    TallyZero(s.versions, |s.tasks|);
    forall r | r in rs ensures Honoured(s', h', over, r) {
      assert Honoured(s, h, over, r);
      if !(r.writers <= over) {
        var c :| HonouredBy(s, h, over, r, c);
        assert HonouredBy(s', h', over, r, c);
      }
    }
  }

  lemma SameEntriesTrans(s: State, s1: State, s2: State)
    requires SameEntries(s, s1) && SameEntries(s1, s2)
    ensures SameEntries(s, s2)
  {
    forall a ensures WaitsAt(s2.versions, a) == WaitsAt(s.versions, a) {
      assert WaitsAt(s2.versions, a) == WaitsAt(s1.versions, a);
    }
    forall c | c in s.versions && s.versions[c].dataWaitTaskByThis != []
      ensures c in s1.versions && s1.versions[c].dataWaitTaskByThis != []
    {
      assert WaitsAt(s1.versions, c) == WaitsAt(s.versions, c);
    }
  }

  /** `s'` is `s` with the same tasks entered in the same versions, waiting as before. */
  ghost predicate SameWaits(s: State, s': State) {
    && SameEntries(s, s') && |s'.tasks| == |s.tasks|
    && (forall u :: 0 <= u < |s.tasks| ==> s'.tasks[u].waitDep == s.tasks[u].waitDep)
  }

  lemma SameWaitsTrans(s: State, s1: State, s2: State)
    requires SameWaits(s, s1) && SameWaits(s1, s2)
    ensures SameWaits(s, s2)
  {
    hide SameEntries;
    SameEntriesTrans(s, s1, s2);
  }

  /** Entries are found in unproduced versions only. */
  ghost predicate EntriesIdle(s: State) {
    forall c, u :: c in s.versions && u in s.versions[c].dataWaitTaskByThis ==> s.versions[c].status.IDLE?
  }

  lemma EntriesAreIdle(s: State, h: Shadow, s': State)
    requires Entries(s, h) && SameEntries(s, s')
    ensures EntriesIdle(s')
  {
    forall c, u | c in s'.versions && u in s'.versions[c].dataWaitTaskByThis ensures s'.versions[c].status.IDLE? {
      assert WaitsAt(s'.versions, c) == WaitsAt(s.versions, c);
      assert Entry(s, h, c, u);
    }
  }

  lemma RootWaits(s: State, d: Signature, block: Address)
    requires block !in s.versions
    ensures SameWaits(s, NewRoot(s, d, block))
  {
  }

  lemma ReadWaits(s: State, h: Shadow, s1: State, v: Address, t: Task, nest: NestType, block: Address)
    requires Entries(s, h) && SameWaits(s, s1) && Known(s1.versions, v) && t < |s1.tasks| && block !in s1.versions
    ensures SameWaits(s, AddConsumer(s1, v, t, nest, block))
  {
    hide SameEntries, Entries, AddConsumer;
    EntriesAreIdle(s, h, s1);
    ConsumerEntries(s1, v, t, nest, block);
    SameWaitsTrans(s, s1, AddConsumer(s1, v, t, nest, block));
  }

  lemma WriteWaits(s: State, s1: State, v: Address, t: Task, block: Address)
    requires SameWaits(s, s1) && Known(s1.versions, v) && t < |s1.tasks| && block !in s1.versions
             && s1.versions[v].last != Some(v)
    ensures SameWaits(s, AddProducer(s1, v, t, block))
  {
    hide SameEntries, AddProducer;
    ProducerEntries(s1, v, t, block);
    SameWaitsTrans(s, s1, AddProducer(s1, v, t, block));
  }

  /** `onSubmit` as a whole: `h1` is the shadow when the task was created, `h0` after the mapping of
      its signatures. */
  lemma SubmitWaits(s: State, h1: Shadow, h0: Shadow, s': State, h: Shadow, over: set<Task>, rs: set<WaitRecord>,
                    parent: Option<Task>, t: Task, ins: seq<Signature>, outs: seq<Signature>)
    requires Core(s, h1, {}, {}) && WaitsOk(s, h1, over, rs) && SameWaits(s, s') && s'.released == s.released
    requires h0.pend == h1.pend && h0.done == h1.done
    requires Submitting(s', h0, h, parent, t, ins, outs)
    ensures WaitsOk(Readying(s', t), h, over, rs)
  {
    hide Core, SameEntries, Entries, Honoured, Unlisted, Occurs, Tallied, DepSet, Spread;
    forall d ensures Pending(h1, d) == Pending(h0, d) && !Occurs(Pending(h1, d), t) {
      assert !Occurs(Pending(h0, d), t);
    }
    assert SpreadOver(h1, h, parent, t, ins, outs);
    hide SpreadOver;
    SpreadEntries(s, h1, s', h, parent, t, ins, outs);
    TalliedKept(s, s');
    forall r | r in rs ensures Honoured(s', h, over, r) {
      HonouredSpread(s, h1, s', h, over, parent, t, ins, outs, r);
    }
    ReadyWaits(s', h, t, over, rs);
  }

  lemma ReadyWaits(s: State, h: Shadow, t: Task, over: set<Task>, rs: set<WaitRecord>)
    requires Core(s, h, {}, {}) && WaitsOk(s, h, over, rs) && t < |s.tasks| && t !in s.released
    ensures WaitsOk(Readying(s, t), h, over, rs)
  {
    hide Core, Entries, Honoured, DepSet;
    var s' := Readying(s, t);
    ReadyCore(s, h, t);
    ReleasedEntries(s, h, s');
    forall r | r in rs ensures Honoured(s', h, over, r) {
      assert Honoured(s, h, over, r);
      SameHonoured(s, h, s', h, over, r);
    }
  }

  lemma SameHonoured(s: State, h: Shadow, s': State, h': Shadow, over: set<Task>, r: WaitRecord)
    requires Honoured(s, h, over, r) && SameEntries(s, s') && Pending(h', r.datum) == Pending(h, r.datum)
    ensures Honoured(s', h', over, r)
  {
    hide NotAfterWrite, SameEntries, Honoured;
    HonouredKept(s, h, s', h', over, over, r);
  }

  // ----- completion

  lemma HonouredMore(s: State, h: Shadow, over: set<Task>, over': set<Task>, r: WaitRecord)
    requires Honoured(s, h, over, r) && over <= over'
    ensures Honoured(s, h, over', r)
  {
    hide NotAfterWrite;
    if !(r.writers <= over') {
      var c :| HonouredBy(s, h, over, r, c);
      assert HonouredBy(s, h, over', r, c);
    }
  }

  ghost predicate NotWaiting(s: State, t: Task) {
    forall c :: c in s.versions ==> t !in s.versions[c].dataWaitTaskByThis
  }

  lemma ZeroMeansNone(s: State, t: Task)
    requires Tallied(s) && t < |s.tasks| && s.tasks[t].waitDep == 0
    ensures NotWaiting(s, t)
  {
    forall c | c in s.versions ensures t !in s.versions[c].dataWaitTaskByThis {
      if t in s.versions[c].dataWaitTaskByThis {
        TallyHas(s.versions, c, t);
      }
    }
  }

  lemma ConsumedWaits(s: State, h: Shadow, s': State, h': Shadow, over: set<Task>, rs: set<WaitRecord>, d: Signature,
      t: Task, v: Address)
    requires Core(s, h, {}, {t}) && t < |s.tasks| && t in s.released && t !in h.done && WaitsOk(s, h, over, rs)
             && NotWaiting(s, t) && t in over
    requires v in s.versions && Owed(s, Next(s.versions[v])) && !s.versions[v].status.IDLE? && s' == OnConsumed(s, v, t)
    requires FinishedIn(s, h, s', h', d, t) && Unblocked(s, s', h')
    ensures WaitsOk(s', h', over, rs) && NotWaiting(s', t)
  {
    hide Core, Honoured, NoDup, FinishedIn, Unblocked, OnConsumed, Tallied, Entry;
    ConsumedEntries(s, h, v, t);
    TalliedKept(s, s');
    FinishedEntries(s, h, s', h', d, t, v, None);
    FinishedCore(s, h, s', h', d, t);
    forall r | r in rs ensures Honoured(s', h', over, r) {
      NoEntries(s, h, v);
      HonouredFinished(s, h, s', h', over, d, t, v, None, r);
    }
    StillNotWaiting(s, s', t);
  }

  lemma StillNotWaiting(s: State, s': State, t: Task)
    requires NotWaiting(s, t) && forall a :: WaitsAt(s'.versions, a) == WaitsAt(s.versions, a)
                                   || WaitsAt(s'.versions, a) == []
    ensures NotWaiting(s', t)
  {
    forall c | c in s'.versions ensures t !in s'.versions[c].dataWaitTaskByThis {
      assert WaitsAt(s'.versions, c) == WaitsAt(s.versions, c) || WaitsAt(s'.versions, c) == [];
    }
  }

  lemma FinishedCore(s: State, h: Shadow, s': State, h': Shadow, d: Signature, t: Task)
    requires Core(s, h, {}, {t}) && t < |s.tasks| && FinishedIn(s, h, s', h', d, t)
    ensures Core(s', h', {}, {t}) && d in h.pend && NoDup(h.pend[d])
  {
    hide Structure, Counts, Holdings, Trash, Free;
  }

  lemma ProducedWaits(s: State, h: Shadow, s': State, h': Shadow, over: set<Task>, rs: set<WaitRecord>, d: Signature,
      t: Task, v: Address)
    requires Core(s, h, {}, {t}) && t < |s.tasks| && t in s.released && t !in h.done && WaitsOk(s, h, over, rs)
             && NotWaiting(s, t) && t in over
    requires CanProduce(s, v) && v in OutsOf(s, t) && s.versions[v].signature == d && d !in h.dead
             && s' == OnProduced(s, v)
    requires Mergeable(Pending(h, d), t)
    requires FinishedIn(s, h, s', h', d, t) && Unblocked(s, s', h')
    ensures WaitsOk(s', h', over, rs) && NotWaiting(s', t)
  {
    hide Core, Honoured, NoDup, FinishedIn, Unblocked, OnProduced, Tallied, Entry, Merges, Mergeable, Does, NextWrite,
      OutsOf;
    FinishedCore(s, h, s', h', d, t);
    var x: Option<Task> := None;
    if Merges(s.versions, v) {
      MergedPassed(s, h, s', d, t, v);
      x := s'.versions[v].myProducer;
    } else {
      HeadWaits(s, h, d, t, v);
      ProducedEntries(s, v);
      ProducedTally(s, v);
    }
    FinishedEntries(s, h, s', h', d, t, v, x);
    forall r | r in rs ensures Honoured(s', h', over, r) {
      HonouredFinished(s, h, s', h', over, d, t, v, x, r);
    }
    StillNotWaiting(s, s', t);
  }

  lemma HeadWaits(s: State, h: Shadow, d: Signature, t: Task, v: Address)
    requires Core(s, h, {}, {t}) && d !in h.dead && v in OutsOf(s, t) && s.versions[v].signature == d && t in s.released
             && t < |s.tasks|
    requires Mergeable(Pending(h, d), t) && CanProduce(s, v) && !Merges(s.versions, v)
    ensures d in h.pend && h.pend[d] != [] && h.pend[d][0] == Access(t, true) && s.versions[v].myProducer == Some(t)
  {
    hide Versions, Counts, Holdings, Trash, Mergeable, InsOf, CanProduce, Linked, Matches, Structure, NoDup, Accesses;
    FinishReady(s, h, d, t, v);
    hide OutsOf;
    var p, k := h.pend[d], IndexOf(h.pend[d], t);
    ProducingNode(s, h, d, p[..k], t, p[k + 1..], v);
    if k != 0 {
      MergingNode(s, h, d, p[..k], t, p[k + 1..], v);
    }
  }

  lemma MergedPassed(s: State, h: Shadow, s': State, d: Signature, t: Task, v: Address)
    requires Core(s, h, {}, {t}) && t < |s.tasks| && t in s.released && Entries(s, h) && NotWaiting(s, t) && Tallied(s)
    requires CanProduce(s, v) && v in OutsOf(s, t) && s.versions[v].signature == d && d !in h.dead
             && s' == OnProduced(s, v)
    requires Mergeable(Pending(h, d), t) && Merges(s.versions, v)
    ensures SameButOne(s, s', v) && Tallied(s') && v in s'.versions && s'.versions[v].myProducer.Some?
    ensures PassedOn(s, h, s', v, d, t, s'.versions[v].myProducer.value)
    ensures forall a :: WaitsAt(s'.versions, a) == WaitsAt(s.versions, a)
  {
    hide Core, NoDup, OnProduced, Tallied, Mergeable, Does, NextWrite;
    ChildBefore(s, h, d, t, v);
    var c := s.versions[v].last.value;
    ChildLive(s, h, c, d);
    ProducerDoes(s, h, c, {t});
    OnlyNextEntered(s, h, c, t);
    FirstIn(s.versions[c].dataWaitTaskByThis);
    MergedEntries(s, v);
    assert WaitsAt(s'.versions, v) == WaitsAt(s.versions, v);
    MergedTally(s, v);
  }

  /** Only the running task with the next write can be entered in a version. */
  lemma OnlyNextEntered(s: State, h: Shadow, c: Address, t: Task)
    requires Entries(s, h) && c in s.versions && s.versions[c].myProducer.Some? && t in s.released
    requires NextWrite(Pending(h, s.versions[c].signature), s.versions[c].myProducer.value) == Some(t)
    ensures forall u :: u in s.versions[c].dataWaitTaskByThis ==> u == t
  {
    assert forall u :: u in s.versions[c].dataWaitTaskByThis ==> Entry(s, h, c, u);
  }

  lemma ChildLive(s: State, h: Shadow, c: Address, d: Signature)
    requires Core(s, h, {}, {}) || exists t :: Core(s, h, {}, {t})
    requires c in s.versions && s.versions[c].signature == d && d !in h.dead
    ensures c !in s.versionTrashcan
  {
    hide Structure, Counts, Accesses, Holdings;
    NotTrash(s, h, c);
  }

  /** Recycling removes no entries, because a version up for recycling has none. */
  lemma SweptWaits(s: State, h: Shadow)
    requires Core(s, h, {}, {}) && s.versionTrashcan != [] && Entries(s, h) && CanRecycle(s, s.versionTrashcan[0])
    ensures SameWaits(s, Swept(s))
  {
    hide Structure, Counts, Accesses, Holdings, Trash, Entry;
    var c := s.versionTrashcan[0];
    assert c in s.versionTrashcan;
    var d := TrashHead(s, h);
    hide Linked, Matches, Versions;
    NoEntries(s, h, c);
    RecycledRoot(s, h, c);
    SweptFrame(s);
  }

  lemma RecycledRoot(s: State, h: Shadow, c: Address)
    requires Core(s, h, {}, {}) && CanRecycle(s, c)
    ensures var n := s.versions[c].next.value; s.versions[n].next.None? ==> s.versions[n].dataWaitTaskByThis == []
  {
    hide Counts, Accesses, Holdings, Trash, Matches, Versions;
    var n := s.versions[c].next.value;
    assert Placed(s, h, n);
    var d := s.versions[n].signature;
    assert DatumOk(s, h, d);
    if n != s.vaMap[d] {
      var i :| 0 <= i < |h.lists[d]| && h.lists[d][i] == n;
      assert NodeOk(s.versions, d, s.vaMap[d], h.lists[d], i);
    }
  }

  lemma SweptFrame(s: State)
    requires s.versionTrashcan != [] && CanRecycle(s, s.versionTrashcan[0])
    requires s.versions[s.versionTrashcan[0]].dataWaitTaskByThis == []
    requires var n := s.versions[s.versionTrashcan[0]].next.value;
             s.versions[n].next.None? ==> s.versions[n].dataWaitTaskByThis == []
    ensures SameWaits(s, Swept(s))
  {
  }

  lemma SweepWaits(s: State, h: Shadow, s': State, h': Shadow, over: set<Task>, rs: set<WaitRecord>)
    requires Core(s, h, {}, {}) && WaitsOk(s, h, over, rs) && SameWaits(s, s') && s'.released == s.released
             && h'.done == h.done
    requires forall d :: Pending(h', d) == Pending(h, d)
    ensures WaitsOk(s', h', over, rs)
  {
    hide Core, Honoured, SameEntries, Tallied, NextFree;
    TalliedKept(s, s');
    forall r | r in rs ensures Honoured(s', h', over, r) {
      SameHonoured(s, h, s', h', over, r);
    }
    forall c, u | c in s.versions && u in s.versions[c].dataWaitTaskByThis
      ensures u !in h'.done && NextFree(Pending(h', s.versions[c].signature), s.versions[c].myProducer.value,
              s'.released, u)
    {
      assert Entry(s, h, c, u);
      assert Pending(h', s.versions[c].signature) == Pending(h, s.versions[c].signature);
    }
    EntriesKept(s, h, s', h');
  }

  /** The finishing task is done. */
  lemma DoneWaits(s: State, h: Shadow, over: set<Task>, rs: set<WaitRecord>, t: Task)
    requires WaitsOk(s, h, over, rs) && NotWaiting(s, t)
    ensures WaitsOk(s, h.(done := h.done + {t}), over, rs)
  {
    hide Tallied, NextFree, NotAfterWrite;
    var h' := h.(done := h.done + {t});
    forall c, u | c in s.versions && u in s.versions[c].dataWaitTaskByThis ensures Entry(s, h', c, u) {
      assert Entry(s, h, c, u);
    }
    forall r | r in rs ensures Honoured(s, h', over, r) {
      if !(r.writers <= over) {
        var c :| HonouredBy(s, h, over, r, c);
        assert HonouredBy(s, h', over, r, c);
      }
    }
  }

  // ----- waiting for data

  ghost function WritesBefore(p: seq<Access>, k: nat): set<Task>
    requires k <= |p|
  {
    set j | 0 <= j < k && p[j].write :: p[j].task
  }

  /** How far task `t` has to wait: up to its own write if it has one, else for all of the order. */
  function WaitUpTo(p: seq<Access>, t: Task): (k: nat)
    ensures k <= |p|
  {
    if Does(p, t, true) then IndexOf(p, t) else |p|
  }

  /** The newest version in front of a slot. */
  lemma SlotNewest(s: State, h: Shadow, d: Signature, a: seq<Access>, b: seq<Access>, v: Address)
    requires Structure(s, h) && d in s.vaMap && d in h.lists && Slot(s, h, d, a, b, v) && !AllReads(a)
    ensures Known(s.versions, v) && s.versions[v].last.Some?
    ensures var c, g := s.versions[v].last.value, Versions(a);
            && c in s.versions && s.versions[c].signature == d && c != s.vaMap[d] && s.versions[c].status.IDLE?
            && g != [] && g[|g| - 1].writer.Some? && s.versions[c].myProducer == g[|g| - 1].writer
  {
    hide Versions;
    var full, root, i := h.lists[d], s.vaMap[d], |Versions(a)| - 1;
    assert DatumOk(s, h, d);
    hide Structure;
    VersionsShape(a);
    VersionsSplit(a, b);
    NewestUnproduced(a);
    OwnerLinks(s.versions, d, root, full, |Versions(a)|);
    assert NodeOk(s.versions, d, root, full, i);
    hide Linked;
    assert CellMatch(s.versions[full[i]], Versions(a) + Versions(b), i, s.released);
  }

  lemma LastWriter(p: seq<Access>, k: nat)
    requires NoDup(p) && k <= |p|
    requires var g := Versions(p[..k]); g != [] && g[|g| - 1].writer.Some?
    ensures var g := Versions(p[..k]); var x := g[|g| - 1].writer.value;
            Does(p, x, true) && IndexOf(p, x) < k && forall j :: IndexOf(p, x) < j < k ==> !p[j].write
  {
    hide Versions, NoDup;
    var a := p[..k];
    var i := |Versions(a)| - 1;
    LastWrite(a, i);
    var j := LastWriteAt(a, Versions(a)[i].writer.value);
    assert p[j] == a[j];
    IndexUnique(p, j);
    assert forall n :: j < n < k ==> p[n] == a[n];
  }

  /** The version in which a waiting task is entered: its producer has the last write before `k`. */
  lemma SlotWriter(s: State, h: Shadow, d: Signature, k: nat, v: Address)
    requires Structure(s, h) && Accesses(s, h) && d in s.vaMap && d in h.lists && k <= |Pending(h, d)|
    requires Slot(s, h, d, Pending(h, d)[..k], Pending(h, d)[k..], v) && !AllReads(Pending(h, d)[..k])
    ensures Known(s.versions, v) && s.versions[v].last.Some?
    ensures var c, p := s.versions[v].last.value, Pending(h, d);
            && c in s.versions && s.versions[c].signature == d && c != s.vaMap[d] && s.versions[c].status.IDLE?
            && s.versions[c].myProducer.Some?
            && var x := s.versions[c].myProducer.value;
               Does(p, x, true) && IndexOf(p, x) < k && forall j :: IndexOf(p, x) < j < k ==> !p[j].write
  {
    hide Versions, Free, AllReads, Structure, Slot;
    var p := Pending(h, d);
    SlotNewest(s, h, d, p[..k], p[k..], v);
    assert NoDup(p);
    LastWriter(p, k);
  }

  lemma EmptyReads()
    ensures AllReads([])
  {
  }

  /** The newest version is the one of the last write. */
  lemma {:induction false} LastWrite(a: seq<Access>, i: nat)
    requires i < |Versions(a)| && i == |Versions(a)| - 1 && Versions(a)[i].writer.Some?
    ensures exists j :: 0 <= j < |a| && a[j] == Access(Versions(a)[i].writer.value, true)
              && forall n :: j < n < |a| ==> !a[n].write
  {
    var q, x := a[..|a| - 1], a[|a| - 1];
    VersionsShape(q);
    if x.write {
      assert a[|a| - 1] == Access(Versions(a)[i].writer.value, true);
    } else {
      LastWrite(q, i);
      var j :| 0 <= j < |q| && q[j] == Access(Versions(q)[i].writer.value, true)
        && forall n :: j < n < |q| ==> !q[n].write;
      assert a[j] == q[j];
      assert forall n :: j < n < |q| ==> a[n] == q[n];
    }
  }

  lemma LastWriteAt(a: seq<Access>, x: Task) returns (j: nat)
    requires exists j :: 0 <= j < |a| && a[j] == Access(x, true) && forall n :: j < n < |a| ==> !a[n].write
    ensures j < |a| && a[j] == Access(x, true) && forall n :: j < n < |a| ==> !a[n].write
  {
    j :| 0 <= j < |a| && a[j] == Access(x, true) && forall n :: j < n < |a| ==> !a[n].write;
  }

  /** After the last write before its own place, the next write is the waiting task's own, or none. */
  lemma NextIsOwn(p: seq<Access>, x: Task, k: nat, t: Task)
    requires Does(p, x, true) && IndexOf(p, x) < k <= |p| && (forall j :: IndexOf(p, x) < j < k ==> !p[j].write)
    requires k == |p| || p[k] == Access(t, true)
    ensures NextWrite(p, x).None? || NextWrite(p, x) == Some(t)
  {
    var i := IndexOf(p, x);
    var q := p[i + 1..];
    if k == |p| {
      FirstWriteNone(q);
    } else {
      assert q[k - i - 1] == p[k];
      assert q[..k - i - 1] == p[i + 1..k];
      FirstWriteIs(q, k - i - 1);
    }
  }

  ghost function RecordOf(h: Shadow, t: Task, d: Signature): WaitRecord {
    WaitRecord(t, d, WritesBefore(Pending(h, d), WaitUpTo(Pending(h, d), t)))
  }

  lemma EnterCore(s: State, h: Shadow, v: Address, c: Address, t: Task)
    requires Core(s, h, {}, {}) && Known(s.versions, v) && s.versions[v].last == Some(c) && s.versions[c].status.IDLE?
             && t < |s.tasks|
    requires s.versions[c].signature in s.vaMap && c != s.vaMap[s.versions[c].signature]
    ensures Core(AddDataWait(s, v, t), h, {}, {})
  {
    hide Core, InsOf, OutsOf;
    WaitCore(s, AddDataWait(s, v, t), h, c, s.versions[c].signature, {});
  }

  lemma EnterTally(s: State, v: Address, c: Address, t: Task)
    requires Known(s.versions, v) && s.versions[v].last == Some(c) && s.versions[c].status.IDLE? && t < |s.tasks|
             && Tallied(s)
    ensures Tallied(AddDataWait(s, v, t))
  {
    var s' := AddDataWait(s, v, t);
    TallyAt(s.versions, s'.versions, c);
    forall u | 0 <= u < |s'.tasks| ensures s'.tasks[u].waitDep == Tally(s'.versions)[u] {
      assert (Tally(s'.versions) + multiset(WaitsAt(s.versions, c)))[u]
        == (Tally(s.versions) + multiset(WaitsAt(s'.versions, c)))[u];
    }
  }

  lemma EnterEntries(s: State, h: Shadow, v: Address, c: Address, t: Task)
    requires Entries(s, h) && Known(s.versions, v) && s.versions[v].last == Some(c) && t < |s.tasks|
             && Entry(s, h, c, t)
    ensures Entries(AddDataWait(s, v, t), h)
  {
    hide NextFree;
    var s' := AddDataWait(s, v, t);
    forall a, u | a in s'.versions && u in s'.versions[a].dataWaitTaskByThis ensures Entry(s', h, a, u) {
      if a == c && u == t {
        assert Entry(s, h, c, t);
      } else {
        assert u in s.versions[a].dataWaitTaskByThis;
        assert Entry(s, h, a, u);
      }
    }
  }

  lemma EnterHonoured(s: State, h: Shadow, v: Address, t: Task, over: set<Task>, r: WaitRecord)
    requires Known(s.versions, v) && t < |s.tasks| && Honoured(s, h, over, r)
    ensures Honoured(AddDataWait(s, v, t), h, over, r)
  {
    hide NotAfterWrite;
    if !(r.writers <= over) {
      var c :| HonouredBy(s, h, over, r, c);
      assert HonouredBy(AddDataWait(s, v, t), h, over, r, c);
    }
  }

  /** One datum of a `wait`: the task is entered once if there is a write to wait for. */
  lemma EnterWait(s: State, h: Shadow, over: set<Task>, rs: set<WaitRecord>, t: Task, d: Signature, v: Address,
      nest: NestType)
    requires Core(s, h, {}, {}) && h.dead == map[] && Running(s, h, Some(t)) && Mapped(s, Some(t), d, v, nest, false)
    requires WaitsOk(s, h, over, rs)
    ensures Known(s.versions, v) && Core(AddDataWait(s, v, t), h, {}, {})
    ensures WaitsOk(AddDataWait(s, v, t), h, over, rs + {RecordOf(h, t, d)})
    ensures RecordOf(h, t, d).writers == {} ==> AddDataWait(s, v, t) == s
    ensures RecordOf(h, t, d).writers != {} ==> AddDataWait(s, v, t).tasks[t].waitDep == s.tasks[t].waitDep + 1
  {
    hide Versions, Counts, Holdings, Structure, Accesses, Trash, Does, Slot, AllReads, NoDup, Honoured, Entries,
      Tallied, RecordOf;
    MappedPlace(s, h, Some(t), d, v, nest, false);
    var p := Pending(h, d);
    var k := WaitUpTo(p, t);
    WholeSlice(p);
    SlotLast(s, h, d, p[..k], p[k..], v);
    if AllReads(p[..k]) {
      EmptyRecord(s, h, over, t, d);
      LastNotIdle(s, h, d, p[..k], p[k..], v);
      assert AddDataWait(s, v, t) == s;
    } else {
      SlotWriter(s, h, d, k, v);
      SomeWriter(h, t, d);
      var c := s.versions[v].last.value;
      EnterCore(s, h, v, c, t);
      EnterTally(s, v, c, t);
      NewEntry(s, h, t, d, c, k);
      EnterEntries(s, h, v, c, t);
      NewHonoured(s, h, over, t, d, v, c, k);
      forall r | r in rs ensures Honoured(AddDataWait(s, v, t), h, over, r) {
        EnterHonoured(s, h, v, t, over, r);
      }
    }
  }

  lemma WholeSlice(p: seq<Access>)
    ensures p[..|p|] == p && p[|p|..] == []
  {
  }

  lemma LastNotIdle(s: State, h: Shadow, d: Signature, a: seq<Access>, b: seq<Access>, v: Address)
    requires Structure(s, h) && d in h.lists && d in s.vaMap && Slot(s, h, d, a, b, v) && AllReads(a)
    ensures Known(s.versions, v)
    ensures s.versions[v].last.Some? ==> !s.versions[s.versions[v].last.value].status.IDLE?
  {
    hide Structure, Slot, AllReads;
    SlotLast(s, h, d, a, b, v);
  }

  lemma EmptyRecord(s: State, h: Shadow, over: set<Task>, t: Task, d: Signature)
    requires AllReads(Pending(h, d)[..WaitUpTo(Pending(h, d), t)])
    ensures Honoured(s, h, over, RecordOf(h, t, d)) && RecordOf(h, t, d).writers == {}
  {
    var p, k := Pending(h, d), WaitUpTo(Pending(h, d), t);
    assert forall j :: 0 <= j < k ==> p[j] == p[..k][j];
  }

  lemma SomeWriter(h: Shadow, t: Task, d: Signature)
    requires !AllReads(Pending(h, d)[..WaitUpTo(Pending(h, d), t)])
    ensures RecordOf(h, t, d).writers != {}
  {
    var p, k := Pending(h, d), WaitUpTo(Pending(h, d), t);
    var j :| 0 <= j < k && p[..k][j].write;
    assert p[j].task in WritesBefore(p, k);
  }

  /** Only entries of waiting tasks differ, so the state is as sound as before. */
  lemma WaitSound(s: State, s': State, h: Shadow, g: History)
    requires Sound(s, h, g) && Core(s', h, {}, {}) && |s'.tasks| == |s.tasks| && s'.released == s.released
    requires s'.versionTrashcan == s.versionTrashcan
    requires forall u :: 0 <= u < |s.tasks| ==> s'.tasks[u].submitDep == s.tasks[u].submitDep
    ensures Sound(s', h, g)
  {
    hide Core, AllExclusive, AllSorted;
  }

  lemma NewEntry(s: State, h: Shadow, t: Task, d: Signature, c: Address, k: nat)
    requires Core(s, h, {}, {}) && h.dead == map[] && Running(s, h, Some(t)) && k == WaitUpTo(Pending(h, d), t)
    requires c in s.versions && s.versions[c].signature == d && s.versions[c].status.IDLE?
             && s.versions[c].myProducer.Some?
    requires var p, x := Pending(h, d), s.versions[c].myProducer.value;
             Does(p, x, true) && IndexOf(p, x) < k && forall j :: IndexOf(p, x) < j < k ==> !p[j].write
    ensures Entry(s, h, c, t)
  {
    hide Structure, Counts, Accesses, Holdings, Trash, NextWrite;
    NotTrash(s, h, c);
    var p := Pending(h, d);
    assert k < |p| ==> p[k] == Access(t, true);
    NextIsOwn(p, s.versions[c].myProducer.value, k, t);
  }

  lemma NewHonoured(s: State, h: Shadow, over: set<Task>, t: Task, d: Signature, v: Address, c: Address, k: nat)
    requires Accesses(s, h) && k == WaitUpTo(Pending(h, d), t) && t < |s.tasks|
    requires Known(s.versions, v) && s.versions[v].last == Some(c) && s.versions[c].status.IDLE?
    requires c in s.versions && s.versions[c].signature == d && s.versions[c].myProducer.Some?
    requires var p, x := Pending(h, d), s.versions[c].myProducer.value;
             Does(p, x, true) && IndexOf(p, x) < k && forall j :: IndexOf(p, x) < j < k ==> !p[j].write
    ensures Honoured(AddDataWait(s, v, t), h, over, RecordOf(h, t, d))
  {
    hide Free, Versions;
    var p, x, r, s' := Pending(h, d), s.versions[c].myProducer.value, RecordOf(h, t, d), AddDataWait(s, v, t);
    assert NoDup(p);
    forall w | w in r.writers ensures NotAfterWrite(p, w, x) {
      var j :| 0 <= j < k && p[j].write && p[j].task == w;
      IndexUnique(p, j);
    }
    assert HonouredBy(s', h, over, r, c);
  }

  /** A wait is over only when every write it was for is done. */
  lemma WaitIsOver(s: State, h: Shadow, over: set<Task>, rs: set<WaitRecord>, r: WaitRecord)
    requires WaitsOk(s, h, over, rs) && r in rs && r.task < |s.tasks| && s.tasks[r.task].waitDep <= 0
    ensures r.writers <= over
  {
    assert Honoured(s, h, over, r);
    assert s.tasks[r.task].waitDep == Tally(s.versions)[r.task];
    ZeroMeansNone(s, r.task);
  }
}
