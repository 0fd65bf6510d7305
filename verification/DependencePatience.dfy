/** Waits for data that go with the sequential order of the tasks: nobody waits for a task that comes later.
    Every operation of the dependence manager keeps this. */
module DependencePatience {
  import opened Wrappers
  import opened AccessOrder
  import opened VersionList
  import opened Dependence
  import opened DependenceInv
  import opened DependenceCounts
  import opened DependenceSteps
  import opened DependenceOrder
  import opened TaskOrder
  import opened DependenceWaits
  import opened DependenceWaitSteps

  /** Task `u` is entered in a version that `w` has yet to produce. */
  ghost predicate EnteredFor(s: State, c: Address, u: Task, w: Task) {
    c in s.versions && u in s.versions[c].dataWaitTaskByThis && s.versions[c].myProducer == Some(w)
  }

  /** Nobody is entered for a task that comes later in the sequential order. */
  ghost predicate Patient(s: State, order: seq<Task>) {
    forall c, u, w :: EnteredFor(s, c, u, w) ==> Rank(order, w) < Rank(order, u)
  }

  lemma PatientSame(s: State, s': State, order: seq<Task>)
    requires Patient(s, order) && SameEntries(s, s')
    ensures Patient(s', order)
  {
    hide Rank;
    forall c, u, w | EnteredFor(s', c, u, w) ensures Rank(order, w) < Rank(order, u) {
      assert WaitsAt(s'.versions, c) == WaitsAt(s.versions, c);
      assert EnteredFor(s, c, u, w);
    }
  }

  // ----- submission

  lemma EntryTasks(s: State, h: Shadow, c: Address, u: Task, w: Task)
    requires Core(s, h, {}, {}) && Entries(s, h) && EnteredFor(s, c, u, w)
    ensures u < |s.tasks| && w < |s.tasks| && w !in h.done
  {
    hide Core, NextFree, Does;
    assert Entry(s, h, c, u);
    ProducerDoes(s, h, c, {});
    CoreAccess(s, h, {});
    WriterPending(s, h, s.versions[c].signature, w);
  }

  lemma WriterPending(s: State, h: Shadow, d: Signature, w: Task)
    requires Accesses(s, h) && d in h.pend && Does(h.pend[d], w, true)
    ensures w < |s.tasks| && w !in h.done
  {
    hide NoDup, Free, Versions;
    assert h.pend[d][IndexOf(h.pend[d], w)].task == w;
  }

  /** A new task in the order changes nothing between the others. */
  lemma PatientEnlist(s: State, h: Shadow, order: seq<Task>, parent: Option<Task>, t: Task)
    requires Core(s, h, {}, {}) && Entries(s, h) && Patient(s, order) && t == |s.tasks| && t !in order
    ensures Patient(s, Enlist(order, parent, t))
  {
    hide Core, Entries, Rank, Enlist;
    forall c, u, w | EnteredFor(s, c, u, w)
        ensures Rank(Enlist(order, parent, t), w) < Rank(Enlist(order, parent, t), u) {
      EntryTasks(s, h, c, u, w);
      EnlistRank(order, parent, t, u);
      EnlistRank(order, parent, t, w);
    }
  }

  // ----- completion

  /** A version that is passed on is passed on to an earlier task. */
  lemma PatientPassed(s: State, h: Shadow, s': State, v: Address, d: Signature, t: Task, x: Option<Task>,
      order: seq<Task>)
    requires Patient(s, order) && SameButOne(s, s', v)
    requires WaitsAt(s'.versions, v) == []
             || (x.Some? && PassedOn(s, h, s', v, d, t, x.value) && Sorted(h.pend[d], order))
    ensures Patient(s', order)
  {
    hide Rank, NoDup, Does, NextWrite, Sorted;
    forall c, u, w | EnteredFor(s', c, u, w) ensures Rank(order, w) < Rank(order, u) {
      if c != v {
        assert WaitsAt(s'.versions, c) == WaitsAt(s.versions, c);
        assert EnteredFor(s, c, u, w);
      } else {
        assert WaitsAt(s'.versions, v) != [];
        assert EnteredFor(s, v, u, t);
        EarlierWrite(h.pend[d], w, t, order);
      }
    }
  }

  lemma EarlierWrite(p: seq<Access>, x: Task, t: Task, order: seq<Task>)
    requires NoDup(p) && Sorted(p, order) && x != t && Does(p, x, true) && NextWrite(p, x) == Some(t)
    ensures Rank(order, x) < Rank(order, t)
  {
    hide Rank;
    var i := IndexOf(p, x);
    var k := FirstWriteAt(p[i + 1..]);
    assert p[i + 1 + k] == p[i + 1..][k] == Access(t, true);
    assert Conflict(p[i], p[i + 1 + k]);
  }

  lemma ProducedPatient(s: State, h: Shadow, t: Task, v: Address, order: seq<Task>)
    requires Core(s, h, {}, {t}) && t < |s.tasks| && t in s.released && Entries(s, h) && Tallied(s) && NotWaiting(s, t)
    requires CanProduce(s, v) && v in OutsOf(s, t) && s.versions[v].signature !in h.dead
    requires Mergeable(Pending(h, s.versions[v].signature), t)
    requires Patient(s, order) && Sorted(Pending(h, s.versions[v].signature), order)
    ensures Patient(OnProduced(s, v), order)
  {
    assert Known(s.versions, v);
    hide Core, Tallied, Entries, Mergeable, Merges, OnProduced, Rank, Sorted, NotWaiting, SameButOne, CanProduce,
      OutsOf;
    var d, s' := s.versions[v].signature, OnProduced(s, v);
    if Merges(s.versions, v) {
      MergedPassed(s, h, s', d, t, v);
      assert PassedOn(s, h, s', v, d, t, s'.versions[v].myProducer.value);
      PatientPassed(s, h, s', v, d, t, s'.versions[v].myProducer, order);
    } else {
      ProducedEntries(s, v);
      PatientPassed(s, h, s', v, d, t, None, order);
    }
  }

  // ----- waiting

  /** All writers that a wait for `deps` is for come before the waiting task. */
  ghost predicate WaitsEarlier(h: Shadow, order: seq<Task>, t: Task, deps: seq<Signature>) {
    forall d, w :: d in deps && w in RecordOf(h, t, d).writers ==> Rank(order, w) < Rank(order, t)
  }

  lemma PatientEnter(s: State, h: Shadow, t: Task, d: Signature, v: Address, nest: NestType, order: seq<Task>)
    requires Core(s, h, {}, {}) && h.dead == map[] && Running(s, h, Some(t)) && Mapped(s, Some(t), d, v, nest, false)
             && t < |s.tasks|
    requires Patient(s, order) && forall w :: w in RecordOf(h, t, d).writers ==> Rank(order, w) < Rank(order, t)
    ensures Known(s.versions, v) && Patient(AddDataWait(s, v, t), order)
  {
    hide Versions, Counts, Holdings, Structure, Accesses, Trash, Does, Slot, AllReads, NoDup, Rank, Patient;
    MappedPlace(s, h, Some(t), d, v, nest, false);
    var p := Pending(h, d);
    var k := WaitUpTo(p, t);
    WholeSlice(p);
    SlotLast(s, h, d, p[..k], p[k..], v);
    if AllReads(p[..k]) {
      LastNotIdle(s, h, d, p[..k], p[k..], v);
      assert AddDataWait(s, v, t) == s;
    } else {
      SlotWriter(s, h, d, k, v);
      var c := s.versions[v].last.value;
      WriterRecorded(h, t, d, s.versions[c].myProducer.value, k);
      PatientEntered(s, v, c, t, order);
    }
  }

  lemma WriterRecorded(h: Shadow, t: Task, d: Signature, x: Task, k: nat)
    requires k == WaitUpTo(Pending(h, d), t) && Does(Pending(h, d), x, true) && IndexOf(Pending(h, d), x) < k
    ensures x in RecordOf(h, t, d).writers
  {
    var p := Pending(h, d);
    assert p[IndexOf(p, x)].write && p[IndexOf(p, x)].task == x;
  }

  lemma PatientEntered(s: State, v: Address, c: Address, t: Task, order: seq<Task>)
    requires Known(s.versions, v) && s.versions[v].last == Some(c) && t < |s.tasks| && Patient(s, order)
    requires s.versions[c].myProducer.Some? && Rank(order, s.versions[c].myProducer.value) < Rank(order, t)
    ensures Patient(AddDataWait(s, v, t), order)
  {
    hide Rank;
    var s' := AddDataWait(s, v, t);
    forall a, u, w | EnteredFor(s', a, u, w) ensures Rank(order, w) < Rank(order, u) {
      assert EnteredFor(s, a, u, w) || (a == c && u == t);
    }
  }
}
