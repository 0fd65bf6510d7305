/** `SDependenceManager` together with the state of `Entity`: what `criticalMutex_` protects, and
    the methods that work on it in place. A method call is one critical section. */
module DependenceManager {
  import opened Wrappers
  import opened AccessOrder
  import opened VersionList
  import opened Dependence
  import opened DependenceInv
  import opened DependenceCounts
  import opened DependenceSteps
  import opened DependenceFinish
  import opened DependenceOrder
  import opened DependenceRun
  import opened TaskOrder
  import opened DependenceSafety
  import opened DependenceWaits
  import opened DependenceWaitSteps
  import opened DependencePatience

  /** One entry of `ffrt_deps_t`: the address of a datum, or a task handle. */
  datatype Dep = Dep(ptr: Signature, isHandle: bool)

  function Pointers(deps: seq<Dep>): (r: seq<Signature>)
    ensures |r| == |deps|
    ensures forall i :: 0 <= i < |deps| ==> r[i] == deps[i].ptr
  {
    seq(|deps|, i requires 0 <= i < |deps| => deps[i].ptr)
  }

  method CheckOutsHandle(outs: seq<Dep>) returns (ok: bool)
    ensures ok <==> forall i :: 0 <= i < |outs| ==> !outs[i].isHandle
  {
    for i := 0 to |outs|
      invariant forall j :: 0 <= j < i ==> !outs[j].isHandle
    {
      if outs[i].isHandle {
        return false;
      }
    }
    return true;
  }

  method OutsDedup(outs: seq<Dep>) returns (outsNoDup: seq<Signature>)
    ensures forall i, j :: 0 <= i < j < |outsNoDup| ==> outsNoDup[i] != outsNoDup[j]
    ensures forall d :: d in outsNoDup <==> d in Pointers(outs)
  {
    outsNoDup := [];
    for i := 0 to |outs|
      invariant forall i, j :: 0 <= i < j < |outsNoDup| ==> outsNoDup[i] != outsNoDup[j]
      invariant forall d :: d in outsNoDup <==> d in Pointers(outs)[..i]
    {
      if outs[i].ptr !in outsNoDup {
        outsNoDup := outsNoDup + [outs[i].ptr];
      }
      assert Pointers(outs)[..i + 1] == Pointers(outs)[..i] + [outs[i].ptr];
    }
    assert Pointers(outs)[..|outs|] == Pointers(outs);
  }

  /** Inputs that are also outputs are dropped; the others are kept as often as they were given. */
  method InsDedup(ins: seq<Dep>, outsNoDup: seq<Signature>) returns (insNoDup: seq<Signature>)
    ensures forall d :: multiset(insNoDup)[d] == if d in outsNoDup then 0 else multiset(Pointers(ins))[d]
  {
    insNoDup := [];
    var ptrs := Pointers(ins);
    for i := 0 to |ins|
      invariant forall d :: multiset(insNoDup)[d] == if d in outsNoDup then 0 else multiset(ptrs[..i])[d]
    {
      if ins[i].ptr !in outsNoDup {
        insNoDup := insNoDup + [ins[i].ptr];
      }
      assert ptrs[..i + 1] == ptrs[..i] + [ins[i].ptr];
    }
    assert ptrs[..|ins|] == ptrs;
  }

  lemma DecDepRefsStep(s: State, us: set<Task>, u: Task)
    requires Owed(s, us + {u}) && u !in us
    ensures Owed(s, us) && Owed(DecDepRefs(s, us), {u})
    ensures DecDepRefs(DecDepRefs(s, us), {u}) == DecDepRefs(s, us + {u})
  {
    var s1, s2 := DecDepRefs(DecDepRefs(s, us), {u}), DecDepRefs(s, us + {u});
    assert s1.tasks == s2.tasks;
    assert s1.released == s2.released;
  }

  lemma DecDepRefsNone(s: State)
    ensures DecDepRefs(s, {}) == s
  {
    assert DecDepRefs(s, {}).tasks == s.tasks;
    assert DecDepRefs(s, {}).released == s.released;
  }

  lemma DecWaitRefsStep(s: State, us: seq<Task>, u: Task)
    requires u < |s.tasks|
    ensures var s1 := DecWaitRefs(s, us);
            s1.(tasks := s1.tasks[u := s1.tasks[u].(waitDep := s1.tasks[u].waitDep - 1)]) == DecWaitRefs(s, us + [u])
  {
    var s1 := DecWaitRefs(s, us);
    assert s1.tasks[u := s1.tasks[u].(waitDep := s1.tasks[u].waitDep - 1)] == DecWaitRefs(s, us + [u]).tasks;
  }

  lemma DecWaitRefsNone(s: State)
    ensures DecWaitRefs(s, []) == s
  {
    assert DecWaitRefs(s, []).tasks == s.tasks;
  }

  /** `MergeConsumerInDep` for some of the consumers of `c`. */
  function Redirected(tasks: seq<TaskCtx>, us: set<Task>, v: Address, c: Address): seq<TaskCtx> {
    seq(|tasks|, u requires 0 <= u < |tasks| =>
          if u in us then tasks[u].(ins := tasks[u].ins + {v} - {c}) else tasks[u])
  }

  lemma RedirectedStep(tasks: seq<TaskCtx>, us: set<Task>, u: Task, v: Address, c: Address)
    requires u < |tasks| && u !in us
    ensures var r := Redirected(tasks, us, v, c);
            r[u := r[u].(ins := r[u].ins + {v} - {c})] == Redirected(tasks, us + {u}, v, c)
  {
  }

  lemma {:induction false} SpareAddress(m: set<Address>) returns (a: Address)
    ensures forall b :: b in m ==> b < a
    decreases m
  {
    if m == {} {
      a := 0;
    } else {
      var b :| b in m;
      assert m == m - {b} + {b};
      a := SpareAddress(m - {b});
      if a <= b {
        a := b + 1;
      }
    }
  }

  /** The tasks a version refers to exist. */
  ghost predicate KnownTasks(s: State, v: Address) {
    v in s.versions
    && (forall u :: u in s.versions[v].consumers ==> u < |s.tasks|)
    && (forall u :: u in s.versions[v].dataWaitTaskByThis ==> u < |s.tasks|)
  }

  /** Some of `deps` have got a root record, and nothing else has changed. */
  ghost predicate Rooted(h: Shadow, h': Shadow, deps: seq<Signature>) {
    && h' == h.(lists := h'.lists)
    && (forall d :: d in h.lists ==> d in h'.lists && h'.lists[d] == h.lists[d])
    && (forall d :: d in h'.lists && d !in h.lists ==> d in deps)
  }

  lemma RootedStep(h0: Shadow, h: Shadow, h': Shadow, deps: seq<Signature>, i: nat)
    requires i < |deps| && Rooted(h0, h, deps[..i]) && Rooted(h, h', [deps[i]])
    ensures Rooted(h0, h', deps[..i + 1])
  {
    assert deps[..i + 1] == deps[..i] + [deps[i]];
  }

  lemma RootOf(s: State, h: Shadow, d: Signature)
    requires Core(s, h, {}, {}) && d in s.vaMap
    ensures s.vaMap[d] in s.versions && s.versions[s.vaMap[d]].signature == d
  {
    hide Matches, Versions, Counts, Accesses, Holdings, Trash;
    assert DatumOk(s, h, d);
  }

  lemma UnknownDatum(s: State, h: Shadow, d: Signature)
    requires Core(s, h, {}, {}) && d !in s.vaMap
    ensures d !in h.lists
  {
    hide DatumOk, Counts, Accesses, Holdings, Trash;
  }

  lemma StillMapped(s: State, h: Shadow, s': State, t: Task, parent: Option<Task>, deps: seq<Signature>,
                    vs: seq<(Address, NestType)>, input: bool)
    requires Core(s, h, {}, {}) && Running(s, h, parent) && Grown(s, s', t) && parent != Some(t)
    requires |vs| == |deps| && forall j :: 0 <= j < |deps| ==> Mapped(s, parent, deps[j], vs[j].0, vs[j].1, input)
    ensures forall j :: 0 <= j < |deps| ==> Mapped(s', parent, deps[j], vs[j].0, vs[j].1, input)
  {
    hide Core, Mapped, Grown;
    ParentKnown(s, h, parent);
    forall j | 0 <= j < |deps| ensures Mapped(s', parent, deps[j], vs[j].0, vs[j].1, input) {
      MappedGrown(s, s', t, parent, deps[j], vs[j].0, vs[j].1, input);
    }
  }

  lemma EmptySound()
    ensures Sound(State(map[], map[], [], [], {}), Shadow(map[], map[], map[], [], {}), History([], [], true))
  {
  }

  lemma RootedBoth(h: Shadow, h1: Shadow, h2: Shadow, ins: seq<Signature>, outs: seq<Signature>)
    requires Rooted(h, h1, ins) && Rooted(h1, h2, outs)
    ensures Rooted(h, h2, ins + outs)
  {
  }

  lemma GrownTrans(s: State, s1: State, s2: State, t: Task)
    requires Grown(s, s1, t) && Grown(s1, s2, t)
    ensures Grown(s, s2, t)
  {
  }

  lemma SubmittingRooted(s: State, s': State, h: Shadow, h': Shadow, parent: Option<Task>, t: Task)
    requires Submitting(s, h, h, parent, t, [], []) && h' == h.(lists := h'.lists)
    requires Core(s', h', {}, {}) && Grown(s, s', t)
    ensures Submitting(s', h', h', parent, t, [], [])
  {
    hide Core, Occurs, DepSet, Place;
    assert h'.surplus[t := 0] == h'.surplus;
    forall d ensures !Occurs(Pending(h', d), t) {
      assert !Occurs(Pending(h, d), t);
    }
  }

  lemma MappedKnown(s: State, h: Shadow, parent: Option<Task>, d: Signature, v: Address, nest: NestType, input: bool)
    requires Core(s, h, {}, {}) && h.dead == map[] && Running(s, h, parent) && Mapped(s, parent, d, v, nest, input)
    ensures Known(s.versions, v) && s.versions[v].last != Some(v)
  {
    hide Versions, Counts, Accesses, Holdings, Trash, Does, AllReads, Matches;
    assert Placed(s, h, v);
    assert DatumOk(s, h, d);
    if v == s.vaMap[d] {
      assert h.lists[d] != [] ==> NodeOk(s.versions, d, s.vaMap[d], h.lists[d], |h.lists[d]| - 1);
    } else {
      var i :| 0 <= i < |h.lists[d]| && h.lists[d][i] == v;
      assert NodeOk(s.versions, d, s.vaMap[d], h.lists[d], i);
      assert i > 0 ==> NodeOk(s.versions, d, s.vaMap[d], h.lists[d], i - 1);
    }
  }

  lemma SubmitInput(s: State, h0: Shadow, h: Shadow, parent: Option<Task>, t: Task, ins: seq<Signature>, i: nat,
                    v: Address, nest: NestType, block: Address) returns (h': Shadow)
    requires i < |ins| && Submitting(s, h0, h, parent, t, ins[..i], []) && Mapped(s, parent, ins[i], v, nest, true)
             && block !in s.versions
    ensures Known(s.versions, v)
    ensures Submitting(AddConsumer(s, v, t, nest, block), h0, h', parent, t, ins[..i + 1], [])
    ensures Grown(s, AddConsumer(s, v, t, nest, block), t)
  {
    hide Submitting, Mapped, Grown, AddConsumer;
    assert ins[..i + 1] == ins[..i] + [ins[i]];
    if ins[i] in ins[..i] {
      h' := SubmitAgain(s, h0, h, parent, t, ins[..i], ins[i], v, nest, block);
    } else {
      h' := SubmitFirst(s, h0, h, parent, t, ins[..i], ins[i], v, nest, block);
    }
  }

  // ----- what onSubmit promises

  predicate Writes(outs: seq<Dep>, handle: Option<Signature>, d: Signature) {
    d in Pointers(outs) || handle == Some(d)
  }

  /** The order of a datum after the submission of `t`. */
  function Ordered(p: seq<Access>, parent: Option<Task>, t: Task, write: bool, read: bool): seq<Access> {
    if write then Place(p, parent, Access(t, true)) else if read then Place(p, parent, Access(t, false)) else p
  }

  ghost predicate WaitsForNothing(h: Shadow, t: Task) {
    forall d :: !Blocked(Pending(h, d), t)
  }

  /** No input that the task has to wait for was given twice. */
  ghost predicate NoAwaitedRepeat(h: Shadow, t: Task, ins: seq<Dep>, outs: seq<Dep>, handle: Option<Signature>) {
    forall d :: Blocked(Pending(h, d), t) && !Writes(outs, handle, d) ==> multiset(Pointers(ins))[d] <= 1
  }

  /** The new task keeps to the data of its parent. */
  ghost predicate Within(h: Shadow, parent: Option<Task>, ins: seq<Dep>, outs: seq<Dep>, handle: Option<Signature>) {
    forall d :: (Writes(outs, handle, d) ==> Covered(Pending(h, d), parent, true))
             && (d in Pointers(ins) && !Writes(outs, handle, d) ==> Covered(Pending(h, d), parent, false))
  }

  /** The lists handed to the registration hold what was asked for. */
  ghost predicate Deduped(ins: seq<Dep>, outs: seq<Dep>, handle: Option<Signature>, insNoDup: seq<Signature>,
      outsNoDup: seq<Signature>) {
    && (forall i, j :: 0 <= i < j < |outsNoDup| ==> outsNoDup[i] != outsNoDup[j])
    && (forall d :: d in outsNoDup <==> Writes(outs, handle, d))
    && (forall d :: d in insNoDup <==> d in Pointers(ins) && !Writes(outs, handle, d))
    && (forall d :: !Writes(outs, handle, d) ==> multiset(insNoDup)[d] == multiset(Pointers(ins))[d])
  }

  lemma DedupMembers(ins: seq<Dep>, outs: seq<Dep>, handle: Option<Signature>, insNoDup: seq<Signature>,
      outs0: seq<Signature>, outsNoDup: seq<Signature>)
    requires handle.Some? ==> handle.value !in Pointers(ins) && handle.value !in Pointers(outs)
    requires forall i, j :: 0 <= i < j < |outs0| ==> outs0[i] != outs0[j]
    requires forall d :: d in outs0 <==> d in Pointers(outs)
    requires forall d :: multiset(insNoDup)[d] == if d in outs0 then 0 else multiset(Pointers(ins))[d]
    requires outsNoDup == if handle.Some? then outs0 + [handle.value] else outs0
    ensures Deduped(ins, outs, handle, insNoDup, outsNoDup)
  {
    forall d ensures d in insNoDup <==> d in Pointers(ins) && !Writes(outs, handle, d) {
      assert d in insNoDup <==> multiset(insNoDup)[d] > 0;
      assert d in Pointers(ins) <==> multiset(Pointers(ins))[d] > 0;
    }
  }

  method RemoveRepeatedDeps(ins: seq<Dep>, outs: seq<Dep>, handle: Option<Signature>)
    returns (insNoDup: seq<Signature>, outsNoDup: seq<Signature>)
    requires handle.Some? ==> handle.value !in Pointers(ins) && handle.value !in Pointers(outs)
    ensures Deduped(ins, outs, handle, insNoDup, outsNoDup)
  {
    var outs0 := OutsDedup(outs);
    insNoDup := InsDedup(ins, outs0);
    outsNoDup := if handle.Some? then outs0 + [handle.value] else outs0;
    DedupMembers(ins, outs, handle, insNoDup, outs0, outsNoDup);
  }

  lemma SameSinceCreation(s: State, s': State)
    requires SameWaits(NewTask(s), s')
    ensures SameEntries(s, s')
  {
    SameEntriesTrans(s, NewTask(s), s');
  }

  lemma SameEntriesSelf(s: State)
    ensures SameEntries(s, s)
  {
  }

  lemma SameEntriesOn(s: State, s1: State, s2: State)
    requires SameEntries(s, s1) && SameWaits(s1, s2)
    ensures SameEntries(s, s2)
  {
    SameEntriesTrans(s, s1, s2);
  }

  lemma SameReleased(s: State, s1: State, s2: State)
    requires SameEntries(s, s1) && s2.versions == s1.versions && s2.versionTrashcan == s1.versionTrashcan
    ensures SameEntries(s, s2)
  {
  }

  lemma SubmitPatient(s: State, h: Shadow, g: History, rs: set<WaitRecord>, s': State, parent: Option<Task>)
    requires Sound(s, h, g) && WaitsOk(s, h, h.done, rs) && Patient(s, g.order) && SameEntries(s, s')
    ensures Patient(s', Enlist(g.order, parent, |s.tasks|))
  {
    hide Core, SameEntries, Patient, Enlist, AllExclusive, AllSorted, Honoured, Tallied, Entries;
    PatientEnlist(s, h, g.order, parent, |s.tasks|);
    PatientSame(s, s', Enlist(g.order, parent, |s.tasks|));
  }

  lemma StillAsleep(tasks: seq<TaskCtx>, s1: State, s: State, sleeping: set<Task>)
    requires s1.tasks == tasks + [TaskCtx({}, {}, 0, 0)] && SameWaits(s1, s)
    requires forall u :: u in sleeping ==> u < |tasks| && tasks[u].waitDep > 0
    ensures forall u :: u in sleeping ==> u < |s.tasks| && s.tasks[u].waitDep > 0
    ensures SameWaitCounts(s1.tasks, s.tasks)
  {
  }

  lemma NewSubmitting(s: State, h: Shadow, g: History, parent: Option<Task>)
    requires Sound(s, h, g) && Running(s, h, parent)
    ensures var s1, h1 := NewTask(s), h.(surplus := h.surplus + [0]);
            Core(s1, h1, {}, {}) && Submitting(s1, h1, h1, parent, |s.tasks|, [], []) && s.versionTrashcan == []
  {
    hide Structure, Holdings, Trash, AllExclusive, AllSorted, DepSet, NoDup, Free, Versions;
    var t, s1, h1 := |s.tasks|, NewTask(s), h.(surplus := h.surplus + [0]);
    assert t !in s.released;
    NewTaskCore(s, h);
    assert h1.surplus[t := 0] == h1.surplus;
    forall d ensures !Occurs(Pending(h1, d), t) {
    }
  }

  lemma WaitsEntries(s: State, h: Shadow, over: set<Task>, rs: set<WaitRecord>)
    requires WaitsOk(s, h, over, rs)
    ensures Entries(s, h)
  {
  }

  lemma RootedSelf(h: Shadow)
    ensures Rooted(h, h, [] + [])
  {
  }

  lemma GrownSelf(s: State, t: Task)
    ensures Grown(s, s, t) && SameWaits(s, s)
  {
  }

  /** All registrations of the new task `t` are made; only `Ready` may be left to do. */
  ghost predicate SubmitOutcome(s0: State, hs: Shadow, g: History, s: State, h: Shadow, rs: set<WaitRecord>,
                                parent: Option<Task>, t: Task, ins: seq<Signature>, outs: seq<Signature>) {
    && |s.tasks| == t + 1 && s.released == s0.released && h.done == hs.done
    && Sound(Readying(s, t), h, Logged(g, parent, t, AllCovered(hs, parent, ins, outs)))
    && WaitsOk(Readying(s, t), h, hs.done, rs)
    && (t in Readying(s, t).released <==> DepSet(h.pend, t) == {})
    && |h.surplus| == t + 1 && h.surplus[t] == Repeats(ins, DepSet(h.pend, t)) && h.surplus[..t] == hs.surplus
    && SpreadOver(hs, h, parent, t, ins, outs)
  }

  lemma SubmitDone(s0: State, hs: Shadow, g: History, h1: Shadow, h0: Shadow, s1: State, s: State, h: Shadow,
      rs: set<WaitRecord>, parent: Option<Task>, t: Task, ins: seq<Signature>, outs: seq<Signature>)
    requires Sound(s0, hs, g) && t == |s0.tasks| && Running(s0, hs, parent) && WaitsOk(s1, h1, hs.done, rs)
             && Core(s1, h1, {}, {})
    requires s1 == NewTask(s0) && h1 == hs.(surplus := hs.surplus + [0]) && Rooted(h1, h0, ins + outs)
    requires Submitting(s, h0, h, parent, t, ins, outs) && SameWaits(s1, s) && Grown(s1, s, t)
    ensures SubmitOutcome(s0, hs, g, s, h, rs, parent, t, ins, outs)
  {
    hide Core, SpreadOver, Occurs, DepSet, SameEntries, WaitsOk, AllExclusive, AllSorted, AllCovered, Enlist;
    assert forall u :: 0 <= u < t ==> s.tasks[u] == s0.tasks[u];
    SubmitSound(s0, hs, g, h0, s, h, parent, t, ins, outs);
    SubmitWaits(s1, h1, h0, s, h, hs.done, rs, parent, t, ins, outs);
    SpreadSame(hs, h0, h, parent, t, ins, outs);
    assert h.surplus[..t] == hs.surplus;
  }

  lemma NothingAwaited(s: State, h: Shadow, t: Task)
    requires Accesses(s, h)
    ensures forall d :: d in DepSet(h.pend, t) <==> Blocked(Pending(h, d), t)
    ensures WaitsForNothing(h, t) <==> DepSet(h.pend, t) == {}
  {
    hide Blocked, Versions, Accesses, DepSet;
    forall d ensures d in DepSet(h.pend, t) <==> Blocked(Pending(h, d), t) {
      if d in h.pend {
        WaitsIff(s, h, d, t);
      } else {
        EmptyUnblocked(h, d, t);
      }
    }
  }

  lemma EmptyUnblocked(h: Shadow, d: Signature, t: Task)
    requires d !in h.pend
    ensures !Blocked(Pending(h, d), t) && d !in DepSet(h.pend, t)
  {
    hide Versions;
  }

  lemma SubmitPromise(hs: Shadow, s: State, h: Shadow, parent: Option<Task>, t: Task, ins: seq<Dep>, outs: seq<Dep>,
      handle: Option<Signature>, insNoDup: seq<Signature>, outsNoDup: seq<Signature>, g: History)
    requires Deduped(ins, outs, handle, insNoDup, outsNoDup) && SpreadOver(hs, h, parent, t, insNoDup, outsNoDup)
             && Sound(s, h, g)
    requires t < |h.surplus| && h.surplus[t] == Repeats(insNoDup, DepSet(h.pend, t))
    ensures forall d :: Pending(h, d) == Ordered(Pending(hs, d), parent, t, Writes(outs, handle, d), d in Pointers(ins))
    ensures WaitsForNothing(h, t) <==> DepSet(h.pend, t) == {}
    ensures h.surplus[t] == 0 <==> NoAwaitedRepeat(h, t, ins, outs, handle)
    ensures AllCovered(hs, parent, insNoDup, outsNoDup) <==> Within(hs, parent, ins, outs, handle)
  {
    hide Structure, Counts, Holdings, Trash, Accesses, AllExclusive, AllSorted, DepSet, Blocked, Place, Covered,
      Settled, Stranded, Repeats, WaitsForNothing, Writes, Ordered, SpreadOver;
    SubmitOrder(hs, h, parent, t, ins, outs, handle, insNoDup, outsNoDup);
    NothingAwaited(s, h, t);
    RepeatsZero(insNoDup, DepSet(h.pend, t));
    forall d ensures multiset(insNoDup)[d] <= 1 <==> Writes(outs, handle, d) || multiset(Pointers(ins))[d] <= 1 {
      assert d in insNoDup <==> multiset(insNoDup)[d] > 0;
    }
  }

  lemma SubmitOrder(hs: Shadow, h: Shadow, parent: Option<Task>, t: Task, ins: seq<Dep>, outs: seq<Dep>,
      handle: Option<Signature>, insNoDup: seq<Signature>, outsNoDup: seq<Signature>)
    requires Deduped(ins, outs, handle, insNoDup, outsNoDup) && SpreadOver(hs, h, parent, t, insNoDup, outsNoDup)
    ensures forall d :: Pending(h, d) == Ordered(Pending(hs, d), parent, t, Writes(outs, handle, d), d in Pointers(ins))
  {
    hide Place, Writes;
    forall d ensures Pending(h, d) == Ordered(Pending(hs, d), parent, t, Writes(outs, handle, d), d in Pointers(ins)) {
      assert Pending(h, d) == Spread(Pending(hs, d), parent, t, d, insNoDup, outsNoDup);
    }
  }

  lemma SpreadSame(hs: Shadow, h0: Shadow, h: Shadow, parent: Option<Task>, t: Task, ins: seq<Signature>,
      outs: seq<Signature>)
    requires h0.pend == hs.pend && SpreadOver(h0, h, parent, t, ins, outs)
    ensures SpreadOver(hs, h, parent, t, ins, outs)
  {
    hide Spread;
    forall d ensures Pending(hs, d) == Pending(h0, d) {
    }
  }

  // ----- completion

  /** A task may finish: nothing has been given up yet. */
  lemma FinishBegin(s: State, h: Shadow, g: History, rs: set<WaitRecord>, t: Task)
    requires Sound(s, h, g) && WaitsOk(s, h, h.done, rs) && t < |s.tasks| && t in s.released && t !in h.done
             && s.tasks[t].waitDep == 0
    ensures Finishing(s, h, s, h, t) && s.tasks[t].ins == InsOf(s, t) && s.tasks[t].outs == OutsOf(s, t)
    ensures WaitsOk(s, h, h.done + {t}, rs) && NotWaiting(s, t)
  {
    hide Structure, Counts, Trash, InsOf, OutsOf, DepSet, Free, Honoured, Entries, AllExclusive, AllSorted;
    assert Core(s, h, {}, {t});
    forall r | r in rs ensures Honoured(s, h, h.done + {t}, r) {
      HonouredMore(s, h, h.done, h.done + {t}, r);
    }
    ZeroMeansNone(s, t);
  }

  lemma FinishingFacts(s0: State, h0: Shadow, s: State, h: Shadow, t: Task)
    requires Finishing(s0, h0, s, h, t)
    ensures h.done == h0.done && t < |s.tasks| == |s0.tasks| && s.tasks[t].ins == s0.tasks[t].ins
            && s.tasks[t].outs == s0.tasks[t].outs
  {
    hide Core;
  }

  /** The tasks a live version refers to exist. */
  lemma CoreKnown(s: State, h: Shadow, v: Address, t: Task)
    requires Core(s, h, {}, {t}) && Entries(s, h) && v in s.versions && v !in s.versionTrashcan
    ensures KnownTasks(s, v)
  {
    hide Versions, Counts, Holdings, Linked, Matches, Free, NoDup, NextFree;
    forall u | u in s.versions[v].dataWaitTaskByThis ensures u < |s.tasks| {
      assert Entry(s, h, v, u);
    }
    hide Entries;
    forall u | u in s.versions[v].consumers ensures u < |s.tasks| {
      NotRoot(s, h, v, u);
      var d := s.versions[v].signature;
      var i := Whereabouts(s, h, v);
      VersionsShape([]);
      VersionsMembers(Pending(h, d), u);
      assert InVersions(Versions(Pending(h, d)), u);
    }
  }

  lemma FinishOutWaits(s0: State, h0: Shadow, s: State, h: Shadow, rs: set<WaitRecord>, t: Task, v: Address)
      returns (h': Shadow)
    requires Finishing(s0, h0, s, h, t) && v in OutsOf(s, t) && WaitsOk(s, h, h0.done + {t}, rs) && NotWaiting(s, t)
    requires forall d :: Mergeable(Pending(h0, d), t)
    ensures CanProduce(s, v) && KnownTasks(s, v) && (Merges(s.versions, v) ==> KnownTasks(s, s.versions[v].last.value))
    ensures Finishing(s0, h0, OnProduced(s, v), h', t)
    ensures InsOf(OnProduced(s, v), t) == InsOf(s, t) && OutsOf(OnProduced(s, v), t) == OutsOf(s, t) - {v}
    ensures WaitsOk(OnProduced(s, v), h', h0.done + {t}, rs) && NotWaiting(OnProduced(s, v), t)
  {
    hide Core, InsOf, DepSet, Unblocked, Settled, Mergeable, NotWaiting, WaitsOk, OnProduced, FinishedIn, KnownTasks,
      Entries, Occurs, NoDup;
    forall d | d in h0.pend ensures Mergeable(h0.pend[d], t) {
      assert Mergeable(Pending(h0, d), t);
    }
    var d := s.versions[v].signature;
    assert v in s.versions && v !in s.versionTrashcan;
    hide OutsOf;
    h' := FinishOut(s0, h0, s, h, t, v);
    WaitsEntries(s, h, h0.done + {t}, rs);
    CoreKnown(s, h, v, t);
    if Merges(s.versions, v) {
      ChildBefore(s, h, d, t, v);
      var c := s.versions[v].last.value;
      ChildLive(s, h, c, d);
      CoreKnown(s, h, c, t);
    }
    ProducedWaits(s, h, OnProduced(s, v), h', h0.done + {t}, rs, d, t, v);
  }

  lemma FinishOutPatient(s0: State, h0: Shadow, g: History, s: State, h: Shadow, rs: set<WaitRecord>, t: Task,
      v: Address)
    requires Sound(s0, h0, g) && g.orderly && Finishing(s0, h0, s, h, t) && v in OutsOf(s, t)
    requires WaitsOk(s, h, h0.done + {t}, rs) && NotWaiting(s, t) && (forall d :: Mergeable(Pending(h0, d), t))
    requires CanProduce(s, v) && Patient(s, g.order)
    ensures Patient(OnProduced(s, v), g.order)
  {
    hide Core, InsOf, DepSet, Unblocked, Settled, Mergeable, NotWaiting, OnProduced, Entries, Tallied, Honoured, Occurs,
      NoDup, CanProduce,
      Quiet, AllExclusive, Sorted, Without, FinishedIn;
    forall d | d in h0.pend ensures Mergeable(h0.pend[d], t) {
      assert Mergeable(Pending(h0, d), t);
    }
    var h' := FinishOut(s0, h0, s, h, t, v);
    var d := s.versions[v].signature;
    StillSorted(s, h, h0, d, t, v, g.order);
    ProducedPatient(s, h, t, v, g.order);
  }

  /** The order of a datum that is still to be produced is the one the finishing task found. */
  lemma StillSorted(s: State, h: Shadow, h0: Shadow, d: Signature, t: Task, v: Address, order: seq<Task>)
    requires Core(s, h, {}, {t}) && d !in h.dead && v in OutsOf(s, t) && s.versions[v].signature == d && t in s.released
             && t < |s.tasks|
    requires h.pend.Keys == h0.pend.Keys && (d in h0.pend ==> NoDup(h0.pend[d])) && AllSorted(h0, order)
    requires d in h.pend ==> h.pend[d] == h0.pend[d] || h.pend[d] == Without(h0.pend[d], t)
    ensures Sorted(Pending(h, d), order)
  {
    hide Core, OutsOf, Sorted, NoDup, Without, Mergeable, Does;
    FinishReady(s, h, d, t, v);
    DoesOccurs(h.pend[d], t);
    OccursWithout(h0.pend[d], t, t);
  }

  lemma FinishInWaits(s0: State, h0: Shadow, s: State, h: Shadow, rs: set<WaitRecord>, t: Task, v: Address)
      returns (h': Shadow)
    requires Finishing(s0, h0, s, h, t) && v in InsOf(s, t) && WaitsOk(s, h, h0.done + {t}, rs) && NotWaiting(s, t)
    ensures v in s.versions && Owed(s, Next(s.versions[v])) && Finishing(s0, h0, OnConsumed(s, v, t), h', t)
    ensures InsOf(OnConsumed(s, v, t), t) == InsOf(s, t) - {v} && OutsOf(OnConsumed(s, v, t), t) == OutsOf(s, t) - {v}
    ensures WaitsOk(OnConsumed(s, v, t), h', h0.done + {t}, rs) && NotWaiting(OnConsumed(s, v, t), t)
    ensures SameEntries(s, OnConsumed(s, v, t))
  {
    hide Core, OutsOf, DepSet, Unblocked, Settled, NotWaiting, WaitsOk, OnConsumed, FinishedIn, Entries, Occurs, NoDup,
      SameEntries;
    var d := s.versions[v].signature;
    hide InsOf;
    h' := FinishIn(s0, h0, s, h, t, v);
    WaitsEntries(s, h, h0.done + {t}, rs);
    ConsumedEntries(s, h, v, t);
    ConsumedWaits(s, h, OnConsumed(s, v, t), h', h0.done + {t}, rs, d, t, v);
  }

  lemma FinishEnd(s0: State, h0: Shadow, g: History, s: State, h: Shadow, rs: set<WaitRecord>, t: Task)
    requires Sound(s0, h0, g) && Finishing(s0, h0, s, h, t) && OutsOf(s, t) == {} && InsOf(s, t) == {}
    requires WaitsOk(s, h, h0.done + {t}, rs) && NotWaiting(s, t)
    ensures var h' := h.(done := h.done + {t}); Sweeping(s, h', s, h') && WaitsOk(s, h', h'.done, rs)
    ensures forall d :: d in h.pend ==> h.pend[d] == Without(h0.pend[d], t)
  {
    hide Core, InsOf, OutsOf, DepSet, NotWaiting, WaitsOk, AllExclusive, AllSorted, Without, Occurs, NoDup;
    FinishDone(s0, h0, s, h, t);
    DoneWaits(s, h, h0.done + {t}, rs, t);
  }

  // ----- waiting

  /** Where `onWait` looks for the versions of `deps`. */
  ghost predicate WaitDatas(s: State, t: Task, deps: seq<Signature>, vs: seq<Option<Address>>) {
    |vs| == |deps| && forall i :: 0 <= i < |deps| ==>
      if vs[i].Some? then exists nest :: Mapped(s, Some(t), deps[i], vs[i].value, nest, false) else deps[i] !in s.vaMap
  }

  lemma WaitDatasLength(s: State, t: Task, deps: seq<Signature>, vs: seq<Option<Address>>)
    requires WaitDatas(s, t, deps, vs)
    ensures |vs| == |deps|
  {
  }

  lemma SoundCore(s: State, h: Shadow, g: History)
    requires Sound(s, h, g)
    ensures Core(s, h, {}, {}) && h.dead == map[]
  {
    hide Core;
  }

  lemma UnusedRecord(s: State, h: Shadow, rs: set<WaitRecord>, over: set<Task>, t: Task, d: Signature)
    requires Core(s, h, {}, {}) && d !in s.vaMap && WaitsOk(s, h, over, rs)
    ensures WaitsOk(s, h, over, rs + {RecordOf(h, t, d)}) && RecordOf(h, t, d).writers == {}
  {
    hide Counts, Accesses, Holdings, Trash, DatumOk, Placed, Entries, Tallied, Honoured;
    assert d !in h.pend;
    EmptyReads();
    EmptyRecord(s, h, over, t, d);
  }

  /** One more datum of a `wait`. */
  lemma EnterNext(s: State, h: Shadow, g: History, rs: set<WaitRecord>, t: Task, deps: seq<Signature>,
      vs: seq<Option<Address>>, i: nat)
    requires Sound(s, h, g) && WaitsOk(s, h, h.done, rs) && WaitDatas(s, t, deps, vs) && i < |deps| && i < |vs|
    requires t in s.released && t !in h.done && t < |s.tasks|
    ensures vs[i].Some? ==> Known(s.versions, vs[i].value)
    ensures var s' := if vs[i].Some? then AddDataWait(s, vs[i].value, t) else s;
            && Sound(s', h, g) && WaitsOk(s', h, h.done, rs + {RecordOf(h, t, deps[i])}) && WaitDatas(s', t, deps, vs)
            && |s'.tasks| == |s.tasks| && (forall u :: 0 <= u < |s.tasks| && u != t ==> s'.tasks[u] == s.tasks[u])
            && s'.tasks[t].waitDep == s.tasks[t].waitDep + One(RecordOf(h, t, deps[i]).writers != {})
            && s' == s.(versions := s'.versions, tasks := s'.tasks)
  {
    hide Core, Sound, WaitsOk, RecordOf, Mapped;
    SoundCore(s, h, g);
    if vs[i].Some? {
      var nest :| Mapped(s, Some(t), deps[i], vs[i].value, nest, false);
      EnterWait(s, h, h.done, rs, t, deps[i], vs[i].value, nest);
      WaitSound(s, AddDataWait(s, vs[i].value, t), h, g);
      ParentKnown(s, h, Some(t));
      KeptWaitDatas(s, vs[i].value, t, deps, vs);
    } else {
      UnusedRecord(s, h, rs, h.done, t, deps[i]);
    }
  }

  ghost function RecordsOf(h: Shadow, t: Task, deps: seq<Signature>): set<WaitRecord> {
    set d | d in deps :: RecordOf(h, t, d)
  }

  ghost predicate NoWriterLeft(h: Shadow, t: Task, deps: seq<Signature>) {
    forall d :: d in deps ==> RecordOf(h, t, d).writers == {}
  }

  lemma NoDataYet(h: Shadow, t: Task, deps: seq<Signature>)
    ensures RecordsOf(h, t, deps[..0]) == {} && NoWriterLeft(h, t, deps[..0])
  {
  }

  lemma OneMoreDatum(h: Shadow, t: Task, deps: seq<Signature>, i: nat)
    requires i < |deps|
    ensures RecordsOf(h, t, deps[..i + 1]) == RecordsOf(h, t, deps[..i]) + {RecordOf(h, t, deps[i])}
    ensures NoWriterLeft(h, t, deps[..i + 1])
            <==> NoWriterLeft(h, t, deps[..i]) && RecordOf(h, t, deps[i]).writers == {}
  {
    hide RecordOf;
    assert deps[..i + 1] == deps[..i] + [deps[i]];
    assert deps[i] in deps[..i + 1];
  }

  lemma EnterPatient(s: State, h: Shadow, g: History, t: Task, deps: seq<Signature>, vs: seq<Option<Address>>, i: nat)
    requires Sound(s, h, g) && WaitDatas(s, t, deps, vs) && i < |deps| && i < |vs| && t in s.released && t !in h.done
             && t < |s.tasks|
    requires Patient(s, g.order) && WaitsEarlier(h, g.order, t, deps)
    ensures vs[i].Some? ==> Known(s.versions, vs[i].value) && Patient(AddDataWait(s, vs[i].value, t), g.order)
  {
    hide Core, Sound, RecordOf, Mapped, Patient, AddDataWait, Rank;
    SoundCore(s, h, g);
    if vs[i].Some? {
      var nest :| Mapped(s, Some(t), deps[i], vs[i].value, nest, false);
      PatientEnter(s, h, t, deps[i], vs[i].value, nest, g.order);
    }
  }

  lemma KeptWaitDatas(s: State, v: Address, t: Task, deps: seq<Signature>, vs: seq<Option<Address>>)
    requires Known(s.versions, v) && t < |s.tasks| && WaitDatas(s, t, deps, vs)
    ensures WaitDatas(AddDataWait(s, v, t), t, deps, vs)
  {
    var s' := AddDataWait(s, v, t);
    forall i | 0 <= i < |deps| && vs[i].Some?
        ensures exists nest :: Mapped(s', Some(t), deps[i], vs[i].value, nest, false) {
      var nest :| Mapped(s, Some(t), deps[i], vs[i].value, nest, false);
      assert Mapped(s', Some(t), deps[i], vs[i].value, nest, false);
    }
  }

  lemma RecordTask(h: Shadow, t: Task, d: Signature)
    ensures RecordOf(h, t, d).task == t
  {
  }

  lemma ZeroIsOver(s: State, h: Shadow, rs: set<WaitRecord>, t: Task)
    requires WaitsOk(s, h, h.done, rs) && t < |s.tasks| && s.tasks[t].waitDep == 0
    ensures forall r :: r in rs && r.task == t ==> r.writers <= h.done
  {
    hide WaitsOk;
    forall r | r in rs && r.task == t ensures r.writers <= h.done {
      WaitIsOver(s, h, h.done, rs, r);
    }
  }

  lemma CountNotNegative(s: State, h: Shadow, over: set<Task>, rs: set<WaitRecord>, t: Task)
    requires WaitsOk(s, h, over, rs) && t < |s.tasks|
    ensures s.tasks[t].waitDep >= 0
  {
    hide Entries, Honoured;
  }

  ghost predicate SameWaitCounts(tasks: seq<TaskCtx>, tasks': seq<TaskCtx>) {
    |tasks'| == |tasks| && forall u :: 0 <= u < |tasks| ==> tasks'[u].waitDep == tasks[u].waitDep
  }

  // ----- merging a child that is still to be produced, step by step

  function Idled(s: State, v: Address): State
    requires v in s.versions
  {
    s.(versions := s.versions[v := s.versions[v].(status := IDLE)])
  }

  /** Version `v` gets the readers and the producer of its child `c`. */
  function TakenOver(s: State, v: Address, c: Address): State
    requires v in s.versions && c in s.versions
    requires s.versions[c].myProducer.Some? && s.versions[c].myProducer.value < |s.tasks|
  {
    var p, readers := s.versions[c].myProducer.value, s.versions[v].consumers + s.versions[c].consumers;
    s.(versions := s.versions[v := s.versions[v].(consumers := readers, myProducer := Some(p))],
       tasks := s.tasks[p := s.tasks[p].(outs := s.tasks[p].outs + {v} - {c})])
  }

  lemma IdleMerged(s: State, v: Address, c: Address)
    requires v in s.versions && c in s.versions && s.versions[c].status.IDLE?
    requires s.versions[c].myProducer.Some? && s.versions[c].myProducer.value < |s.tasks|
    ensures var s' := Dependence.MergeConsumerInDep(Idled(s, v), v, c);
            && v in s'.versions && c in s'.versions && s'.versions[v].status.IDLE?
            && s'.versions[c] == s.versions[c] && |s'.tasks| == |s.tasks|
            && TakenOver(s', v, c).(versionTrashcan := s.versionTrashcan + [c]) == MergeIdle(s, v, c)
  {
  }

  // ----- unfinished children

  ghost function ChildrenLeft(parents: seq<Option<Task>>, done: set<Task>, u: Task): set<Task> {
    set c | 0 <= c < |parents| && parents[c] == Some(u) && c !in done
  }

  /** Every task counts its unfinished children, and whoever waits for them has some. */
  ghost predicate ChildrenOk(parents: seq<Option<Task>>, done: set<Task>, released: set<Task>, childRefCnt: seq<nat>,
      joining: set<Task>) {
    && |childRefCnt| == |parents|
    && (forall u :: 0 <= u < |parents| ==> childRefCnt[u] == |ChildrenLeft(parents, done, u)|)
    && (forall u :: u in joining ==> u < |parents| && childRefCnt[u] > 0 && u in released && u !in done)
  }

  function Increased(childRefCnt: seq<nat>, parent: Option<Task>): seq<nat> {
    if parent.Some? && parent.value < |childRefCnt|
    then childRefCnt[parent.value := childRefCnt[parent.value] + 1] + [0] else childRefCnt + [0]
  }

  lemma ChildAdded(parents: seq<Option<Task>>, done: set<Task>, released: set<Task>, released': set<Task>,
      childRefCnt: seq<nat>, joining: set<Task>, parent: Option<Task>)
    requires ChildrenOk(parents, done, released, childRefCnt, joining) && released <= released'
    requires |parents| !in done && (parent.Some? ==> parent.value < |parents|)
    requires forall c :: 0 <= c < |parents| && parents[c].Some? ==> parents[c].value < |parents|
    ensures ChildrenOk(parents + [parent], done, released', Increased(childRefCnt, parent), joining)
  {
    var n, parents', cnt' := |parents|, parents + [parent], Increased(childRefCnt, parent);
    forall u | 0 <= u < |parents'| ensures cnt'[u] == |ChildrenLeft(parents', done, u)| {
      ChildrenGrow(parents, done, parent, u);
      if u == n {
        assert ChildrenLeft(parents, done, n) == {};
      }
    }
  }

  lemma KnownReleased(s: State, h: Shadow, g: History)
    requires Sound(s, h, g)
    ensures h.done <= s.released && (forall u :: u in s.released ==> u < |s.tasks|)
  {
    hide Structure, Accesses, Holdings, Trash, DepSet, AllExclusive, AllSorted;
  }

  /** A new task is one more child of its parent. */
  lemma SubmitChildren(s: State, h: Shadow, g: History, released': set<Task>, childRefCnt: seq<nat>, joining: set<Task>,
      parent: Option<Task>)
    requires Sound(s, h, g) && Running(s, h, parent) && s.released <= released'
    requires ChildrenOk(g.parents, h.done, s.released, childRefCnt, joining)
    ensures ChildrenOk(g.parents + [parent], h.done, released', Increased(childRefCnt, parent), joining)
  {
    hide ChildrenOk, Increased, Quiet, AllExclusive, AllSorted;
    KnownReleased(s, h, g);
    ChildAdded(g.parents, h.done, s.released, released', childRefCnt, joining, parent);
  }

  lemma ChildrenGrow(parents: seq<Option<Task>>, done: set<Task>, parent: Option<Task>, u: Task)
    requires |parents| !in done
    ensures ChildrenLeft(parents + [parent], done, u)
         == ChildrenLeft(parents, done, u) + if parent == Some(u) then {|parents|} else {}
    ensures |ChildrenLeft(parents + [parent], done, u)|
         == |ChildrenLeft(parents, done, u)| + if parent == Some(u) then 1 else 0
  {
    var parents' := parents + [parent];
    assert forall c :: 0 <= c < |parents| ==> parents'[c] == parents[c];
    assert ChildrenLeft(parents', done, u)
        == ChildrenLeft(parents, done, u) + if parent == Some(u) then {|parents|} else {};
  }

  lemma LengthOfParents(s: State, h: Shadow, g: History)
    requires Sound(s, h, g)
    ensures |g.parents| == |s.tasks|
    ensures forall c :: 0 <= c < |g.parents| && g.parents[c].Some? ==> g.parents[c].value < |g.parents|
  {
    hide Quiet, AllExclusive, AllSorted;
  }

  lemma StillReleased(s: State, h: Shadow, s': State, h': Shadow)
    requires ReleasedBy(s, h, s', h')
    ensures s.released <= s'.released
  {
  }

  lemma ChildGone(parents: seq<Option<Task>>, done: set<Task>, t: Task, u: Task)
    requires t < |parents| && t !in done
    ensures ChildrenLeft(parents, done + {t}, u) == ChildrenLeft(parents, done, u) - {t}
    ensures t in ChildrenLeft(parents, done, u) <==> parents[t] == Some(u)
    ensures |ChildrenLeft(parents, done + {t}, u)|
         == |ChildrenLeft(parents, done, u)| - if parents[t] == Some(u) then 1 else 0
  {
    assert ChildrenLeft(parents, done + {t}, u) == ChildrenLeft(parents, done, u) - {t};
  }

  class Manager {
    var versions: Memory
    var vaMap: map<Signature, Address>
    var versionTrashcan: seq<Address>
    var tasks: seq<TaskCtx>
    var parents: seq<Option<Task>>
    /** The tasks handed to the scheduler, and of those the ones suspended in a wait for data. */
    var released: set<Task>
    var sleeping: set<Task>
    /** The number of unfinished children of each task, and the tasks suspended in a wait for them. */
    var childRefCnt: seq<nat>
    var joining: set<Task>

    ghost var shadow: Shadow
    ghost var order: seq<Task>
    ghost var orderly: bool
    ghost var records: set<WaitRecord>
    /** Nobody has ever waited for data of a later task. */
    ghost var patient: bool

    ghost function St(): State
      reads this
    {
      State(versions, vaMap, versionTrashcan, tasks, released)
    }

    ghost function Log(): History
      reads this
    {
      History(parents, order, orderly)
    }

    ghost predicate Valid()
      reads this
    {
      DepsOk() && ChildrenOk(parents, shadow.done, released, childRefCnt, joining)
    }

    /** Everything but the counts of children. */
    ghost predicate DepsOk()
      reads this
    {
      && Sound(St(), shadow, Log())
      && WaitsOk(St(), shadow, shadow.done, records)
      && (forall r :: r in records ==> r.task < |tasks|)
      && Asleep()
      && (orderly && patient ==> Patient(St(), order))
    }

    /** A suspended task still has something to wait for. */
    ghost predicate Asleep()
      reads `sleeping, `tasks
    {
      forall u :: u in sleeping ==> u < |tasks| && tasks[u].waitDep > 0
    }

    /** Of the tasks that were suspended exactly those with nothing left to wait for have resumed. */
    twostate predicate Resumed()
      reads `sleeping, `tasks
    {
      && Asleep()
      && |tasks| >= old(|tasks|)
      && (forall u :: 0 <= u < old(|tasks|) ==> tasks[u].waitDep <= old(tasks)[u].waitDep)
      && forall u :: u in sleeping <==> u in old(sleeping) && u < |tasks| && tasks[u].waitDep > 0
    }

    /** Whatever leaves the wait counts alone resumes nobody. */
    twostate lemma StillResumed(ts: seq<TaskCtx>)
      requires SameWaitCounts(ts, tasks) && |ts| >= old(|tasks|)
      requires forall u :: 0 <= u < old(|tasks|) ==> ts[u].waitDep <= old(tasks)[u].waitDep
      requires forall u :: u in sleeping ==> u < |ts| && ts[u].waitDep > 0
      requires forall u :: u in sleeping <==> u in old(sleeping) && u < |ts| && ts[u].waitDep > 0
      ensures Resumed()
    {
    }

    // ----- references

    method DecDepRef(u: Task)
      requires u < |tasks| && tasks[u].submitDep > 0
      modifies `tasks, `released
      ensures St() == DecDepRefs(old(St()), {u})
    {
      tasks := tasks[u := tasks[u].(submitDep := tasks[u].submitDep - 1)];
      if tasks[u].submitDep == 0 {
        released := released + {u};
      }
      assert St().tasks == DecDepRefs(old(St()), {u}).tasks;
      assert St().released == DecDepRefs(old(St()), {u}).released;
    }

    method NotifyConsumers(v: Address)
      requires v in versions && Owed(St(), versions[v].consumers)
      modifies `tasks, `released
      ensures St() == DecDepRefs(old(St()), versions[v].consumers) && |tasks| == old(|tasks|)
      ensures SameWaitCounts(old(tasks), tasks)
    {
      ghost var done: set<Task> := {};
      var rest := versions[v].consumers;
      DecDepRefsNone(St());
      while rest != {}
        invariant done !! rest && done + rest == versions[v].consumers
        invariant St() == DecDepRefs(old(St()), done)
      {
        var u :| u in rest;
        DecDepRefsStep(old(St()), done, u);
        DecDepRef(u);
        rest, done := rest - {u}, done + {u};
      }
      assert done == versions[v].consumers;
    }

    method NotifyNextProducer(v: Address)
      requires v in versions && Owed(St(), Next(versions[v]))
      modifies `versions, `tasks, `released
      ensures St() == DecDepRefs(old(St()),
              Next(old(versions[v]))).(versions := old(versions)[v := old(versions)[v].(nextProducer := None)])
      ensures SameWaitCounts(old(tasks), tasks)
    {
      if versions[v].nextProducer.Some? {
        DecDepRef(versions[v].nextProducer.value);
        versions := versions[v := versions[v].(nextProducer := None)];
      } else {
        DecDepRefsNone(St());
        assert versions[v := versions[v].(nextProducer := None)] == versions;
      }
    }

    method DecWaitDataRef(u: Task)
      requires u < |tasks| && Asleep()
      modifies `tasks, `sleeping
      ensures tasks == old(tasks)[u := old(tasks)[u].(waitDep := old(tasks)[u].waitDep - 1)]
      ensures Resumed()
    {
      tasks := tasks[u := tasks[u].(waitDep := tasks[u].waitDep - 1)];
      if tasks[u].waitDep == 0 && u in sleeping {
        sleeping := sleeping - {u};
      }
    }

    method NotifyDataWaitTask(v: Address)
      requires v in versions && (forall u :: u in versions[v].dataWaitTaskByThis ==> u < |tasks|) && Asleep()
      modifies `versions, `tasks, `sleeping
      ensures St() == Dependence.NotifyDataWaitTask(old(St()), v) && |tasks| == old(|tasks|)
      ensures Resumed()
    {
      var us := versions[v].dataWaitTaskByThis;
      DecWaitRefsNone(St());
      for i := 0 to |us|
        invariant versions == old(versions)
        invariant St() == DecWaitRefs(old(St()), us[..i])
        invariant Resumed()
      {
        assert us[i] in versions[v].dataWaitTaskByThis;
        DecWaitRefsStep(old(St()), us[..i], us[i]);
        DecWaitDataRef(us[i]);
        assert us[..i + 1] == us[..i] + [us[i]];
      }
      assert us[..|us|] == us;
      versions := versions[v := versions[v].(dataWaitTaskByThis := [])];
    }

    method MergeConsumerInDep(v: Address, c: Address)
      requires c in versions && forall u :: u in versions[c].consumers ==> u < |tasks|
      modifies `tasks
      ensures St() == Dependence.MergeConsumerInDep(old(St()), v, c)
      ensures SameWaitCounts(old(tasks), tasks)
    {
      ghost var done: set<Task> := {};
      var rest := versions[c].consumers;
      assert tasks == Redirected(tasks, {}, v, c);
      while rest != {}
        invariant done !! rest && done + rest == versions[c].consumers
        invariant tasks == Redirected(old(tasks), done, v, c)
      {
        var u :| u in rest;
        RedirectedStep(old(tasks), done, u, v, c);
        tasks := tasks[u := tasks[u].(ins := tasks[u].ins + {v} - {c})];
        rest, done := rest - {u}, done + {u};
      }
      assert done == versions[c].consumers;
    }

    // ----- versions

    method AllocMem() returns (block: Address)
      ensures block !in versions
    {
      ghost var spare := SpareAddress(versions.Keys);
      assert spare !in versions;
      block :| block !in versions;
    }

    method AddConsumer(v: Address, t: Task, nest: NestType) returns (ghost block: Address)
      requires Known(versions, v) && t < |tasks|
      modifies `versions, `tasks
      ensures block !in old(versions) && St() == Dependence.AddConsumer(old(St()), v, t, nest, block)
    {
      var memory := AllocMem();
      block := memory;
      var c := v;
      if nest.PARENTOUT? || nest.DEFAULT? {
        if versions[v].last.None? {
          versions := CreateChild(versions, v, memory, READY);
        }
        c := versions[v].last.value;
      }
      if versions[c].status.IDLE? {
        tasks := tasks[t := tasks[t].(submitDep := tasks[t].submitDep + 1)];
      }
      versions := versions[c := versions[c].(consumers := versions[c].consumers + {t})];
      if versions[c].status.CONSUMED? {
        versions := versions[c := versions[c].(status := READY)];
      }
      tasks := tasks[t := tasks[t].(ins := tasks[t].ins + {c})];
      assert versions == Dependence.AddConsumer(old(St()), v, t, nest, block).versions;
    }

    method AddProducer(v: Address, t: Task) returns (ghost block: Address)
      requires Known(versions, v) && t < |tasks| && versions[v].last != Some(v)
      modifies `versions, `tasks
      ensures block !in old(versions) && St() == Dependence.AddProducer(old(St()), v, t, block)
    {
      var memory := AllocMem();
      block := memory;
      if versions[v].last.Some? {
        var prev := versions[v].last.value;
        if !versions[prev].status.CONSUMED? {
          versions := versions[prev := versions[prev].(nextProducer := Some(t))];
          tasks := tasks[t := tasks[t].(submitDep := tasks[t].submitDep + 1)];
        }
      }
      versions := CreateChild(versions, v, memory, IDLE);
      tasks := tasks[t := tasks[t].(outs := tasks[t].outs + {memory})];
      versions := versions[memory := versions[memory].(myProducer := Some(t))];
    }

    method MergeProducerOutDep(v: Address, c: Address)
      requires c in versions && versions[c].myProducer.Some? && versions[c].myProducer.value < |tasks|
      modifies `tasks
      ensures var p := versions[c].myProducer.value;
              tasks == old(tasks)[p := old(tasks)[p].(outs := old(tasks)[p].outs + {v} - {c})]
      ensures SameWaitCounts(old(tasks), tasks)
    {
      var p := versions[c].myProducer.value;
      tasks := tasks[p := tasks[p].(outs := tasks[p].outs + {v} - {c})];
    }

    /** A version that has become READY tells its readers and the tasks waiting for it. */
    method NotifyReady(v: Address)
      requires KnownTasks(St(), v) && Owed(St(), versions[v].consumers) && Asleep()
      modifies `versions, `tasks, `released, `sleeping
      ensures St() == Dependence.NotifyDataWaitTask(DecDepRefs(old(St()), old(versions[v]).consumers), v)
      ensures versions == old(versions)[v := old(versions)[v].(dataWaitTaskByThis := [])]
      ensures |tasks| == old(|tasks|) && Resumed()
    {
      hide DecDepRefs, DecWaitRefs;
      NotifyConsumers(v);
      NotifyDataWaitTask(v);
    }

    /** A version becomes the unproduced child that is folded into it. */
    method TakeOver(v: Address, c: Address)
      requires v in versions && c in versions
      requires versions[c].myProducer.Some? && versions[c].myProducer.value < |tasks|
      modifies `versions, `tasks
      ensures St() == TakenOver(old(St()), v, c) && SameWaitCounts(old(tasks), tasks)
    {
      versions := versions[v := versions[v].(consumers := versions[v].consumers + versions[c].consumers)];
      MergeProducerOutDep(v, c);
      versions := versions[v := versions[v].(myProducer := versions[c].myProducer)];
    }

    /** A version gets the status of the child that is folded into it. */
    method AdoptStatus(v: Address, c: Address)
      requires KnownTasks(St(), v) && Owed(St(), versions[v].consumers) && Asleep()
      requires c in versions && !versions[c].status.CONSUMED?
      modifies `versions, `tasks, `released, `sleeping
      ensures Resumed() && |tasks| == old(|tasks|)
      ensures St() == if old(versions)[c].status.IDLE? then Idled(old(St()), v)
                      else Dependence.NotifyDataWaitTask(MakeReady(old(St()), v), v)
      ensures c in versions && versions[c].consumers == old(versions)[c].consumers
      ensures v in versions && versions[v].status == old(versions)[c].status
    {
      hide DecDepRefs, DecWaitRefs;
      versions := versions[v := versions[v].(status := versions[c].status)];
      if versions[v].status.READY? {
        assert St() == Readied(old(St()), v);
        NotifyReady(v);
      }
    }

    method MergeChildVersion(v: Address)
      requires CanProduce(St(), v) && Merges(versions, v) && KnownTasks(St(), v)
               && KnownTasks(St(), versions[v].last.value) && Asleep()
      modifies `versions, `tasks, `released, `versionTrashcan, `sleeping
      ensures Resumed()
      ensures St() == var c := old(versions[v]).last.value;
                      if old(versions)[c].status.IDLE? then MergeIdle(old(St()), v, c) else MergeReady(old(St()), v, c)
    {
      hide DecDepRefs, DecWaitRefs, MakeReady, Dependence.NotifyDataWaitTask, Dependence.MergeConsumerInDep, MergeIdle,
        TakenOver, Idled;
      var c := versions[v].last.value;
      AdoptStatus(v, c);
      ghost var ts := tasks;
      MergeConsumerInDep(v, c);
      if versions[v].status.IDLE? {
        IdleMerged(old(St()), v, c);
        TakeOver(v, c);
      }
      StillResumed(ts);
      versionTrashcan := versionTrashcan + [c];
      hide SameWaitCounts, Resumed;
    }

    method OnProduced(v: Address)
      requires CanProduce(St(), v) && KnownTasks(St(), v)
               && (Merges(versions, v) ==> KnownTasks(St(), versions[v].last.value)) && Asleep()
      modifies `versions, `tasks, `released, `versionTrashcan, `sleeping
      ensures Resumed()
      ensures St() == Dependence.OnProduced(old(St()), v)
    {
      hide DecDepRefs, DecWaitRefs, MakeReady, Retire, Owed, Dependence.NotifyDataWaitTask, MergeIdle, MergeReady;
      if versions[v].last.None? || versions[versions[v].last.value].status.CONSUMED? {
        if versions[v].consumers == {} {
          RetireVersion(v);
        } else {
          ReadyVersion(v);
        }
        NotifyDataWaitTask(v);
      } else {
        MergeChildVersion(v);
      }
    }

    /** A version without readers is done with. */
    method RetireVersion(v: Address)
      requires v in versions && Owed(St(), Next(versions[v]))
      modifies `versions, `tasks, `released, `versionTrashcan
      ensures St() == Retire(old(St()), v) && SameWaitCounts(old(tasks), tasks)
      ensures v in versions && versions[v].dataWaitTaskByThis == old(versions[v]).dataWaitTaskByThis
    {
      versions := versions[v := versions[v].(status := CONSUMED)];
      NotifyNextProducer(v);
      versionTrashcan := versionTrashcan + [v];
    }

    /** A version with readers is there for them. */
    method ReadyVersion(v: Address)
      requires v in versions && Owed(St(), versions[v].consumers)
      modifies `versions, `tasks, `released
      ensures St() == MakeReady(old(St()), v) && SameWaitCounts(old(tasks), tasks)
      ensures v in versions && versions[v].dataWaitTaskByThis == old(versions[v]).dataWaitTaskByThis
    {
      versions := versions[v := versions[v].(status := READY)];
      assert St() == Readied(old(St()), v);
      NotifyConsumers(v);
    }

    method OnConsumed(v: Address, t: Task)
      requires v in versions && Owed(St(), Next(versions[v])) && Asleep()
      modifies `versions, `tasks, `released, `versionTrashcan
      ensures St() == Dependence.OnConsumed(old(St()), v, t)
      ensures Resumed()
    {
      hide Retire;
      versions := versions[v := versions[v].(consumers := versions[v].consumers - {t})];
      if versions[v].consumers == {} {
        RetireVersion(v);
      }
    }

    // ----- submission

    method FindSignature(vs: set<Address>, d: Signature) returns (r: Option<Address>)
      requires forall a :: a in vs ==> a in versions
      ensures r.Some? ==> r.value in vs && versions[r.value].signature == d
      ensures r.None? ==> NoneOf(St(), vs, d)
    {
      var rest := vs;
      while rest != {}
        invariant rest <= vs && forall a :: a in vs && a !in rest ==> versions[a].signature != d
      {
        var a :| a in rest;
        if versions[a].signature == d {
          return Some(a);
        }
        rest := rest - {a};
      }
      return None;
    }

    method VA2Ctx(d: Signature) returns (v: Address)
      requires Core(St(), shadow, {}, {})
      modifies `versions, `vaMap, `shadow
      ensures Core(St(), shadow, {}, {}) && Rooted(old(shadow), shadow, [d]) && SameWaits(old(St()), St())
              && forall t :: Grown(old(St()), St(), t)
      ensures d in vaMap && v == vaMap[d] && v in versions && versions[v].signature == d
    {
      hide Core;
      if d in vaMap {
        v := vaMap[d];
        RootOf(St(), shadow, d);
      } else {
        v := AllocMem();
        RootCore(St(), shadow, d, v);
        RootWaits(St(), d, v);
        UnknownDatum(St(), shadow, d);
        vaMap := vaMap[d := v];
        versions := versions[v := NewVersion(d, None, None, IDLE)];
        shadow := shadow.(lists := shadow.lists[d := []]);
      }
    }

    method MapSignature(parent: Option<Task>, d: Signature, input: bool) returns (v: Address, nest: NestType)
      requires Core(St(), shadow, {}, {}) && Running(St(), shadow, parent)
      modifies `versions, `vaMap, `shadow
      ensures Core(St(), shadow, {}, {}) && Rooted(old(shadow), shadow, [d]) && SameWaits(old(St()), St())
              && forall t :: Grown(old(St()), St(), t)
      ensures Mapped(St(), parent, d, v, nest, input)
    {
      hide Core;
      if parent.Some? {
        ParentKnown(St(), shadow, parent);
        var out := FindSignature(tasks[parent.value].outs, d);
        if out.Some? {
          return out.value, PARENTOUT;
        }
        if input {
          var in_ := FindSignature(tasks[parent.value].ins, d);
          if in_.Some? {
            return in_.value, PARENTIN;
          }
        }
      }
      v := VA2Ctx(d);
      nest := DEFAULT;
      assert Grown(old(St()), St(), 0);
    }

    method MapSignature2Deps(parent: Option<Task>, t: Task, deps: seq<Signature>, input: bool)
        returns (vs: seq<(Address, NestType)>)
      requires Core(St(), shadow, {}, {}) && Running(St(), shadow, parent) && parent != Some(t)
      modifies `versions, `vaMap, `shadow
      ensures Core(St(), shadow, {}, {}) && Rooted(old(shadow), shadow, deps) && SameWaits(old(St()), St())
              && Grown(old(St()), St(), t)
      ensures |vs| == |deps| && forall i :: 0 <= i < |deps| ==> Mapped(St(), parent, deps[i], vs[i].0, vs[i].1, input)
    {
      hide Core, Mapped, Running;
      vs := [];
      for i := 0 to |deps|
        invariant Core(St(), shadow, {}, {}) && Running(St(), shadow, parent)
        invariant Rooted(old(shadow), shadow, deps[..i]) && SameWaits(old(St()), St()) && Grown(old(St()), St(), t)
        invariant |vs| == i && forall j :: 0 <= j < i ==> Mapped(St(), parent, deps[j], vs[j].0, vs[j].1, input)
      {
        ghost var s, h := St(), shadow;
        var v, nest := MapSignature(parent, deps[i], input);
        RunningGrown(s, St(), h, shadow, t, parent);
        SameWaitsTrans(old(St()), s, St());
        StillMapped(s, h, St(), t, parent, deps[..i], vs, input);
        RootedStep(old(shadow), h, shadow, deps, i);
        vs := vs + [(v, nest)];
      }
      assert deps[..|deps|] == deps;
    }

    constructor ()
      ensures Valid() && tasks == [] && released == {} && shadow.done == {} && orderly && patient
      ensures (forall d :: Pending(shadow, d) == []) && sleeping == {} && records == {} && shadow.surplus == []
              && order == [] && parents == [] && joining == {}
    {
      versions, vaMap, versionTrashcan, tasks, parents, released, sleeping := map[], map[], [], [], [], {}, {};
      childRefCnt, joining := [], {};
      shadow, order, orderly, records, patient := Shadow(map[], map[], map[], [], {}), [], true, {}, true;
      new;
      EmptySound();
      TallyEmpty(versions);
    }

    /** The registrations of a new task: all inputs, then all outputs. */
    method Register(parent: Option<Task>, t: Task, insNoDup: seq<Signature>, outsNoDup: seq<Signature>)
      requires Submitting(St(), shadow, shadow, parent, t, [], []) && versionTrashcan == [] && Entries(St(), shadow)
      requires forall i, j :: 0 <= i < j < |outsNoDup| ==> outsNoDup[i] != outsNoDup[j]
      requires forall d :: d in insNoDup ==> d !in outsNoDup
      modifies `versions, `vaMap, `tasks, `shadow
      ensures exists h0 :: Rooted(old(shadow), h0, insNoDup + outsNoDup)
                && Submitting(St(), h0, shadow, parent, t, insNoDup, outsNoDup)
      ensures SameWaits(old(St()), St()) && Grown(old(St()), St(), t)
    {
      hide Core, Mapped, Running, SpreadOver, Unlisted, Grown, Occurs, DepSet, SameWaits, Entries,
        Dependence.AddConsumer, Dependence.AddProducer;
      var inDatas := MapSignature2Deps(parent, t, insNoDup, true);
      ghost var s1, h1 := St(), shadow;
      RunningGrown(old(St()), s1, old(shadow), h1, t, parent);
      var outDatas := MapSignature2Deps(parent, t, outsNoDup, false);
      ghost var h0 := shadow;
      StillMapped(s1, h1, St(), t, parent, insNoDup, inDatas, true);
      RunningGrown(s1, St(), h1, h0, t, parent);
      RootedBoth(old(shadow), h1, h0, insNoDup, outsNoDup);
      SameWaitsTrans(old(St()), s1, St());
      GrownTrans(old(St()), s1, St(), t);
      SubmittingRooted(old(St()), St(), old(shadow), h0, parent, t);
      for i := 0 to |insNoDup|
        invariant Submitting(St(), h0, shadow, parent, t, insNoDup[..i], [])
        invariant SameWaits(old(St()), St()) && Grown(old(St()), St(), t)
        invariant forall j :: 0 <= j < |insNoDup|
                    ==> Mapped(St(), parent, insNoDup[j], inDatas[j].0, inDatas[j].1, true)
        invariant forall j :: 0 <= j < |outsNoDup|
                    ==> Mapped(St(), parent, outsNoDup[j], outDatas[j].0, outDatas[j].1, false)
      {
        ghost var s, h := St(), shadow;
        MappedKnown(s, h, parent, insNoDup[i], inDatas[i].0, inDatas[i].1, true);
        ghost var block := AddConsumer(inDatas[i].0, t, inDatas[i].1);
        shadow := SubmitInput(s, h0, h, parent, t, insNoDup, i, inDatas[i].0, inDatas[i].1, block);
        ReadWaits(old(St()), old(shadow), s, inDatas[i].0, t, inDatas[i].1, block);
        GrownTrans(old(St()), s, St(), t);
        StillMapped(s, h, St(), t, parent, insNoDup, inDatas, true);
        StillMapped(s, h, St(), t, parent, outsNoDup, outDatas, false);
      }
      assert insNoDup[..|insNoDup|] == insNoDup;
      ghost var s2 := St();
      RegisterOutputs(parent, t, insNoDup, outsNoDup, outDatas, h0);
      SameWaitsTrans(old(St()), s2, St());
      GrownTrans(old(St()), s2, St(), t);
    }

    method RegisterOutputs(parent: Option<Task>, t: Task, ghost insNoDup: seq<Signature>, outsNoDup: seq<Signature>,
        outDatas: seq<(Address, NestType)>, ghost h0: Shadow)
      requires Submitting(St(), h0, shadow, parent, t, insNoDup, []) && |outDatas| == |outsNoDup|
      requires forall j :: 0 <= j < |outsNoDup|
                 ==> Mapped(St(), parent, outsNoDup[j], outDatas[j].0, outDatas[j].1, false)
      requires forall i, j :: 0 <= i < j < |outsNoDup| ==> outsNoDup[i] != outsNoDup[j]
      requires forall d :: d in insNoDup ==> d !in outsNoDup
      modifies `versions, `tasks, `shadow
      ensures Submitting(St(), h0, shadow, parent, t, insNoDup, outsNoDup)
      ensures SameWaits(old(St()), St()) && Grown(old(St()), St(), t)
    {
      hide Core, Mapped, Running, SpreadOver, Unlisted, Grown, Occurs, DepSet, SameWaits, Entries,
        Dependence.AddProducer;
      GrownSelf(St(), t);
      for i := 0 to |outsNoDup|
        invariant Submitting(St(), h0, shadow, parent, t, insNoDup, outsNoDup[..i])
        invariant SameWaits(old(St()), St()) && Grown(old(St()), St(), t)
        invariant forall j :: 0 <= j < |outsNoDup|
                    ==> Mapped(St(), parent, outsNoDup[j], outDatas[j].0, outDatas[j].1, false)
      {
        ghost var s, h := St(), shadow;
        MappedKnown(s, h, parent, outsNoDup[i], outDatas[i].0, outDatas[i].1, false);
        ghost var block := AddProducer(outDatas[i].0, t);
        assert outsNoDup[..i + 1] == outsNoDup[..i] + [outsNoDup[i]];
        shadow := SubmitWrite(s, h0, h, parent, t, insNoDup, outsNoDup[..i], outsNoDup[i], outDatas[i].0, outDatas[i].1,
          block);
        WriteWaits(old(St()), s, outDatas[i].0, t, block);
        GrownTrans(old(St()), s, St(), t);
        StillMapped(s, h, St(), t, parent, outsNoDup, outDatas, false);
      }
      assert outsNoDup[..|outsNoDup|] == outsNoDup;
    }

    /** Create the task and make its registrations. */
    method CreateTask(parent: Option<Task>, insNoDup: seq<Signature>, outsNoDup: seq<Signature>) returns (t: Task)
      requires DepsOk() && Running(St(), shadow, parent)
      requires forall i, j :: 0 <= i < j < |outsNoDup| ==> outsNoDup[i] != outsNoDup[j]
      requires forall d :: d in insNoDup ==> d !in outsNoDup
      modifies `versions, `vaMap, `tasks, `shadow
      ensures t == old(|tasks|) && Asleep() && SameWaitCounts(old(tasks) + [TaskCtx({}, {}, 0, 0)], tasks)
      ensures SubmitOutcome(old(St()), old(shadow), old(Log()), St(), shadow, records, parent, t, insNoDup, outsNoDup)
      ensures SameEntries(old(St()), St())
    {
      hide Sound, Core, SpreadOver, DepSet, SameWaits, WaitsOk, Grown, Running, Submitting, Rooted, Entries,
        SubmitOutcome;
      t := |tasks|;
      NewSubmitting(St(), shadow, Log(), parent);
      NewTaskWaits(St(), shadow, shadow.done, records);
      tasks := tasks + [TaskCtx({}, {}, 0, 0)];
      shadow := shadow.(surplus := shadow.surplus + [0]);
      ghost var s1, h1 := St(), shadow;
      ghost var h0 := shadow;
      if !(insNoDup == [] && outsNoDup == []) {
        WaitsEntries(s1, h1, h1.done, records);
        Register(parent, t, insNoDup, outsNoDup);
        h0 :| Rooted(h1, h0, insNoDup + outsNoDup) && Submitting(St(), h0, shadow, parent, t, insNoDup, outsNoDup);
      } else {
        GrownSelf(s1, t);
        RootedSelf(h1);
      }
      SubmitDone(old(St()), old(shadow), old(Log()), h1, h0, s1, St(), shadow, records, parent, t, insNoDup, outsNoDup);
      SameSinceCreation(old(St()), St());
      StillAsleep(old(tasks), s1, St(), sleeping);
    }

    /** The part of `onSubmit` that follows the removal of repeated dependences. */
    method SubmitDeps(parent: Option<Task>, insNoDup: seq<Signature>, outsNoDup: seq<Signature>) returns (t: Task)
      requires DepsOk() && Running(St(), shadow, parent)
      requires forall i, j :: 0 <= i < j < |outsNoDup| ==> outsNoDup[i] != outsNoDup[j]
      requires forall d :: d in insNoDup ==> d !in outsNoDup
      modifies `versions, `vaMap, `tasks, `parents, `released, `shadow, `order, `orderly
      ensures DepsOk() && t == old(|tasks|) && |tasks| == t + 1 && shadow.done == old(shadow).done
      ensures SpreadOver(old(shadow), shadow, parent, t, insNoDup, outsNoDup)
      ensures released == old(released) + if DepSet(shadow.pend, t) == {} then {t} else {}
      ensures t < |shadow.surplus| && shadow.surplus[t] == Repeats(insNoDup, DepSet(shadow.pend, t))
      ensures |shadow.surplus| == |tasks| && shadow.surplus[..t] == old(shadow).surplus
      ensures Log() == Logged(old(Log()), parent, t, AllCovered(old(shadow), parent, insNoDup, outsNoDup))
      ensures sleeping == old(sleeping) && records == old(records)
              && SameWaitCounts(old(tasks) + [TaskCtx({}, {}, 0, 0)], tasks)
      ensures patient == old(patient)
    {
      hide Sound, SpreadOver, DepSet, WaitsOk, Repeats, Running, AllCovered, Enlist, Patient, SameEntries;
      t := CreateTask(parent, insNoDup, outsNoDup);
      assert Running(old(St()), old(shadow), parent);
      ghost var mid := St();
      if tasks[t].submitDep == 0 {
        released := released + {t};
      }
      parents := parents + [parent];
      order := Enlist(order, parent, t);
      orderly := orderly && AllCovered(old(shadow), parent, insNoDup, outsNoDup);
      if orderly && patient {
        SameReleased(old(St()), mid, St());
        SubmitPatient(old(St()), old(shadow), old(Log()), records, St(), parent);
      }
    }

    /** `onSubmit`. The accesses of the new task take their places in the order of every datum, and
        the task is handed to the scheduler at once exactly when no access earlier in one of those
        orders conflicts with its own. */
    method OnSubmit(parent: Option<Task>, ins: seq<Dep>, outs: seq<Dep>, handle: Option<Signature>)
        returns (r: Option<Task>)
      requires Valid() && Running(St(), shadow, parent)
      requires handle.Some? ==> handle.value !in Pointers(ins) && handle.value !in Pointers(outs)
      modifies this
      ensures Valid()
      ensures r.None? <==> exists i :: 0 <= i < |outs| && outs[i].isHandle
      ensures r.None? ==> unchanged(this)
      ensures r.Some? ==> r.value == old(|tasks|) && |tasks| == old(|tasks|) + 1 && shadow.done == old(shadow).done
      ensures r.Some? ==> forall d :: Pending(shadow, d) == Ordered(Pending(old(shadow), d), parent, r.value,
                            Writes(outs, handle, d), d in Pointers(ins))
      ensures r.Some? ==> released == old(released) + if WaitsForNothing(shadow, r.value) then {r.value} else {}
      ensures r.Some? ==> |shadow.surplus| == |tasks| && shadow.surplus[..r.value] == old(shadow).surplus
      ensures r.Some? ==> (shadow.surplus[r.value] == 0 <==> NoAwaitedRepeat(shadow, r.value, ins, outs, handle))
      ensures r.Some? ==> parents == old(parents) + [parent] && order == Enlist(old(order), parent, r.value)
      ensures r.Some? ==> (orderly <==> old(orderly) && Within(old(shadow), parent, ins, outs, handle))
      ensures sleeping == old(sleeping) && records == old(records) && patient == old(patient)
              && joining == old(joining)
      ensures r.Some? ==> SameWaitCounts(old(tasks) + [TaskCtx({}, {}, 0, 0)], tasks)
    {
      hide Sound, SpreadOver, DepSet, WaitsOk, Ordered, Writes, WaitsForNothing, NoAwaitedRepeat, Within, Repeats,
        Running, AllCovered, Enlist, Asleep, Patient, ChildrenOk, Increased;
      var ok := CheckOutsHandle(outs);
      if !ok {
        return None;
      }
      var insNoDup, outsNoDup := RemoveRepeatedDeps(ins, outs, handle);
      childRefCnt := Increased(childRefCnt, parent);
      var t := SubmitDeps(parent, insNoDup, outsNoDup);
      SubmitChildren(old(St()), old(shadow), old(Log()), released, old(childRefCnt), joining, parent);
      SubmitPromise(old(shadow), St(), shadow, parent, t, ins, outs, handle, insNoDup, outsNoDup, Log());
      r := Some(t);
    }

    // ----- completion

    method RecycleVersion()
      requires Sweeping(St(), shadow, St(), shadow) && WaitsOk(St(), shadow, shadow.done, records)
      modifies `versions, `vaMap, `versionTrashcan, `shadow
      ensures Sweeping(old(St()), old(shadow), St(), shadow) && versionTrashcan == []
              && WaitsOk(St(), shadow, shadow.done, records)
      ensures SameEntries(old(St()), St())
    {
      hide Core, Entries, Tallied, Honoured, SameWaits, SameEntries, Unlink;
      SameEntriesSelf(St());
      while versionTrashcan != []
        invariant Sweeping(old(St()), old(shadow), St(), shadow) && WaitsOk(St(), shadow, shadow.done, records)
        invariant SameEntries(old(St()), St())
        decreases |versionTrashcan|
      {
        ghost var s, h := St(), shadow;
        ghost var h' := Sweep(old(St()), old(shadow), s, h);
        SweptWaits(s, h);
        var cur := versionTrashcan[0];
        var next := versions[cur].next.value;
        var root := versions[next].next.None?;
        var signature := versions[next].signature;
        versions := Unlink(versions, cur);
        if root {
          vaMap := vaMap - {signature};
          versions := versions - {next};
        }
        versionTrashcan := versionTrashcan[1..];
        shadow := h';
        assert St() == Swept(s);
        SweepWaits(s, h, St(), shadow, shadow.done, records);
        SameEntriesOn(old(St()), s, St());
      }
    }

    method ProduceAll(t: Task)
      requires DepsOk() && t < |tasks| && t in released && t !in shadow.done && tasks[t].waitDep == 0
      requires forall d :: Mergeable(Pending(shadow, d), t)
      modifies `versions, `tasks, `released, `versionTrashcan, `sleeping, `shadow
      ensures Finishing(old(St()), old(shadow), St(), shadow, t) && OutsOf(St(), t) == {}
              && InsOf(St(), t) == old(tasks)[t].ins
      ensures WaitsOk(St(), shadow, old(shadow).done + {t}, records) && NotWaiting(St(), t) && Resumed()
      ensures orderly && patient ==> Patient(St(), order)
    {
      hide Core, InsOf, OutsOf, DepSet, Unblocked, Settled, Mergeable, NotWaiting, WaitsOk, Sound, Finishing,
        KnownTasks, CanProduce, Patient,
        Dependence.OnProduced;
      FinishBegin(St(), shadow, Log(), records, t);
      var rest := tasks[t].outs;
      while rest != {}
        invariant Finishing(old(St()), old(shadow), St(), shadow, t)
        invariant OutsOf(St(), t) == rest && InsOf(St(), t) == old(tasks)[t].ins
        invariant WaitsOk(St(), shadow, old(shadow).done + {t}, records) && NotWaiting(St(), t) && Resumed()
        invariant orderly && patient ==> Patient(St(), order)
        decreases rest
      {
        var out :| out in rest;
        ghost var h' := FinishOutWaits(old(St()), old(shadow), St(), shadow, records, t, out);
        if orderly && patient {
          FinishOutPatient(old(St()), old(shadow), old(Log()), St(), shadow, records, t, out);
        }
        OnProduced(out);
        shadow := h';
        rest := rest - {out};
      }
    }

    method ConsumeAll(t: Task, ghost s0: State, ghost h0: Shadow)
      requires Finishing(s0, h0, St(), shadow, t) && OutsOf(St(), t) == {} && t < |tasks|
               && InsOf(St(), t) == tasks[t].ins
      requires WaitsOk(St(), shadow, h0.done + {t}, records) && NotWaiting(St(), t) && Asleep()
      modifies `versions, `tasks, `released, `versionTrashcan, `shadow
      ensures Finishing(s0, h0, St(), shadow, t) && OutsOf(St(), t) == {} && InsOf(St(), t) == {}
      ensures WaitsOk(St(), shadow, h0.done + {t}, records) && NotWaiting(St(), t) && Resumed()
              && SameEntries(old(St()), St())
    {
      hide Core, InsOf, OutsOf, DepSet, Unblocked, Settled, NotWaiting, WaitsOk, Finishing, SameEntries,
        Dependence.OnConsumed;
      SameEntriesSelf(St());
      var rest := tasks[t].ins;
      while rest != {}
        invariant Finishing(s0, h0, St(), shadow, t) && OutsOf(St(), t) == {} && InsOf(St(), t) == rest
        invariant WaitsOk(St(), shadow, h0.done + {t}, records) && NotWaiting(St(), t) && Resumed()
                  && SameEntries(old(St()), St())
        decreases rest
      {
        var in_ :| in_ in rest;
        ghost var h' := FinishInWaits(s0, h0, St(), shadow, records, t, in_);
        SameEntriesTrans(old(St()), St(), Dependence.OnConsumed(St(), in_, t));
        OnConsumed(in_, t);
        shadow := h';
        rest := rest - {in_};
      }
    }

    /** `onTaskDone`. Exactly the accesses of `t` leave the orders of the data, exactly the tasks with
        nothing left to wait for are handed to the scheduler, and exactly the suspended tasks with
        nothing left to wait for resume. */
    method OnTaskDone(t: Task)
      requires Valid() && t in released && t !in shadow.done && t < |tasks| && tasks[t].waitDep == 0 && t !in joining
      requires forall d :: Mergeable(Pending(shadow, d), t)
      modifies this
      ensures Valid() && |tasks| == old(|tasks|) && Log() == old(Log()) && records == old(records)
              && patient == old(patient)
      ensures shadow.done == old(shadow).done + {t} && shadow.surplus == old(shadow).surplus
      ensures forall d :: Pending(shadow, d) == Without(Pending(old(shadow), d), t)
      ensures ReleasedBy(old(St()), old(shadow), St(), shadow)
      ensures Resumed() && forall r :: r in records && r.task in old(sleeping) && r.task !in sleeping
                             ==> r.writers <= shadow.done
      ensures forall u :: u in joining <==> u in old(joining) && ChildrenLeft(parents, shadow.done, u) != {}
    {
      hide Sound, WaitsOk, Patient, Mergeable, Without, ReleasedBy, ChildrenOk, ChildrenLeft;
      LengthOfParents(St(), shadow, Log());
      FinishDeps(t);
      StillReleased(old(St()), old(shadow), St(), shadow);
      DecChildRef(t, old(shadow).done, old(released));
    }

    /** The part of it under the lock of the manager. */
    method FinishDeps(t: Task)
      requires DepsOk() && t in released && t !in shadow.done && t < |tasks| && tasks[t].waitDep == 0
      requires forall d :: Mergeable(Pending(shadow, d), t)
      modifies `versions, `vaMap, `versionTrashcan, `tasks, `released, `sleeping, `shadow
      ensures DepsOk() && |tasks| == old(|tasks|)
      ensures shadow.done == old(shadow).done + {t} && shadow.surplus == old(shadow).surplus
      ensures forall d :: Pending(shadow, d) == Without(Pending(old(shadow), d), t)
      ensures ReleasedBy(old(St()), old(shadow), St(), shadow)
      ensures Resumed() && forall r :: r in records && r.task in old(sleeping) && r.task !in sleeping
                             ==> r.writers <= shadow.done
    {
      hide Core, InsOf, OutsOf, DepSet, NotWaiting, WaitsOk, Finishing, Sound, Sweeping, Mergeable, Without, ReleasedBy,
        Patient, SameEntries;
      ProduceAll(t);
      ghost var s1 := St();
      FinishingFacts(old(St()), old(shadow), St(), shadow, t);
      ConsumeAll(t, old(St()), old(shadow));
      ghost var s, h := St(), shadow;
      FinishEnd(old(St()), old(shadow), old(Log()), s, h, records, t);
      shadow := shadow.(done := shadow.done + {t});
      RecycleVersion();
      FinishSound(old(St()), old(shadow), old(Log()), s, h, St(), shadow, t);
      if orderly && patient {
        PatientSame(s1, s, order);
        PatientSame(s, St(), order);
      }
      forall r | r in records && r.task in old(sleeping) && r.task !in sleeping ensures r.writers <= shadow.done {
        WaitIsOver(St(), shadow, shadow.done, records, r);
      }
    }

    /** A finished task leaves its parent, which goes on if it waits for its children and this was the last. */
    method DecChildRef(t: Task, ghost done: set<Task>, ghost rel: set<Task>)
      requires ChildrenOk(parents, done, rel, childRefCnt, joining) && t < |parents| && t !in done && t !in joining
      requires rel <= released && (parents[t].Some? ==> parents[t].value < |parents|)
      modifies `childRefCnt, `joining
      ensures ChildrenOk(parents, done + {t}, released, childRefCnt, joining)
      ensures forall u :: u in joining <==> u in old(joining) && ChildrenLeft(parents, done + {t}, u) != {}
    {
      hide ChildrenLeft;
      forall u: Task ensures |ChildrenLeft(parents, done + {t}, u)|
                    == |ChildrenLeft(parents, done, u)| - if parents[t] == Some(u) then 1 else 0 {
        ChildGone(parents, done, t, u);
      }
      var parent := parents[t];
      if parent.Some? {
        var p := parent.value;
        childRefCnt := childRefCnt[p := childRefCnt[p] - 1];
        if childRefCnt[p] == 0 {
          joining := joining - {p};
        }
      }
    }

    // ----- waiting for children

    /** `onWait` without data: the task is suspended exactly if some child of it is not done. */
    method OnWaitChildren(t: Task) returns (suspended: bool)
      requires Valid() && t in released && t !in shadow.done && t < |tasks|
      modifies `joining
      ensures Valid() && suspended == (ChildrenLeft(parents, shadow.done, t) != {})
      ensures joining == if suspended then old(joining) + {t} else old(joining)
    {
      hide Sound, WaitsOk, Patient, ChildrenLeft;
      LengthOfParents(St(), shadow, Log());
      suspended := childRefCnt[t] != 0;
      if suspended {
        joining := joining + {t};
      }
    }

    // ----- waiting for data

    /** For each datum in use the version whose newest child is to be waited for. */
    method FindWaitData(t: Task, deps: seq<Signature>) returns (waitDatas: seq<Option<Address>>)
      requires Core(St(), shadow, {}, {}) && Running(St(), shadow, Some(t))
      ensures WaitDatas(St(), t, deps, waitDatas)
    {
      hide Core;
      waitDatas := [];
      ParentKnown(St(), shadow, Some(t));
      for i := 0 to |deps|
        invariant WaitDatas(St(), t, deps[..i], waitDatas)
      {
        var waitData: Option<Address> := None;
        if deps[i] in vaMap {
          var out := FindSignature(tasks[t].outs, deps[i]);
          RootOf(St(), shadow, deps[i]);
          waitData := if out.Some? then out else Some(vaMap[deps[i]]);
          assert Mapped(St(), Some(t), deps[i], waitData.value, if out.Some? then PARENTOUT else DEFAULT, false);
        }
        waitDatas := waitDatas + [waitData];
      }
      assert deps[..|deps|] == deps;
    }

    method AddDataWaitTaskByThis(v: Address, t: Task)
      requires Known(versions, v) && t < |tasks|
      modifies `versions, `tasks
      ensures St() == AddDataWait(old(St()), v, t)
    {
      if versions[v].last.Some? && versions[versions[v].last.value].status.IDLE? {
        var c := versions[v].last.value;
        versions := versions[c := versions[c].(dataWaitTaskByThis := versions[c].dataWaitTaskByThis + [t])];
        tasks := tasks[t := tasks[t].(waitDep := tasks[t].waitDep + 1)];
      }
    }

    /** Between two data of a wait. */
    ghost predicate Entering(t: Task, deps: seq<Signature>, vs: seq<Option<Address>>)
      reads this
    {
      && Sound(St(), shadow, Log()) && WaitsOk(St(), shadow, shadow.done, records) && WaitDatas(St(), t, deps, vs)
      && (forall r :: r in records ==> r.task < |tasks|)
      && t in released && t !in shadow.done && t < |tasks|
      && (patient ==> WaitsEarlier(shadow, order, t, deps))
      && (orderly && patient ==> Patient(St(), order))
    }

    method EnterDatum(t: Task, ghost deps: seq<Signature>, waitDatas: seq<Option<Address>>, i: nat)
      requires Entering(t, deps, waitDatas) && i < |deps| == |waitDatas|
      modifies `versions, `tasks, `records
      ensures Entering(t, deps, waitDatas) && |tasks| == old(|tasks|)
              && records == old(records) + {RecordOf(shadow, t, deps[i])}
      ensures forall u :: 0 <= u < |tasks| && u != t ==> tasks[u] == old(tasks)[u]
      ensures tasks[t].waitDep == old(tasks)[t].waitDep + One(RecordOf(shadow, t, deps[i]).writers != {})
    {
      hide Core, Sound, WaitsOk, RecordOf, WaitDatas, AddDataWait, Patient, WaitsEarlier;
      EnterNext(St(), shadow, Log(), records, t, deps, waitDatas, i);
      if orderly && patient {
        EnterPatient(St(), shadow, Log(), t, deps, waitDatas, i);
      }
      if waitDatas[i].Some? {
        AddDataWaitTaskByThis(waitDatas[i].value, t);
      }
      records := records + {RecordOf(shadow, t, deps[i])};
      RecordTask(shadow, t, deps[i]);
    }

    /** The part of `onWait` inside the critical section: enter `t` in the newest version of each
        datum that is still to be written. */
    method OnWait(t: Task, deps: seq<Signature>)
      requires Valid() && t in released && t !in shadow.done && t < |tasks| && tasks[t].waitDep == 0
      modifies `versions, `tasks, `records, `patient
      ensures Valid() && patient == (old(patient) && WaitsEarlier(shadow, order, t, deps))
      ensures records == old(records) + RecordsOf(shadow, t, deps)
      ensures tasks[t].waitDep >= 0 && (tasks[t].waitDep == 0 <==> NoWriterLeft(shadow, t, deps))
      ensures |tasks| == old(|tasks|) && forall u :: 0 <= u < |tasks| && u != t ==> tasks[u] == old(tasks)[u]
    {
      hide Core, Sound, WaitsOk, RecordOf, WaitDatas, Patient, WaitsEarlier, RecordsOf, NoWriterLeft, ChildrenOk;
      NoDataYet(shadow, t, deps);
      SoundCore(St(), shadow, Log());
      var waitDatas := FindWaitData(t, deps);
      WaitDatasLength(St(), t, deps, waitDatas);
      patient := patient && WaitsEarlier(shadow, order, t, deps);
      for i := 0 to |deps|
        invariant Entering(t, deps, waitDatas) && patient == (old(patient) && WaitsEarlier(shadow, order, t, deps))
        invariant |tasks| == old(|tasks|) && (forall u :: 0 <= u < |tasks| && u != t ==> tasks[u] == old(tasks)[u])
        invariant records == old(records) + RecordsOf(shadow, t, deps[..i])
        invariant tasks[t].waitDep >= 0 && (tasks[t].waitDep == 0 <==> NoWriterLeft(shadow, t, deps[..i]))
      {
        EnterDatum(t, deps, waitDatas, i);
        OneMoreDatum(shadow, t, deps, i);
      }
      assert deps[..|deps|] == deps;
    }

    /** The end of `onWait`: the task goes to sleep unless everything it waits for has happened. */
    method Suspend(t: Task) returns (asleep: bool)
      requires Valid() && t < |tasks|
      modifies `sleeping
      ensures Valid() && asleep == (tasks[t].waitDep > 0)
      ensures sleeping == if asleep then old(sleeping) + {t} else old(sleeping)
      ensures !asleep ==> forall r :: r in records && r.task == t ==> r.writers <= shadow.done
    {
      hide Sound, WaitsOk, ChildrenOk;
      CountNotNegative(St(), shadow, shadow.done, records, t);
      asleep := tasks[t].waitDep != 0;
      if asleep {
        sleeping := sleeping + {t};
      } else {
        ZeroIsOver(St(), shadow, records, t);
      }
    }
  }
}
