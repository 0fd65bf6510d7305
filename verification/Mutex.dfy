/** The three-state mutex with a list of waiters, for any number of threads. Every atomic access to
    the lock word and every section under `wlock` that another thread could interrupt is a step of
    its own. */
module Mutex {
  import opened Wrappers

  type Thread = nat

  datatype Word = UNLOCK | LOCK | WAIT

  /** Where a thread is. */
  datatype PC =
    | Outside
    | Contended                  // the first exchange of `lock` failed; about to look at the word
    | Retry                      // about to exchange WAIT into the word
    | EnterWait                  // called `wait`; needs `wlock`
    | InWait                     // holds `wlock`; about to look at the word
    | Checked                    // holds `wlock`; saw WAIT; about to enter the list and sleep
    | Asleep                     // in the list, or taken out but not woken yet
    | Holds
    | EnterWake                  // released a contended lock; needs `wlock`
    | InWake                     // holds `wlock`; about to take the first waiter
    | Notify(target: Thread)     // took `target` out of the list; about to wake it

  datatype State = State(word: Word, wlock: Option<Thread>, list: seq<Thread>, pcs: seq<PC>)

  datatype Call = CallLock | CallTryLock

  function To(s: State, t: Thread, pc: PC): State
    requires t < |s.pcs|
  {
    s.(pcs := s.pcs[t := pc])
  }

  predicate Enabled(s: State, t: Thread)
    requires t < |s.pcs|
  {
    match s.pcs[t]
    case EnterWait => s.wlock.None?
    case EnterWake => s.wlock.None?
    case Asleep => false
    case Notify(u) => u < |s.pcs|
    case _ => true
  }

  /** The next step of thread `t`; `call` is what it calls if it is outside. */
  function Step(s: State, t: Thread, call: Call): State
    requires t < |s.pcs| && Enabled(s, t)
  {
    match s.pcs[t]
    case Outside =>
      if s.word.UNLOCK? then To(s, t, Holds).(word := LOCK)
      else if call.CallLock? then To(s, t, Contended)
      else s
    case Contended => To(s, t, if s.word.WAIT? then EnterWait else Retry)
    case Retry => To(s, t, if s.word.UNLOCK? then Holds else EnterWait).(word := WAIT)
    case EnterWait => To(s, t, InWait).(wlock := Some(t))
    case InWait => if s.word.WAIT? then To(s, t, Checked) else To(s, t, Retry).(wlock := None)
    case Checked => To(s, t, Asleep).(list := s.list + [t], wlock := None)
    case Holds => To(s, t, if s.word.WAIT? then EnterWake else Outside).(word := UNLOCK)
    case EnterWake => To(s, t, InWake).(wlock := Some(t))
    case InWake =>
      if s.list == [] then To(s, t, Outside).(wlock := None)
      else To(s, t, Notify(s.list[0])).(list := s.list[1..], wlock := None)
    case Notify(u) => To(To(s, u, Retry), t, Outside)
    case Asleep => s
  }

  function Initial(n: nat): State {
    State(UNLOCK, None, [], seq(n, _ => Outside))
  }

  // ----- what every step keeps

  ghost predicate Holder(s: State, t: Thread) {
    t < |s.pcs| && s.pcs[t].Holds?
  }

  /** The word is UNLOCK exactly when nobody holds the lock, and nobody shares it. */
  ghost predicate Exclusive(s: State) {
    && (s.word.UNLOCK? <==> forall t :: !Holder(s, t))
    && (forall t, u :: Holder(s, t) && Holder(s, u) ==> t == u)
  }

  predicate Inside(pc: PC) {
    pc.InWait? || pc.Checked? || pc.InWake?
  }

  ghost predicate Guarded(s: State) {
    && (s.wlock.Some? ==> s.wlock.value < |s.pcs|)
    && forall t :: 0 <= t < |s.pcs| ==> (Inside(s.pcs[t]) <==> s.wlock == Some(t))
  }

  ghost predicate Notifies(s: State, x: Thread, t: Thread) {
    x < |s.pcs| && s.pcs[x] == Notify(t)
  }

  /** A sleeping thread is in the list once, or one thread is about to wake it. */
  ghost predicate Waiters(s: State) {
    && (forall i, j :: 0 <= i < j < |s.list| ==> s.list[i] != s.list[j])
    && (forall t :: t in s.list ==> t < |s.pcs| && s.pcs[t].Asleep?)
    && (forall x: Thread, t: Thread :: Notifies(s, x, t) ==> t < |s.pcs| && s.pcs[t].Asleep? && t !in s.list)
    && (forall x: Thread, y: Thread, t: Thread :: Notifies(s, x, t) && Notifies(s, y, t) ==> x == y)
    && (forall t :: 0 <= t < |s.pcs| && s.pcs[t].Asleep? && t !in s.list ==> exists x :: Notifies(s, x, t))
  }

  /** Threads that will see to the waiters: unlockers on their way to `wake`, and woken threads on
      their way to mark the word. */
  ghost predicate Helper(s: State, t: Thread) {
    t < |s.pcs| && (s.pcs[t].EnterWake? || s.pcs[t].InWake? || s.pcs[t].Notify? || s.pcs[t].Retry?)
  }

  /** Waiters are never forgotten: the holder will see WAIT, or a helper is on its way. */
  ghost predicate Remembered(s: State) {
    s.list != [] ==> s.word.WAIT? || exists t :: Helper(s, t)
  }

  ghost predicate EntersWake(s: State, t: Thread) {
    t < |s.pcs| && s.pcs[t].EnterWake?
  }

  /** A thread about to enter the list will be found by the holder, or by an unlocker that still has
      to get past `wlock`. */
  ghost predicate Expected(s: State) {
    forall t :: 0 <= t < |s.pcs| && s.pcs[t].Checked? ==> s.word.WAIT? || exists x :: EntersWake(s, x)
  }

  ghost predicate Inv(s: State) {
    Exclusive(s) && Guarded(s) && Waiters(s) && Remembered(s) && Expected(s)
  }

  lemma InitialInv(n: nat)
    ensures Inv(Initial(n))
  {
  }

  /** Threads other than `t` are where they were. */
  ghost predicate Others(s: State, s': State, t: Thread) {
    |s'.pcs| == |s.pcs| && forall u :: 0 <= u < |s.pcs| && u != t ==> s'.pcs[u] == s.pcs[u]
  }

  lemma ExclusiveStep(s: State, t: Thread, call: Call)
    requires Inv(s) && t < |s.pcs| && Enabled(s, t)
    ensures Exclusive(Step(s, t, call))
  {
    hide Waiters, Remembered, Expected, Guarded;
    var s' := Step(s, t, call);
    if s.pcs[t].Holds? {
      assert forall u :: Holder(s', u) ==> Holder(s, u) && u != t;
      assert Holder(s, t);
    } else if s.word.UNLOCK? && (s.pcs[t].Outside? || s.pcs[t].Retry?) {
      assert forall u :: Holder(s', u) ==> Holder(s, u) || u == t;
      assert Holder(s', t);
    } else {
      if s.pcs[t].Notify? {
        NotifyTarget(s, t, s.pcs[t].target);
      }
      assert forall u :: Holder(s', u) <==> Holder(s, u);
    }
  }

  lemma NotifyTarget(s: State, t: Thread, v: Thread)
    requires Waiters(s) && t < |s.pcs| && s.pcs[t] == Notify(v)
    ensures v < |s.pcs| && s.pcs[v].Asleep? && v !in s.list
  {
    assert Notifies(s, t, v);
  }

  lemma GuardedStep(s: State, t: Thread, call: Call)
    requires Inv(s) && t < |s.pcs| && Enabled(s, t)
    ensures Guarded(Step(s, t, call))
  {
    hide Exclusive, Remembered, Expected;
    if s.pcs[t].Notify? {
      NotifyTarget(s, t, s.pcs[t].target);
    }
    hide Waiters;
  }

  lemma WaitersStep(s: State, t: Thread, call: Call)
    requires Inv(s) && t < |s.pcs| && Enabled(s, t)
    ensures Waiters(Step(s, t, call))
  {
    hide Exclusive, Remembered, Expected, Guarded;
    var s' := Step(s, t, call);
    if s.pcs[t].Checked? {
      WaitersSleep(s, s', t);
    } else if s.pcs[t].InWake? && s.list != [] {
      WaitersTake(s, s', t);
    } else if s.pcs[t].Notify? {
      WaitersWake(s, s', t, s.pcs[t].target);
    } else {
      WaitersSame(s, s', t);
    }
  }

  lemma WaitersSame(s: State, s': State, t: Thread)
    requires Waiters(s) && s'.list == s.list && t < |s.pcs| && Others(s, s', t)
    requires !s.pcs[t].Asleep? && !s'.pcs[t].Asleep? && !s.pcs[t].Notify? && !s'.pcs[t].Notify?
    ensures Waiters(s')
  {
    assert forall x, u :: Notifies(s', x, u) <==> Notifies(s, x, u);
  }

  lemma WaitersSleep(s: State, s': State, t: Thread)
    requires Waiters(s) && s'.list == s.list + [t] && t < |s.pcs| && Others(s, s', t) && s.pcs[t].Checked?
             && s'.pcs[t].Asleep?
    ensures Waiters(s')
  {
    assert forall x, u :: Notifies(s', x, u) <==> Notifies(s, x, u);
    assert forall x :: !Notifies(s, x, t);
  }

  lemma WaitersTake(s: State, s': State, t: Thread)
    requires Waiters(s) && s.list != [] && s'.list == s.list[1..] && t < |s.pcs| && Others(s, s', t)
    requires s.pcs[t].InWake? && s'.pcs[t] == Notify(s.list[0])
    ensures Waiters(s')
  {
    var v := s.list[0];
    assert v in s.list;
    assert forall x, u :: Notifies(s', x, u) <==> Notifies(s, x, u) || (x == t && u == v);
    assert forall u :: u in s'.list <==> u in s.list && u != v;
    assert Notifies(s', t, v);
  }

  lemma WaitersWake(s: State, s': State, t: Thread, u: Thread)
    requires Waiters(s) && t < |s.pcs| && u < |s.pcs| && s.pcs[t] == Notify(u) && s' == To(To(s, u, Retry), t, Outside)
    ensures Waiters(s')
  {
    assert Notifies(s, t, u);
    forall x, v ensures Notifies(s', x, v) <==> Notifies(s, x, v) && x != t {
    }
    forall v | 0 <= v < |s'.pcs| && s'.pcs[v].Asleep? && v !in s'.list ensures exists x :: Notifies(s', x, v) {
      var x :| Notifies(s, x, v);
      assert Notifies(s', x, v);
    }
  }

  lemma RememberedStep(s: State, t: Thread, call: Call)
    requires Inv(s) && t < |s.pcs| && Enabled(s, t)
    ensures Remembered(Step(s, t, call))
  {
    hide Exclusive, Guarded;
    var s' := Step(s, t, call);
    if s'.list != [] && !s'.word.WAIT? {
      if s.pcs[t].Checked? {
        var x :| EntersWake(s, x);
        assert Helper(s', x);
      } else if s.pcs[t].EnterWake? || s.pcs[t].InWake? || (s.pcs[t].Holds? && s.word.WAIT?) {
        assert Helper(s', t);
      } else if s.pcs[t].Notify? {
        NotifyTarget(s, t, s.pcs[t].target);
        assert Helper(s', s.pcs[t].target);
      } else {
        var x :| Helper(s, x);
        assert Helper(s', x);
      }
    }
  }

  lemma ExpectedStep(s: State, t: Thread, call: Call)
    requires Inv(s) && t < |s.pcs| && Enabled(s, t)
    ensures Expected(Step(s, t, call))
  {
    hide Exclusive, Remembered;
    var s' := Step(s, t, call);
    forall u | 0 <= u < |s'.pcs| && s'.pcs[u].Checked? ensures s'.word.WAIT? || exists x :: EntersWake(s', x) {
      if u != t && !s'.word.WAIT? {
        if s.word.WAIT? {
          assert EntersWake(s', t);
        } else {
          var x :| EntersWake(s, x);
          assert s.wlock == Some(u);
          if s.pcs[t].Notify? {
            NotifyTarget(s, t, s.pcs[t].target);
          }
          assert EntersWake(s', x);
        }
      }
    }
  }

  lemma InvStep(s: State, t: Thread, call: Call)
    requires Inv(s) && t < |s.pcs| && Enabled(s, t)
    ensures Inv(Step(s, t, call))
  {
    hide Inv, Step;
    ExclusiveStep(s, t, call);
    GuardedStep(s, t, call);
    WaitersStep(s, t, call);
    RememberedStep(s, t, call);
    ExpectedStep(s, t, call);
    assert Inv(Step(s, t, call)) by {
      InvParts(Step(s, t, call));
    }
  }

  lemma InvParts(s: State)
    requires Exclusive(s) && Guarded(s) && Waiters(s) && Remembered(s) && Expected(s)
    ensures Inv(s)
  {
    hide Exclusive, Guarded, Waiters, Remembered, Expected;
  }

  // ----- every run

  datatype Move = Move(thread: Thread, call: Call)

  /** `run` is a run of `n` threads: each state follows from the one before by a step of a thread. */
  ghost predicate Run(n: nat, run: seq<State>, moves: seq<Move>) {
    && |run| == |moves| + 1 && run[0] == Initial(n)
    && forall i :: 0 <= i < |moves| ==>
         && moves[i].thread < |run[i].pcs| && Enabled(run[i], moves[i].thread)
         && run[i + 1] == Step(run[i], moves[i].thread, moves[i].call)
  }

  lemma {:induction false} RunInv(n: nat, run: seq<State>, moves: seq<Move>, k: nat)
    requires Run(n, run, moves) && k < |run|
    ensures Inv(run[k]) && |run[k].pcs| == n
  {
    hide Inv;
    if k == 0 {
      InitialInv(n);
    } else {
      RunInv(n, run, moves, k - 1);
      InvStep(run[k - 1], moves[k - 1].thread, moves[k - 1].call);
      StepSize(run[k - 1], moves[k - 1].thread, moves[k - 1].call);
    }
  }

  lemma StepSize(s: State, t: Thread, call: Call)
    requires t < |s.pcs| && Enabled(s, t)
    ensures |Step(s, t, call).pcs| == |s.pcs|
  {
  }

  /** In every state of every run at most one thread holds the lock. */
  lemma MutualExclusion(n: nat, run: seq<State>, moves: seq<Move>, k: nat, t: Thread, u: Thread)
    requires Run(n, run, moves) && k < |run| && Holder(run[k], t) && Holder(run[k], u)
    ensures t == u
  {
    RunInv(n, run, moves, k);
  }

  /** A thread that calls when nobody holds the lock gets it at once, by `lock` and by `try_lock`. If somebody holds it,
      `try_lock` changes nothing and `lock` begins to wait. A holder that unlocks holds it no longer. */
  lemma FirstCome(n: nat, run: seq<State>, moves: seq<Move>, k: nat)
    requires Run(n, run, moves) && k < |moves|
    ensures var t, s, s' := moves[k].thread, run[k], run[k + 1];
            && (s.pcs[t].Outside? && (forall u :: !Holder(s, u)) ==> Holder(s', t))
            && (s.pcs[t].Outside? && moves[k].call.CallTryLock? && (exists u :: Holder(s, u)) ==> s' == s)
            && (s.pcs[t].Outside? && moves[k].call.CallLock? && (exists u :: Holder(s, u))
              ==> s' == To(s, t, Contended))
            && (s.pcs[t].Holds? ==> forall u :: !Holder(s', u))
  {
    RunInv(n, run, moves, k);
    RunInv(n, run, moves, k + 1);
    var t, s, s' := moves[k].thread, run[k], run[k + 1];
    assert Enabled(s, t);
    hide Run, Waiters, Remembered, Expected, Guarded;
    if s.pcs[t].Holds? {
      assert s'.word.UNLOCK?;
    }
  }

  /** The moment at which a sleeping thread fell asleep. */
  function SleptAt(run: seq<State>, k: nat, t: Thread): nat
    requires k < |run|
  {
    if k == 0 then 0
    else if t < |run[k - 1].pcs| && run[k - 1].pcs[t].Asleep? then SleptAt(run, k - 1, t) else k
  }

  lemma {:induction false} SleptBefore(run: seq<State>, k: nat, t: Thread)
    requires k < |run|
    ensures SleptAt(run, k, t) <= k
  {
    if k > 0 {
      SleptBefore(run, k - 1, t);
    }
  }

  /** The waiters are in the list in the order in which they fell asleep. */
  lemma {:induction false} ListInOrder(n: nat, run: seq<State>, moves: seq<Move>, k: nat, i: nat, j: nat)
    requires Run(n, run, moves) && k < |run| && i < j < |run[k].list|
    ensures SleptAt(run, k, run[k].list[i]) < SleptAt(run, k, run[k].list[j])
  {
    hide Step, Enabled, Inv, SleptAt;
    if k > 0 {
      var t := moves[k - 1].thread;
      RunInv(n, run, moves, k - 1);
      ListStep(run[k - 1], t, moves[k - 1].call);
      var list := run[k - 1].list;
      if run[k].list == list + [t] {
        SleptBefore(run, k - 1, list[i]);
        StillSlept(run, k, list[i]);
        if j < |list| {
          ListInOrder(n, run, moves, k - 1, i, j);
          StillSlept(run, k, list[j]);
        } else {
          JustSlept(run, k, t);
        }
      } else {
        var d := if run[k].list == list then 0 else 1;
        ListInOrder(n, run, moves, k - 1, i + d, j + d);
        StillSlept(run, k, list[i + d]);
        StillSlept(run, k, list[j + d]);
      }
    }
  }

  /** What one step does to the list. */
  lemma ListStep(s: State, t: Thread, call: Call)
    requires Inv(s) && t < |s.pcs| && Enabled(s, t)
    ensures var list := Step(s, t, call).list;
            && (|| list == s.list || (s.list != [] && list == s.list[1..])
                || (list == s.list + [t] && !s.pcs[t].Asleep?))
    ensures forall i :: 0 <= i < |s.list| ==> s.list[i] < |s.pcs| && s.pcs[s.list[i]].Asleep?
  {
    assert forall i :: 0 <= i < |s.list| ==> s.list[i] in s.list;
    hide Exclusive, Guarded, Remembered, Expected;
  }

  lemma StillSlept(run: seq<State>, k: nat, t: Thread)
    requires 0 < k < |run| && t < |run[k - 1].pcs| && run[k - 1].pcs[t].Asleep?
    ensures SleptAt(run, k, t) == SleptAt(run, k - 1, t)
  {
  }

  lemma JustSlept(run: seq<State>, k: nat, t: Thread)
    requires 0 < k < |run| && t < |run[k - 1].pcs| && !run[k - 1].pcs[t].Asleep?
    ensures SleptAt(run, k, t) == k
  {
  }

  /** Whoever has slept for longest is the next to be woken. */
  lemma LongestFirst(n: nat, run: seq<State>, moves: seq<Move>, k: nat, v: Thread)
    requires Run(n, run, moves) && k < |moves|
    requires run[k].pcs[moves[k].thread].InWake? && v in run[k].list
    ensures var t, s' := moves[k].thread, run[k + 1];
            && t < |s'.pcs| && s'.pcs[t].Notify?
            && (s'.pcs[t].target == v || SleptAt(run, k, s'.pcs[t].target) < SleptAt(run, k, v))
  {
    var s := run[k];
    assert Enabled(s, moves[k].thread);
    var j :| 0 <= j < |s.list| && s.list[j] == v;
    if j > 0 {
      ListInOrder(n, run, moves, k, 0, j);
    }
  }

  /** No wakeup is lost: whenever all threads are outside or asleep, none is asleep. */
  lemma NobodyStranded(n: nat, run: seq<State>, moves: seq<Move>, k: nat, t: Thread)
    requires Run(n, run, moves) && k < |run| && t < |run[k].pcs|
    requires forall u :: 0 <= u < |run[k].pcs| ==> run[k].pcs[u].Outside? || run[k].pcs[u].Asleep?
    ensures run[k].pcs[t].Outside?
  {
    RunInv(n, run, moves, k);
    var s := run[k];
    hide Run;
    assert forall u :: !Holder(s, u);
    assert forall u :: !Helper(s, u);
    assert forall x :: !Notifies(s, x, t);
  }

  /** While the lock is free, a thread that wants it always finds some thread able to move. */
  lemma SomeoneMoves(n: nat, run: seq<State>, moves: seq<Move>, k: nat, t: Thread) returns (u: Thread)
    requires Run(n, run, moves) && k < |run| && t < |run[k].pcs| && !run[k].pcs[t].Outside?
    requires forall u :: !Holder(run[k], u)
    ensures u < |run[k].pcs| && !run[k].pcs[u].Outside? && Enabled(run[k], u)
  {
    RunInv(n, run, moves, k);
    var s := run[k];
    hide Run;
    u := t;
    if s.pcs[t].Asleep? {
      if t in s.list {
        u :| Helper(s, u);
      } else {
        u :| Notifies(s, u, t);
      }
    }
    if s.pcs[u].Notify? {
      NotifyTarget(s, u, s.pcs[u].target);
    }
    if !Enabled(s, u) {
      u := s.wlock.value;
      LockedInside(s, u);
    }
  }

  lemma LockedInside(s: State, u: Thread)
    requires Guarded(s) && s.wlock == Some(u)
    ensures u < |s.pcs| ==> Inside(s.pcs[u]) && Enabled(s, u)
  {
  }
}
