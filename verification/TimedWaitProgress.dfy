/** What condition-variable waits are for: whoever waited first is woken first, a notification reaches a waiter
    whatever the timer thread is doing, a time limit ends a wait, and nobody gets stuck on the way. */
module TimedWaitProgress {
  import opened TimedWait

  // ----- first come, first served

  ghost predicate Ascending(q: seq<Entry>) {
    forall i, j :: 0 <= i < j < |q| ==> q[i] < q[j]
  }

  /** Entries are numbered in the order of their waits; the queue is in that order. */
  ghost predicate InLine(s: State) {
    Ascending(s.queue) && forall e :: e in s.queue ==> e < s.nextEntry
  }

  lemma {:induction false} MinusThins(q: seq<Entry>, e: Entry)
    requires Ascending(q)
    ensures Ascending(Minus(q, e)) && forall f :: f in Minus(q, e) ==> f in q
  {
    if q != [] {
      TailAscends(q);
      MinusThins(q[1..], e);
      if q[0] != e {
        FrontAscends(q[0], Minus(q[1..], e));
      }
    }
  }

  lemma TailAscends(q: seq<Entry>)
    requires Ascending(q) && q != []
    ensures Ascending(q[1..]) && (forall f :: f in q[1..] ==> f in q && q[0] < f)
  {
  }

  lemma FrontAscends(x: Entry, q: seq<Entry>)
    requires Ascending(q) && forall f :: f in q ==> x < f
    ensures Ascending([x] + q)
  {
    var r := [x] + q;
    forall i, j | 0 <= i < j < |r| ensures r[i] < r[j] {
      assert r[j] == q[j - 1] && r[j] in q;
      assert i > 0 ==> r[i] == q[i - 1];
    }
  }

  lemma InLineStep(s: State, m: Move)
    requires InLine(s) && Enabled(s, m)
    ensures InLine(Step(s, m)) && s.nextEntry <= Step(s, m).nextEntry
    ensures m.BeginWait? ==>
              && Step(s, m).nextEntry == s.nextEntry + 1 && m.task < |Step(s, m).tasks|
              && Step(s, m).tasks[m.task] == Pushed(s.nextEntry) && Step(s, m).queue == s.queue + [s.nextEntry]
  {
    if m.TimeoutProc? {
      MinusThins(s.queue, s.timer.entry);
    } else if m.SetTimer? {
      MinusThins(s.queue, s.tasks[m.task].entry);
    } else if m.BeginWait? {
      LastAscends(s.queue, s.nextEntry);
    } else if m.Pop? {
      TailAscends(s.queue);
    }
    hide Minus, Ascending;
  }

  lemma LastAscends(q: seq<Entry>, x: Entry)
    requires Ascending(q) && forall f :: f in q ==> f < x
    ensures Ascending(q + [x])
  {
    var r := q + [x];
    forall i, j | 0 <= i < j < |r| ensures r[i] < r[j] {
      assert r[i] == q[i] && q[i] in q;
      assert j < |q| ==> r[j] == q[j];
    }
  }

  lemma {:induction false} RunInLine(tasks: nat, notifiers: nat, run: seq<State>, moves: seq<Move>, i: nat, j: nat)
    requires Run(tasks, notifiers, run, moves) && i <= j < |run|
    ensures InLine(run[j]) && run[i].nextEntry <= run[j].nextEntry
    decreases j
  {
    hide InLine, Enabled, Step;
    if j == 0 {
      NobodyInLine(tasks, notifiers);
    } else {
      RunInLine(tasks, notifiers, run, moves, if i < j then i else j - 1, j - 1);
      InLineStep(run[j - 1], moves[j - 1]);
    }
  }

  lemma NobodyInLine(tasks: nat, notifiers: nat)
    ensures InLine(Initial(tasks, notifiers))
  {
  }

  /** A notifier takes the entry that has been in the queue for longest, and leaves the others. */
  lemma PopsOldest(tasks: nat, notifiers: nat, run: seq<State>, moves: seq<Move>, i: nat, n: nat)
    requires Run(tasks, notifiers, run, moves) && i < |moves| && moves[i] == Pop(n)
    ensures run[i].queue != [] && n < |run[i + 1].notifiers|
    ensures var e, rest := run[i].queue[0], run[i + 1].queue;
            && run[i + 1].notifiers[n] == Popped(e) && run[i].queue == [e] + rest
            && forall f :: f in rest ==> e < f
  {
    RunInLine(tasks, notifiers, run, moves, i, i);
    assert Enabled(run[i], moves[i]);
    TailAscends(run[i].queue);
  }

  /** Of two waits the one that began first is the first to be notified: while its entry is in the queue, no
      notifier takes the other. */
  lemma ServedInOrder(tasks: nat, notifiers: nat, run: seq<State>, moves: seq<Move>, i: nat, j: nat, k: nat, n: nat)
    requires Run(tasks, notifiers, run, moves) && i < j < k < |moves|
    requires moves[i].BeginWait? && moves[j].BeginWait? && moves[k] == Pop(n)
    ensures moves[i].task < |run[i + 1].tasks| && !run[i + 1].tasks[moves[i].task].Running?
    ensures moves[j].task < |run[j + 1].tasks| && !run[j + 1].tasks[moves[j].task].Running?
    ensures var first, second := run[i + 1].tasks[moves[i].task].entry, run[j + 1].tasks[moves[j].task].entry;
            first in run[k].queue ==> n < |run[k + 1].notifiers| && run[k + 1].notifiers[n] != Popped(second)
  {
    RunInLine(tasks, notifiers, run, moves, i, i);
    RunInLine(tasks, notifiers, run, moves, j, j);
    RunInLine(tasks, notifiers, run, moves, i + 1, j);
    assert Enabled(run[i], moves[i]) && Enabled(run[j], moves[j]);
    InLineStep(run[i], moves[i]);
    InLineStep(run[j], moves[j]);
    PopsOldest(tasks, notifiers, run, moves, k, n);
    hide InLine, Run, Enabled, Step;
  }

  // ----- extending a run

  lemma Extend(tasks: nat, notifiers: nat, run: seq<State>, moves: seq<Move>, m: Move)
      returns (run': seq<State>, moves': seq<Move>)
    requires Run(tasks, notifiers, run, moves) && Enabled(run[|moves|], m)
    ensures Run(tasks, notifiers, run', moves') && moves' == moves + [m]
    ensures |run'| == |moves'| + 1 && Inv(run'[|moves'|]) && run'[|moves'|] == Step(run[|moves|], m)
  {
    hide Enabled, Step, Inv;
    run', moves' := run + [Step(run[|moves|], m)], moves + [m];
    RunInv(tasks, notifiers, run', moves', |moves'|);
  }

  /** A move of notifier `n`, or of the timer thread on its way out. */
  predicate Serves(m: Move, n: nat) {
    m in {Pop(n), RemoveTimer(n), SeeDone(n), Reacquire(n), Release(n), NotifierWake(n), ReadTask, TimeoutProc}
  }

  /** All that a run gained are moves of notifier `n` and of the timer thread. */
  ghost predicate Served(moves: seq<Move>, moves': seq<Move>, n: nat) {
    moves <= moves' && forall i :: |moves| <= i < |moves'| ==> Serves(moves'[i], n)
  }

  /** A notifier that has made sure of its entry wakes the task. */
  lemma WakeUp(tasks: nat, notifiers: nat, run: seq<State>, moves: seq<Move>, n: nat, e: Entry, k: Task)
      returns (run': seq<State>, moves': seq<Move>)
    requires Run(tasks, notifiers, run, moves)
    requires var s := run[|moves|]; n < |s.notifiers| && s.notifiers[n] == Destroyed(e, k)
    ensures Run(tasks, notifiers, run', moves') && |run'| == |moves'| + 1 && Served(moves, moves', n)
    ensures var s' := run'[|moves'|];
            && k < |s'.tasks| && s'.tasks[k] == Woken(e, SUCCESS) && s'.wqlock.Nobody?
            && n < |s'.notifiers| && s'.notifiers[n].NotifierIdle?
  {
    assert |run| == |moves| + 1;
    hide Inv, Run;
    NoneServed(moves, n);
    hide Served;
    ServedOne(moves, moves, n, Release(n));
    run', moves' := Extend(tasks, notifiers, run, moves, Release(n));
    KnownTask(run'[|moves'|], n);
    ServedOne(moves, moves', n, NotifierWake(n));
    run', moves' := Extend(tasks, notifiers, run', moves', NotifierWake(n));
  }

  lemma KnownTask(s: State, n: nat)
    requires Inv(s) && n < |s.notifiers| && s.notifiers[n].NotifierWakes?
    ensures s.notifiers[n].task < |s.tasks|
  {
    hide TasksOk, LockOk, Unique, Truthful, Freed;
  }

  /** A notifier that has found the timer callback at work gets its entry as soon as the callback has given way. */
  lemma GiveWay(tasks: nat, notifiers: nat, run: seq<State>, moves: seq<Move>, n: nat, e: Entry, k: Task)
      returns (run': seq<State>, moves': seq<Move>)
    requires Run(tasks, notifiers, run, moves)
    requires var s := run[|moves|];
             && n < |s.notifiers| && s.notifiers[n] == Spinning(e) && s.wqlock.Nobody?
             && e in s.entries && s.entries[e] == Record(k, true, NOTIFYING) && Calling(s, e)
    ensures Run(tasks, notifiers, run', moves') && |run'| == |moves'| + 1 && Served(moves, moves', n)
    ensures var s' := run'[|moves'|]; n < |s'.notifiers| && s'.notifiers[n] == Destroyed(e, k)
  {
    assert |run| == |moves| + 1;
    hide Inv, Run;
    hide Served;
    run', moves' := EndCallback(tasks, notifiers, run, moves, n, e, k);
    ServedOne(moves, moves', n, SeeDone(n));
    run', moves' := Extend(tasks, notifiers, run', moves', SeeDone(n));
    ServedOne(moves, moves', n, Reacquire(n));
    run', moves' := Extend(tasks, notifiers, run', moves', Reacquire(n));
  }

  lemma EndCallback(tasks: nat, notifiers: nat, run: seq<State>, moves: seq<Move>, n: nat, e: Entry, k: Task)
      returns (run': seq<State>, moves': seq<Move>)
    requires Run(tasks, notifiers, run, moves)
    requires var s := run[|moves|];
             && s.wqlock.Nobody? && e in s.entries && s.entries[e] == Record(k, true, NOTIFYING) && Calling(s, e)
    ensures Run(tasks, notifiers, run', moves') && |run'| == |moves'| + 1 && Served(moves, moves', n)
    ensures var s, s' := run[|moves|], run'[|moves'|];
            && s'.wqlock.Nobody? && e in s'.entries && s'.entries[e] == Record(k, true, TIMEOUT_DONE)
            && s'.notifiers == s.notifiers
  {
    assert |run| == |moves| + 1;
    hide Inv, Run;
    NoneServed(moves, n);
    hide Served;
    run', moves' := run, moves;
    if run[|moves|].timer.Fired? {
      ServedOne(moves, moves, n, ReadTask);
      run', moves' := Extend(tasks, notifiers, run, moves, ReadTask);
    }
    ServedOne(moves, moves', n, TimeoutProc);
    run', moves' := Extend(tasks, notifiers, run', moves', TimeoutProc);
  }

  /** In a state with the lock free the tasks in the queue are suspended. */
  lemma QueuedWaits(s: State, e: Entry) returns (k: Task)
    requires Inv(s) && s.wqlock.Nobody? && e in s.queue
    ensures k < |s.tasks| && s.tasks[k] == Waiting(e) && Init(s, k, e) && Watched(s, e)
  {
    hide Freed, Unique, Truthful;
    k := s.entries[e].task;
    assert TaskOn(s, k, e) && TaskOk(s, k);
  }

  /** From every state in which somebody is in the queue, the lock is free and notifier `n` is idle, the notifier
      and the timer thread by themselves get to a state in which the task that has waited for longest is woken
      with success, the lock is free and the notifier is idle again. */
  lemma NotifyServes(tasks: nat, notifiers: nat, run: seq<State>, moves: seq<Move>, n: nat)
      returns (run': seq<State>, moves': seq<Move>, k: Task)
    requires Run(tasks, notifiers, run, moves)
    requires var s := run[|moves|];
             n < |s.notifiers| && s.notifiers[n].NotifierIdle? && s.wqlock.Nobody? && s.queue != []
    ensures Run(tasks, notifiers, run', moves') && |run'| == |moves'| + 1 && Served(moves, moves', n)
    ensures var s, s' := run[|moves|], run'[|moves'|];
            var e := s.queue[0];
            && k < |s.tasks| && s.tasks[k] == Waiting(e) && k < |s'.tasks| && s'.tasks[k] == Woken(e, SUCCESS)
            && s'.wqlock.Nobody? && n < |s'.notifiers| && s'.notifiers[n].NotifierIdle?
  {
    assert |run| == |moves| + 1;
    hide Inv, Run;
    var s := run[|moves|];
    var e := s.queue[0];
    RunInv(tasks, notifiers, run, moves, |moves|);
    k := QueuedWaits(s, e);
    run', moves' := Claim(tasks, notifiers, run, moves, n, e, k);
    hide Step, Enabled;
    if run'[|moves'|].notifiers[n].Spinning? {
      ghost var claimed := moves';
      run', moves' := GiveWay(tasks, notifiers, run', moves', n, e, k);
      ServedThen(moves, claimed, moves', n);
    }
    ghost var ready := moves';
    run', moves' := WakeUp(tasks, notifiers, run', moves', n, e, k);
    ServedThen(moves, ready, moves', n);
  }

  lemma ServedOne(moves: seq<Move>, moves': seq<Move>, n: nat, m: Move)
    requires Served(moves, moves', n) && Serves(m, n)
    ensures Served(moves, moves' + [m], n)
  {
    hide Serves;
  }

  lemma NoneServed(moves: seq<Move>, n: nat)
    ensures Served(moves, moves, n)
  {
  }

  lemma ServedThen(a: seq<Move>, b: seq<Move>, c: seq<Move>, n: nat)
    requires Served(a, b, n) && Served(b, c, n)
    ensures Served(a, c, n)
  {
    hide Serves;
    forall i | |a| <= i < |c| ensures Serves(c[i], n) {
      assert i < |b| ==> c[i] == b[i];
    }
  }

  /** A notifier takes the first entry and removes its timer, or finds that the callback is at work. */
  lemma Claim(tasks: nat, notifiers: nat, run: seq<State>, moves: seq<Move>, n: nat, e: Entry, k: Task)
      returns (run': seq<State>, moves': seq<Move>)
    requires Run(tasks, notifiers, run, moves)
    requires var s := run[|moves|];
             && n < |s.notifiers| && s.notifiers[n].NotifierIdle? && s.wqlock.Nobody? && s.queue != []
             && e == s.queue[0] && Init(s, k, e) && Watched(s, e)
    ensures Run(tasks, notifiers, run', moves') && |run'| == |moves'| + 1 && Served(moves, moves', n)
    ensures var s' := run'[|moves'|];
            && n < |s'.notifiers|
            && (|| s'.notifiers[n] == Destroyed(e, k)
                || (&& s'.notifiers[n] == Spinning(e) && s'.wqlock.Nobody?
                    && e in s'.entries && s'.entries[e] == Record(k, true, NOTIFYING) && Calling(s', e)))
  {
    assert |run| == |moves| + 1;
    hide Inv, Run;
    NoneServed(moves, n);
    hide Served;
    ServedOne(moves, moves, n, Pop(n));
    run', moves' := Extend(tasks, notifiers, run, moves, Pop(n));
    ServedOne(moves, moves', n, RemoveTimer(n));
    run', moves' := Extend(tasks, notifiers, run', moves', RemoveTimer(n));
  }

  // ----- the other ways

  /** A task may begin to wait whenever the lock is free. It is then the last in the queue, and suspended. */
  lemma WaitServes(tasks: nat, notifiers: nat, run: seq<State>, moves: seq<Move>, k: Task, timed: bool)
      returns (run': seq<State>, moves': seq<Move>)
    requires Run(tasks, notifiers, run, moves)
    requires var s := run[|moves|]; k < |s.tasks| && s.tasks[k].Running? && s.wqlock.Nobody?
    ensures Run(tasks, notifiers, run', moves') && moves' == moves + [BeginWait(k, timed), SetTimer(k, true)]
                                                   + if timed then [Suspend(k)] else []
    ensures var s, s' := run[|moves|], run'[|moves'|];
            var e := s.nextEntry;
            && k < |s'.tasks| && s'.tasks[k] == Waiting(e) && s'.queue == s.queue + [e] && s'.wqlock.Nobody?
            && s'.timers == s.timers + if timed then {e} else {}
  {
    assert |run| == |moves| + 1;
    hide Inv, Run;
    run', moves' := Extend(tasks, notifiers, run, moves, BeginWait(k, timed));
    run', moves' := Extend(tasks, notifiers, run', moves', SetTimer(k, true));
    if timed {
      run', moves' := Extend(tasks, notifiers, run', moves', Suspend(k));
    }
  }

  /** A wait whose time is over before it has begun ends at once. */
  lemma LateServes(tasks: nat, notifiers: nat, run: seq<State>, moves: seq<Move>, k: Task)
      returns (run': seq<State>, moves': seq<Move>)
    requires Run(tasks, notifiers, run, moves)
    requires var s := run[|moves|]; k < |s.tasks| && s.tasks[k].Running? && s.wqlock.Nobody?
    ensures Run(tasks, notifiers, run', moves') && moves' == moves + [BeginWait(k, true), SetTimer(k, false)]
    ensures var s, s' := run[|moves|], run'[|moves'|];
            && k < |s'.tasks| && s'.tasks[k] == Woken(s.nextEntry, TIMEDOUT) && s.nextEntry !in s'.queue
            && s'.wqlock.Nobody?
  {
    assert |run| == |moves| + 1;
    hide Inv, Run;
    run', moves' := Extend(tasks, notifiers, run, moves, BeginWait(k, true));
    var s1, e := run'[|moves'|], run[|moves|].nextEntry;
    run', moves' := Extend(tasks, notifiers, run', moves', SetTimer(k, false));
    GoneFromQueue(run'[|moves'|], k, e);
  }

  lemma GoneFromQueue(s: State, k: Task, e: Entry)
    requires Inv(s) && k < |s.tasks| && s.tasks[k] == Woken(e, TIMEDOUT)
    ensures e !in s.queue
  {
    assert TaskOk(s, k);
  }

  /** When its time is up, the timer thread by itself ends the wait of a suspended task that nobody has notified. */
  lemma TimeoutServes(tasks: nat, notifiers: nat, run: seq<State>, moves: seq<Move>, k: Task, e: Entry)
      returns (run': seq<State>, moves': seq<Move>)
    requires Run(tasks, notifiers, run, moves)
    requires var s := run[|moves|];
             && k < |s.tasks| && s.tasks[k] == Waiting(e) && e in s.timers && s.timer.TimerIdle? && s.wqlock.Nobody?
    ensures Run(tasks, notifiers, run', moves') && moves' == moves + [Fire(e), ReadTask, TimeoutProc, TimerWake]
    ensures var s' := run'[|moves'|];
            k < |s'.tasks| && s'.tasks[k] == Woken(e, TIMEDOUT) && s'.timer.TimerIdle? && s'.wqlock.Nobody?
  {
    assert |run| == |moves| + 1;
    hide Inv, Run;
    RunInv(tasks, notifiers, run, moves, |moves|);
    StillTimed(run[|moves|], k, e);
    run', moves' := StartCallback(tasks, notifiers, run, moves, k, e);
    run', moves' := Extend(tasks, notifiers, run', moves', TimeoutProc);
    run', moves' := Extend(tasks, notifiers, run', moves', TimerWake);
  }

  lemma StartCallback(tasks: nat, notifiers: nat, run: seq<State>, moves: seq<Move>, k: Task, e: Entry)
      returns (run': seq<State>, moves': seq<Move>)
    requires Run(tasks, notifiers, run, moves)
    requires var s := run[|moves|]; e in s.timers && s.timer.TimerIdle? && Init(s, k, e)
    ensures Run(tasks, notifiers, run', moves') && |run'| == |moves'| + 1 && moves' == moves + [Fire(e), ReadTask]
    ensures var s, s' := run[|moves|], run'[|moves'|];
            s' == s.(timers := s.timers - {e}, timer := Entering(e, k))
  {
    assert |run| == |moves| + 1;
    hide Inv, Run;
    run', moves' := Extend(tasks, notifiers, run, moves, Fire(e));
    run', moves' := Extend(tasks, notifiers, run', moves', ReadTask);
  }

  lemma StillTimed(s: State, k: Task, e: Entry)
    requires Inv(s) && k < |s.tasks| && s.tasks[k] == Waiting(e) && e in s.timers && s.wqlock.Nobody?
    ensures Init(s, k, e)
  {
    hide Freed, Truthful;
    assert TaskOk(s, k);
  }

  /** A woken task returns with the code it was woken with. */
  lemma ReturnServes(tasks: nat, notifiers: nat, run: seq<State>, moves: seq<Move>, k: Task)
      returns (run': seq<State>, moves': seq<Move>)
    requires Run(tasks, notifiers, run, moves)
    requires var s := run[|moves|]; k < |s.tasks| && s.tasks[k].Woken?
    ensures Run(tasks, notifiers, run', moves') && moves' == moves + [Resume(k)]
    ensures var w, s' := run[|moves|].tasks[k], run'[|moves'|];
            k < |s'.tasks| && s'.tasks[k].Running? && w.entry in s'.returned && s'.returned[w.entry] == w.code
  {
    assert |run| == |moves| + 1;
    hide Inv, Run;
    run', moves' := Extend(tasks, notifiers, run, moves, Resume(k));
  }

  // ----- nobody gets stuck on the way

  ghost predicate OnTheWay(s: State) {
    || (exists k :: 0 <= k < |s.tasks| && (s.tasks[k].Pushed? || s.tasks[k].Armed? || s.tasks[k].Woken?))
    || !s.timer.TimerIdle?
    || (exists n :: 0 <= n < |s.notifiers| && !s.notifiers[n].NotifierIdle?)
  }

  /** As long as some task, the timer thread or some notifier is between two resting places, one of these can make
      a step: there is no deadlock over the lock, and none between a notifier and the callback it waits for. */
  lemma SomebodyMoves(tasks: nat, notifiers: nat, run: seq<State>, moves: seq<Move>, i: nat) returns (m: Move)
    requires Run(tasks, notifiers, run, moves) && i < |run| && OnTheWay(run[i])
    ensures Enabled(run[i], m) && !m.BeginWait? && !m.Fire? && !m.Pop?
  {
    RunInv(tasks, notifiers, run, moves, i);
    var s := run[i];
    hide Run, Freed, Unique, Truthful;
    if s.wqlock.ByTask? {
      var k := s.wqlock.task;
      assert TaskOk(s, k);
      m := if s.tasks[k].Pushed? then SetTimer(k, true) else Suspend(k);
    } else if s.wqlock.ByNotifier? {
      var n := s.wqlock.notifier;
      m := if s.notifiers[n].Popped? then RemoveTimer(n) else Release(n);
    } else if !s.timer.TimerIdle? {
      m := if s.timer.Fired? then ReadTask else if s.timer.Entering? then TimeoutProc else TimerWake;
    } else if n :| 0 <= n < |s.notifiers| && !s.notifiers[n].NotifierIdle? {
      m := NotifierMove(s, n);
    } else {
      var k :| 0 <= k < |s.tasks| && (s.tasks[k].Pushed? || s.tasks[k].Armed? || s.tasks[k].Woken?);
      m := Resume(k);
    }
  }

  lemma NotifierMove(s: State, n: nat) returns (m: Move)
    requires Inv(s) && s.wqlock.Nobody? && s.timer.TimerIdle? && n < |s.notifiers| && !s.notifiers[n].NotifierIdle?
    ensures Enabled(s, m) && !m.BeginWait? && !m.Fire? && !m.Pop?
  {
    var k, e := ClaimedTask(s, n);
    hide TasksOk, Freed, Unique, Truthful;
    m := if s.notifiers[n].Spinning? then SeeDone(n) else if s.notifiers[n].Reentering? then Reacquire(n)
         else NotifierWake(n);
  }
}
