/** Workers, the run queue they share, and the counters by which submitters decide whether to wake a
    worker, make a new one or do nothing. One QoS level, default notification, no escape workers. */
module WorkerPool {
  type Task = nat

  const SUPPRESS_WORKERS: nat := 4
  const SUPPRESS_EXECUTING: nat := 2

  /** Where a worker is. */
  datatype Worker =
    | Looping                    // about to take a task
    | Picked(task: Task)         // took a task; about to look at the length of the queue
    | PickCounted(task: Task, count: nat)   // saw tasks left; about to poke
    | PickNotify(task: Task)     // about to wake a worker
    | PickCreate(task: Task)     // counted a new worker; about to create it
    | Running(task: Task)        // runs its task
    | Idling                     // found no task; about to take the queue mutex
    | Entered                    // holds the mutex; about to count itself as sleeping
    | Counted                    // holds the mutex; about to look at the queue
    | Sleeping                   // waits on the condition variable
    | Notified                   // was woken; needs the mutex
    | TimedOut                   // its time is up; needs the mutex
    | Rechecking                 // holds the mutex after a wakeup
    | LastCheck                  // holds the mutex after a timeout
    | Leaving                    // holds the mutex; about to count itself as executing
    | Retired

  /** Where a submitter is. */
  datatype Submitter =
    | Quiet
    | Pushed                     // put a task in the queue; about to look at its length
    | SawTasks(count: nat)       // about to poke
    | ToNotify                   // about to wake a worker
    | ToCreate                   // counted a new worker; about to create it

  datatype State = State(
    queue: seq<Task>, mutex: bool, executingNum: int, sleepingNum: int,
    maxConcurrency: nat, hardLimit: nat, workers: seq<Worker>, submitters: seq<Submitter>)

  datatype Move =
    | Push(submitter: nat, task: Task)
    | LookAdded(submitter: nat)
    | PokeAdded(submitter: nat)
    | NotifyAdded(submitter: nat, target: nat)   // `target` is the waiter that `notify_one` picks, if any
    | CreateAdded(submitter: nat)
    | WorkerStep(worker: nat, target: nat)
    | Timeout(worker: nat)
    | Retire(worker: nat)                        // at the last check, instead of sleeping on

  function Work(s: State, w: nat, to: Worker): State
    requires w < |s.workers|
  {
    s.(workers := s.workers[w := to])
  }

  function Submit(s: State, m: nat, to: Submitter): State
    requires m < |s.submitters|
  {
    s.(submitters := s.submitters[m := to])
  }

  predicate Waits(s: State, w: nat) {
    w < |s.workers| && s.workers[w].Sleeping?
  }

  /** `notify_one`: one waiter, if there is any, is woken. */
  predicate NotifyOk(s: State, target: nat) {
    Waits(s, target) || forall w :: 0 <= w < |s.workers| ==> !s.workers[w].Sleeping?
  }

  function NotifyOne(s: State, target: nat): State {
    if Waits(s, target) then Work(s, target, Notified) else s
  }

  datatype Decision = Wake | Create | Nothing

  /** What `PokeImpl` decides, under the group lock. */
  function Poke(s: State, count: nat, added: bool): Decision {
    var running, total := s.executingNum, s.sleepingNum + s.executingNum;
    if !added && total > SUPPRESS_WORKERS && running > SUPPRESS_EXECUTING && count < running then Nothing
    else if s.sleepingNum > 0 && running < s.maxConcurrency then Wake
    else if running < s.maxConcurrency && total < s.hardLimit then Create
    else Nothing
  }

  function Counting(s: State, d: Decision): State {
    if d.Create? then s.(executingNum := s.executingNum + 1) else s
  }

  predicate Enabled(s: State, m: Move) {
    match m
    case Push(i, _) => i < |s.submitters| && s.submitters[i].Quiet? && !s.mutex
    case LookAdded(i) => i < |s.submitters| && s.submitters[i].Pushed?
    case PokeAdded(i) => i < |s.submitters| && s.submitters[i].SawTasks?
    case NotifyAdded(i, target) => i < |s.submitters| && s.submitters[i].ToNotify? && NotifyOk(s, target)
    case CreateAdded(i) => i < |s.submitters| && s.submitters[i].ToCreate?
    case WorkerStep(w, target) =>
      w < |s.workers| &&
      (match s.workers[w]
       case Sleeping => false
       case Retired => false
       case Looping => !s.mutex
       case Idling => !s.mutex
       case Notified => !s.mutex
       case TimedOut => !s.mutex
       case PickNotify(_) => NotifyOk(s, target)
       case _ => true)
    case Timeout(w) => w < |s.workers| && s.workers[w].Sleeping?
    case Retire(w) => w < |s.workers| && s.workers[w].LastCheck? && s.queue == []
  }

  function WorkerMove(s: State, w: nat, target: nat): State
    requires Enabled(s, WorkerStep(w, target))
  {
    match s.workers[w]
    case Looping => if s.queue == [] then Work(s, w, Idling) else Work(s, w, Picked(s.queue[0])).(queue := s.queue[1..])
    case Picked(task) => Work(s, w, if |s.queue| > 0 then PickCounted(task, |s.queue|) else Running(task))
    case PickCounted(task, n) =>
      var d := Poke(s, n, false);
      Work(Counting(s, d), w,
        if d.Wake? then PickNotify(task) else if d.Create? then PickCreate(task) else Running(task))
    case PickNotify(task) => Work(NotifyOne(s, target), w, Running(task))
    case PickCreate(task) => Work(s, w, Running(task)).(workers := s.workers[w := Running(task)] + [Looping])
    case Running(_) => Work(s, w, Looping)
    case Idling => Work(s, w, Entered).(mutex := true)
    case Entered => Work(s, w, Counted).(sleepingNum := s.sleepingNum + 1, executingNum := s.executingNum - 1)
    case Counted => if s.queue == [] then Work(s, w, Sleeping).(mutex := false) else Work(s, w, Leaving)
    case Notified => Work(s, w, Rechecking).(mutex := true)
    case TimedOut => Work(s, w, LastCheck).(mutex := true)
    case Rechecking => if s.queue == [] then Work(s, w, Sleeping).(mutex := false) else Work(s, w, Leaving)
    case LastCheck => if s.queue == [] then Work(s, w, Sleeping).(mutex := false) else Work(s, w, Leaving)
    case Leaving => Work(s, w, Looping).(mutex := false, sleepingNum := s.sleepingNum - 1,
      executingNum := s.executingNum + 1)
    case Sleeping => s
    case Retired => s
  }

  function Step(s: State, m: Move): State
    requires Enabled(s, m)
  {
    match m
    case Push(i, task) => Submit(s, i, Pushed).(queue := s.queue + [task])
    case LookAdded(i) => Submit(s, i, if |s.queue| > 0 then SawTasks(|s.queue|) else Quiet)
    case PokeAdded(i) =>
      var d := Poke(s, s.submitters[i].count, true);
      Submit(Counting(s, d), i, if d.Wake? then ToNotify else if d.Create? then ToCreate else Quiet)
    case NotifyAdded(i, target) => Submit(NotifyOne(s, target), i, Quiet)
    case CreateAdded(i) => Submit(s, i, Quiet).(workers := s.workers + [Looping])
    case WorkerStep(w, target) => WorkerMove(s, w, target)
    case Timeout(w) => Work(s, w, TimedOut)
    case Retire(w) => Work(s, w, Retired).(mutex := false, sleepingNum := s.sleepingNum - 1)
  }

  function Initial(maxConcurrency: nat, hardLimit: nat, submitters: nat): State {
    State([], false, 0, 0, maxConcurrency, hardLimit, [], seq(submitters, _ => Quiet))
  }

  // ----- the counters count real workers

  /** How much a worker adds to `executingNum`: itself, and the worker it is about to create. */
  function ExecWeight(w: Worker): nat {
    match w
    case Looping => 1
    case Picked(_) => 1
    case PickCounted(_, _) => 1
    case PickNotify(_) => 1
    case PickCreate(_) => 2
    case Running(_) => 1
    case Idling => 1
    case Entered => 1
    case _ => 0
  }

  function SleepWeight(w: Worker): nat {
    match w
    case Counted => 1
    case Sleeping => 1
    case Notified => 1
    case TimedOut => 1
    case Rechecking => 1
    case LastCheck => 1
    case Leaving => 1
    case _ => 0
  }

  function Executing(ws: seq<Worker>): nat {
    if ws == [] then 0 else Executing(ws[..|ws| - 1]) + ExecWeight(ws[|ws| - 1])
  }

  function Asleep(ws: seq<Worker>): nat {
    if ws == [] then 0 else Asleep(ws[..|ws| - 1]) + SleepWeight(ws[|ws| - 1])
  }

  function Creating(ms: seq<Submitter>): nat {
    if ms == [] then 0 else Creating(ms[..|ms| - 1]) + if ms[|ms| - 1].ToCreate? then 1 else 0
  }

  lemma {:induction false} WorkerUpdate(ws: seq<Worker>, w: nat, to: Worker)
    requires w < |ws|
    ensures Executing(ws[w := to]) + ExecWeight(ws[w]) == Executing(ws) + ExecWeight(to)
    ensures Asleep(ws[w := to]) + SleepWeight(ws[w]) == Asleep(ws) + SleepWeight(to)
  {
    hide ExecWeight, SleepWeight;
    var n := |ws| - 1;
    if w < n {
      WorkerUpdate(ws[..n], w, to);
      assert ws[w := to][..n] == ws[..n][w := to];
    } else {
      assert ws[w := to][..n] == ws[..n];
    }
  }

  lemma WorkerAdded(ws: seq<Worker>)
    ensures Executing(ws + [Looping]) == Executing(ws) + 1 && Asleep(ws + [Looping]) == Asleep(ws)
  {
    assert (ws + [Looping])[..|ws|] == ws;
  }

  lemma {:induction false} SubmitterUpdate(ms: seq<Submitter>, i: nat, to: Submitter)
    requires i < |ms|
    ensures Creating(ms[i := to]) + (if ms[i].ToCreate? then 1 else 0) == Creating(ms) + (if to.ToCreate? then 1 else 0)
  {
    var n := |ms| - 1;
    if i < n {
      SubmitterUpdate(ms[..n], i, to);
      assert ms[i := to][..n] == ms[..n][i := to];
    } else {
      assert ms[i := to][..n] == ms[..n];
    }
  }

  lemma {:induction false} SomeExecuting(ws: seq<Worker>) returns (w: nat)
    requires Executing(ws) > 0
    ensures w < |ws| && ExecWeight(ws[w]) > 0
  {
    if ExecWeight(ws[|ws| - 1]) > 0 {
      w := |ws| - 1;
    } else {
      w := SomeExecuting(ws[..|ws| - 1]);
    }
  }

  lemma {:induction false} SomeAsleep(ws: seq<Worker>) returns (w: nat)
    requires Asleep(ws) > 0
    ensures w < |ws| && SleepWeight(ws[w]) > 0
  {
    if SleepWeight(ws[|ws| - 1]) > 0 {
      w := |ws| - 1;
    } else {
      w := SomeAsleep(ws[..|ws| - 1]);
    }
  }

  lemma {:induction false} SomeCreating(ms: seq<Submitter>) returns (i: nat)
    requires Creating(ms) > 0
    ensures i < |ms| && ms[i].ToCreate?
  {
    if ms[|ms| - 1].ToCreate? {
      i := |ms| - 1;
    } else {
      i := SomeCreating(ms[..|ms| - 1]);
    }
  }

  ghost predicate Counts(s: State) {
    && s.executingNum == Executing(s.workers) + Creating(s.submitters)
    && s.sleepingNum == Asleep(s.workers)
    && s.executingNum + s.sleepingNum <= s.hardLimit
    && s.maxConcurrency > 0 && s.hardLimit > 0
  }

  // ----- work is never forgotten

  /** A worker that will look at the queue before it goes to sleep for good. */
  predicate Attends(w: Worker) {
    !w.Sleeping? && !w.Retired?
  }

  ghost predicate WorkerAttends(s: State, w: nat) {
    w < |s.workers| && Attends(s.workers[w])
  }

  /** A submitter that has yet to decide, or is about to create a worker. */
  ghost predicate SubmitterAttends(s: State, i: nat) {
    i < |s.submitters| && (s.submitters[i].Pushed? || s.submitters[i].SawTasks? || s.submitters[i].ToCreate?)
  }

  ghost predicate WillNotify(s: State, i: nat) {
    i < |s.submitters| && s.submitters[i].ToNotify?
  }

  ghost predicate Attended(s: State) {
    || (exists w :: WorkerAttends(s, w))
    || (exists i :: SubmitterAttends(s, i))
    || ((exists i :: WillNotify(s, i)) && exists w :: Waits(s, w))
  }

  /** A worker that holds the queue mutex between its steps. */
  predicate Holds(w: Worker) {
    w.Entered? || w.Counted? || w.Rechecking? || w.LastCheck? || w.Leaving?
  }

  ghost predicate Holder(s: State, w: nat) {
    w < |s.workers| && Holds(s.workers[w])
  }

  ghost predicate MutexOk(s: State) {
    && (s.mutex <==> exists w :: Holder(s, w))
    && forall v, w :: Holder(s, v) && Holder(s, w) ==> v == w
  }

  ghost predicate Inv(s: State) {
    Counts(s) && (s.queue != [] ==> Attended(s)) && MutexOk(s)
  }

  lemma InitialInv(maxConcurrency: nat, hardLimit: nat, submitters: nat)
    requires maxConcurrency > 0 && hardLimit > 0
    ensures Inv(Initial(maxConcurrency, hardLimit, submitters))
  {
    NobodyCreates(submitters);
    var s := Initial(maxConcurrency, hardLimit, submitters);
    assert forall w :: !Holder(s, w);
  }

  lemma MutexWorker(s: State, w: nat, target: nat)
    requires MutexOk(s) && Enabled(s, WorkerStep(w, target))
    ensures MutexOk(WorkerMove(s, w, target))
  {
    var s' := WorkerMove(s, w, target);
    assert Holds(s.workers[w]) ==> Holder(s, w);
    MutexMove(s, w, target);
    hide WorkerMove, Holds;
    assert (Holder(s', w) <==> Holds(s'.workers[w])) && (Holder(s, w) <==> Holds(s.workers[w]));
  }

  lemma MutexMove(s: State, w: nat, target: nat)
    requires Enabled(s, WorkerStep(w, target)) && (Holds(s.workers[w]) ==> s.mutex)
    ensures var s' := WorkerMove(s, w, target);
            && w < |s'.workers|
            && (Holds(s'.workers[w]) && !Holds(s.workers[w]) ==> !s.mutex && s'.mutex)
            && (Holds(s.workers[w]) && !Holds(s'.workers[w]) ==> s.mutex && !s'.mutex)
            && ((Holds(s.workers[w]) <==> Holds(s'.workers[w])) ==> s'.mutex == s.mutex)
            && forall v :: v != w ==> (Holder(s', v) <==> Holder(s, v))
  {
  }

  lemma MutexStep(s: State, m: Move)
    requires MutexOk(s) && Enabled(s, m)
    ensures MutexOk(Step(s, m))
  {
    var s' := Step(s, m);
    if m.WorkerStep? {
      MutexWorker(s, m.worker, m.target);
    } else if m.Retire? {
      assert forall v :: v != m.worker ==> (Holder(s', v) <==> Holder(s, v));
      assert Holder(s, m.worker) && !Holder(s', m.worker);
    } else {
      assert forall v :: Holder(s', v) <==> Holder(s, v);
    }
  }

  lemma {:induction false} NobodyCreates(n: nat)
    ensures Creating(seq(n, _ => Quiet)) == 0
  {
    if n > 0 {
      NobodyCreates(n - 1);
      assert seq(n, _ => Quiet)[..n - 1] == seq(n - 1, _ => Quiet);
    }
  }

  /** If `PokeImpl` leaves it at that, somebody is executing already. */
  lemma PokeNothing(s: State, count: nat, added: bool)
    requires Counts(s) && Poke(s, count, added).Nothing?
    ensures s.executingNum > 0
  {
    if s.executingNum <= 0 {
      hide Executing, Asleep, Creating;
    }
  }

  /** A new worker is made exactly if nobody sleeps, fewer than the limit execute and there is room for one; a
      worker is woken exactly if somebody sleeps and fewer than the limit execute. In both cases a worker that
      has just taken a task does not bother if there are many workers and fewer tasks than executing ones. */
  lemma PokeMeans(s: State, count: nat, added: bool)
    requires Counts(s)
    ensures var executing, asleep := Executing(s.workers) + Creating(s.submitters), Asleep(s.workers);
            var many := !added && executing + asleep >= 5 && executing >= 3 && count < executing;
            && (Poke(s, count, added).Create? <==>
                  !many && asleep == 0 && executing < s.maxConcurrency && executing < s.hardLimit)
            && (Poke(s, count, added).Wake? <==> !many && asleep > 0 && executing < s.maxConcurrency)
  {
    hide Executing, Asleep, Creating;
  }

  lemma CountsSubmitter(s: State, m: Move)
    requires Counts(s) && Enabled(s, m) && (m.Push? || m.LookAdded? || m.PokeAdded? || m.NotifyAdded? || m.CreateAdded?)
    ensures Counts(Step(s, m))
  {
    var i, s' := m.submitter, Step(s, m);
    SubmitterUpdate(s.submitters, i, s'.submitters[i]);
    if m.NotifyAdded? && Waits(s, m.target) {
      WorkerUpdate(s.workers, m.target, Notified);
    }
    if m.CreateAdded? {
      WorkerAdded(s.workers);
    }
    hide Executing, Asleep, Creating;
  }

  lemma CountsPickNotify(s: State, w: nat, target: nat)
    requires Counts(s) && Enabled(s, WorkerStep(w, target)) && s.workers[w].PickNotify?
    ensures Counts(WorkerMove(s, w, target))
  {
    hide Executing, Asleep, Creating;
    var to := Running(s.workers[w].task);
    if Waits(s, target) {
      WorkerUpdate(s.workers, target, Notified);
      WorkerUpdate(s.workers[target := Notified], w, to);
    } else {
      WorkerUpdate(s.workers, w, to);
    }
  }

  lemma CountsPickCreate(s: State, w: nat, target: nat)
    requires Counts(s) && Enabled(s, WorkerStep(w, target)) && s.workers[w].PickCreate?
    ensures Counts(WorkerMove(s, w, target))
  {
    hide Executing, Asleep, Creating;
    var to := Running(s.workers[w].task);
    WorkerUpdate(s.workers, w, to);
    WorkerAdded(s.workers[w := to]);
  }

  /** A step of a worker that changes nobody else: the counters move by the worker's weights. */
  lemma CountsAlone(s: State, s': State, w: nat)
    requires Counts(s) && w < |s.workers| && |s'.workers| == |s.workers| && s'.workers == s.workers[w := s'.workers[w]]
    requires s'.submitters == s.submitters && s'.hardLimit == s.hardLimit && s'.maxConcurrency == s.maxConcurrency
    requires s'.executingNum - s.executingNum == ExecWeight(s'.workers[w]) - ExecWeight(s.workers[w])
    requires s'.sleepingNum - s.sleepingNum == SleepWeight(s'.workers[w]) - SleepWeight(s.workers[w])
    requires s'.executingNum + s'.sleepingNum <= s.hardLimit
    ensures Counts(s')
  {
    hide Executing, Asleep, Creating, ExecWeight, SleepWeight;
    WorkerUpdate(s.workers, w, s'.workers[w]);
  }

  lemma CountsWorker(s: State, w: nat, target: nat)
    requires Counts(s) && Enabled(s, WorkerStep(w, target))
    ensures Counts(WorkerMove(s, w, target))
  {
    hide Executing, Asleep, Creating;
    if s.workers[w].PickNotify? {
      CountsPickNotify(s, w, target);
    } else if s.workers[w].PickCreate? {
      CountsPickCreate(s, w, target);
    } else {
      CountsAlone(s, WorkerMove(s, w, target), w);
    }
  }

  lemma CountsRest(s: State, m: Move)
    requires Counts(s) && Enabled(s, m) && (m.Timeout? || m.Retire?)
    ensures Counts(Step(s, m))
  {
    WorkerUpdate(s.workers, m.worker, if m.Timeout? then TimedOut else Retired);
  }

  /** Somebody executing, or about to be created, attends to the queue. */
  lemma ExecutingAttends(s: State)
    requires Counts(s) && s.executingNum > 0
    ensures (exists w :: WorkerAttends(s, w)) || (exists i :: 0 <= i < |s.submitters| && s.submitters[i].ToCreate?)
  {
    if Executing(s.workers) > 0 {
      var w := SomeExecuting(s.workers);
      assert WorkerAttends(s, w);
    } else {
      var i := SomeCreating(s.submitters);
    }
  }

  lemma PokeAttended(s: State, i: nat)
    requires Inv(s) && Enabled(s, PokeAdded(i)) && s.queue != []
    ensures Attended(Step(s, PokeAdded(i)))
  {
    hide Executing, Asleep, Creating;
    var s' := Step(s, PokeAdded(i));
    var d := Poke(s, s.submitters[i].count, true);
    if d.Create? {
      assert SubmitterAttends(s', i);
    } else if d.Wake? {
      var w := SomeAsleep(s.workers);
      assert WillNotify(s', i) && (Waits(s', w) || WorkerAttends(s', w));
    } else {
      PokeNothing(s, s.submitters[i].count, true);
      ExecutingAttends(s);
      if w :| WorkerAttends(s, w) {
        assert WorkerAttends(s', w);
      } else {
        var j :| 0 <= j < |s.submitters| && s.submitters[j].ToCreate?;
        assert SubmitterAttends(s', j);
      }
    }
  }

  lemma NotifyAttended(s: State, i: nat, target: nat)
    requires Inv(s) && Enabled(s, NotifyAdded(i, target)) && s.queue != []
    ensures Attended(Step(s, NotifyAdded(i, target)))
  {
    hide Counts;
    var s' := Step(s, NotifyAdded(i, target));
    if Waits(s, target) {
      assert WorkerAttends(s', target);
    } else if w :| WorkerAttends(s, w) {
      assert WorkerAttends(s', w);
    } else {
      assert forall w :: !Waits(s, w);
      var j :| SubmitterAttends(s, j);
      assert SubmitterAttends(s', j);
    }
  }

  lemma AttendedStep(s: State, m: Move)
    requires Inv(s) && Enabled(s, m)
    ensures Step(s, m).queue != [] ==> Attended(Step(s, m))
  {
    hide Counts;
    var s' := Step(s, m);
    if s'.queue != [] {
      match m {
        case Push(i, _) => assert SubmitterAttends(s', i);
        case LookAdded(i) => assert SubmitterAttends(s', i);
        case PokeAdded(i) => PokeAttended(s, i);
        case NotifyAdded(i, target) => NotifyAttended(s, i, target);
        case CreateAdded(i) => assert WorkerAttends(s', |s.workers|);
        case WorkerStep(w, target) => assert WorkerAttends(s', w);
        case Timeout(w) => assert WorkerAttends(s', w);
        case Retire(w) =>
      }
    }
  }

  lemma InvStep(s: State, m: Move)
    requires Inv(s) && Enabled(s, m)
    ensures Inv(Step(s, m))
  {
    AttendedStep(s, m);
    MutexStep(s, m);
    hide Counts, Attended, WorkerMove, MutexOk;
    if m.WorkerStep? {
      CountsWorker(s, m.worker, m.target);
    } else if m.Timeout? || m.Retire? {
      CountsRest(s, m);
    } else {
      CountsSubmitter(s, m);
    }
  }

  // ----- every run

  ghost predicate Run(maxConcurrency: nat, hardLimit: nat, submitters: nat, run: seq<State>, moves: seq<Move>) {
    && maxConcurrency > 0 && hardLimit > 0
    && |run| == |moves| + 1 && run[0] == Initial(maxConcurrency, hardLimit, submitters)
    && forall i :: 0 <= i < |moves| ==> Enabled(run[i], moves[i]) && run[i + 1] == Step(run[i], moves[i])
  }

  lemma {:induction false} RunInv(maxConcurrency: nat, hardLimit: nat, submitters: nat, run: seq<State>,
      moves: seq<Move>, i: nat)
    requires Run(maxConcurrency, hardLimit, submitters, run, moves) && i < |run|
    ensures Inv(run[i]) && run[i].hardLimit == hardLimit
  {
    hide Inv;
    if i == 0 {
      InitialInv(maxConcurrency, hardLimit, submitters);
    } else {
      RunInv(maxConcurrency, hardLimit, submitters, run, moves, i - 1);
      InvStep(run[i - 1], moves[i - 1]);
      SameLimit(run[i - 1], moves[i - 1]);
    }
  }

  lemma SameLimit(s: State, m: Move)
    requires Enabled(s, m)
    ensures Step(s, m).hardLimit == s.hardLimit
  {
  }

  // ----- every task is executed once

  /** The tasks that were submitted, in order. */
  function Submitted(moves: seq<Move>): seq<Task> {
    if moves == [] then []
    else
      var last := moves[|moves| - 1];
      Submitted(moves[..|moves| - 1]) + if last.Push? then [last.task] else []
  }

  predicate HasTask(w: Worker) {
    w.Picked? || w.PickCounted? || w.PickNotify? || w.PickCreate? || w.Running?
  }

  predicate StepsAt(run: seq<State>, moves: seq<Move>, i: nat) {
    && i < |moves| && i + 1 < |run| && moves[i].WorkerStep?
    && moves[i].worker < |run[i].workers| && moves[i].worker < |run[i + 1].workers|
  }

  /** The tasks that workers took up in the first `i` moves, in order. */
  function Taken(run: seq<State>, moves: seq<Move>, i: nat): seq<Task> {
    if i == 0 then []
    else
      Taken(run, moves, i - 1) +
      if StepsAt(run, moves, i - 1) && !HasTask(run[i - 1].workers[moves[i - 1].worker])
         && HasTask(run[i].workers[moves[i - 1].worker])
      then [run[i].workers[moves[i - 1].worker].task] else []
  }

  /** The tasks whose execution came to its end. */
  function Executed(run: seq<State>, moves: seq<Move>, i: nat): seq<Task> {
    if i == 0 then []
    else
      Executed(run, moves, i - 1) +
      if StepsAt(run, moves, i - 1) && run[i - 1].workers[moves[i - 1].worker].Running?
      then [run[i - 1].workers[moves[i - 1].worker].task] else []
  }

  function Hand(w: Worker): multiset<Task> {
    if HasTask(w) then multiset{w.task} else multiset{}
  }

  /** The tasks that workers have in hand. */
  function InHand(ws: seq<Worker>): multiset<Task> {
    if ws == [] then multiset{} else InHand(ws[..|ws| - 1]) + Hand(ws[|ws| - 1])
  }

  lemma {:induction false} HandUpdate(ws: seq<Worker>, w: nat, to: Worker)
    requires w < |ws|
    ensures InHand(ws[w := to]) + Hand(ws[w]) == InHand(ws) + Hand(to)
    ensures Hand(to) == Hand(ws[w]) ==> InHand(ws[w := to]) == InHand(ws)
  {
    hide Hand;
    var n := |ws| - 1;
    if w < n {
      HandUpdate(ws[..n], w, to);
      assert ws[w := to][..n] == ws[..n][w := to];
      assert InHand(ws[w := to]) == InHand(ws[..n][w := to]) + Hand(ws[n]);
      assert InHand(ws) == InHand(ws[..n]) + Hand(ws[n]);
      Exchange(InHand(ws[..n][w := to]), InHand(ws[..n]), Hand(ws[w]), Hand(to), Hand(ws[n]));
    } else {
      assert ws[w := to][..n] == ws[..n];
    }
  }

  lemma Exchange(a: multiset<Task>, b: multiset<Task>, x: multiset<Task>, y: multiset<Task>, h: multiset<Task>)
    requires a + x == b + y
    ensures (a + h) + x == (b + h) + y
  {
    assert (a + h) + x == (a + x) + h;
  }

  lemma HandAdded(ws: seq<Worker>, w: Worker)
    ensures InHand(ws + [w]) == InHand(ws) + Hand(w)
  {
    assert (ws + [w])[..|ws|] == ws;
  }

  lemma {:induction false} NothingInHand(ws: seq<Worker>)
    requires forall w :: 0 <= w < |ws| ==> !HasTask(ws[w])
    ensures InHand(ws) == multiset{}
  {
    if ws != [] {
      NothingInHand(ws[..|ws| - 1]);
    }
  }

  /** What one move does to the queue: it appends what is submitted, or takes the oldest. */
  lemma QueueStep(s: State, m: Move)
    requires Enabled(s, m)
    ensures var s' := Step(s, m);
            if m.Push? then s'.queue == s.queue + [m.task]
            else if m.WorkerStep? && !HasTask(s.workers[m.worker]) && HasTask(s'.workers[m.worker]) then
              s.queue != [] && s'.workers[m.worker].task == s.queue[0] && s'.queue == s.queue[1..]
            else s'.queue == s.queue
  {
  }

  /** In every state of every run what was submitted has been taken up, in order, or is in the queue, in order. */
  lemma {:induction false} TakenInOrder(maxConcurrency: nat, hardLimit: nat, submitters: nat, run: seq<State>,
      moves: seq<Move>, i: nat)
    requires Run(maxConcurrency, hardLimit, submitters, run, moves) && i < |run|
    ensures Submitted(moves[..i]) == Taken(run, moves, i) + run[i].queue
  {
    hide Enabled, Step;
    if i > 0 {
      TakenInOrder(maxConcurrency, hardLimit, submitters, run, moves, i - 1);
      QueueStep(run[i - 1], moves[i - 1]);
      assert moves[..i][..i - 1] == moves[..i - 1];
      if moves[i - 1].WorkerStep? {
        StepsBounds(run[i - 1], moves[i - 1]);
      }
    }
  }

  lemma StepsBounds(s: State, m: Move)
    requires Enabled(s, m) && m.WorkerStep?
    ensures m.worker < |s.workers| <= |Step(s, m).workers|
  {
  }

  /** What a worker has in hand it keeps until it has executed it. */
  lemma TaskKept(s: State, w: nat, target: nat)
    requires Enabled(s, WorkerStep(w, target))
    ensures var was, now := s.workers[w], WorkerMove(s, w, target).workers[w];
            && (was.Running? ==> !HasTask(now))
            && (HasTask(was) && !was.Running? ==> HasTask(now) && now.task == was.task)
  {
  }

  /** The tasks in hand follow the worker that makes the step. */
  lemma HandWorker(s: State, w: nat, target: nat)
    requires Enabled(s, WorkerStep(w, target))
    ensures var s' := WorkerMove(s, w, target);
            InHand(s'.workers) + Hand(s.workers[w]) == InHand(s.workers) + Hand(s'.workers[w])
  {
    hide InHand, Hand;
    var s' := WorkerMove(s, w, target);
    if s.workers[w].PickNotify? {
      HandNotify(s.workers, NotifyOne(s, target).workers, target);
      HandUpdate(NotifyOne(s, target).workers, w, s'.workers[w]);
    } else if s.workers[w].PickCreate? {
      HandUpdate(s.workers, w, s'.workers[w]);
      HandNew(s.workers[w := s'.workers[w]]);
      assert s'.workers == s.workers[w := s'.workers[w]] + [Looping];
    } else {
      assert s'.workers == s.workers[w := s'.workers[w]];
      HandUpdate(s.workers, w, s'.workers[w]);
    }
  }

  lemma HandNew(ws: seq<Worker>)
    ensures InHand(ws + [Looping]) == InHand(ws)
  {
    HandAdded(ws, Looping);
  }

  lemma HandNotify(ws: seq<Worker>, ws': seq<Worker>, target: nat)
    requires ws' == ws || (target < |ws| && ws[target].Sleeping? && ws' == ws[target := Notified])
    ensures InHand(ws') == InHand(ws)
  {
    hide InHand;
    if ws' != ws {
      HandUpdate(ws, target, Notified);
    }
  }

  /** Nobody but a worker by its own step takes up or executes a task. */
  lemma HandOthers(s: State, m: Move)
    requires Enabled(s, m) && !m.WorkerStep?
    ensures InHand(Step(s, m).workers) == InHand(s.workers)
  {
    hide InHand, WorkerMove, Poke;
    if m.NotifyAdded? {
      HandNotify(s.workers, NotifyOne(s, m.target).workers, m.target);
    } else if m.CreateAdded? {
      HandNew(s.workers);
    } else if m.Timeout? || m.Retire? {
      HandIdle(s.workers, m.worker, if m.Timeout? then TimedOut else Retired);
    }
  }

  lemma HandIdle(ws: seq<Worker>, w: nat, to: Worker)
    requires w < |ws| && !HasTask(ws[w]) && !HasTask(to)
    ensures InHand(ws[w := to]) == InHand(ws)
  {
    HandUpdate(ws, w, to);
  }

  /** Every task taken up is in the hands of one worker or has been executed, and not twice. */
  lemma {:induction false} ExecutedOnce(maxConcurrency: nat, hardLimit: nat, submitters: nat, run: seq<State>,
      moves: seq<Move>, i: nat)
    requires Run(maxConcurrency, hardLimit, submitters, run, moves) && i < |run|
    ensures multiset(Taken(run, moves, i)) == multiset(Executed(run, moves, i)) + InHand(run[i].workers)
  {
    hide Enabled, Step, InHand, WorkerMove;
    if i == 0 {
      NothingInHand(run[0].workers);
    } else {
      ExecutedOnce(maxConcurrency, hardLimit, submitters, run, moves, i - 1);
      var s, m := run[i - 1], moves[i - 1];
      if m.WorkerStep? {
        StepsBounds(s, m);
        WorkerStepIs(s, m);
        HandWorker(s, m.worker, m.target);
        TaskKept(s, m.worker, m.target);
        Balance(Taken(run, moves, i - 1), Executed(run, moves, i - 1), InHand(s.workers), InHand(run[i].workers),
          s.workers[m.worker], run[i].workers[m.worker]);
      } else {
        HandOthers(s, m);
      }
    }
  }

  lemma Balance(taken: seq<Task>, done: seq<Task>, hands: multiset<Task>, hands': multiset<Task>, was: Worker,
      now: Worker)
    requires multiset(taken) == multiset(done) + hands && hands' + Hand(was) == hands + Hand(now)
    requires (was.Running? ==> !HasTask(now))
             && (HasTask(was) && !was.Running? ==> HasTask(now) && now.task == was.task)
    ensures multiset(taken + if !HasTask(was) && HasTask(now) then [now.task] else [])
         == multiset(done + if was.Running? then [was.task] else []) + hands'
  {
    if !HasTask(was) && HasTask(now) {
      assert hands' == hands + multiset{now.task} && done + [] == done;
      hide Hand;
      assert multiset(taken + [now.task]) == multiset(taken) + multiset{now.task};
      assert multiset(done) + hands + multiset{now.task} == multiset(done) + (hands + multiset{now.task});
    } else if was.Running? {
      assert hands' + multiset{was.task} == hands && taken + [] == taken;
      hide Hand;
      assert multiset(done + [was.task]) == multiset(done) + multiset{was.task};
      assert multiset(done) + multiset{was.task} + hands' == multiset(done) + (hands' + multiset{was.task});
    } else {
      Cancel(hands', hands, Hand(was));
      assert taken + [] == taken && done + [] == done;
    }
  }

  lemma Cancel(a: multiset<Task>, b: multiset<Task>, x: multiset<Task>)
    requires a + x == b + x
    ensures a == b
  {
    forall t ensures a[t] == b[t] {
      assert (a + x)[t] == (b + x)[t];
    }
  }

  lemma WorkerStepIs(s: State, m: Move)
    requires Enabled(s, m) && m.WorkerStep?
    ensures Enabled(s, WorkerStep(m.worker, m.target)) && Step(s, m) == WorkerMove(s, m.worker, m.target)
  {
    hide WorkerMove;
  }

  /** Everybody has settled: the submitters are through, and the workers sleep or are gone. */
  ghost predicate Settled(s: State) {
    && (forall w :: 0 <= w < |s.workers| ==> s.workers[w].Sleeping? || s.workers[w].Retired?)
    && forall j :: 0 <= j < |s.submitters| ==> s.submitters[j].Quiet?
  }

  /** When every submitter is through and every worker sleeps or is gone, every task that was submitted has been
      executed exactly once, and the tasks were taken up in the order of submission. */
  lemma AllExecuted(maxConcurrency: nat, hardLimit: nat, submitters: nat, run: seq<State>, moves: seq<Move>)
    requires Run(maxConcurrency, hardLimit, submitters, run, moves)
    requires Settled(run[|moves|])
    ensures Taken(run, moves, |moves|) == Submitted(moves)
    ensures multiset(Executed(run, moves, |moves|)) == multiset(Submitted(moves))
  {
    hide Taken, Executed, Submitted, InHand;
    var n := |moves|;
    NoStrandedWork(maxConcurrency, hardLimit, submitters, run, moves, n);
    TakenInOrder(maxConcurrency, hardLimit, submitters, run, moves, n);
    ExecutedOnce(maxConcurrency, hardLimit, submitters, run, moves, n);
    NothingInHand(run[n].workers);
    assert moves[..n] == moves;
  }

  // ----- somebody can always go on

  /** Whom `notify_one` would pick. */
  lemma SomeTarget(s: State) returns (target: nat)
    ensures NotifyOk(s, target)
  {
    if w :| 0 <= w < |s.workers| && s.workers[w].Sleeping? {
      target := w;
    } else {
      target := 0;
    }
  }

  /** As long as there is work in the queue or in the hands of a worker, some worker or submitter can make a step
      other than to submit more or to run out of patience. */
  lemma SomebodyMoves(maxConcurrency: nat, hardLimit: nat, submitters: nat, run: seq<State>, moves: seq<Move>,
      i: nat) returns (m: Move)
    requires Run(maxConcurrency, hardLimit, submitters, run, moves) && i < |run|
    requires run[i].queue != [] || exists w :: 0 <= w < |run[i].workers| && HasTask(run[i].workers[w])
    ensures Enabled(run[i], m) && !m.Push? && !m.Timeout?
  {
    RunInv(maxConcurrency, hardLimit, submitters, run, moves, i);
    var s := run[i];
    hide Run, Counts;
    var target := SomeTarget(s);
    if w :| WorkerAttends(s, w) {
      if s.mutex {
        var v :| Holder(s, v);
        m := WorkerStep(v, target);
      } else {
        m := WorkerStep(w, target);
      }
    } else {
      assert forall w :: 0 <= w < |s.workers| && HasTask(s.workers[w]) ==> WorkerAttends(s, w);
      if j: nat :| SubmitterAttends(s, j) {
        m := if s.submitters[j].Pushed? then LookAdded(j) else if s.submitters[j].SawTasks? then PokeAdded(j)
             else CreateAdded(j);
      } else {
        var j: nat :| WillNotify(s, j);
        m := NotifyAdded(j, target);
      }
    }
  }

  /** The counters match the workers that exist or are being made, and stay within the hard limit. */
  lemma CountersMatch(maxConcurrency: nat, hardLimit: nat, submitters: nat, run: seq<State>, moves: seq<Move>, i: nat)
    requires Run(maxConcurrency, hardLimit, submitters, run, moves) && i < |run|
    ensures run[i].executingNum == Executing(run[i].workers) + Creating(run[i].submitters)
    ensures run[i].sleepingNum == Asleep(run[i].workers)
    ensures 0 <= run[i].executingNum + run[i].sleepingNum <= hardLimit
  {
    RunInv(maxConcurrency, hardLimit, submitters, run, moves, i);
  }

  /** No work is stranded: when every submitter is through and every worker sleeps or is gone, the
      queue is empty. */
  lemma NoStrandedWork(maxConcurrency: nat, hardLimit: nat, submitters: nat, run: seq<State>, moves: seq<Move>, i: nat)
    requires Run(maxConcurrency, hardLimit, submitters, run, moves) && i < |run|
    requires Settled(run[i])
    ensures run[i].queue == []
  {
    RunInv(maxConcurrency, hardLimit, submitters, run, moves, i);
    var s := run[i];
    hide Run;
    assert forall w :: !WorkerAttends(s, w);
    assert forall j :: !SubmitterAttends(s, j) && !WillNotify(s, j);
  }

  // ----- a task is served, and workers without work go to sleep

  lemma Extend(maxConcurrency: nat, hardLimit: nat, submitters: nat, run: seq<State>, moves: seq<Move>, m: Move)
      returns (run': seq<State>, moves': seq<Move>)
    requires Run(maxConcurrency, hardLimit, submitters, run, moves) && Enabled(run[|moves|], m)
    ensures Run(maxConcurrency, hardLimit, submitters, run', moves') && moves' == moves + [m]
    ensures |run'| == |moves'| + 1 && run'[|moves'|] == Step(run[|moves|], m)
  {
    hide Enabled, Step;
    run', moves' := run + [Step(run[|moves|], m)], moves + [m];
  }

  /** What worker `w` does in a row. */
  function Steps(w: nat, n: nat): seq<Move> {
    seq(n, _ => WorkerStep(w, 0))
  }

  /** A worker that is let alone and finds no task goes to sleep, and is counted as sleeping. */
  lemma IdleSleeps(maxConcurrency: nat, hardLimit: nat, submitters: nat, run: seq<State>, moves: seq<Move>, w: nat)
      returns (run': seq<State>, moves': seq<Move>)
    requires Run(maxConcurrency, hardLimit, submitters, run, moves)
    requires var s := run[|moves|]; w < |s.workers| && s.workers[w].Looping? && s.queue == [] && !s.mutex
    ensures Run(maxConcurrency, hardLimit, submitters, run', moves') && moves' == moves + Steps(w, 4)
    ensures |run'| == |moves'| + 1
    ensures var s := run[|moves|];
            run'[|moves'|] == s.(workers := s.workers[w := Sleeping], executingNum := s.executingNum - 1,
                                 sleepingNum := s.sleepingNum + 1)
  {
    assert |run| == |moves| + 1;
    hide Run;
    run', moves' := Extend(maxConcurrency, hardLimit, submitters, run, moves, WorkerStep(w, 0));
    run', moves' := Extend(maxConcurrency, hardLimit, submitters, run', moves', WorkerStep(w, 0));
    run', moves' := Extend(maxConcurrency, hardLimit, submitters, run', moves', WorkerStep(w, 0));
    run', moves' := Extend(maxConcurrency, hardLimit, submitters, run', moves', WorkerStep(w, 0));
  }

  /** A woken worker that is let alone takes the oldest task, and is counted as executing. */
  lemma WokenTakes(maxConcurrency: nat, hardLimit: nat, submitters: nat, run: seq<State>, moves: seq<Move>, w: nat)
      returns (run': seq<State>, moves': seq<Move>)
    requires Run(maxConcurrency, hardLimit, submitters, run, moves)
    requires var s := run[|moves|]; w < |s.workers| && s.workers[w].Notified? && s.queue != [] && !s.mutex
    ensures Run(maxConcurrency, hardLimit, submitters, run', moves') && moves' == moves + Steps(w, 4)
    ensures |run'| == |moves'| + 1
    ensures var s := run[|moves|];
            run'[|moves'|] == s.(queue := s.queue[1..], workers := s.workers[w := Picked(s.queue[0])],
                                 executingNum := s.executingNum + 1, sleepingNum := s.sleepingNum - 1)
  {
    assert |run| == |moves| + 1;
    hide Run;
    run', moves' := Extend(maxConcurrency, hardLimit, submitters, run, moves, WorkerStep(w, 0));
    run', moves' := Extend(maxConcurrency, hardLimit, submitters, run', moves', WorkerStep(w, 0));
    run', moves' := Extend(maxConcurrency, hardLimit, submitters, run', moves', WorkerStep(w, 0));
    run', moves' := Extend(maxConcurrency, hardLimit, submitters, run', moves', WorkerStep(w, 0));
  }

  /** Nobody executes then. */
  lemma SettledCounts(s: State)
    requires Inv(s) && Settled(s)
    ensures s.executingNum == 0 && !s.mutex
  {
    hide Executing, Asleep, Creating;
    if Executing(s.workers) > 0 {
      var w := SomeExecuting(s.workers);
    }
    if Creating(s.submitters) > 0 {
      var j := SomeCreating(s.submitters);
    }
    assert forall w :: !Holder(s, w);
  }

  /** A task that is submitted when everybody has settled is taken up by a worker that was asleep or, if there was
      none, by a new one. It takes steps of the submitter and of that worker only. */
  lemma SubmissionServed(maxConcurrency: nat, hardLimit: nat, submitters: nat, run: seq<State>, moves: seq<Move>,
      i: nat, task: Task) returns (run': seq<State>, moves': seq<Move>, w: nat)
    requires Run(maxConcurrency, hardLimit, submitters, run, moves)
    requires Settled(run[|moves|]) && i < |run[|moves|].submitters|
    ensures Run(maxConcurrency, hardLimit, submitters, run', moves') && |run'| == |moves'| + 1
    ensures var s, s' := run[|moves|], run'[|moves'|];
            if s.sleepingNum > 0 then
              && w < |s.workers| && s'.workers == s.workers[w := Running(task)]
              && moves' == moves + [Push(i, task), LookAdded(i), PokeAdded(i), NotifyAdded(i, w)] + Steps(w, 5)
            else
              && w == |s.workers| && s'.workers == s.workers + [Running(task)]
              && moves' == moves + [Push(i, task), LookAdded(i), PokeAdded(i), CreateAdded(i)] + Steps(w, 2)
    ensures run'[|moves'|].queue == [] && run'[|moves'|].submitters == run[|moves|].submitters
  {
    assert |run| == |moves| + 1;
    var s := run[|moves|];
    RunInv(maxConcurrency, hardLimit, submitters, run, moves, |moves|);
    NoStrandedWork(maxConcurrency, hardLimit, submitters, run, moves, |moves|);
    SettledCounts(s);
    run', moves' := Poked(maxConcurrency, hardLimit, submitters, run, moves, i, task);
    if s.sleepingNum > 0 {
      w := SomeAsleep(s.workers);
      hide Run, Inv, Settled;
      run', moves' := Extend(maxConcurrency, hardLimit, submitters, run', moves', NotifyAdded(i, w));
      run', moves' := WokenTakes(maxConcurrency, hardLimit, submitters, run', moves', w);
      run', moves' := Extend(maxConcurrency, hardLimit, submitters, run', moves', WorkerStep(w, 0));
      assert Steps(w, 5) == Steps(w, 4) + [WorkerStep(w, 0)];
    } else {
      w := |s.workers|;
      hide Run, Inv, Settled;
      run', moves' := Extend(maxConcurrency, hardLimit, submitters, run', moves', CreateAdded(i));
      run', moves' := Extend(maxConcurrency, hardLimit, submitters, run', moves', WorkerStep(w, 0));
      run', moves' := Extend(maxConcurrency, hardLimit, submitters, run', moves', WorkerStep(w, 0));
    }
  }

  /** The submitter pushes its task and decides whom to turn to. */
  lemma Poked(maxConcurrency: nat, hardLimit: nat, submitters: nat, run: seq<State>, moves: seq<Move>,
      i: nat, task: Task) returns (run': seq<State>, moves': seq<Move>)
    requires Run(maxConcurrency, hardLimit, submitters, run, moves)
    requires var s := run[|moves|];
             && s.queue == [] && !s.mutex && s.executingNum == 0 < s.maxConcurrency && 0 <= s.sleepingNum
             && 0 < s.hardLimit && i < |s.submitters| && s.submitters[i].Quiet?
    ensures Run(maxConcurrency, hardLimit, submitters, run', moves') && |run'| == |moves'| + 1
    ensures moves' == moves + [Push(i, task), LookAdded(i), PokeAdded(i)]
    ensures var s := run[|moves|];
            run'[|moves'|] == if s.sleepingNum > 0 then Submit(s, i, ToNotify).(queue := [task])
                              else Submit(s, i, ToCreate).(queue := [task], executingNum := 1)
  {
    assert |run| == |moves| + 1;
    hide Run;
    run', moves' := Extend(maxConcurrency, hardLimit, submitters, run, moves, Push(i, task));
    run', moves' := Extend(maxConcurrency, hardLimit, submitters, run', moves', LookAdded(i));
    run', moves' := Extend(maxConcurrency, hardLimit, submitters, run', moves', PokeAdded(i));
  }

  /** A worker that takes a task and leaves others behind sees to them before it runs its own: it wakes a sleeper,
      or makes a new worker if there is none, as far as the limits allow and there are not many workers already. */
  lemma TakerPokes(maxConcurrency: nat, hardLimit: nat, submitters: nat, run: seq<State>, moves: seq<Move>, w: nat,
      target: nat) returns (run': seq<State>, moves': seq<Move>)
    requires Run(maxConcurrency, hardLimit, submitters, run, moves)
    requires var s := run[|moves|]; w < |s.workers| && s.workers[w].Picked? && s.queue != [] && NotifyOk(s, target)
    ensures Run(maxConcurrency, hardLimit, submitters, run', moves') && |run'| == |moves'| + 1
    ensures moves <= moves' && forall i :: |moves| <= i < |moves'| ==> moves'[i] == WorkerStep(w, target)
    ensures var s, s' := run[|moves|], run'[|moves'|];
            var executing, asleep := Executing(s.workers) + Creating(s.submitters), Asleep(s.workers);
            var many := executing + asleep >= 5 && executing >= 3 && |s.queue| < executing;
            var runs := s.workers[w := Running(s.workers[w].task)];
            && s'.queue == s.queue && s'.submitters == s.submitters
            && s'.workers == if many || executing >= s.maxConcurrency then runs
                             else if asleep > 0 then if Waits(s, target) then runs[target := Notified] else runs
                             else if executing < s.hardLimit then runs + [Looping]
                             else runs
  {
    assert |run| == |moves| + 1;
    var s := run[|moves|];
    RunInv(maxConcurrency, hardLimit, submitters, run, moves, |moves|);
    PokeMeans(s, |s.queue|, false);
    hide Run, Inv, Executing, Asleep, Creating, Poke;
    run', moves' := Extend(maxConcurrency, hardLimit, submitters, run, moves, WorkerStep(w, target));
    SamePoke(s, run'[|moves'|], |s.queue|);
    run', moves' := Extend(maxConcurrency, hardLimit, submitters, run', moves', WorkerStep(w, target));
    if !run'[|moves'|].workers[w].Running? {
      run', moves' := Extend(maxConcurrency, hardLimit, submitters, run', moves', WorkerStep(w, target));
    }
  }

  lemma SamePoke(s: State, s': State, count: nat)
    requires s'.executingNum == s.executingNum && s'.sleepingNum == s.sleepingNum
    requires s'.maxConcurrency == s.maxConcurrency && s'.hardLimit == s.hardLimit
    ensures Poke(s', count, false) == Poke(s, count, false)
  {
  }
}
