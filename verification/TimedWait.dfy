/** Condition-variable waits of coroutines, with and without a time limit: a waiter, the timer
    thread and any number of notifiers race for one queue entry. Every section that another party
    could interrupt is a step of its own; `wqlock` is taken and released explicitly. */
module TimedWait {
  type Entry = nat
  type Task = nat

  datatype Status = INIT | NOTIFYING | TIMEOUT_DONE

  datatype Code = SUCCESS | TIMEDOUT

  /** A `WaitUntilEntry` on the heap. */
  datatype Record = Record(task: Task, timed: bool, status: Status)

  datatype TaskPC =
    | Running
    | Pushed(entry: Entry)            // entry queued, `wqlock` held, timer not set yet
    | Armed(entry: Entry)             // timer set, `wqlock` still held
    | Waiting(entry: Entry)           // suspended
    | Woken(entry: Entry, code: Code) // made ready, not running yet

  datatype TimerPC =
    | TimerIdle
    | Fired(entry: Entry)                   // taken out of the timer map; callback about to read the task
    | Entering(entry: Entry, task: Task)    // callback about to take `wqlock`
    | TimerWakes(entry: Entry, task: Task)  // entry destroyed; about to wake the task

  datatype NotifierPC =
    | NotifierIdle
    | Popped(entry: Entry)                      // entry taken from the queue, `wqlock` held
    | Spinning(entry: Entry)                    // waiting for the callback to give way
    | Reentering(entry: Entry)                  // callback gave way; about to take `wqlock` again
    | Destroyed(entry: Entry, task: Task)       // entry destroyed if timed, `wqlock` held
    | NotifierWakes(entry: Entry, task: Task)   // about to wake the task

  datatype Owner = Nobody | ByTask(task: Task) | ByNotifier(notifier: nat)

  /** `limited` are the entries of waits with a time limit. `popped` records which entries a notifier has
      taken from the queue, `returned` what each wait gave back, `deleted` how often an entry was freed. */
  datatype State = State(
    wqlock: Owner, entries: map<Entry, Record>, queue: seq<Entry>, timers: set<Entry>,
    tasks: seq<TaskPC>, timer: TimerPC, notifiers: seq<NotifierPC>,
    nextEntry: Entry, limited: set<Entry>, popped: set<Entry>, returned: map<Entry, Code>, deleted: multiset<Entry>)

  datatype Move =
    | BeginWait(task: Task, timed: bool)
    | SetTimer(task: Task, inTime: bool)
    | Suspend(task: Task)
    | Resume(task: Task)
    | Fire(entry: Entry)
    | ReadTask
    | TimeoutProc
    | TimerWake
    | Pop(notifier: nat)
    | RemoveTimer(notifier: nat)
    | SeeDone(notifier: nat)
    | Reacquire(notifier: nat)
    | Release(notifier: nat)
    | NotifierWake(notifier: nat)

  function Minus(q: seq<Entry>, e: Entry): seq<Entry> {
    if q == [] then [] else if q[0] == e then q[1..] else [q[0]] + Minus(q[1..], e)
  }

  // ----- the steps of a waiting task, each with the condition under which it can be taken. A step that
  // follows a pointer needs the entry to be there; `NoDangling` below shows that it always is.

  predicate CanBeginWait(s: State, k: Task) {
    k < |s.tasks| && s.tasks[k].Running? && s.wqlock.Nobody?
  }

  function BeginWaitTo(s: State, k: Task, timed: bool): State
    requires CanBeginWait(s, k)
  {
    var e := s.nextEntry;
    s.(wqlock := ByTask(k), entries := s.entries[e := Record(k, timed, INIT)], queue := s.queue + [e],
       tasks := s.tasks[k := Pushed(e)], nextEntry := e + 1, limited := if timed then s.limited + {e} else s.limited)
  }

  /** The `delete` of an entry. */
  function Delete(s: State, e: Entry): State {
    s.(entries := s.entries - {e}, deleted := s.deleted + multiset{e})
  }

  /** `WeTimeoutProc`, under `wqlock`: whoever runs it wakes the task unless a notifier is at work. */
  function WeTimeoutProc(s: State, e: Entry): State
    requires e in s.entries
  {
    if s.entries[e].status.INIT? then Delete(s, e).(queue := Minus(s.queue, e))
    else s.(entries := s.entries[e := s.entries[e].(status := TIMEOUT_DONE)])
  }

  predicate CanSetTimer(s: State, k: Task) {
    k < |s.tasks| && s.tasks[k].Pushed? && s.tasks[k].entry in s.entries
  }

  function SetTimerTo(s: State, k: Task, inTime: bool): State
    requires CanSetTimer(s, k)
  {
    var e := s.tasks[k].entry;
    if !s.entries[e].timed then s.(wqlock := Nobody, tasks := s.tasks[k := Waiting(e)])
    else if inTime then s.(timers := s.timers + {e}, tasks := s.tasks[k := Armed(e)])
    else
      var toWake := s.entries[e].status.INIT?;
      WeTimeoutProc(s, e).(wqlock := Nobody, tasks := s.tasks[k := if toWake then Woken(e, TIMEDOUT) else Waiting(e)])
  }

  predicate CanSuspend(s: State, k: Task) {
    k < |s.tasks| && s.tasks[k].Armed?
  }

  function SuspendTo(s: State, k: Task): State
    requires CanSuspend(s, k)
  {
    s.(wqlock := Nobody, tasks := s.tasks[k := Waiting(s.tasks[k].entry)])
  }

  predicate CanResume(s: State, k: Task) {
    k < |s.tasks| && s.tasks[k].Woken?
  }

  function ResumeTo(s: State, k: Task): State
    requires CanResume(s, k)
  {
    var e := s.tasks[k].entry;
    var freed := if e in s.limited then s else Delete(s, e);
    freed.(returned := s.returned[e := s.tasks[k].code], tasks := s.tasks[k := Running])
  }

  // ----- the steps of the timer thread

  predicate CanFire(s: State, e: Entry) {
    s.timer.TimerIdle? && e in s.timers
  }

  function FireTo(s: State, e: Entry): State
    requires CanFire(s, e)
  {
    s.(timers := s.timers - {e}, timer := Fired(e))
  }

  predicate CanReadTask(s: State) {
    s.timer.Fired? && s.timer.entry in s.entries
  }

  function ReadTaskTo(s: State): State
    requires CanReadTask(s)
  {
    s.(timer := Entering(s.timer.entry, s.entries[s.timer.entry].task))
  }

  predicate CanTimeout(s: State) {
    s.timer.Entering? && s.wqlock.Nobody? && s.timer.entry in s.entries
  }

  function TimeoutTo(s: State): State
    requires CanTimeout(s)
  {
    var e := s.timer.entry;
    WeTimeoutProc(s, e).(timer := if s.entries[e].status.INIT? then TimerWakes(e, s.timer.task) else TimerIdle)
  }

  predicate CanTimerWake(s: State) {
    s.timer.TimerWakes? && s.timer.task < |s.tasks|
  }

  function TimerWakeTo(s: State): State
    requires CanTimerWake(s)
  {
    s.(tasks := s.tasks[s.timer.task := Woken(s.timer.entry, TIMEDOUT)], timer := TimerIdle)
  }

  // ----- the steps of a notifier

  predicate CanPop(s: State, n: nat) {
    n < |s.notifiers| && s.notifiers[n].NotifierIdle? && s.wqlock.Nobody? && s.queue != []
  }

  function PopTo(s: State, n: nat): State
    requires CanPop(s, n)
  {
    var e := s.queue[0];
    s.(wqlock := ByNotifier(n), queue := s.queue[1..], notifiers := s.notifiers[n := Popped(e)],
      popped := s.popped + {e})
  }

  predicate CanRemoveTimer(s: State, n: nat) {
    n < |s.notifiers| && s.notifiers[n].Popped? && s.notifiers[n].entry in s.entries
  }

  function RemoveTimerTo(s: State, n: nat): State
    requires CanRemoveTimer(s, n)
  {
    var e := s.notifiers[n].entry;
    var k := s.entries[e].task;
    if !s.entries[e].timed then s.(notifiers := s.notifiers[n := Destroyed(e, k)])
    else if e in s.timers then Delete(s, e).(timers := s.timers - {e}, notifiers := s.notifiers[n := Destroyed(e, k)])
    else
      s.(entries := s.entries[e := s.entries[e].(status := NOTIFYING)], wqlock := Nobody,
         notifiers := s.notifiers[n := Spinning(e)])
  }

  predicate CanSeeDone(s: State, n: nat) {
    && n < |s.notifiers| && s.notifiers[n].Spinning? && s.notifiers[n].entry in s.entries
    && s.entries[s.notifiers[n].entry].status.TIMEOUT_DONE?
  }

  function SeeDoneTo(s: State, n: nat): State
    requires CanSeeDone(s, n)
  {
    s.(notifiers := s.notifiers[n := Reentering(s.notifiers[n].entry)])
  }

  predicate CanReacquire(s: State, n: nat) {
    n < |s.notifiers| && s.notifiers[n].Reentering? && s.wqlock.Nobody? && s.notifiers[n].entry in s.entries
  }

  function ReacquireTo(s: State, n: nat): State
    requires CanReacquire(s, n)
  {
    var e := s.notifiers[n].entry;
    Delete(s, e).(wqlock := ByNotifier(n), notifiers := s.notifiers[n := Destroyed(e, s.entries[e].task)])
  }

  predicate CanRelease(s: State, n: nat) {
    n < |s.notifiers| && s.notifiers[n].Destroyed?
  }

  function ReleaseTo(s: State, n: nat): State
    requires CanRelease(s, n)
  {
    s.(wqlock := Nobody, notifiers := s.notifiers[n := NotifierWakes(s.notifiers[n].entry, s.notifiers[n].task)])
  }

  predicate CanNotifierWake(s: State, n: nat) {
    n < |s.notifiers| && s.notifiers[n].NotifierWakes? && s.notifiers[n].task < |s.tasks|
  }

  function NotifierWakeTo(s: State, n: nat): State
    requires CanNotifierWake(s, n)
  {
    s.(tasks := s.tasks[s.notifiers[n].task := Woken(s.notifiers[n].entry, SUCCESS)],
      notifiers := s.notifiers[n := NotifierIdle])
  }

  // ----- all steps

  predicate Enabled(s: State, m: Move) {
    match m
    case BeginWait(k, _) => CanBeginWait(s, k)
    case SetTimer(k, _) => CanSetTimer(s, k)
    case Suspend(k) => CanSuspend(s, k)
    case Resume(k) => CanResume(s, k)
    case Fire(e) => CanFire(s, e)
    case ReadTask => CanReadTask(s)
    case TimeoutProc => CanTimeout(s)
    case TimerWake => CanTimerWake(s)
    case Pop(n) => CanPop(s, n)
    case RemoveTimer(n) => CanRemoveTimer(s, n)
    case SeeDone(n) => CanSeeDone(s, n)
    case Reacquire(n) => CanReacquire(s, n)
    case Release(n) => CanRelease(s, n)
    case NotifierWake(n) => CanNotifierWake(s, n)
  }

  function Step(s: State, m: Move): State
    requires Enabled(s, m)
  {
    match m
    case BeginWait(k, timed) => BeginWaitTo(s, k, timed)
    case SetTimer(k, inTime) => SetTimerTo(s, k, inTime)
    case Suspend(k) => SuspendTo(s, k)
    case Resume(k) => ResumeTo(s, k)
    case Fire(e) => FireTo(s, e)
    case ReadTask => ReadTaskTo(s)
    case TimeoutProc => TimeoutTo(s)
    case TimerWake => TimerWakeTo(s)
    case Pop(n) => PopTo(s, n)
    case RemoveTimer(n) => RemoveTimerTo(s, n)
    case SeeDone(n) => SeeDoneTo(s, n)
    case Reacquire(n) => ReacquireTo(s, n)
    case Release(n) => ReleaseTo(s, n)
    case NotifierWake(n) => NotifierWakeTo(s, n)
  }

  function Initial(tasks: nat, notifiers: nat): State {
    State(Nobody, map[], [], {}, seq(tasks, _ => Running), TimerIdle, seq(notifiers, _ => NotifierIdle), 0, {}, {},
      map[], multiset{})
  }

  // ----- who refers to an entry

  ghost predicate NotifierOn(s: State, n: nat, e: Entry) {
    n < |s.notifiers| && !s.notifiers[n].NotifierIdle? && s.notifiers[n].entry == e
  }

  ghost predicate Unclaimed(s: State, e: Entry) {
    forall n :: !NotifierOn(s, n, e)
  }

  /** The timer callback is running for `e` and has not decided yet. */
  predicate Calling(s: State, e: Entry) {
    (s.timer.Fired? || s.timer.Entering?) && s.timer.entry == e
  }

  predicate TimerWon(s: State, e: Entry) {
    s.timer.TimerWakes? && s.timer.entry == e
  }

  predicate Init(s: State, k: Task, e: Entry) {
    e in s.entries && s.entries[e].task == k && s.entries[e].status.INIT?
  }

  /** The time limit is still being watched, by the timer map or by a callback, but not by both. */
  predicate Watched(s: State, e: Entry)
    requires e in s.entries
  {
    if s.entries[e].timed then (e in s.timers) != Calling(s, e) else e !in s.timers && !Calling(s, e)
  }

  /** What notifier `n`, at work on the entry of task `k`, relies on. */
  ghost predicate NotifierOk(s: State, k: Task, n: nat, e: Entry)
    requires n < |s.notifiers|
  {
    match s.notifiers[n]
    case NotifierIdle => true
    case Popped(_) => Init(s, k, e) && Watched(s, e)
    case Spinning(_) =>
      && e in s.entries && s.entries[e].task == k && s.entries[e].timed && e !in s.timers
      && if Calling(s, e) then s.entries[e].status.NOTIFYING? else s.entries[e].status.TIMEOUT_DONE?
    case Reentering(_) => e in s.entries && s.entries[e].task == k && s.entries[e].timed && e !in s.timers
                          && !Calling(s, e)
    case Destroyed(_, t) => t == k && e !in s.timers && !Calling(s, e)
                            && (e in s.entries ==> !s.entries[e].timed && s.entries[e].task == k)
    case NotifierWakes(_, t) => t == k && e !in s.timers && !Calling(s, e)
                                && (e in s.entries ==> !s.entries[e].timed && s.entries[e].task == k)
  }

  /** A suspended task is in the hands of exactly one party: the queue, one notifier, or the timer. */
  ghost predicate WaitingOk(s: State, k: Task, e: Entry) {
    && (e in s.queue ==> Init(s, k, e) && Watched(s, e) && Unclaimed(s, e) && !TimerWon(s, e))
    && (TimerWon(s, e) ==> s.timer.task == k && e !in s.entries && e !in s.queue && e !in s.timers && Unclaimed(s, e))
    && (forall n :: NotifierOn(s, n, e) ==> e !in s.queue && !TimerWon(s, e) && NotifierOk(s, k, n, e))
    && (e in s.queue || TimerWon(s, e) || !Unclaimed(s, e))
    && (e in s.popped <==> !Unclaimed(s, e))
  }

  ghost predicate TaskOk(s: State, k: Task)
    requires k < |s.tasks|
  {
    match s.tasks[k]
    case Running => true
    case Pushed(e) =>
      Init(s, k, e) && e in s.queue && e !in s.timers && !Calling(s, e) && !TimerWon(s, e) && Unclaimed(s, e)
        && e !in s.popped
    case Armed(e) =>
      Init(s, k, e) && s.entries[e].timed && e in s.queue && Watched(s, e) && !TimerWon(s, e) && Unclaimed(s, e)
        && e !in s.popped
    case Waiting(e) => WaitingOk(s, k, e)
    case Woken(e, c) =>
      && e !in s.queue && e !in s.timers && !Calling(s, e) && !TimerWon(s, e) && Unclaimed(s, e)
      && (e in s.entries ==> s.entries[e].task == k && !s.entries[e].timed)
      && (c.SUCCESS? <==> e in s.popped)
  }

  ghost predicate TaskOn(s: State, k: Task, e: Entry) {
    k < |s.tasks| && !s.tasks[k].Running? && s.tasks[k].entry == e
  }

  /** Nothing refers to an entry that is gone, or to the wrong task. */
  ghost predicate RefsOk(s: State) {
    && (forall e :: e in s.entries ==> TaskOn(s, s.entries[e].task, e))
    && (forall e :: e in s.queue ==> e in s.entries)
    && (forall e :: e in s.timers ==> e in s.entries)
    && (s.timer.Fired? ==> s.timer.entry in s.entries)
    && (s.timer.Entering? ==> s.timer.entry in s.entries && s.entries[s.timer.entry].task == s.timer.task)
    && (s.timer.TimerWakes? ==> s.timer.task < |s.tasks| && s.tasks[s.timer.task] == Waiting(s.timer.entry))
    && (forall n :: 0 <= n < |s.notifiers| ==>
          match s.notifiers[n]
          case NotifierIdle => true
          case Popped(e) => e in s.entries && s.tasks[s.entries[e].task].Waiting?
          case Spinning(e) => e in s.entries && s.tasks[s.entries[e].task].Waiting?
          case Reentering(e) => e in s.entries && s.tasks[s.entries[e].task].Waiting?
          case Destroyed(e, k) => k < |s.tasks| && s.tasks[k] == Waiting(e)
          case NotifierWakes(e, k) => k < |s.tasks| && s.tasks[k] == Waiting(e))
  }

  ghost predicate Unique(s: State) {
    && (forall k: Task, l: Task, e: Entry :: TaskOn(s, k, e) && TaskOn(s, l, e) ==> k == l)
    && (forall n: nat, m: nat, e: Entry :: NotifierOn(s, n, e) && NotifierOn(s, m, e) ==> n == m)
    && (forall i, j :: 0 <= i < j < |s.queue| ==> s.queue[i] != s.queue[j])
    && (forall k: Task, e: Entry :: TaskOn(s, k, e) ==> e < s.nextEntry && e !in s.returned)
    && (forall e :: e in s.returned ==> e < s.nextEntry)
    && (forall e :: e in s.popped ==> e < s.nextEntry)
  }

  ghost predicate LockOk(s: State) {
    && (s.wqlock.ByTask? ==> s.wqlock.task < |s.tasks|) && (s.wqlock.ByNotifier? ==> s.wqlock.notifier < |s.notifiers|)
    && (forall k :: 0 <= k < |s.tasks| ==> (s.tasks[k].Pushed? || s.tasks[k].Armed? <==> s.wqlock == ByTask(k)))
    && (forall n :: 0 <= n < |s.notifiers|
          ==> (s.notifiers[n].Popped? || s.notifiers[n].Destroyed? <==> s.wqlock == ByNotifier(n)))
  }

  /** What a finished wait returned is what happened: SUCCESS exactly for notified entries. */
  ghost predicate Truthful(s: State) {
    forall e :: e in s.returned ==> (s.returned[e].SUCCESS? <==> e in s.popped)
  }

  /** An entry has been freed once if it is gone, and else not at all. The entry of a wait without limit
      stays until the task runs again, that of a wait with one is gone by then. */
  ghost predicate Freed(s: State) {
    && (forall e: Entry :: s.deleted[e] == if e < s.nextEntry && e !in s.entries then 1 else 0)
    && (forall e :: e in s.entries ==> e < s.nextEntry && (s.entries[e].timed <==> e in s.limited))
    && (forall e :: e in s.limited ==> e < s.nextEntry)
    && (forall k: Task, e: Entry :: TaskOn(s, k, e) && e !in s.limited ==> e in s.entries)
    && (forall k: Task, e: Entry :: TaskOn(s, k, e) && s.tasks[k].Woken? && e in s.limited ==> e !in s.entries)
  }

  ghost predicate TasksOk(s: State) {
    forall k :: 0 <= k < |s.tasks| ==> TaskOk(s, k)
  }

  ghost predicate Inv(s: State) {
    Base(s) && Freed(s)
  }

  ghost predicate Base(s: State) {
    LockOk(s) && Unique(s) && RefsOk(s) && TasksOk(s) && Truthful(s)
  }

  lemma InitialInv(tasks: nat, notifiers: nat)
    ensures Inv(Initial(tasks, notifiers))
  {
    var s := Initial(tasks, notifiers);
    assert forall k, e :: !TaskOn(s, k, e);
    assert forall n, e :: !NotifierOn(s, n, e);
  }

  // ----- steps touch one entry

  /** The parties see entry `e` as before. */
  ghost predicate SameFor(s: State, s': State, e: Entry) {
    && (e in s'.queue <==> e in s.queue) && (e in s'.timers <==> e in s.timers) && (e in s'.popped <==> e in s.popped)
    && (e in s'.entries <==> e in s.entries) && (e in s.entries ==> s'.entries[e] == s.entries[e])
    && (Calling(s', e) <==> Calling(s, e)) && (TimerWon(s', e) <==> TimerWon(s, e))
    && (TimerWon(s, e) ==> s'.timer.task == s.timer.task)
    && |s'.notifiers| == |s.notifiers|
    && (forall n: nat :: NotifierOn(s, n, e) || NotifierOn(s', n, e)
          ==> n < |s.notifiers| && s'.notifiers[n] == s.notifiers[n])
  }

  predicate TimerOff(t: TimerPC, e: Entry) {
    t.TimerIdle? || t.entry == e
  }

  predicate NotifierOff(n: NotifierPC, e: Entry) {
    n.NotifierIdle? || n.entry == e
  }

  /** Whatever concerns only entry `e` leaves all others as they were. */
  lemma SameParties(s: State, s': State, e: Entry)
    requires forall f: Entry :: f != e ==>
               && (f in s'.queue <==> f in s.queue) && (f in s'.timers <==> f in s.timers)
                 && (f in s'.popped <==> f in s.popped)
               && (f in s'.entries <==> f in s.entries) && (f in s.entries ==> s'.entries[f] == s.entries[f])
    requires s'.timer == s.timer || (TimerOff(s.timer, e) && TimerOff(s'.timer, e))
    requires |s'.notifiers| == |s.notifiers|
    requires forall n :: 0 <= n < |s.notifiers| ==>
               s'.notifiers[n] == s.notifiers[n] || (NotifierOff(s.notifiers[n], e) && NotifierOff(s'.notifiers[n], e))
    ensures forall f: Entry :: f != e ==> SameFor(s, s', f)
  {
  }

  lemma SameTask(s: State, s': State, k: Task)
    requires k < |s.tasks| && k < |s'.tasks| && s'.tasks[k] == s.tasks[k] && TaskOk(s, k)
    requires !s.tasks[k].Running? ==> SameFor(s, s', s.tasks[k].entry)
    ensures TaskOk(s', k)
  {
    if !s.tasks[k].Running? {
      var e := s.tasks[k].entry;
      assert forall n :: NotifierOn(s', n, e) <==> NotifierOn(s, n, e);
    }
  }

  /** If a step concerns only entry `e` of task `k`, the other tasks are as well off as before. */
  lemma OtherTasks(s: State, s': State, k: Task, e: Entry)
    requires Unique(s) && TasksOk(s) && |s'.tasks| == |s.tasks| && k < |s.tasks|
    requires TaskOn(s, k, e) || (s.tasks[k].Running? && e >= s.nextEntry)
    requires forall l :: 0 <= l < |s.tasks| && l != k ==> s'.tasks[l] == s.tasks[l]
    requires forall f: Entry :: f != e && f < s.nextEntry ==> SameFor(s, s', f)
    requires TaskOk(s', k)
    ensures TasksOk(s')
  {
    hide TaskOk, SameFor;
    forall l | 0 <= l < |s'.tasks| ensures TaskOk(s', l) {
      if l != k {
        if !s.tasks[l].Running? {
          assert TaskOn(s, l, s.tasks[l].entry);
        }
        SameTask(s, s', l);
      }
    }
  }

  /** Nobody takes up or leaves an entry. */
  lemma UniqueKept(s: State, s': State)
    requires Unique(s) && |s'.tasks| == |s.tasks| && |s'.notifiers| == |s.notifiers|
    requires forall l :: 0 <= l < |s.tasks| ==>
               || s'.tasks[l] == s.tasks[l]
               || (!s.tasks[l].Running? && !s'.tasks[l].Running? && s'.tasks[l].entry == s.tasks[l].entry)
    requires forall n :: 0 <= n < |s.notifiers| ==>
               || s'.notifiers[n] == s.notifiers[n]
               || (&& !s.notifiers[n].NotifierIdle? && !s'.notifiers[n].NotifierIdle?
                   && s'.notifiers[n].entry == s.notifiers[n].entry)
    requires forall i, j :: 0 <= i < j < |s'.queue| ==> s'.queue[i] != s'.queue[j]
    requires s'.nextEntry == s.nextEntry && s'.returned == s.returned && s'.popped == s.popped
    ensures Unique(s')
  {
    assert forall n, f :: NotifierOn(s', n, f) <==> NotifierOn(s, n, f);
    assert forall l, f :: TaskOn(s', l, f) <==> TaskOn(s, l, f);
    hide NotifierOn, TaskOn;
  }

  /** A step that concerns the entry `e` of task `k` only. */
  lemma TasksKept(s: State, s': State, k: Task, e: Entry)
    requires Unique(s) && TasksOk(s) && |s'.tasks| == |s.tasks| && k < |s.tasks|
    requires TaskOn(s, k, e) || (s.tasks[k].Running? && e >= s.nextEntry)
    requires forall l :: 0 <= l < |s.tasks| && l != k ==> s'.tasks[l] == s.tasks[l]
    requires forall f: Entry :: f != e ==>
               && (f in s'.queue <==> f in s.queue) && (f in s'.timers <==> f in s.timers)
               && (f in s'.popped <==> f in s.popped)
               && (f in s'.entries <==> f in s.entries) && (f in s.entries ==> s'.entries[f] == s.entries[f])
    requires s'.timer == s.timer || (TimerOff(s.timer, e) && TimerOff(s'.timer, e))
    requires |s'.notifiers| == |s.notifiers|
    requires forall n :: 0 <= n < |s.notifiers| ==>
               s'.notifiers[n] == s.notifiers[n] || (NotifierOff(s.notifiers[n], e) && NotifierOff(s'.notifiers[n], e))
    requires TaskOk(s', k)
    ensures TasksOk(s')
  {
    hide TaskOk, TasksOk, Unique;
    SameParties(s, s', e);
    hide SameFor;
    OtherTasks(s, s', k, e);
  }

  lemma {:induction false} MinusMembers(q: seq<Entry>, e: Entry, f: Entry)
    requires forall i, j :: 0 <= i < j < |q| ==> q[i] != q[j]
    ensures f in Minus(q, e) <==> f in q && f != e
    ensures forall i, j :: 0 <= i < j < |Minus(q, e)| ==> Minus(q, e)[i] != Minus(q, e)[j]
  {
    if q != [] {
      MinusMembers(q[1..], e, f);
      if q[0] != e {
        MinusMembers(q[1..], e, q[0]);
        assert q[0] !in q[1..];
      } else {
        assert e !in q[1..];
      }
      assert f in q <==> f == q[0] || f in q[1..];
    }
  }

  // ----- the steps of a waiting task

  lemma BeginWaitStep(s: State, k: Task, timed: bool)
    requires Base(s) && CanBeginWait(s, k)
    ensures Base(BeginWaitTo(s, k, timed))
  {
    var e, s' := s.nextEntry, BeginWaitTo(s, k, timed);
    assert forall l :: !TaskOn(s, l, e);
    assert Unclaimed(s, e) by {
      ClaimedOld(s);
    }
    assert e in s.entries ==> TaskOn(s, s.entries[e].task, e);
    BeginWaitTask(s, k, timed, e);
    hide TaskOk;
    assert forall n, f :: NotifierOn(s', n, f) <==> NotifierOn(s, n, f);
    assert forall l: Task, f: Entry :: TaskOn(s', l, f) <==> TaskOn(s, l, f) || (l == k && f == e);
    TasksKept(s, s', k, e);
  }

  lemma BeginWaitTask(s: State, k: Task, timed: bool, e: Entry)
    requires Base(s) && CanBeginWait(s, k) && e == s.nextEntry && Unclaimed(s, e) && forall l :: !TaskOn(s, l, e)
    ensures TaskOk(BeginWaitTo(s, k, timed), k)
  {
    hide LockOk, Truthful, TasksOk;
    var s' := BeginWaitTo(s, k, timed);
    assert TimerWon(s, e) ==> TaskOn(s, s.timer.task, e);
    assert e in s.timers ==> e in s.entries;
    assert e in s.entries ==> TaskOn(s, s.entries[e].task, e);
    assert forall n, f :: NotifierOn(s', n, f) <==> NotifierOn(s, n, f);
  }

  /** Claimed entries belong to waits that are still on. */
  lemma ClaimedOld(s: State)
    requires Base(s)
    ensures forall n: nat, e: Entry :: NotifierOn(s, n, e) ==> e < s.nextEntry
  {
    forall n: nat, e: Entry | NotifierOn(s, n, e) ensures e < s.nextEntry {
      var k := if s.notifiers[n].Destroyed? || s.notifiers[n].NotifierWakes? then s.notifiers[n].task
        else s.entries[e].task;
      assert TaskOn(s, k, e);
    }
  }

  lemma SetTimerLate(s: State, k: Task)
    requires Base(s) && CanSetTimer(s, k) && s.entries[s.tasks[k].entry].timed
    ensures Base(SetTimerTo(s, k, false))
  {
    var e, s' := s.tasks[k].entry, SetTimerTo(s, k, false);
    assert TaskOk(s, k) && TaskOn(s, k, e);
    forall f: Entry ensures f in s'.queue <==> f in s.queue && f != e {
      MinusMembers(s.queue, e, f);
    }
    MinusMembers(s.queue, e, e);
    hide Minus;
    SetTimerLateTask(s, k);
    SetTimerLateRefs(s, k, e);
    UniqueKept(s, s');
    hide TaskOk, RefsOk, Unique;
    TasksKept(s, s', k, e);
  }

  lemma SetTimerLateRefs(s: State, k: Task, e: Entry)
    requires Base(s) && CanSetTimer(s, k) && e == s.tasks[k].entry && s.entries[e].timed
    ensures RefsOk(SetTimerTo(s, k, false))
  {
    hide LockOk, Truthful;
    var s' := SetTimerTo(s, k, false);
    assert TaskOk(s, k) && TaskOn(s, k, e);
    forall f: Entry ensures f in s'.queue <==> f in s.queue && f != e {
      MinusMembers(s.queue, e, f);
    }
    hide Minus;
    assert forall l, f :: TaskOn(s', l, f) <==> TaskOn(s, l, f);
    assert forall n :: 0 <= n < |s.notifiers| && !s.notifiers[n].NotifierIdle?
             ==> NotifierOn(s, n, s.notifiers[n].entry);
  }

  lemma SetTimerLateTask(s: State, k: Task)
    requires Base(s) && CanSetTimer(s, k) && s.entries[s.tasks[k].entry].timed
    ensures TaskOk(SetTimerTo(s, k, false), k)
  {
    hide RefsOk, LockOk, Truthful;
    var e, s' := s.tasks[k].entry, SetTimerTo(s, k, false);
    assert TaskOk(s, k) && TaskOn(s, k, e);
    MinusMembers(s.queue, e, e);
    hide Minus;
    assert forall n, f :: NotifierOn(s', n, f) <==> NotifierOn(s, n, f);
  }

  lemma SetTimerStep(s: State, k: Task, inTime: bool)
    requires Base(s) && CanSetTimer(s, k)
    ensures Base(SetTimerTo(s, k, inTime))
  {
    var e, s' := s.tasks[k].entry, SetTimerTo(s, k, inTime);
    if s.entries[e].timed && !inTime {
      SetTimerLate(s, k);
    } else {
      SetTimerTask(s, k, inTime);
      SetTimerInTime(s, k, inTime);
    }
  }

  lemma SetTimerTask(s: State, k: Task, inTime: bool)
    requires Base(s) && CanSetTimer(s, k) && (s.entries[s.tasks[k].entry].timed ==> inTime)
    ensures TaskOk(SetTimerTo(s, k, inTime), k)
  {
    hide RefsOk, LockOk, Truthful;
    var e, s' := s.tasks[k].entry, SetTimerTo(s, k, inTime);
    assert TaskOk(s, k) && TaskOn(s, k, e);
    assert forall n, f :: NotifierOn(s', n, f) <==> NotifierOn(s, n, f);
  }

  lemma SetTimerInTime(s: State, k: Task, inTime: bool)
    requires Base(s) && CanSetTimer(s, k) && (s.entries[s.tasks[k].entry].timed ==> inTime)
    requires TaskOk(SetTimerTo(s, k, inTime), k)
    ensures Base(SetTimerTo(s, k, inTime))
  {
    var e, s' := s.tasks[k].entry, SetTimerTo(s, k, inTime);
    assert TaskOk(s, k) && TaskOn(s, k, e);
    hide TaskOk;
    UniqueKept(s, s');
    assert forall l, f :: TaskOn(s', l, f) <==> TaskOn(s, l, f);
    hide Unique;
    TasksKept(s, s', k, e);
  }

  lemma SuspendStep(s: State, k: Task)
    requires Base(s) && CanSuspend(s, k)
    ensures Base(SuspendTo(s, k))
  {
    var e, s' := s.tasks[k].entry, SuspendTo(s, k);
    assert TaskOk(s, k) && TaskOn(s, k, e);
    assert forall n, f :: NotifierOn(s', n, f) <==> NotifierOn(s, n, f);
    assert forall l, f :: TaskOn(s', l, f) <==> TaskOn(s, l, f);
    assert TaskOk(s', k);
    TasksKept(s, s', k, e);
  }

  lemma ResumeTasks(s: State, s': State, k: Task, e: Entry)
    requires Base(s) && CanResume(s, k) && s' == ResumeTo(s, k) && e == s.tasks[k].entry && TaskOn(s, k, e)
    ensures TasksOk(s')
  {
    assert TaskOk(s', k);
    hide RefsOk, TaskOk, TasksOk, LockOk, Truthful, Unique;
    TasksKept(s, s', k, e);
  }

  lemma ResumeStep(s: State, k: Task)
    requires Base(s) && Freed(s) && CanResume(s, k)
    ensures Base(ResumeTo(s, k))
  {
    var e, s' := s.tasks[k].entry, ResumeTo(s, k);
    assert TaskOk(s, k) && TaskOn(s, k, e);
    assert s'.entries == s.entries - {e};
    hide Freed;
    ResumeRefs(s, s', k, e);
    ResumeTasks(s, s', k, e);
    hide RefsOk, TaskOk, TasksOk;
    assert forall n, f :: NotifierOn(s', n, f) <==> NotifierOn(s, n, f);
    assert forall l, f :: TaskOn(s', l, f) <==> TaskOn(s, l, f) && l != k;
  }

  lemma ResumeRefs(s: State, s': State, k: Task, e: Entry)
    requires RefsOk(s) && Unique(s) && TaskOn(s, k, e) && TaskOk(s, k) && s.tasks[k].Woken?
    requires s'.entries == s.entries - {e} && s'.queue == s.queue && s'.timers == s.timers && s'.timer == s.timer
    requires s'.notifiers == s.notifiers && s'.tasks == s.tasks[k := Running]
    ensures RefsOk(s')
  {
    forall f | f in s'.entries ensures TaskOn(s', s'.entries[f].task, f) {
      assert TaskOn(s, s.entries[f].task, f);
    }
    assert forall n :: 0 <= n < |s.notifiers| && !s.notifiers[n].NotifierIdle?
             ==> NotifierOn(s, n, s.notifiers[n].entry);
  }

  // ----- the steps of the timer thread

  lemma FireStep(s: State, e: Entry)
    requires Base(s) && CanFire(s, e)
    ensures Base(FireTo(s, e))
  {
    var s' := FireTo(s, e);
    var k := s.entries[e].task;
    assert TaskOn(s, k, e) && TaskOk(s, k);
    assert forall n, f :: NotifierOn(s', n, f) <==> NotifierOn(s, n, f);
    assert forall l, f :: TaskOn(s', l, f) <==> TaskOn(s, l, f);
    assert TaskOk(s', k);
    TasksKept(s, s', k, e);
  }

  lemma ReadTaskStep(s: State)
    requires Base(s) && CanReadTask(s)
    ensures Base(ReadTaskTo(s))
  {
    var s', e := ReadTaskTo(s), s.timer.entry;
    var k := s.entries[e].task;
    assert TaskOn(s, k, e) && TaskOk(s, k);
    assert forall n, f :: NotifierOn(s', n, f) <==> NotifierOn(s, n, f);
    assert forall l, f :: TaskOn(s', l, f) <==> TaskOn(s, l, f);
    assert TaskOk(s', k);
    TasksKept(s, s', k, e);
  }

  /** A callback that finds the entry untouched finds it in the queue. */
  lemma TimeoutFirst(s: State)
    requires Base(s) && CanTimeout(s) && s.entries[s.timer.entry].status.INIT?
    ensures Base(TimeoutTo(s))
  {
    var s', e, k := TimeoutTo(s), s.timer.entry, s.timer.task;
    assert TaskOn(s, k, e) && TaskOk(s, k) && Calling(s, e);
    assert forall n :: NotifierOn(s, n, e) ==> NotifierOk(s, k, n, e);
    assert Unclaimed(s, e) && e in s.queue && s.tasks[k] == Waiting(e);
    forall f: Entry ensures f in s'.queue <==> f in s.queue && f != e {
      MinusMembers(s.queue, e, f);
    }
    assert Unique(s') by {
      MinusMembers(s.queue, e, e);
      assert forall n, f :: NotifierOn(s', n, f) <==> NotifierOn(s, n, f);
      assert forall l, f :: TaskOn(s', l, f) <==> TaskOn(s, l, f);
    }
    hide Minus;
    assert forall n, f :: NotifierOn(s', n, f) <==> NotifierOn(s, n, f);
    assert TaskOk(s', k);
    TimeoutRefs(s);
    TasksKept(s, s', k, e);
  }

  lemma TimeoutRefs(s: State)
    requires Base(s) && CanTimeout(s) && s.entries[s.timer.entry].status.INIT?
    requires Unclaimed(s, s.timer.entry) && s.timer.entry in s.queue && s.tasks[s.timer.task] == Waiting(s.timer.entry)
    ensures RefsOk(TimeoutTo(s))
  {
    hide TasksOk, LockOk, Truthful;
    var s', e, k := TimeoutTo(s), s.timer.entry, s.timer.task;
    forall f: Entry ensures f in s'.queue <==> f in s.queue && f != e {
      MinusMembers(s.queue, e, f);
    }
    hide Minus;
    assert TaskOn(s, k, e);
    assert e !in s.timers by {
      TimersNotCalled(s, e, k);
    }
    assert forall n :: 0 <= n < |s.notifiers| && !s.notifiers[n].NotifierIdle?
             ==> NotifierOn(s, n, s.notifiers[n].entry);
    forall f | f in s'.entries ensures TaskOn(s', s'.entries[f].task, f) {
      assert TaskOn(s, s.entries[f].task, f);
    }
  }

  lemma TimersNotCalled(s: State, e: Entry, k: Task)
    requires TasksOk(s) && TaskOn(s, k, e) && Calling(s, e) && s.tasks[k] == Waiting(e) && e in s.queue
    ensures e !in s.timers
  {
    assert TaskOk(s, k);
  }

  /** A callback that finds a notifier at work gives way. */
  lemma TimeoutSecond(s: State)
    requires Base(s) && CanTimeout(s) && !s.entries[s.timer.entry].status.INIT?
    ensures Base(TimeoutTo(s))
  {
    var s', e, k := TimeoutTo(s), s.timer.entry, s.timer.task;
    assert TaskOn(s, k, e) && TaskOk(s, k) && Calling(s, e);
    TimeoutSecondTask(s, k, e);
    UniqueKept(s, s');
    hide TaskOk, WaitingOk, Unique;
    assert forall l, f :: TaskOn(s', l, f) <==> TaskOn(s, l, f);
    TasksKept(s, s', k, e);
  }

  lemma TimeoutSecondTask(s: State, k: Task, e: Entry)
    requires Base(s) && CanTimeout(s) && !s.entries[s.timer.entry].status.INIT?
    requires e == s.timer.entry && k == s.timer.task && TaskOn(s, k, e) && TaskOk(s, k) && Calling(s, e)
    ensures TaskOk(TimeoutTo(s), k)
  {
    hide LockOk, TasksOk, Truthful;
    var s' := TimeoutTo(s);
    assert forall n :: NotifierOn(s, n, e) ==> NotifierOk(s, k, n, e);
    assert forall n, f :: NotifierOn(s', n, f) <==> NotifierOn(s, n, f);
  }

  lemma TimerWakeStep(s: State)
    requires Base(s) && CanTimerWake(s)
    ensures Base(TimerWakeTo(s))
  {
    var s', e, k := TimerWakeTo(s), s.timer.entry, s.timer.task;
    assert TaskOn(s, k, e) && TaskOk(s, k) && TimerWon(s, e);
    assert forall n, f :: NotifierOn(s', n, f) <==> NotifierOn(s, n, f);
    assert forall l, f :: TaskOn(s', l, f) <==> TaskOn(s, l, f);
    assert TaskOk(s', k);
    assert forall n :: 0 <= n < |s.notifiers| && !s.notifiers[n].NotifierIdle?
             ==> NotifierOn(s, n, s.notifiers[n].entry);
    TasksKept(s, s', k, e);
  }

  // ----- the steps of a notifier

  lemma PopStep(s: State, n: nat)
    requires Base(s) && CanPop(s, n)
    ensures Base(PopTo(s, n))
  {
    var s', e := PopTo(s, n), s.queue[0];
    assert e in s.queue;
    var k := s.entries[e].task;
    assert TaskOn(s, k, e) && TaskOk(s, k);
    assert s.tasks[k] == Waiting(e);
    assert forall f :: f in s'.queue <==> f in s.queue && f != e;
    assert forall m: nat, f: Entry :: NotifierOn(s', m, f) <==> NotifierOn(s, m, f) || (m == n && f == e);
    assert forall l, f :: TaskOn(s', l, f) <==> TaskOn(s, l, f);
    PopTask(s, n, k, e);
    hide TaskOk, WaitingOk;
    TasksKept(s, s', k, e);
  }

  lemma PopTask(s: State, n: nat, k: Task, e: Entry)
    requires Base(s) && CanPop(s, n) && e == s.queue[0] && TaskOn(s, k, e) && TaskOk(s, k) && s.tasks[k] == Waiting(e)
    ensures TaskOk(PopTo(s, n), k)
  {
    hide RefsOk, LockOk, TasksOk, Truthful;
    var s' := PopTo(s, n);
    assert e in s.queue;
    assert forall m: nat, f: Entry :: NotifierOn(s', m, f) <==> NotifierOn(s, m, f) || (m == n && f == e);
    assert NotifierOn(s', n, e);
  }

  lemma ClaimedTask(s: State, n: nat) returns (k: Task, e: Entry)
    requires Base(s) && n < |s.notifiers| && !s.notifiers[n].NotifierIdle?
    ensures e == s.notifiers[n].entry && TaskOn(s, k, e) && s.tasks[k] == Waiting(e) && NotifierOn(s, n, e)
    ensures WaitingOk(s, k, e) && NotifierOk(s, k, n, e) && e !in s.queue && !TimerWon(s, e)
    ensures e in s.entries ==> s.entries[e].task == k
    ensures s.notifiers[n].Destroyed? || s.notifiers[n].NotifierWakes? ==> s.notifiers[n].task == k
  {
    e := s.notifiers[n].entry;
    k := if s.notifiers[n].Destroyed? || s.notifiers[n].NotifierWakes? then s.notifiers[n].task else s.entries[e].task;
    assert NotifierOn(s, n, e) && TaskOk(s, k);
    if e in s.entries {
      assert TaskOn(s, s.entries[e].task, e);
      assert TaskOn(s, k, e);
    }
  }

  lemma RemoveTimerStep(s: State, n: nat)
    requires Base(s) && CanRemoveTimer(s, n)
    ensures Base(RemoveTimerTo(s, n))
  {
    var s' := RemoveTimerTo(s, n);
    var k, e := ClaimedTask(s, n);
    RemoveTimerTask(s, n, k, e);
    RemoveTimerRefs(s, n, k, e);
    RemoveTimerTasks(s, n, k, e);
    hide RefsOk, TaskOk, NotifierOk, WaitingOk, TasksOk, Unique, TaskOn, NotifierOn;
    UniqueKept(s, s');
  }

  lemma RemoveTimerTask(s: State, n: nat, k: Task, e: Entry)
    requires Base(s) && CanRemoveTimer(s, n) && NotifierOn(s, n, e) && TaskOn(s, k, e) && s.tasks[k] == Waiting(e)
    requires WaitingOk(s, k, e) && NotifierOk(s, k, n, e)
    ensures TaskOk(RemoveTimerTo(s, n), k)
  {
    hide RefsOk, TasksOk, LockOk, Truthful;
    var s' := RemoveTimerTo(s, n);
    assert forall m, f :: NotifierOn(s', m, f) <==> NotifierOn(s, m, f);
    assert forall m :: NotifierOn(s', m, e) ==> m == n;
  }

  lemma RemoveTimerTasks(s: State, n: nat, k: Task, e: Entry)
    requires Base(s) && CanRemoveTimer(s, n) && e == s.notifiers[n].entry && TaskOn(s, k, e)
    requires TaskOk(RemoveTimerTo(s, n), k)
    ensures TasksOk(RemoveTimerTo(s, n))
  {
    hide RefsOk, TaskOk, TasksOk, LockOk, Truthful, Unique;
    var s' := RemoveTimerTo(s, n);
    TasksKept(s, s', k, e);
  }

  lemma RemoveTimerRefs(s: State, n: nat, k: Task, e: Entry)
    requires Base(s) && CanRemoveTimer(s, n) && e == s.notifiers[n].entry && TaskOn(s, k, e) && s.tasks[k] == Waiting(e)
    requires s.entries[e].task == k && Watched(s, e) && e !in s.queue
    ensures RefsOk(RemoveTimerTo(s, n))
  {
    hide TasksOk, LockOk, Truthful;
    var s' := RemoveTimerTo(s, n);
    assert NotifierOn(s, n, e);
    forall m | 0 <= m < |s.notifiers| && m != n && !s.notifiers[m].NotifierIdle? ensures s.notifiers[m].entry != e {
      assert NotifierOn(s, m, s.notifiers[m].entry);
    }
    forall f | f in s'.entries ensures TaskOn(s', s'.entries[f].task, f) {
      assert TaskOn(s, s.entries[f].task, f);
    }
  }

  lemma SeeDoneStep(s: State, n: nat)
    requires Base(s) && CanSeeDone(s, n)
    ensures Base(SeeDoneTo(s, n))
  {
    var s' := SeeDoneTo(s, n);
    var k, e := ClaimedTask(s, n);
    assert forall m, f :: NotifierOn(s', m, f) <==> NotifierOn(s, m, f);
    assert forall l, f :: TaskOn(s', l, f) <==> TaskOn(s, l, f);
    assert TaskOk(s', k);
    TasksKept(s, s', k, e);
  }

  lemma ReacquireStep(s: State, n: nat)
    requires Base(s) && CanReacquire(s, n)
    ensures Base(ReacquireTo(s, n))
  {
    var s' := ReacquireTo(s, n);
    var k, e := ClaimedTask(s, n);
    assert forall m, f :: NotifierOn(s', m, f) <==> NotifierOn(s, m, f);
    assert forall l, f :: TaskOn(s', l, f) <==> TaskOn(s, l, f);
    assert TaskOk(s', k);
    assert RefsOk(s') by {
      forall m | 0 <= m < |s.notifiers| && m != n && !s.notifiers[m].NotifierIdle? ensures s.notifiers[m].entry != e {
        assert NotifierOn(s, m, s.notifiers[m].entry);
      }
    }
    TasksKept(s, s', k, e);
  }

  lemma ReleaseStep(s: State, n: nat)
    requires Base(s) && CanRelease(s, n)
    ensures Base(ReleaseTo(s, n))
  {
    var s' := ReleaseTo(s, n);
    var k, e := ClaimedTask(s, n);
    assert forall m, f :: NotifierOn(s', m, f) <==> NotifierOn(s, m, f);
    assert forall l, f :: TaskOn(s', l, f) <==> TaskOn(s, l, f);
    assert TaskOk(s', k);
    TasksKept(s, s', k, e);
  }

  lemma NotifierWakeStep(s: State, n: nat)
    requires Base(s) && CanNotifierWake(s, n)
    ensures Base(NotifierWakeTo(s, n))
  {
    var s' := NotifierWakeTo(s, n);
    var k, e := ClaimedTask(s, n);
    assert forall m, f :: NotifierOn(s', m, f) <==> NotifierOn(s, m, f) && m != n;
    assert forall l, f :: TaskOn(s', l, f) <==> TaskOn(s, l, f);
    assert TaskOk(s', k);
    assert RefsOk(s') by {
      forall m | 0 <= m < |s.notifiers| && m != n && !s.notifiers[m].NotifierIdle? ensures s.notifiers[m].entry != e {
        assert NotifierOn(s, m, s.notifiers[m].entry);
      }
    }
    TasksKept(s, s', k, e);
  }

  // ----- freeing

  /** A step that frees nothing, and wakes at most a task whose entry is as it should be. */
  lemma FreedSame(s: State, s': State, k: Task)
    requires Freed(s) && s'.deleted == s.deleted && s'.nextEntry == s.nextEntry && s'.limited == s.limited
    requires s'.entries.Keys == s.entries.Keys
             && forall e :: e in s.entries ==> s'.entries[e].timed == s.entries[e].timed
    requires |s'.tasks| == |s.tasks| && k < |s.tasks|
             && (forall l :: 0 <= l < |s.tasks| && l != k ==> s'.tasks[l] == s.tasks[l])
    requires !s'.tasks[k].Running? ==> !s.tasks[k].Running? && s'.tasks[k].entry == s.tasks[k].entry
    requires s'.tasks[k].Woken? && s'.tasks[k].entry in s.limited ==> s'.tasks[k].entry !in s.entries
    ensures Freed(s')
  {
    assert forall l, e :: TaskOn(s', l, e) ==> TaskOn(s, l, e);
  }

  /** The one `delete` of an entry that is there and of which nothing more is wanted. */
  lemma FreedOne(s: State, s': State, k: Task, e: Entry)
    requires Freed(s) && e in s.entries && s'.deleted == s.deleted + multiset{e}
    requires s'.entries == s.entries - {e} && s'.nextEntry == s.nextEntry && s'.limited == s.limited
    requires |s'.tasks| == |s.tasks| && k < |s.tasks|
             && (forall l :: 0 <= l < |s.tasks| && l != k ==> s'.tasks[l] == s.tasks[l])
    requires forall l: Task :: TaskOn(s, l, e) ==> l == k
    requires s'.tasks[k].Running? || (e in s.limited && TaskOn(s, k, e) && s'.tasks[k].entry == e)
    ensures Freed(s')
  {
    assert forall l: Task, f: Entry :: TaskOn(s', l, f) ==> TaskOn(s, l, f);
  }

  lemma FreedBegin(s: State, k: Task, timed: bool)
    requires Inv(s) && CanBeginWait(s, k)
    ensures Freed(BeginWaitTo(s, k, timed))
  {
    hide RefsOk, LockOk, TasksOk, Truthful;
    var e, s' := s.nextEntry, BeginWaitTo(s, k, timed);
    assert forall l: Task, f: Entry :: TaskOn(s', l, f) <==> TaskOn(s, l, f) || (l == k && f == e);
  }

  lemma FreedTask(s: State, m: Move, k: Task)
    requires Inv(s) && Enabled(s, m) && k < |s.tasks|
    requires m == SetTimer(k, true) || m == SetTimer(k, false) || m == Suspend(k) || m == Resume(k)
    ensures Freed(Step(s, m))
  {
    hide RefsOk, LockOk, Truthful;
    var e, s' := s.tasks[k].entry, Step(s, m);
    assert TaskOn(s, k, e) && TaskOk(s, k);
    hide TasksOk, TaskOk;
    if s'.deleted == s.deleted {
      FreedSame(s, s', k);
    } else {
      FreedOne(s, s', k, e);
    }
  }

  lemma FreedTimer(s: State, m: Move)
    requires Inv(s) && Enabled(s, m) && (m.Fire? || m.ReadTask? || m.TimeoutProc? || m.TimerWake?)
    ensures Freed(Step(s, m))
  {
    hide LockOk, Truthful;
    var s' := Step(s, m);
    var e := if m.Fire? then m.entry else s.timer.entry;
    var k := if m.Fire? || m.ReadTask? then s.entries[e].task else s.timer.task;
    assert TaskOn(s, k, e) && TaskOk(s, k);
    hide RefsOk, TasksOk;
    assert m.TimeoutProc? && s.entries[e].status.INIT? ==> Calling(s, e) && s.entries[e].timed;
    if s'.deleted == s.deleted {
      FreedSame(s, s', k);
    } else {
      FreedOne(s, s', k, e);
    }
  }

  lemma FreedNotifier(s: State, m: Move, n: nat)
    requires Inv(s) && Enabled(s, m) && n < |s.notifiers| && !s.notifiers[n].NotifierIdle?
    requires m == RemoveTimer(n) || m == SeeDone(n) || m == Reacquire(n) || m == Release(n) || m == NotifierWake(n)
    ensures Freed(Step(s, m))
  {
    var s' := Step(s, m);
    var k, e := ClaimedTask(s, n);
    hide RefsOk, TasksOk, LockOk, Truthful, WaitingOk;
    if s'.deleted == s.deleted {
      FreedSame(s, s', k);
    } else {
      FreedOne(s, s', k, e);
    }
  }

  lemma FreedPop(s: State, n: nat)
    requires Inv(s) && CanPop(s, n)
    ensures Freed(PopTo(s, n))
  {
    hide Base;
    assert forall l, f :: TaskOn(PopTo(s, n), l, f) <==> TaskOn(s, l, f);
  }

  lemma FreedStep(s: State, m: Move)
    requires Inv(s) && Enabled(s, m)
    ensures Freed(Step(s, m))
  {
    hide Inv, Freed;
    match m {
      case BeginWait(k, timed) => FreedBegin(s, k, timed);
      case SetTimer(k, inTime) => FreedTask(s, m, k);
      case Suspend(k) => FreedTask(s, m, k);
      case Resume(k) => FreedTask(s, m, k);
      case Fire(e) => FreedTimer(s, m);
      case ReadTask => FreedTimer(s, m);
      case TimeoutProc => FreedTimer(s, m);
      case TimerWake => FreedTimer(s, m);
      case Pop(n) => FreedPop(s, n);
      case RemoveTimer(n) => FreedNotifier(s, m, n);
      case SeeDone(n) => FreedNotifier(s, m, n);
      case Reacquire(n) => FreedNotifier(s, m, n);
      case Release(n) => FreedNotifier(s, m, n);
      case NotifierWake(n) => FreedNotifier(s, m, n);
    }
  }

  // ----- every run

  lemma InvStep(s: State, m: Move)
    requires Inv(s) && Enabled(s, m)
    ensures Inv(Step(s, m))
  {
    FreedStep(s, m);
    hide Base, Freed;
    match m {
      case BeginWait(k, timed) => BeginWaitStep(s, k, timed);
      case SetTimer(k, inTime) => SetTimerStep(s, k, inTime);
      case Suspend(k) => SuspendStep(s, k);
      case Resume(k) => ResumeStep(s, k);
      case Fire(e) => FireStep(s, e);
      case ReadTask => ReadTaskStep(s);
      case TimeoutProc => TimeoutStep(s);
      case TimerWake => TimerWakeStep(s);
      case Pop(n) => PopStep(s, n);
      case RemoveTimer(n) => RemoveTimerStep(s, n);
      case SeeDone(n) => SeeDoneStep(s, n);
      case Reacquire(n) => ReacquireStep(s, n);
      case Release(n) => ReleaseStep(s, n);
      case NotifierWake(n) => NotifierWakeStep(s, n);
    }
  }

  lemma TimeoutStep(s: State)
    requires Base(s) && CanTimeout(s)
    ensures Base(TimeoutTo(s))
  {
    hide Base, TimeoutTo;
    if s.entries[s.timer.entry].status.INIT? {
      TimeoutFirst(s);
    } else {
      TimeoutSecond(s);
    }
  }

  ghost predicate Run(tasks: nat, notifiers: nat, run: seq<State>, moves: seq<Move>) {
    && |run| == |moves| + 1 && run[0] == Initial(tasks, notifiers)
    && forall i :: 0 <= i < |moves| ==> Enabled(run[i], moves[i]) && run[i + 1] == Step(run[i], moves[i])
  }

  lemma {:induction false} RunInv(tasks: nat, notifiers: nat, run: seq<State>, moves: seq<Move>, i: nat)
    requires Run(tasks, notifiers, run, moves) && i < |run|
    ensures Inv(run[i])
  {
    hide Inv, Enabled, Step;
    if i == 0 {
      InitialInv(tasks, notifiers);
    } else {
      RunInv(tasks, notifiers, run, moves, i - 1);
      InvStep(run[i - 1], moves[i - 1]);
    }
  }

  /** Somebody holds a pointer to entry `e` that may still be followed. */
  ghost predicate Referenced(s: State, e: Entry) {
    || e in s.queue || e in s.timers || Calling(s, e)
    || (exists k :: 0 <= k < |s.tasks| && (s.tasks[k] == Pushed(e) || s.tasks[k] == Armed(e)))
    || (exists n :: 0 <= n < |s.notifiers|
          && (s.notifiers[n] == Popped(e) || s.notifiers[n] == Spinning(e) || s.notifiers[n] == Reentering(e)))
  }

  /** No party ever holds a pointer to an entry that has been destroyed. */
  lemma NoDangling(tasks: nat, notifiers: nat, run: seq<State>, moves: seq<Move>, i: nat, e: Entry)
    requires Run(tasks, notifiers, run, moves) && i < |run| && Referenced(run[i], e)
    ensures e in run[i].entries
  {
    RunInv(tasks, notifiers, run, moves, i);
    var s := run[i];
    hide Run;
    if k :| 0 <= k < |s.tasks| && (s.tasks[k] == Pushed(e) || s.tasks[k] == Armed(e)) {
      assert TaskOk(s, k);
    }
  }

  /** Whoever wakes a task finds it suspended on that very entry: no wait is woken twice, and none
      that is not suspended. */
  lemma WakesOnce(tasks: nat, notifiers: nat, run: seq<State>, moves: seq<Move>, i: nat)
    requires Run(tasks, notifiers, run, moves) && i < |moves|
    ensures moves[i].TimerWake? ==> run[i].tasks[run[i].timer.task] == Waiting(run[i].timer.entry)
    ensures moves[i].NotifierWake? ==>
              var n := run[i].notifiers[moves[i].notifier]; run[i].tasks[n.task] == Waiting(n.entry)
  {
    RunInv(tasks, notifiers, run, moves, i);
    assert Enabled(run[i], moves[i]);
  }

  /** A suspended task is in the hands of exactly one party. */
  lemma OneOwner(tasks: nat, notifiers: nat, run: seq<State>, moves: seq<Move>, i: nat, k: Task, e: Entry)
    requires Run(tasks, notifiers, run, moves) && i < |run| && k < |run[i].tasks| && run[i].tasks[k] == Waiting(e)
    ensures var s := run[i];
            && (e in s.queue || TimerWon(s, e) || exists n :: NotifierOn(s, n, e))
            && !(e in s.queue && TimerWon(s, e))
            && (forall n :: NotifierOn(s, n, e) ==> e !in s.queue && !TimerWon(s, e))
            && (forall n, m :: NotifierOn(s, n, e) && NotifierOn(s, m, e) ==> n == m)
  {
    RunInv(tasks, notifiers, run, moves, i);
    assert TaskOk(run[i], k);
  }

  /** A wait returns SUCCESS exactly when a notifier took its entry, and its entry has been freed by then,
      once. */
  lemma CodeTellsWinner(tasks: nat, notifiers: nat, run: seq<State>, moves: seq<Move>, i: nat, e: Entry)
    requires Run(tasks, notifiers, run, moves) && i < |run| && e in run[i].returned
    ensures run[i].returned[e].SUCCESS? <==> e in run[i].popped
    ensures e !in run[i].entries && run[i].deleted[e] == 1
  {
    RunInv(tasks, notifiers, run, moves, i);
    var s := run[i];
    assert forall f :: f in s.entries ==> TaskOn(s, s.entries[f].task, f);
  }

  /** When the timer thread and all notifiers are idle, every suspended task is still queued, and its
      time limit, if it has one, is still set. */
  lemma NobodyForgotten(tasks: nat, notifiers: nat, run: seq<State>, moves: seq<Move>, i: nat, k: Task, e: Entry)
    requires Run(tasks, notifiers, run, moves) && i < |run| && k < |run[i].tasks| && run[i].tasks[k] == Waiting(e)
    requires run[i].timer.TimerIdle? && forall n :: 0 <= n < |run[i].notifiers| ==> run[i].notifiers[n].NotifierIdle?
    ensures e in run[i].queue && e in run[i].entries && (run[i].entries[e].timed ==> e in run[i].timers)
  {
    RunInv(tasks, notifiers, run, moves, i);
    var s := run[i];
    assert TaskOk(s, k);
    assert forall n :: !NotifierOn(s, n, e);
  }
}
