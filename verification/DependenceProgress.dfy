/** When the tasks of the dependence manager can go on, and when they never will.

    A task can go on if it has been handed to the scheduler, is not done and is not suspended in a wait for
    data or for its children. Tasks that wait for each other in a circle are at a standstill, and stay there
    whatever happens; and if no task can go on although some are not done, it is because of such a standstill. */
module DependenceProgress {
  import opened Wrappers
  import opened AccessOrder
  import opened VersionList
  import opened Dependence
  import opened DependenceInv
  import opened DependenceCounts
  import opened DependenceSteps
  import opened DependenceOrder
  import opened DependenceRun
  import opened TaskOrder
  import opened DependenceSafety
  import opened DependenceTheorems
  import opened DependenceWaits
  import opened DependenceWaitSteps
  import opened DependencePatience
  import opened DependenceManager

  // ----- what a sleeping task sleeps for

  /** No wake is lost: a task with a wait reference is entered in an unproduced version, and the producer
      of that version is another task, which is not done and will wake it. */
  lemma NoneLost(s: State, h: Shadow, g: History, rs: set<WaitRecord>, u: Task) returns (c: Address, w: Task)
    requires Sound(s, h, g) && WaitsOk(s, h, h.done, rs) && u < |s.tasks| && s.tasks[u].waitDep != 0
    ensures EnteredFor(s, c, u, w) && s.versions[c].status.IDLE? && c !in s.versionTrashcan
    ensures w != u && w < |s.tasks| && w !in h.done && u in s.released && u !in h.done
    ensures var p := Pending(h, s.versions[c].signature); Does(p, w, true) && BeforeOwn(p, w, u)
  {
    hide Sound, Honoured, NextWrite, Does;
    SoundCore(s, h, g);
    c := EntryOf(s, u);
    assert Entry(s, h, c, u);
    w := s.versions[c].myProducer.value;
    hide Entries;
    ProducerDoes(s, h, c, {});
    WriterPending(s, h, s.versions[c].signature, w);
  }

  lemma EntryOf(s: State, u: Task) returns (c: Address)
    requires Tallied(s) && u < |s.tasks| && s.tasks[u].waitDep != 0
    ensures c in s.versions && u in s.versions[c].dataWaitTaskByThis
  {
    if forall a :: a in s.versions ==> u !in s.versions[a].dataWaitTaskByThis {
      TallyZero(s.versions, u);
      assert false;
    }
    c :| c in s.versions && u in s.versions[c].dataWaitTaskByThis;
  }

  /** What the entries of all versions say, as records. */
  ghost function EntryRecords(s: State): set<WaitRecord> {
    set c, u | c in s.versions && u in s.versions[c].dataWaitTaskByThis && s.versions[c].myProducer.Some? ::
      WaitRecord(u, s.versions[c].signature, {s.versions[c].myProducer.value})
  }

  lemma EntriesHonoured(s: State, h: Shadow, rs: set<WaitRecord>)
    requires Core(s, h, {}, {}) && WaitsOk(s, h, h.done, rs)
    ensures WaitsOk(s, h, h.done, rs + EntryRecords(s))
  {
    hide Core, Does, NextFree, Tallied;
    forall r | r in EntryRecords(s) ensures Honoured(s, h, h.done, r) {
      var c, u :| c in s.versions && u in s.versions[c].dataWaitTaskByThis && s.versions[c].myProducer.Some?
        && r == WaitRecord(u, s.versions[c].signature, {s.versions[c].myProducer.value});
      assert Entry(s, h, c, u);
      ProducerDoes(s, h, c, {});
      assert HonouredBy(s, h, h.done, r, c);
    }
  }

  // ----- who waits for whom

  /** A state of the manager: `sleeping` are the tasks suspended in a wait for data, `records` what they,
      and others before them, have waited for, and `joining` the tasks suspended in a wait for their children. */
  datatype Scene = Scene(s: State, h: Shadow, parents: seq<Option<Task>>, sleeping: set<Task>,
                         records: set<WaitRecord>, joining: set<Task>)

  ghost predicate Awake(x: Scene, t: Task) {
    Active(x.s, x.h, t) && t !in x.sleeping && t !in x.joining
  }

  /** The access of `w` comes before that of `u` and conflicts with it. */
  ghost predicate Precedes(p: seq<Access>, w: Task, u: Task) {
    exists j, k :: 0 <= j < k < |p| && p[j].task == w && p[k].task == u && Conflict(p[j], p[k])
  }

  /** `u` has not been released and `w` has an earlier conflicting access. */
  ghost predicate HeldBy(x: Scene, u: Task, w: Task) {
    u !in x.s.released && exists d :: Precedes(Pending(x.h, d), w, u)
  }

  /** `u` sleeps until `w`, among others, is done. */
  ghost predicate SleepsFor(x: Scene, u: Task, w: Task) {
    u in x.sleeping && exists r :: r in x.records && r.task == u && w in r.writers
  }

  /** `u` waits for its children, and `w` is one of them. */
  ghost predicate Joins(x: Scene, u: Task, w: Task) {
    u in x.joining && w < |x.parents| && x.parents[w] == Some(u)
  }

  ghost predicate WaitsFor(x: Scene, u: Task, w: Task) {
    HeldBy(x, u, w) || SleepsFor(x, u, w) || Joins(x, u, w)
  }

  ghost function Unfinished(x: Scene): set<Task> {
    set u | 0 <= u < |x.s.tasks| && u !in x.h.done
  }

  /** Some task of `c` is waited for. */
  ghost predicate Stuck(x: Scene, c: set<Task>, u: Task) {
    exists w :: w in c && WaitsFor(x, u, w)
  }

  /** A set of unfinished tasks each of which waits for one of the set. */
  ghost predicate Standstill(x: Scene, c: set<Task>) {
    c != {} && c <= Unfinished(x) && forall u :: u in c ==> Stuck(x, c, u)
  }

  /** What holds of a scene between the operations of the manager. */
  ghost predicate Proper(x: Scene, g: History) {
    && Sound(x.s, x.h, g) && WaitsOk(x.s, x.h, x.h.done, x.records)
    && (forall u :: u in x.sleeping ==> u < |x.s.tasks| && x.s.tasks[u].waitDep > 0)
    && x.parents == g.parents && forall u :: u in x.joining ==> ChildrenLeft(x.parents, x.h.done, u) != {}
  }

  ghost predicate NoSurplus(h: Shadow) {
    forall u :: 0 <= u < |h.surplus| ==> h.surplus[u] == 0
  }

  /** The scene with the entries of all versions among the records. */
  ghost function Noted(x: Scene): Scene {
    x.(records := x.records + EntryRecords(x.s))
  }

  lemma NotedProper(x: Scene, g: History)
    requires Proper(x, g)
    ensures Proper(Noted(x), g)
  {
    hide Sound, WaitsOk, EntryRecords;
    SoundCore(x.s, x.h, g);
    EntriesHonoured(x.s, x.h, x.records);
  }

  /** A task that cannot go on waits for an unfinished task. */
  lemma WaitsForSomebody(x: Scene, g: History, u: Task) returns (w: Task)
    requires Proper(x, g) && NoSurplus(x.h) && u in Unfinished(x) && !Awake(x, u)
    ensures w in Unfinished(x) && WaitsFor(Noted(x), u, w)
  {
    hide WaitsOk, Blocked, Precedes;
    if u in x.joining {
      hide Sound;
      LengthOfParents(x.s, x.h, g);
      w :| w in ChildrenLeft(x.parents, x.h.done, u);
      assert Joins(Noted(x), u, w);
    } else if u in x.s.released {
      hide Sound;
      var c;
      c, w := NoneLost(x.s, x.h, g, x.records, u);
      var r := WaitRecord(u, x.s.versions[c].signature, {w});
      assert r in Noted(x).records;
      assert SleepsFor(Noted(x), u, w);
    } else {
      var d;
      d, w := HeldBySomebody(x.s, x.h, g, u);
      assert HeldBy(Noted(x), u, w);
    }
  }

  lemma HeldBySomebody(s: State, h: Shadow, g: History, u: Task) returns (d: Signature, w: Task)
    requires Sound(s, h, g) && NoSurplus(h) && u < |s.tasks| && u !in s.released
    ensures Precedes(Pending(h, d), w, u) && w < |s.tasks| && w !in h.done
  {
    hide Core, AllExclusive, AllSorted, Blocked, Precedes;
    SurplusLength(s, h);
    WaitingMeansBlocked(s, h, u);
    d :| d in h.pend && Blocked(h.pend[d], u);
    w := FirstBlocker(s, h, d, u);
  }

  lemma SurplusLength(s: State, h: Shadow)
    requires Core(s, h, {}, {})
    ensures |h.surplus| == |s.tasks|
  {
    hide Structure, Accesses, Holdings, Trash;
  }

  lemma FirstBlocker(s: State, h: Shadow, d: Signature, u: Task) returns (w: Task)
    requires Core(s, h, {}, {}) && d in h.pend && Blocked(h.pend[d], u)
    ensures Precedes(Pending(h, d), w, u) && w < |s.tasks| && w !in h.done
  {
    hide Structure, Counts, Holdings, Trash, NoDup, Free, Versions;
    var p := h.pend[d];
    var j, k :| 0 <= j < k < |p| && p[k].task == u && Conflict(p[j], p[k]);
    w := p[j].task;
  }

  /** If nobody can go on although not everything is done, all that is not done is at a standstill. */
  lemma NobodyAwake(x: Scene, g: History)
    requires Proper(x, g) && NoSurplus(x.h) && Unfinished(x) != {} && forall t :: !Awake(x, t)
    ensures Proper(Noted(x), g) && Standstill(Noted(x), Unfinished(x))
  {
    NotedProper(x, g);
    hide Proper, WaitsFor, Awake, EntryRecords;
    forall u | u in Unfinished(x) ensures Stuck(Noted(x), Unfinished(x), u) {
      var w := WaitsForSomebody(x, g, u);
    }
  }

  /** None of the tasks of a standstill can go on, or be finished. */
  lemma NoneMoves(x: Scene, g: History, c: set<Task>, u: Task)
    requires Proper(x, g) && Standstill(x, c) && u in c
    ensures !Awake(x, u)
    ensures u !in x.s.released || x.s.tasks[u].waitDep > 0 || u in x.joining
  {
    hide Proper, SleepsFor, Precedes, Standstill;
    var w := StuckBehind(x, c, u);
    if SleepsFor(x, u, w) {
      SleeperWaits(x, g, u, w);
    }
  }

  lemma StuckBehind(x: Scene, c: set<Task>, u: Task) returns (w: Task)
    requires Standstill(x, c) && u in c
    ensures w in c && WaitsFor(x, u, w) && u in Unfinished(x) && w in Unfinished(x)
  {
    hide WaitsFor;
    assert Stuck(x, c, u);
    w :| w in c && WaitsFor(x, u, w);
  }

  lemma SleeperWaits(x: Scene, g: History, u: Task, w: Task)
    requires Proper(x, g) && SleepsFor(x, u, w) && u in Unfinished(x) && w in Unfinished(x)
    ensures x.s.tasks[u].waitDep > 0 && u in x.sleeping
  {
    hide Sound, WaitsOk, ChildrenLeft;
    var r :| r in x.records && r.task == u && w in r.writers;
    StillWaits(x.s, x.h, x.records, r, w);
  }

  lemma StillWaits(s: State, h: Shadow, rs: set<WaitRecord>, r: WaitRecord, w: Task)
    requires WaitsOk(s, h, h.done, rs) && r in rs && w in r.writers && w !in h.done && r.task < |s.tasks|
    ensures s.tasks[r.task].waitDep > 0
  {
    hide WaitsOk;
    if s.tasks[r.task].waitDep <= 0 {
      WaitIsOver(s, h, h.done, rs, r);
    }
  }

  // ----- a standstill is for ever

  lemma PrecedesInsert(p: seq<Access>, k: nat, x: Access, w: Task, u: Task)
    requires k <= |p| && Precedes(p, w, u)
    ensures Precedes(Insert(p, k, x), w, u)
  {
    var q := Insert(p, k, x);
    var i, j :| 0 <= i < j < |p| && p[i].task == w && p[j].task == u && Conflict(p[i], p[j]);
    var i', j' := if i < k then i else i + 1, if j < k then j else j + 1;
    assert q[i'] == p[i] && q[j'] == p[j];
  }

  lemma PrecedesOrdered(p: seq<Access>, parent: Option<Task>, t: Task, write: bool, read: bool, w: Task, u: Task)
    requires Precedes(p, w, u)
    ensures Precedes(Ordered(p, parent, t, write, read), w, u)
  {
    hide Precedes, Place, Insert;
    if write || read {
      var x := Access(t, write);
      var k := PlaceIsInsert(p, parent, x);
      PrecedesInsert(p, k, x, w, u);
    }
  }

  lemma PrecedesWithout(p: seq<Access>, t: Task, w: Task, u: Task)
    requires Precedes(p, w, u) && w != t && u != t
    ensures Precedes(Without(p, t), w, u)
  {
    var q, k := Without(p, t), IndexOf(p, t);
    var i, j :| 0 <= i < j < |p| && p[i].task == w && p[j].task == u && Conflict(p[i], p[j]);
    if k < |p| {
      var i', j' := if i < k then i else i - 1, if j < k then j else j - 1;
      assert q[i'] == p[i] && q[j'] == p[j];
    }
  }

  lemma PrecededBlocked(p: seq<Access>, w: Task, u: Task)
    requires Precedes(p, w, u)
    ensures Blocked(p, u)
  {
  }

  /** What a finishing task does to a scene. */
  ghost predicate FinishedBy(x: Scene, x': Scene, t: Task) {
    && t in x.s.released && t < |x.s.tasks| && x.s.tasks[t].waitDep == 0 && t !in x.joining
    && |x'.s.tasks| == |x.s.tasks| && x'.h.done == x.h.done + {t} && x'.records == x.records
    && (forall d :: Pending(x'.h, d) == Without(Pending(x.h, d), t))
    && ReleasedBy(x.s, x.h, x'.s, x'.h)
    && (forall u :: u in x'.sleeping <==> u in x.sleeping && u < |x'.s.tasks| && x'.s.tasks[u].waitDep > 0)
    && x'.parents == x.parents
    && (forall u :: u in x'.joining <==> u in x.joining && ChildrenLeft(x'.parents, x'.h.done, u) != {})
  }

  /** No task of a standstill is the one that finishes, and another one finishing releases and resumes none
      of them. */
  lemma StandstillFinish(x: Scene, g: History, x': Scene, g': History, c: set<Task>, t: Task)
    requires Proper(x, g) && Standstill(x, c) && Proper(x', g') && FinishedBy(x, x', t)
    ensures t !in c && Standstill(x', c)
  {
    hide Stuck, Proper, FinishedBy;
    NotFinishing(x, g, x', c, t);
    forall u | u in c ensures Stuck(x', c, u) {
      StuckFinish(x, g, x', g', c, t, u);
    }
  }

  lemma NotFinishing(x: Scene, g: History, x': Scene, c: set<Task>, t: Task)
    requires Proper(x, g) && Standstill(x, c) && FinishedBy(x, x', t)
    ensures t !in c && c <= Unfinished(x')
  {
    hide Proper, Stuck, ReleasedBy, Without;
    if t in c {
      NoneMoves(x, g, c, t);
    }
  }

  lemma StuckFinish(x: Scene, g: History, x': Scene, g': History, c: set<Task>, t: Task, u: Task)
    requires Proper(x, g) && Stuck(x, c, u) && Proper(x', g') && FinishedBy(x, x', t) && t !in c && u in c
             && c <= Unfinished(x')
    ensures Stuck(x', c, u)
  {
    hide Sound, WaitsOk, Precedes, Without, DepSet, ReleasedBy;
    var w :| w in c && WaitsFor(x, u, w);
    if HeldBy(x, u, w) {
      var d :| Precedes(Pending(x.h, d), w, u);
      PrecedesWithout(Pending(x.h, d), t, w, u);
      assert Pending(x'.h, d) == Without(Pending(x.h, d), t);
      StillHeld(x.s, x.h, x'.s, x'.h, g', d, w, u);
      assert HeldBy(x', u, w);
    } else if SleepsFor(x, u, w) {
      var r :| r in x.records && r.task == u && w in r.writers;
      StillWaits(x'.s, x'.h, x'.records, r, w);
      assert SleepsFor(x', u, w);
    } else {
      assert w in ChildrenLeft(x'.parents, x'.h.done, u);
      assert Joins(x', u, w);
    }
    assert WaitsFor(x', u, w);
  }

  lemma StillHeld(s: State, h: Shadow, s': State, h': Shadow, g': History, d: Signature, w: Task, u: Task)
    requires Sound(s', h', g') && ReleasedBy(s, h, s', h') && Precedes(Pending(h', d), w, u) && u !in s.released
    ensures u !in s'.released
  {
    hide Structure, Counts, Holdings, Trash, AllExclusive, AllSorted, Accesses, Precedes, DepSet, Blocked;
    PrecededBlocked(Pending(h', d), w, u);
    NothingAwaited(s', h', u);
    assert d in DepSet(h'.pend, u);
  }

  /** What submitting a task does to a scene. */
  ghost predicate SubmittedTo(x: Scene, x': Scene, parent: Option<Task>, ins: seq<Dep>, outs: seq<Dep>,
      handle: Option<Signature>) {
    var t := |x.s.tasks|;
    && |x'.s.tasks| == t + 1 && x'.h.done == x.h.done && x'.sleeping == x.sleeping && x'.records == x.records
    && x'.s.released <= x.s.released + {t} && x'.joining == x.joining && x'.parents == x.parents + [parent]
    && forall d :: Pending(x'.h, d) == Ordered(Pending(x.h, d), parent, t, Writes(outs, handle, d), d in Pointers(ins))
  }

  /** Submitting a task leaves a standstill as it is. */
  lemma StandstillSubmit(x: Scene, x': Scene, c: set<Task>, parent: Option<Task>, ins: seq<Dep>, outs: seq<Dep>,
      handle: Option<Signature>)
    requires Standstill(x, c) && SubmittedTo(x, x', parent, ins, outs, handle)
    ensures Standstill(x', c)
  {
    hide Precedes, Ordered, Writes, Stuck;
    forall u | u in c ensures Stuck(x', c, u) {
      StuckSubmit(x, x', c, parent, ins, outs, handle, u);
    }
  }

  lemma StuckSubmit(x: Scene, x': Scene, c: set<Task>, parent: Option<Task>, ins: seq<Dep>, outs: seq<Dep>,
      handle: Option<Signature>, u: Task)
    requires Stuck(x, c, u) && u < |x.s.tasks| && SubmittedTo(x, x', parent, ins, outs, handle)
    ensures Stuck(x', c, u)
  {
    hide Precedes, Ordered, Writes;
    var w :| w in c && WaitsFor(x, u, w);
    if HeldBy(x, u, w) {
      var d :| Precedes(Pending(x.h, d), w, u);
      PrecedesOrdered(Pending(x.h, d), parent, |x.s.tasks|, Writes(outs, handle, d), d in Pointers(ins), w, u);
      assert Precedes(Pending(x'.h, d), w, u);
      assert HeldBy(x', u, w);
    } else if SleepsFor(x, u, w) {
      assert SleepsFor(x', u, w);
    } else {
      assert Joins(x', u, w);
    }
    assert WaitsFor(x', u, w);
  }

  /** What a wait, for data or for children, does to a scene. */
  ghost predicate WaitedIn(x: Scene, x': Scene) {
    && x'.h == x.h && x'.parents == x.parents && |x'.s.tasks| == |x.s.tasks| && x'.s.released == x.s.released
    && x.sleeping <= x'.sleeping && x.records <= x'.records && x.joining <= x'.joining
  }

  /** So do further waits, and further tasks being suspended. */
  lemma StandstillWait(x: Scene, x': Scene, c: set<Task>)
    requires Standstill(x, c) && WaitedIn(x, x')
    ensures Standstill(x', c)
  {
    hide Stuck;
    forall u | u in c ensures Stuck(x', c, u) {
      StuckWait(x, x', c, u);
    }
  }

  lemma StuckWait(x: Scene, x': Scene, c: set<Task>, u: Task)
    requires Stuck(x, c, u) && WaitedIn(x, x')
    ensures Stuck(x', c, u)
  {
    hide Precedes;
    var w :| w in c && WaitsFor(x, u, w);
    assert HeldBy(x, u, w) ==> HeldBy(x', u, w);
    assert SleepsFor(x, u, w) ==> SleepsFor(x', u, w);
    assert Joins(x, u, w) ==> Joins(x', u, w);
    assert WaitsFor(x', u, w);
  }

  /** One operation of the manager: the end of a task, a submission or a wait. */
  ghost predicate Operated(x: Scene, x': Scene) {
    || (exists t :: FinishedBy(x, x', t))
    || (exists parent, ins, outs, handle :: SubmittedTo(x, x', parent, ins, outs, handle))
    || WaitedIn(x, x')
  }

  ghost predicate Operations(xs: seq<Scene>, gs: seq<History>) {
    && |xs| == |gs| && (forall i :: 0 <= i < |xs| ==> Proper(xs[i], gs[i]))
    && forall i :: 0 < i < |xs| ==> Operated(xs[i - 1], xs[i])
  }

  /** Through any sequence of operations a standstill stays, and none of its tasks can ever go on. */
  lemma {:induction false} StandsForEver(xs: seq<Scene>, gs: seq<History>, c: set<Task>, i: nat)
    requires Operations(xs, gs) && i < |xs| && Standstill(xs[0], c)
    ensures Standstill(xs[i], c) && forall u :: u in c ==> u in Unfinished(xs[i]) && !Awake(xs[i], u)
  {
    hide Proper, Awake, Operated, Standstill;
    if i > 0 {
      StandsForEver(xs, gs, c, i - 1);
      StandstillStep(xs[i - 1], gs[i - 1], xs[i], gs[i], c);
    }
    AllStand(xs[i], gs[i], c);
  }

  lemma AllStand(x: Scene, g: History, c: set<Task>)
    requires Proper(x, g) && Standstill(x, c)
    ensures forall u :: u in c ==> u in Unfinished(x) && !Awake(x, u)
  {
    hide Proper, Awake, Stuck;
    forall u | u in c ensures !Awake(x, u) {
      NoneMoves(x, g, c, u);
    }
  }

  lemma StandstillStep(x: Scene, g: History, x': Scene, g': History, c: set<Task>)
    requires Proper(x, g) && Proper(x', g') && Operated(x, x') && Standstill(x, c)
    ensures Standstill(x', c)
  {
    hide Proper, Standstill, FinishedBy, SubmittedTo, WaitedIn;
    if t :| FinishedBy(x, x', t) {
      StandstillFinish(x, g, x', g', c, t);
    } else if parent, ins, outs, handle :| SubmittedTo(x, x', parent, ins, outs, handle) {
      StandstillSubmit(x, x', c, parent, ins, outs, handle);
    } else {
      StandstillWait(x, x', c);
    }
  }

  // ----- circles

  /** Each task of the sequence waits for the next one, and the last one is the first again. */
  ghost predicate Circle(x: Scene, p: seq<Task>) {
    |p| >= 2 && p[0] == p[|p| - 1] && Walk(x, Unfinished(x), p)
  }

  ghost predicate Walk(x: Scene, c: set<Task>, p: seq<Task>) {
    && (forall i :: 0 <= i < |p| ==> p[i] in c)
    && forall i :: 0 < i < |p| ==> WaitsFor(x, p[i - 1], p[i])
  }

  /** The tasks of a circle are at a standstill. */
  lemma CircleStands(x: Scene, p: seq<Task>)
    requires Circle(x, p)
    ensures Standstill(x, set u | u in p)
  {
    hide WaitsFor;
    var c := set u | u in p;
    assert p[0] in c;
    forall u | u in c ensures Stuck(x, c, u) {
      var i :| 0 <= i < |p| && p[i] == u;
      var j := if i + 1 < |p| then i + 1 else 1;
      assert WaitsFor(x, p[j - 1], p[j]);
      assert p[j - 1] == u && p[j] in c;
    }
  }

  lemma {:induction false} WalkOn(x: Scene, c: set<Task>, n: nat) returns (p: seq<Task>)
    requires Standstill(x, c)
    ensures Walk(x, c, p) && |p| == n + 1
  {
    hide WaitsFor, Stuck;
    if n == 0 {
      var u :| u in c;
      p := [u];
    } else {
      hide Standstill, Walk;
      var q := WalkOn(x, c, n - 1);
      WalkWithin(x, c, q);
      var w := StuckBehind(x, c, q[n - 1]);
      p := q + [w];
      WalkMore(x, c, q, w);
    }
  }

  lemma WalkWithin(x: Scene, c: set<Task>, q: seq<Task>)
    requires Walk(x, c, q) && q != []
    ensures q[|q| - 1] in c
  {
    hide WaitsFor;
  }

  lemma WalkMore(x: Scene, c: set<Task>, q: seq<Task>, w: Task)
    requires Walk(x, c, q) && q != [] && w in c && WaitsFor(x, q[|q| - 1], w)
    ensures Walk(x, c, q + [w])
  {
    hide WaitsFor;
    var p := q + [w];
    forall i | 0 < i < |p| ensures WaitsFor(x, p[i - 1], p[i]) {
      if i < |q| {
        assert WaitsFor(x, q[i - 1], q[i]);
      }
    }
  }

  /** In a long enough sequence some element comes twice. */
  lemma {:induction false} Twice(p: seq<Task>, c: set<Task>) returns (i: nat, j: nat)
    requires (forall k :: 0 <= k < |p| ==> p[k] in c) && |p| > |c|
    ensures i < j < |p| && p[i] == p[j]
  {
    var n := |p| - 1;
    if k :| 0 <= k < n && p[k] == p[n] {
      i, j := k, n;
    } else {
      i, j := Twice(p[..n], c - {p[n]});
    }
  }

  /** There is a circle in every standstill. */
  lemma CircleIn(x: Scene, c: set<Task>) returns (p: seq<Task>)
    requires Standstill(x, c)
    ensures Circle(x, p) && Walk(x, c, p)
  {
    hide WaitsFor, Stuck;
    var q := WalkOn(x, c, |c|);
    var i, j := Twice(q, c);
    p := q[i..j + 1];
    forall k | 0 < k < |p| ensures WaitsFor(x, p[k - 1], p[k]) {
      assert WaitsFor(x, q[i + k - 1], q[i + k]);
    }
  }

  /** While no task waits for a reference nobody returns and not everything is done, somebody can go on
      unless there is a circle of tasks that wait for each other. */
  lemma CircleOrProgress(x: Scene, g: History) returns (p: seq<Task>)
    requires Proper(x, g) && NoSurplus(x.h) && Unfinished(x) != {} && forall t :: !Awake(x, t)
    ensures Circle(Noted(x), p)
  {
    hide Proper, Awake, Standstill, Circle;
    NobodyAwake(x, g);
    p := CircleIn(Noted(x), Unfinished(x));
  }

  // ----- a wait that defeats itself

  /** A task that sleeps for a write behind its own pending read of the datum: the write waits for the
      read, and the two are at a standstill. */
  lemma BehindOwnRead(x: Scene, r: WaitRecord, w: Task)
    requires r in x.records && r.task in x.sleeping && w in r.writers && w !in x.s.released
    requires r.task in Unfinished(x) && w in Unfinished(x) && Precedes(Pending(x.h, r.datum), r.task, w)
    ensures Standstill(x, {r.task, w})
  {
    hide Precedes;
    var u := r.task;
    assert SleepsFor(x, u, w) && WaitsFor(x, u, w);
    assert HeldBy(x, w, u) && WaitsFor(x, w, u);
  }

  // ----- runs without circles

  /** While tasks are unfinished, the first of them in the sequential order can go on, provided no task
      waits for a reference nobody returns, every child keeps to the data of its parent, and nobody waits
      for data of a later task. All its children are done. */
  lemma Progress(x: Scene, g: History, t: Task) returns (u: Task)
    requires Proper(x, g) && NoSurplus(x.h) && g.orderly && Patient(x.s, g.order) && t in Unfinished(x)
    ensures u < |x.s.tasks| && Awake(x, u)
    ensures forall c :: 0 <= c < |g.parents| && g.parents[c] == Some(u) ==> c in x.h.done
  {
    hide Quiet, AllExclusive, AllSorted, Rank, WaitsOk;
    var k := FirstReleased(x.s, x.h, g, t);
    u := g.order[k];
    if u in x.sleeping {
      hide Sound;
      var c, w := NoneLost(x.s, x.h, g, x.records, u);
      EarlierDone(g.order, x.h.done, k, w);
    }
    if c :| c in ChildrenLeft(x.parents, x.h.done, u) {
      EarlierDone(g.order, x.h.done, k, c);
    }
    forall c | 0 <= c < |g.parents| && g.parents[c] == Some(u) ensures c in x.h.done {
      EarlierDone(g.order, x.h.done, k, c);
    }
  }

  lemma EarlierDone(order: seq<Task>, done: set<Task>, k: nat, w: Task)
    requires k < |order| && (forall j :: 0 <= j < k ==> order[j] in done) && Rank(order, w) < Rank(order, order[k])
    ensures w in done
  {
  }

  // ----- in the manager

  ghost function SceneOf(m: Manager): Scene
    reads m
  {
    Scene(m.St(), m.shadow, m.parents, m.sleeping, m.records, m.joining)
  }

  lemma ManagerProper(m: Manager)
    requires m.Valid()
    ensures Proper(SceneOf(m), m.Log())
  {
    hide Sound, WaitsOk, Patient, ChildrenLeft;
    forall u | u in m.joining ensures ChildrenLeft(m.parents, m.shadow.done, u) != {} {
      assert m.childRefCnt[u] == |ChildrenLeft(m.parents, m.shadow.done, u)|;
    }
  }

  /** Whatever has been submitted, waited for and finished so far, in whatever order: if no awaited input
      was ever repeated, no child went beyond the data of its parent and nobody waited for data of a later
      task, some task can go on until all are done. */
  lemma RunGoesOn(m: Manager, t: Task) returns (u: Task)
    requires m.Valid() && m.orderly && m.patient && NoSurplus(m.shadow) && t < |m.tasks| && t !in m.shadow.done
    ensures u < |m.tasks| && Awake(SceneOf(m), u)
  {
    ManagerProper(m);
    hide Sound, WaitsOk, Patient, Proper, Awake, ChildrenOk;
    u := Progress(SceneOf(m), m.Log(), t);
  }

  /** In general: some task can go on until all are done, unless there is a circle. The methods below keep the
      tasks of such a circle at a standstill. */
  lemma RunGoesOnOrCircle(m: Manager) returns (p: seq<Task>)
    requires m.Valid() && NoSurplus(m.shadow) && Unfinished(SceneOf(m)) != {}
    requires forall t :: !Awake(SceneOf(m), t)
    ensures Circle(Noted(SceneOf(m)), p) && Standstill(Noted(SceneOf(m)), set u | u in p)
  {
    ManagerProper(m);
    hide Sound, WaitsOk, Patient, Circle, Proper, Awake, ChildrenOk, Standstill;
    p := CircleOrProgress(SceneOf(m), m.Log());
    CircleStands(Noted(SceneOf(m)), p);
  }

  // ----- every operation of the manager leaves a standstill as it is

  /** The entries of all versions are put on record, so that a circle found by way of them can be followed. */
  ghost method Note(m: Manager)
    requires m.Valid()
    modifies m`records
    ensures m.Valid() && SceneOf(m) == old(Noted(SceneOf(m)))
  {
    hide Sound, EntryRecords, Patient, ChildrenOk;
    SoundCore(m.St(), m.shadow, m.Log());
    EntriesHonoured(m.St(), m.shadow, m.records);
    EntriesKnown(m.St(), m.shadow, m.records);
    hide WaitsOk;
    m.records := m.records + EntryRecords(m.St());
  }

  lemma EntriesKnown(s: State, h: Shadow, rs: set<WaitRecord>)
    requires WaitsOk(s, h, h.done, rs)
    ensures forall r :: r in EntryRecords(s) ==> r.task < |s.tasks|
  {
    hide Honoured, NextFree, Tallied;
    forall r | r in EntryRecords(s) ensures r.task < |s.tasks| {
      var c, u :| c in s.versions && u in s.versions[c].dataWaitTaskByThis && s.versions[c].myProducer.Some?
        && r == WaitRecord(u, s.versions[c].signature, {s.versions[c].myProducer.value});
      assert Entry(s, h, c, u);
    }
  }

  method FinishBesides(m: Manager, t: Task, ghost c: set<Task>)
    requires m.Valid() && Standstill(Noted(SceneOf(m)), c)
    requires t in m.released && t !in m.shadow.done && t < |m.tasks| && m.tasks[t].waitDep == 0 && t !in m.joining
    requires forall d :: Mergeable(Pending(m.shadow, d), t)
    modifies m
    ensures m.Valid() && t !in c && Standstill(SceneOf(m), c)
  {
    hide Sound, WaitsOk, Patient, Standstill, Mergeable, Without, ReleasedBy, ChildrenOk, ChildrenLeft, Proper;
    Note(m);
    ghost var x, g := SceneOf(m), m.Log();
    ManagerProper(m);
    m.OnTaskDone(t);
    ManagerProper(m);
    StandstillFinish(x, g, SceneOf(m), m.Log(), c, t);
  }

  method SubmitBesides(m: Manager, parent: Option<Task>, ins: seq<Dep>, outs: seq<Dep>, handle: Option<Signature>,
      ghost c: set<Task>)
    returns (r: Option<Task>)
    requires m.Valid() && Standstill(Noted(SceneOf(m)), c) && Running(m.St(), m.shadow, parent)
    requires handle.Some? ==> handle.value !in Pointers(ins) && handle.value !in Pointers(outs)
    modifies m
    ensures m.Valid() && Standstill(SceneOf(m), c)
  {
    hide Sound, WaitsOk, Patient, Standstill, Running, Ordered, Writes, WaitsForNothing, NoAwaitedRepeat, Within,
      Enlist, ChildrenOk;
    Note(m);
    ghost var x := SceneOf(m);
    r := m.OnSubmit(parent, ins, outs, handle);
    if r.Some? {
      StandstillSubmit(x, SceneOf(m), c, parent, ins, outs, handle);
    }
  }

  method WaitBesides(m: Manager, t: Task, deps: seq<Signature>, ghost c: set<Task>) returns (asleep: bool)
    requires m.Valid() && Standstill(Noted(SceneOf(m)), c) && t in m.released && t !in m.shadow.done && t < |m.tasks|
             && m.tasks[t].waitDep == 0
    modifies m
    ensures m.Valid() && Standstill(SceneOf(m), c)
  {
    hide Sound, WaitsOk, Patient, Standstill, RecordsOf, NoWriterLeft, WaitsEarlier, ChildrenOk;
    Note(m);
    ghost var x := SceneOf(m);
    m.OnWait(t, deps);
    asleep := m.Suspend(t);
    StandstillWait(x, SceneOf(m), c);
  }

  method JoinBesides(m: Manager, t: Task, ghost c: set<Task>) returns (suspended: bool)
    requires m.Valid() && Standstill(Noted(SceneOf(m)), c) && t in m.released && t !in m.shadow.done && t < |m.tasks|
    modifies m
    ensures m.Valid() && Standstill(SceneOf(m), c)
  {
    hide Sound, WaitsOk, Patient, Standstill, ChildrenOk, ChildrenLeft;
    Note(m);
    ghost var x := SceneOf(m);
    suspended := m.OnWaitChildren(t);
    StandstillWait(x, SceneOf(m), c);
  }
}
