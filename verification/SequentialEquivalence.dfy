/** Any schedule of non-nested tasks that runs a task only after it has been handed to the
    scheduler leaves the data as the tasks would when run one after the other in submission
    order. */
module SequentialEquivalence {
  import opened Wrappers
  import opened AccessOrder
  import opened VersionList
  import opened Dependence
  import opened DependenceInv
  import opened DependenceOrder
  import opened TaskOrder
  import opened DependenceSafety
  import opened DependenceCounts
  import opened DependenceRun
  import opened DependenceTheorems
  import opened DependenceWaits
  import opened DependenceManager

  type Store = map<Signature, int>

  function Get(s: Store, d: Signature): int {
    if d in s then s[d] else 0
  }

  datatype Op = Read(datum: Signature) | Write(datum: Signature, value: int) | Halt

  /** What a task does next, given everything it has read and written so far. */
  type Body = seq<int> -> Op

  datatype Spec = Spec(ins: seq<Dep>, outs: seq<Dep>, body: Body)

  predicate WritesTo(p: Spec, d: Signature) {
    Writes(p.outs, None, d)
  }

  predicate Uses(p: Spec, d: Signature) {
    WritesTo(p, d) || d in Pointers(p.ins)
  }

  /** A task touches only what it has declared. */
  ghost predicate Honest(p: Spec) {
    forall t: seq<int> :: match p.body(t)
      case Read(d) => Uses(p, d)
      case Write(d, _) => WritesTo(p, d)
      case Halt => true
  }

  // ----- a task by itself

  /** The trace of a task and the data, after some of its operations. */
  datatype Config = Config(trace: seq<int>, store: Store)

  function Step(b: Body, c: Config): Config {
    match b(c.trace)
    case Read(d) => Config(c.trace + [Get(c.store, d)], c.store)
    case Write(d, v) => Config(c.trace + [v], c.store[d := v])
    case Halt => c
  }

  function Exec(b: Body, s: Store, n: nat): Config {
    if n == 0 then Config([], s) else Step(b, Exec(b, s, n - 1))
  }

  ghost predicate Halted(b: Body, s: Store, n: nat) {
    b(Exec(b, s, n).trace).Halt?
  }

  lemma {:induction false} HaltedStays(b: Body, s: Store, n: nat, k: nat)
    requires Halted(b, s, n) && n <= k
    ensures Exec(b, s, k) == Exec(b, s, n)
    decreases k
  {
    if n < k {
      HaltedStays(b, s, n, k - 1);
    }
  }

  // ----- tasks one after the other

  /** The data after the first `k` tasks have made the given numbers of operations, each task
      finishing its operations before the next one begins. */
  function InTurn(ps: seq<Spec>, steps: seq<nat>, s: Store, k: nat): Store
    requires k <= |ps| == |steps|
  {
    if k == 0 then s else Exec(ps[k - 1].body, InTurn(ps, steps, s, k - 1), steps[k - 1]).store
  }

  /** `r` is the outcome of running the tasks to completion one after the other. */
  ghost predicate Sequential(ps: seq<Spec>, s: Store, r: Store) {
    exists steps: seq<nat> :: |steps| == |ps| && AllHalted(ps, steps, s, |ps|) && r == InTurn(ps, steps, s, |ps|)
  }

  ghost predicate AllHalted(ps: seq<Spec>, steps: seq<nat>, s: Store, k: nat)
    requires k <= |ps| == |steps|
  {
    forall i :: 0 <= i < k ==> Halted(ps[i].body, InTurn(ps, steps, s, i), steps[i])
  }

  /** There is only one sequential outcome. */
  lemma {:induction false} InTurnUnique(ps: seq<Spec>, a: seq<nat>, b: seq<nat>, s: Store, k: nat)
    requires k <= |ps| == |a| == |b| && AllHalted(ps, a, s, k) && AllHalted(ps, b, s, k)
    ensures InTurn(ps, a, s, k) == InTurn(ps, b, s, k)
  {
    if k > 0 {
      InTurnUnique(ps, a, b, s, k - 1);
      var w := InTurn(ps, a, s, k - 1);
      if a[k - 1] <= b[k - 1] {
        HaltedStays(ps[k - 1].body, w, a[k - 1], b[k - 1]);
      } else {
        HaltedStays(ps[k - 1].body, w, b[k - 1], a[k - 1]);
      }
    }
  }

  lemma SequentialUnique(ps: seq<Spec>, s: Store, r: Store, r': Store)
    requires Sequential(ps, s, r) && Sequential(ps, s, r')
    ensures r == r'
  {
    var a: seq<nat> :| |a| == |ps| && AllHalted(ps, a, s, |ps|) && r == InTurn(ps, a, s, |ps|);
    var b: seq<nat> :| |b| == |ps| && AllHalted(ps, b, s, |ps|) && r' == InTurn(ps, b, s, |ps|);
    InTurnUnique(ps, a, b, s, |ps|);
  }

  // ----- a task does not notice data it does not use

  lemma {:induction false} Unnoticed(p: Spec, s: Store, d: Signature, v: int, n: nat)
    requires Honest(p) && (n > 0 ==> !Uses(p, d))
    ensures Exec(p.body, s[d := v], n) == Config(Exec(p.body, s, n).trace, Exec(p.body, s, n).store[d := v])
  {
    if n > 0 {
      Unnoticed(p, s, d, v, n - 1);
      var c := Exec(p.body, s, n - 1);
      match p.body(c.trace) {
        case Read(e) =>
        case Write(e, w) =>
          assert c.store[d := v][e := w] == c.store[e := w][d := v];
        case Halt =>
      }
    }
  }

  /** A task leaves data it does not write as they were. */
  lemma {:induction false} Untouched(p: Spec, s: Store, d: Signature, n: nat)
    requires Honest(p) && (n > 0 ==> !WritesTo(p, d))
    ensures Get(Exec(p.body, s, n).store, d) == Get(s, d)
  {
    if n > 0 {
      Untouched(p, s, d, n - 1);
    }
  }

  /** Later tasks that have begun do not use `d`: a change of `d` passes through them. */
  lemma {:induction false} PassesThrough(ps: seq<Spec>, a: seq<nat>, b: seq<nat>, s: Store, i: nat, k: nat,
      d: Signature, v: int)
    requires i < k <= |ps| == |a| == |b| && (forall j :: 0 <= j < |ps| ==> Honest(ps[j]))
    requires forall j :: 0 <= j < |ps| && j != i ==> a[j] == b[j]
    requires InTurn(ps, b, s, i + 1) == InTurn(ps, a, s, i + 1)[d := v]
    requires forall j :: i < j < k && a[j] > 0 ==> !Uses(ps[j], d)
    ensures InTurn(ps, b, s, k) == InTurn(ps, a, s, k)[d := v]
    ensures forall j :: i < j < k
              ==> Exec(ps[j].body, InTurn(ps, b, s, j), b[j]).trace == Exec(ps[j].body, InTurn(ps, a, s, j), a[j]).trace
  {
    hide Exec, Uses, Honest, InTurn;
    if i + 1 < k {
      PassesThrough(ps, a, b, s, i, k - 1, d, v);
      Unnoticed(ps[k - 1], InTurn(ps, a, s, k - 1), d, v, a[k - 1]);
      InTurnLast(ps, a, s, k);
      InTurnLast(ps, b, s, k);
    }
  }

  lemma InTurnLast(ps: seq<Spec>, steps: seq<nat>, s: Store, k: nat)
    requires 0 < k <= |ps| == |steps|
    ensures InTurn(ps, steps, s, k) == Exec(ps[k - 1].body, InTurn(ps, steps, s, k - 1), steps[k - 1]).store
  {
  }

  lemma {:induction false} InTurnSame(ps: seq<Spec>, a: seq<nat>, b: seq<nat>, s: Store, k: nat)
    requires k <= |ps| == |a| == |b| && forall j :: 0 <= j < k ==> a[j] == b[j]
    ensures InTurn(ps, a, s, k) == InTurn(ps, b, s, k)
  {
    if k > 0 {
      InTurnSame(ps, a, b, s, k - 1);
    }
  }

  lemma {:induction false} InTurnGrow(ps: seq<Spec>, steps: seq<nat>, s: Store, k: nat, p: Spec)
    requires k <= |ps| == |steps|
    ensures InTurn(ps + [p], steps + [0], s, k) == InTurn(ps, steps, s, k)
  {
    if k > 0 {
      InTurnGrow(ps, steps, s, k - 1, p);
    }
  }

  /** What task `i` finds in a datum it uses is what it would find if it ran in turn: no later task
      that has begun writes the datum. */
  lemma {:induction false} FoundInTurn(ps: seq<Spec>, steps: seq<nat>, s: Store, i: nat, k: nat, d: Signature)
    requires i < k <= |ps| == |steps| && (forall j :: 0 <= j < |ps| ==> Honest(ps[j]))
    requires forall j :: i < j < k && steps[j] > 0 ==> !WritesTo(ps[j], d)
    ensures Get(InTurn(ps, steps, s, k), d) == Get(InTurn(ps, steps, s, i + 1), d)
  {
    if i + 1 < k {
      FoundInTurn(ps, steps, s, i, k - 1, d);
      Untouched(ps[k - 1], InTurn(ps, steps, s, k - 1), d, steps[k - 1]);
    }
  }

  // ----- the interleaved run

  /** The traces and the data of the interleaved run are those of the tasks run in turn. */
  ghost predicate AsInTurn(ps: seq<Spec>, steps: seq<nat>, s0: Store, traces: seq<seq<int>>, s: Store) {
    && |ps| == |steps| == |traces|
    && s == InTurn(ps, steps, s0, |ps|)
    && forall i :: 0 <= i < |ps| ==> traces[i] == Exec(ps[i].body, InTurn(ps, steps, s0, i), steps[i]).trace
  }

  ghost predicate Clash(p: Spec, q: Spec, d: Signature) {
    Uses(p, d) && Uses(q, d) && (WritesTo(p, d) || WritesTo(q, d))
  }

  /** A task that has begun found every earlier task it clashes with done. */
  ghost predicate BegunAfter(ps: seq<Spec>, begun: set<Task>, done: set<Task>) {
    forall i, j, d :: 0 <= i < j < |ps| && j in begun && Clash(ps[i], ps[j], d) ==> i in done
  }

  /** Task `i` makes one more operation, and the others are as before. */
  ghost predicate Advanced(ps: seq<Spec>, steps: seq<nat>, steps': seq<nat>, s0: Store, i: nat)
    requires i < |ps| == |steps| == |steps'|
  {
    && steps' == steps[i := steps[i] + 1]
    && (forall j :: 0 <= j <= i ==> InTurn(ps, steps', s0, j) == InTurn(ps, steps, s0, j))
    && Exec(ps[i].body, InTurn(ps, steps', s0, i), steps'[i]) == Step(ps[i].body,
      Exec(ps[i].body, InTurn(ps, steps, s0, i), steps[i]))
  }

  lemma Advance(ps: seq<Spec>, steps: seq<nat>, s0: Store, i: nat)
    requires i < |ps| == |steps|
    ensures Advanced(ps, steps, steps[i := steps[i] + 1], s0, i)
  {
    hide Step;
    var steps' := steps[i := steps[i] + 1];
    forall j | 0 <= j <= i ensures InTurn(ps, steps', s0, j) == InTurn(ps, steps, s0, j) {
      InTurnSame(ps, steps', steps, s0, j);
    }
    hide InTurn;
    assert steps'[i] == steps[i] + 1;
  }

  /** An operation that leaves the data alone. */
  lemma QuietInTurn(ps: seq<Spec>, steps: seq<nat>, steps': seq<nat>, s0: Store, traces: seq<seq<int>>, s: Store,
      i: nat)
    requires AsInTurn(ps, steps, s0, traces, s) && i < |ps| == |steps'| && Advanced(ps, steps, steps', s0, i)
    requires var c := Exec(ps[i].body, InTurn(ps, steps, s0, i), steps[i]); Step(ps[i].body, c).store == c.store
    ensures var c := Exec(ps[i].body, InTurn(ps, steps, s0, i), steps[i]);
            AsInTurn(ps, steps', s0, traces[i := Step(ps[i].body, c).trace], s)
  {
    hide Exec, Step;
    assert InTurn(ps, steps', s0, i + 1) == InTurn(ps, steps, s0, i + 1);
    SameStore(ps, steps, steps', s0, i);
  }

  /** A write: no later task that has begun uses the datum. */
  lemma WriteInTurn(ps: seq<Spec>, steps: seq<nat>, steps': seq<nat>, s0: Store, traces: seq<seq<int>>, s: Store,
      i: nat, d: Signature, v: int)
    requires AsInTurn(ps, steps, s0, traces, s) && i < |ps| == |steps'| && Advanced(ps, steps, steps', s0, i)
    requires forall j :: 0 <= j < |ps| ==> Honest(ps[j])
    requires forall j :: i < j < |ps| && steps[j] > 0 ==> !Uses(ps[j], d)
    requires var c := Exec(ps[i].body, InTurn(ps, steps, s0, i), steps[i]);
             Step(ps[i].body, c) == Config(c.trace + [v], c.store[d := v])
    ensures AsInTurn(ps, steps', s0, traces[i := traces[i] + [v]], s[d := v])
  {
    hide Exec, Step, Uses, Honest;
    assert InTurn(ps, steps', s0, i + 1) == InTurn(ps, steps, s0, i + 1)[d := v];
    PassesThrough(ps, steps, steps', s0, i, |ps|, d, v);
  }

  /** One operation of an unfinished task keeps the run equal to one in turn. */
  lemma StepInTurn(ps: seq<Spec>, steps: seq<nat>, s0: Store, traces: seq<seq<int>>, s: Store, begun: set<Task>,
      done: set<Task>, i: nat)
    requires AsInTurn(ps, steps, s0, traces, s) && i < |ps| && i !in done && BegunAfter(ps, begun, done)
    requires (forall j :: 0 <= j < |ps| ==> Honest(ps[j])) && (forall j :: 0 <= j < |ps| && steps[j] > 0 ==> j in begun)
    ensures var c := Step(ps[i].body, Config(traces[i], s));
            AsInTurn(ps, steps[i := steps[i] + 1], s0, traces[i := c.trace], c.store)
  {
    hide Exec, InTurn, Uses, WritesTo;
    var b, steps' := ps[i].body, steps[i := steps[i] + 1];
    var c := Exec(b, InTurn(ps, steps, s0, i), steps[i]);
    Advance(ps, steps, s0, i);
    assert Honest(ps[i]);
    match b(traces[i]) {
      case Read(d) =>
        forall j | i < j < |ps| && steps[j] > 0 ensures !WritesTo(ps[j], d) {
          NoWriteLater(ps, begun, done, i, j, d);
        }
        FoundInTurn(ps, steps, s0, i, |ps|, d);
        StoreAfter(ps, steps, s0, i);
        QuietInTurn(ps, steps, steps', s0, traces, s, i);
      case Write(d, v) =>
        forall j | i < j < |ps| && steps[j] > 0 ensures !Uses(ps[j], d) {
          NoUseLater(ps, begun, done, i, j, d);
        }
        WriteInTurn(ps, steps, steps', s0, traces, s, i, d, v);
      case Halt =>
        QuietInTurn(ps, steps, steps', s0, traces, s, i);
    }
  }

  lemma StoreAfter(ps: seq<Spec>, steps: seq<nat>, s0: Store, i: nat)
    requires i < |ps| == |steps|
    ensures InTurn(ps, steps, s0, i + 1) == Exec(ps[i].body, InTurn(ps, steps, s0, i), steps[i]).store
  {
  }

  lemma NoWriteLater(ps: seq<Spec>, begun: set<Task>, done: set<Task>, i: nat, j: nat, d: Signature)
    requires i < j < |ps| && j in begun && i !in done && BegunAfter(ps, begun, done) && Uses(ps[i], d)
    ensures !WritesTo(ps[j], d)
  {
    assert WritesTo(ps[j], d) ==> Clash(ps[i], ps[j], d);
  }

  lemma NoUseLater(ps: seq<Spec>, begun: set<Task>, done: set<Task>, i: nat, j: nat, d: Signature)
    requires i < j < |ps| && j in begun && i !in done && BegunAfter(ps, begun, done) && WritesTo(ps[i], d)
    ensures !Uses(ps[j], d)
  {
    assert Uses(ps[j], d) ==> Clash(ps[i], ps[j], d);
  }

  lemma SameStore(ps: seq<Spec>, a: seq<nat>, b: seq<nat>, s: Store, i: nat)
    requires i < |ps| == |a| == |b| && (forall j :: 0 <= j < |ps| && j != i ==> a[j] == b[j])
    requires InTurn(ps, b, s, i + 1) == InTurn(ps, a, s, i + 1)
    ensures forall j :: i < j <= |ps| ==> InTurn(ps, b, s, j) == InTurn(ps, a, s, j)
  {
    var j := i + 1;
    while j < |ps|
      invariant i < j <= |ps|
      invariant forall k :: i < k <= j ==> InTurn(ps, b, s, k) == InTurn(ps, a, s, k)
    {
      j := j + 1;
    }
  }

  // ----- every read finds the last write

  /** The value task `b` wrote last to `d`, going by the first `k` operations of its trace. */
  function OwnWrite(b: Body, trace: seq<int>, k: nat, d: Signature): Option<int>
    requires k <= |trace|
  {
    if k == 0 then None
    else if b(trace[..k - 1]).Write? && b(trace[..k - 1]).datum == d then Some(b(trace[..k - 1]).value)
    else OwnWrite(b, trace, k - 1, d)
  }

  /** The value written last to `d` by the first `n` tasks in the order of submission, or else what was there. */
  function LastWrite(ps: seq<Spec>, traces: seq<seq<int>>, initial: Store, n: nat, d: Signature): int
    requires n <= |ps| == |traces|
  {
    if n == 0 then if d in initial then initial[d] else 0
    else
      var own := OwnWrite(ps[n - 1].body, traces[n - 1], |traces[n - 1]|, d);
      if own.Some? then own.value else LastWrite(ps, traces, initial, n - 1, d)
  }

  /** What task `i` finds in `d` as its operation number `k`: its own last write, or that of the tasks before. */
  function Visible(ps: seq<Spec>, traces: seq<seq<int>>, initial: Store, i: nat, k: nat, d: Signature): int
    requires i < |ps| == |traces| && k <= |traces[i]|
  {
    var own := OwnWrite(ps[i].body, traces[i], k, d);
    if own.Some? then own.value else LastWrite(ps, traces, initial, i, d)
  }

  lemma {:induction false} OwnWriteGrown(b: Body, trace: seq<int>, x: int, k: nat, d: Signature)
    requires k <= |trace|
    ensures OwnWrite(b, trace + [x], k, d) == OwnWrite(b, trace, k, d)
  {
    if k > 0 {
      OwnWriteGrown(b, trace, x, k - 1, d);
      assert (trace + [x])[..k - 1] == trace[..k - 1];
    }
  }

  /** A task by itself leaves in `d` what it wrote last, or what it found. */
  lemma {:induction false} ExecWrites(b: Body, s: Store, n: nat, d: Signature)
    ensures var c := Exec(b, s, n);
            var own := OwnWrite(b, c.trace, |c.trace|, d);
            Get(c.store, d) == if own.Some? then own.value else Get(s, d)
  {
    if n > 0 {
      ExecWrites(b, s, n - 1, d);
      var c, c' := Exec(b, s, n - 1), Exec(b, s, n);
      if !b(c.trace).Halt? {
        var x := c'.trace[|c.trace|];
        assert c'.trace == c.trace + [x] && c'.trace[..|c.trace|] == c.trace;
        OwnWriteGrown(b, c.trace, x, |c.trace|, d);
      }
    }
  }

  /** The trace of a task is a trace of the same task as it was before. */
  lemma {:induction false} ExecPrefix(b: Body, s: Store, n: nat, k: nat)
    requires k <= |Exec(b, s, n).trace|
    ensures k <= n && |Exec(b, s, k).trace| == k && Exec(b, s, k).trace == Exec(b, s, n).trace[..k]
    decreases n
  {
    if n > 0 {
      if k <= |Exec(b, s, n - 1).trace| {
        ExecPrefix(b, s, n - 1, k);
      } else {
        ExecSteps(b, s, n - 1);
        assert k == n;
      }
    }
  }

  /** A task that has made fewer operations than steps has come to its end. */
  lemma {:induction false} ExecSteps(b: Body, s: Store, n: nat)
    ensures |Exec(b, s, n).trace| <= n
    ensures |Exec(b, s, n).trace| < n ==> Halted(b, s, n)
  {
    if n > 0 {
      ExecSteps(b, s, n - 1);
    }
  }

  /** In a run in turn the data are what was written last, task by task. */
  lemma {:induction false} InTurnWrites(ps: seq<Spec>, steps: seq<nat>, s0: Store, traces: seq<seq<int>>, k: nat,
      d: Signature)
    requires |ps| == |steps| == |traces| && k <= |ps|
    requires forall i :: 0 <= i < |ps| ==> traces[i] == Exec(ps[i].body, InTurn(ps, steps, s0, i), steps[i]).trace
    ensures Get(InTurn(ps, steps, s0, k), d) == LastWrite(ps, traces, s0, k, d)
  {
    hide Exec, OwnWrite;
    if k > 0 {
      InTurnWrites(ps, steps, s0, traces, k - 1, d);
      ExecWrites(ps[k - 1].body, InTurn(ps, steps, s0, k - 1), steps[k - 1], d);
    }
  }

  /** Operation number `k` of a trace is what the task asked for: a write of the value it names, or a read
      that finds the last write before it in the sequential order. */
  ghost predicate Explained(ps: seq<Spec>, traces: seq<seq<int>>, initial: Store, i: nat, k: nat)
    requires i < |ps| == |traces| && k < |traces[i]|
  {
    match ps[i].body(traces[i][..k])
    case Read(d) => traces[i][k] == Visible(ps, traces, initial, i, k, d)
    case Write(_, v) => traces[i][k] == v
    case Halt => false
  }

  lemma ReadsExplained(ps: seq<Spec>, steps: seq<nat>, s0: Store, traces: seq<seq<int>>, s: Store, i: nat, k: nat)
    requires AsInTurn(ps, steps, s0, traces, s) && i < |ps| && k < |traces[i]|
    ensures Explained(ps, traces, s0, i, k)
  {
    hide Exec, LastWrite, InTurn;
    var b, w := ps[i].body, InTurn(ps, steps, s0, i);
    ExecPrefix(b, w, steps[i], k);
    ExecPrefix(b, w, steps[i], k + 1);
    ExecNext(b, w, k);
    assert traces[i][..k + 1][k] == traces[i][k] && traces[i][..k + 1][..k] == traces[i][..k];
    match b(traces[i][..k]) {
      case Read(d) =>
        ExecWrites(b, w, k, d);
        OwnWriteOf(b, traces[i], k, d);
        InTurnWrites(ps, steps, s0, traces, i, d);
      case Write(_, _) =>
      case Halt =>
    }
  }

  lemma ExecNext(b: Body, s: Store, k: nat)
    ensures Exec(b, s, k + 1) == Step(b, Exec(b, s, k))
  {
  }

  lemma {:induction false} OwnWriteOf(b: Body, trace: seq<int>, k: nat, d: Signature)
    requires k <= |trace|
    ensures OwnWrite(b, trace[..k], k, d) == OwnWrite(b, trace, k, d)
  {
    if k > 0 {
      assert trace[..k] == trace[..k - 1] + [trace[k - 1]];
      OwnWriteGrown(b, trace[..k - 1], trace[k - 1], k - 1, d);
      OwnWriteOf(b, trace, k - 1, d);
      assert trace[..k][..k - 1] == trace[..k - 1];
    }
  }

  // ----- the order of each datum is the submission order

  /** The unfinished accesses of the first `n` tasks to datum `d`, in submission order. */
  function Flat(ps: seq<Spec>, done: set<Task>, d: Signature, n: nat): seq<Access>
    requires n <= |ps|
  {
    if n == 0 then []
    else if n - 1 !in done && Uses(ps[n - 1], d) then Flat(ps, done, d, n - 1) + [Access(n - 1, WritesTo(ps[n - 1], d))]
    else Flat(ps, done, d, n - 1)
  }

  lemma {:induction false} FlatGrow(ps: seq<Spec>, p: Spec, done: set<Task>, d: Signature, n: nat)
    requires n <= |ps|
    ensures Flat(ps + [p], done, d, n) == Flat(ps, done, d, n)
  {
    if n > 0 {
      FlatGrow(ps, p, done, d, n - 1);
    }
  }

  lemma {:induction false} FlatTasks(ps: seq<Spec>, done: set<Task>, d: Signature, n: nat)
    requires n <= |ps|
    ensures forall k :: 0 <= k < |Flat(ps, done, d, n)|
              ==> Flat(ps, done, d, n)[k].task < n && Flat(ps, done, d, n)[k].task !in done
    ensures forall k :: 0 <= k < |Flat(ps, done, d, n)| ==>
              var x := Flat(ps, done, d, n)[k]; Uses(ps[x.task], d) && (x.write <==> WritesTo(ps[x.task], d))
    ensures forall j, k :: 0 <= j < k < |Flat(ps, done, d, n)|
              ==> Flat(ps, done, d, n)[j].task < Flat(ps, done, d, n)[k].task
  {
    hide Uses, WritesTo;
    if n > 0 {
      FlatTasks(ps, done, d, n - 1);
    }
  }

  lemma {:induction false} FlatHas(ps: seq<Spec>, done: set<Task>, d: Signature, n: nat, i: Task)
    requires i < n <= |ps| && i !in done && Uses(ps[i], d)
    ensures Access(i, WritesTo(ps[i], d)) in Flat(ps, done, d, n)
  {
    if i < n - 1 {
      FlatHas(ps, done, d, n - 1, i);
    }
  }

  /** A task that clashes with an earlier unfinished one is blocked. */
  lemma FlatBlocked(ps: seq<Spec>, done: set<Task>, d: Signature, n: nat, i: Task, j: Task)
    requires i < j < n <= |ps| && i !in done && j !in done && Clash(ps[i], ps[j], d)
    ensures Blocked(Flat(ps, done, d, n), j)
  {
    hide Uses, WritesTo, Flat;
    var p := Flat(ps, done, d, n);
    FlatHas(ps, done, d, n, i);
    FlatHas(ps, done, d, n, j);
    FlatTasks(ps, done, d, n);
    var x :| 0 <= x < |p| && p[x] == Access(i, WritesTo(ps[i], d));
    var y :| 0 <= y < |p| && p[y] == Access(j, WritesTo(ps[j], d));
    assert Conflict(p[x], p[y]) && x < y;
  }

  lemma {:induction false} FlatDone(ps: seq<Spec>, done: set<Task>, d: Signature, n: nat, t: Task)
    requires n <= |ps| && t !in done
    ensures Flat(ps, done + {t}, d, n) == Without(Flat(ps, done, d, n), t)
  {
    hide Uses, WritesTo, Without, IndexOf;
    if n == 0 {
      NoneLeft([], t);
    } else {
      FlatDone(ps, done, d, n - 1, t);
      FlatTasks(ps, done, d, n - 1);
      var q := Flat(ps, done, d, n - 1);
      if n - 1 !in done && Uses(ps[n - 1], d) {
        WithoutLast(q, Access(n - 1, WritesTo(ps[n - 1], d)), t);
        if t == n - 1 {
          NoneLeft(q, t);
        }
      }
    }
  }

  lemma NoneLeft(q: seq<Access>, t: Task)
    requires forall k :: 0 <= k < |q| ==> q[k].task != t
    ensures Without(q, t) == q
  {
  }

  lemma WithoutLast(q: seq<Access>, x: Access, t: Task)
    requires forall k :: 0 <= k < |q| ==> q[k].task != x.task
    ensures Without(q + [x], t) == if x.task == t then q else Without(q, t) + [x]
  {
    hide IndexOf;
    var p, k := q + [x], IndexOf(q, t);
    if k < |q| {
      IndexAt(p, k, t);
      assert p[..k] == q[..k] && p[k + 1..] == q[k + 1..] + [x];
    } else if x.task == t {
      IndexAt(p, |q|, t);
      assert p[..|q|] == q && p[|q| + 1..] == [];
    } else {
      assert forall j :: 0 <= j < |p| ==> p[j].task != t;
    }
  }

  lemma IndexAt(p: seq<Access>, k: nat, t: Task)
    requires k < |p| && p[k].task == t && forall j :: 0 <= j < k ==> p[j].task != t
    ensures IndexOf(p, t) == k
  {
  }

  ghost predicate InSubmissionOrder(ps: seq<Spec>, h: Shadow) {
    forall d :: Pending(h, d) == Flat(ps, h.done, d, |ps|)
  }

  lemma SubmitFlat(ps: seq<Spec>, p: Spec, h: Shadow, h': Shadow)
    requires InSubmissionOrder(ps, h) && h'.done == h.done && |ps| !in h.done
    requires forall d :: Pending(h', d) == Ordered(Pending(h, d), None, |ps|, Writes(p.outs, None, d),
               d in Pointers(p.ins))
    ensures InSubmissionOrder(ps + [p], h')
  {
    forall d ensures Pending(h', d) == Flat(ps + [p], h'.done, d, |ps| + 1) {
      FlatGrow(ps, p, h.done, d, |ps|);
      assert Pending(h', d) == Ordered(Pending(h, d), None, |ps|, Writes(p.outs, None, d), d in Pointers(p.ins));
      assert Pending(h, d) == Flat(ps, h.done, d, |ps|);
    }
  }

  lemma DoneFlat(ps: seq<Spec>, h: Shadow, h': Shadow, t: Task)
    requires InSubmissionOrder(ps, h) && h'.done == h.done + {t} && t !in h.done
    requires forall d :: Pending(h', d) == Without(Pending(h, d), t)
    ensures InSubmissionOrder(ps, h')
  {
    hide Without;
    forall d ensures Pending(h', d) == Flat(ps, h'.done, d, |ps|) {
      assert Pending(h', d) == Without(Pending(h, d), t);
      assert Pending(h, d) == Flat(ps, h.done, d, |ps|);
      FlatDone(ps, h.done, d, |ps|, t);
    }
  }

  /** Whoever is newly handed to the scheduler found nothing earlier to clash with. */
  lemma StillBegunAfter(ps: seq<Spec>, rel: set<Task>, rel': set<Task>, h: Shadow, h': Shadow)
    requires BegunAfter(ps, rel, h.done) && InSubmissionOrder(ps, h') && h.done <= h'.done <= rel
    requires forall u :: u in rel' && u !in rel ==> WaitsForNothing(h', u)
    ensures BegunAfter(ps, rel', h'.done)
  {
    hide Blocked, Flat;
    forall i, j, d | 0 <= i < j < |ps| && j in rel' && Clash(ps[i], ps[j], d) ensures i in h'.done {
      assert Pending(h', d) == Flat(ps, h'.done, d, |ps|);
      assert j !in rel ==> !Blocked(Pending(h', d), j);
      if j !in rel && i !in h'.done {
        FlatBlocked(ps, h'.done, d, |ps|, i, j);
      }
    }
  }

  lemma GrowBegunAfter(ps: seq<Spec>, p: Spec, rel: set<Task>, done: set<Task>)
    requires BegunAfter(ps, rel, done) && |ps| !in rel
    ensures BegunAfter(ps + [p], rel, done)
  {
    hide Clash;
    forall i, j, d | 0 <= i < j < |ps + [p]| && j in rel && Clash((ps + [p])[i], (ps + [p])[j], d) ensures i in done {
      assert Clash(ps[i], ps[j], d);
    }
  }

  /** A running task without children has nothing in front of its writes. */
  lemma FlatMergeable(ps: seq<Spec>, h: Shadow, rel: set<Task>, t: Task, d: Signature)
    requires InSubmissionOrder(ps, h) && BegunAfter(ps, rel, h.done) && t in rel && t !in h.done && t < |ps|
    ensures Mergeable(Pending(h, d), t)
  {
    hide Flat, Clash;
    var p := Flat(ps, h.done, d, |ps|);
    assert Pending(h, d) == p;
    if Does(p, t, true) && IndexOf(p, t) > 0 {
      var i := FirstClash(ps, h.done, d, t);
    }
  }

  lemma FirstClash(ps: seq<Spec>, done: set<Task>, d: Signature, t: Task) returns (i: Task)
    requires t < |ps| && Does(Flat(ps, done, d, |ps|), t, true) && IndexOf(Flat(ps, done, d, |ps|), t) > 0
    ensures i < t && i !in done && Clash(ps[i], ps[t], d)
  {
    hide Flat, Uses, WritesTo;
    FlatTasks(ps, done, d, |ps|);
    i := Flat(ps, done, d, |ps|)[0].task;
  }

  lemma GrowAsInTurn(ps: seq<Spec>, steps: seq<nat>, s0: Store, traces: seq<seq<int>>, s: Store, p: Spec)
    requires AsInTurn(ps, steps, s0, traces, s)
    ensures AsInTurn(ps + [p], steps + [0], s0, traces + [[]], s)
  {
    hide InTurn;
    var n := |ps|;
    forall k | 0 <= k <= n ensures InTurn(ps + [p], steps + [0], s0, k) == InTurn(ps, steps, s0, k) {
      InTurnGrow(ps, steps, s0, k, p);
    }
    StoreAfter(ps + [p], steps + [0], s0, n);
    assert Exec(p.body, s, 0) == Config([], s);
    hide Exec;
  }

  lemma NewlyReleased(s: State, h: Shadow, s': State, h': Shadow, g: History)
    requires ReleasedBy(s, h, s', h') && Sound(s', h', g)
    ensures s.released <= s'.released && forall u :: u in s'.released && u !in s.released ==> WaitsForNothing(h', u)
  {
    hide Structure, Counts, Accesses, Holdings, Trash, DepSet, AllExclusive, AllSorted, WaitsForNothing, Settled,
      Stranded;
    forall u | u in s'.released && u !in s.released ensures WaitsForNothing(h', u) {
      NothingAwaited(s', h', u);
    }
  }

  lemma NothingToWaitFor(s: State, h: Shadow, rs: set<WaitRecord>)
    requires WaitsOk(s, h, h.done, rs)
    ensures forall u :: 0 <= u < |s.tasks| && s.tasks[u].waitDep <= 0 ==> s.tasks[u].waitDep == 0
  {
    hide WaitsOk;
    forall u | 0 <= u < |s.tasks| && s.tasks[u].waitDep <= 0 ensures s.tasks[u].waitDep == 0 {
      CountNotNegative(s, h, h.done, rs, u);
    }
  }

  predicate NoRepeats(ins: seq<Dep>) {
    forall i, j :: 0 <= i < j < |ins| ==> ins[i].ptr != ins[j].ptr
  }

  lemma {:induction false} CountOnce(ptrs: seq<Signature>, d: Signature)
    requires forall i, j :: 0 <= i < j < |ptrs| ==> ptrs[i] != ptrs[j]
    ensures multiset(ptrs)[d] <= 1
  {
    if ptrs != [] {
      var n := |ptrs| - 1;
      CountOnce(ptrs[..n], d);
      assert ptrs == ptrs[..n] + [ptrs[n]];
      assert ptrs[n] !in ptrs[..n];
      assert multiset(ptrs[..n])[ptrs[n]] == 0;
    }
  }

  /** A task outside any other keeps the order of all tasks, and inputs named once cost nothing extra. */
  lemma OrdinarySubmission(h: Shadow, h': Shadow, t: Task, p: Spec)
    ensures Within(h, None, p.ins, p.outs, None)
    ensures NoRepeats(p.ins) ==> NoAwaitedRepeat(h', t, p.ins, p.outs, None)
  {
    if NoRepeats(p.ins) {
      forall d ensures multiset(Pointers(p.ins))[d] <= 1 {
        CountOnce(Pointers(p.ins), d);
      }
    }
  }

  lemma DrainedSound(s: State, h: Shadow, g: History)
    requires Sound(s, h, g) && forall u :: 0 <= u < |s.tasks| ==> u in h.done
    ensures s.vaMap == map[] && s.versions == map[]
  {
    hide Quiet;
    Drained(s, h);
  }

  /** Tasks submitted by one thread outside any task, and run by any number of workers: each call of
      `Run` is one operation of some task that has been handed to the scheduler. */
  class Runtime {
    const m: Manager
    var specs: seq<Spec>
    var traces: seq<seq<int>>
    var store: Store
    ghost var steps: seq<nat>
    ghost var initial: Store

    ghost predicate Valid()
      reads this, m
    {
      && |specs| == |m.tasks| == |steps| == |traces|
      && (forall i :: 0 <= i < |specs| ==> Honest(specs[i]))
      && AsInTurn(specs, steps, initial, traces, store)
      && InSubmissionOrder(specs, m.shadow)
      && BegunAfter(specs, m.released, m.shadow.done)
      && (forall i :: 0 <= i < |specs| && steps[i] > 0 ==> i in m.released)
      && (forall i :: i in m.shadow.done ==> i < |specs| && specs[i].body(traces[i]).Halt?)
      && (forall i :: 0 <= i < |m.tasks| ==> m.tasks[i].waitDep == 0)
      && m.orderly && |m.shadow.surplus| == |specs|
      && (forall i :: 0 <= i < |specs| && NoRepeats(specs[i].ins) ==> m.shadow.surplus[i] == 0)
      && m.joining == {} && m.Valid()
    }

    constructor (data: Store)
      ensures Valid() && store == initial == data && specs == [] && fresh(m)
    {
      m := new Manager();
      specs, traces, store, steps, initial := [], [], data, [], data;
    }

    method Submit(p: Spec) returns (r: Option<Task>)
      requires Valid() && Honest(p)
      modifies this, m
      ensures Valid() && store == old(store) && initial == old(initial)
      ensures r.None? <==> exists i :: 0 <= i < |p.outs| && p.outs[i].isHandle
      ensures r.None? ==> specs == old(specs) && m.released == old(m.released) && m.shadow.done == old(m.shadow.done)
                          && traces == old(traces)
      ensures r.Some? ==> specs == old(specs) + [p] && r.value == old(|specs|) && traces == old(traces) + [[]]
    {
      hide AsInTurn, InSubmissionOrder, BegunAfter, Honest, Ordered, WaitsForNothing, NoAwaitedRepeat, Within, Enlist,
        Sound, WaitsOk, NoRepeats;
      ghost var h, rel := m.shadow, m.released;
      KnownReleased(m.St(), m.shadow, m.Log());
      r := m.OnSubmit(None, p.ins, p.outs, None);
      if r.Some? {
        SubmitFlat(specs, p, h, m.shadow);
        GrowBegunAfter(specs, p, rel, h.done);
        StillBegunAfter(specs + [p], rel, m.released, h, m.shadow);
        GrowAsInTurn(specs, steps, initial, traces, store, p);
        OrdinarySubmission(h, m.shadow, r.value, p);
        specs, traces, steps := specs + [p], traces + [[]], steps + [0];
      }
    }

    /** One operation of a task. */
    method Run(t: Task)
      requires Valid() && t in m.released && t !in m.shadow.done && t < |specs|
      modifies this
      ensures Valid() && specs == old(specs) && initial == old(initial)
      ensures match specs[t].body(old(traces)[t])
              case Read(d) =>
                && traces == old(traces)[t := old(traces)[t] + [if d in old(store) then old(store)[d] else 0]]
                && store == old(store)
              case Write(d, v) => traces == old(traces)[t := old(traces)[t] + [v]] && store == old(store)[d := v]
              case Halt => traces == old(traces) && store == old(store)
    {
      hide InSubmissionOrder, BegunAfter, Honest, Clash, Exec, InTurn, AsInTurn, NoRepeats, Sound;
      StepInTurn(specs, steps, initial, traces, store, m.released, m.shadow.done, t);
      var c := Step(specs[t].body, Config(traces[t], store));
      traces, store, steps := traces[t := c.trace], c.store, steps[t := steps[t] + 1];
    }

    /** A task that has nothing left to do is done. */
    method Finish(t: Task)
      requires Valid() && t in m.released && t !in m.shadow.done && t < |specs| && specs[t].body(traces[t]).Halt?
      modifies m
      ensures Valid() && m.shadow.done == old(m.shadow.done) + {t}
    {
      hide AsInTurn, InSubmissionOrder, BegunAfter, Honest, Without, WaitsForNothing, Sound, WaitsOk, ReleasedBy,
        Mergeable, NoRepeats;
      ghost var s, h, rel := m.St(), m.shadow, m.released;
      forall d ensures Mergeable(Pending(m.shadow, d), t) {
        FlatMergeable(specs, m.shadow, m.released, t, d);
      }
      KnownReleased(m.St(), m.shadow, m.Log());
      m.OnTaskDone(t);
      DoneFlat(specs, h, m.shadow, t);
      NewlyReleased(s, h, m.St(), m.shadow, m.Log());
      StillBegunAfter(specs, rel, m.released, h, m.shadow);
      NothingToWaitFor(m.St(), m.shadow, m.records);
    }

    /** As long as tasks are unfinished some task is running, if no task names an input twice. */
    lemma NotStuck(t: Task) returns (u: Task)
      requires Valid() && t < |specs| && t !in m.shadow.done && forall i :: 0 <= i < |specs| ==> NoRepeats(specs[i].ins)
      ensures u < |specs| && u in m.released && u !in m.shadow.done
    {
      hide AsInTurn, InSubmissionOrder, BegunAfter, Honest, Sound, WaitsOk, NoRepeats;
      var k := FirstReleased(m.St(), m.shadow, m.Log(), t);
      u := m.order[k];
    }

    /** At any time, whatever the schedule has been: every operation in the trace of a task is the one it asked
        for, every read has found the last write before it in the order of submission, its own included, and
        the data are what was written last. */
    lemma LastWriteWins()
      requires Valid()
      ensures forall i, k :: 0 <= i < |specs| && 0 <= k < |traces[i]| ==> Explained(specs, traces, initial, i, k)
      ensures forall d :: (if d in store then store[d] else 0) == LastWrite(specs, traces, initial, |specs|, d)
    {
      hide Exec, InTurn, Honest, Sound, WaitsOk, InSubmissionOrder, BegunAfter, LastWrite, Explained, NoRepeats;
      forall i, k | 0 <= i < |specs| && 0 <= k < |traces[i]| ensures Explained(specs, traces, initial, i, k) {
        ReadsExplained(specs, steps, initial, traces, store, i, k);
      }
      forall d ensures Get(store, d) == LastWrite(specs, traces, initial, |specs|, d) {
        InTurnWrites(specs, steps, initial, traces, |specs|, d);
      }
    }

    /** When all tasks are done, the data are as if the tasks had run one after the other in the
        order of their submission, and no record of the dependence manager is left. */
    lemma Outcome()
      requires Valid() && forall t :: 0 <= t < |specs| ==> t in m.shadow.done
      ensures Sequential(specs, initial, store) && forall i :: 0 <= i < |specs| ==> specs[i].body(traces[i]).Halt?
      ensures m.versions == map[] && m.vaMap == map[]
    {
      hide Exec, InTurn, Honest, Sound, WaitsOk;
      assert AllHalted(specs, steps, initial, |specs|);
      DrainedSound(m.St(), m.shadow, m.Log());
    }
  }
}
