/** Finishing, waiting for children and giving up memory, for any number of tasks and threads.

    A task counts its unfinished children in `childRefCnt`. Its own reference is given up by itself, when
    it finishes after its last child, or by that child; a root task, which stands for a thread, is deleted
    by the exit of its thread or by its last child. One label is one critical section of a task mutex, or
    one step outside of one. */
module TaskLifetime {
  import opened Wrappers

  type Task = nat

  datatype Dependence = DEPENDENCE_INIT | DATA_DEPENDENCE | CALL_DEPENDENCE

  /** Where a task is. `Ending` has done everything but `DecChildRef`; `Dropping` has left that critical
      section with the duty to give up its parent's reference; `Asleep` and `Notified` are threads in
      `wait`. `Broken` is a task that was made ready without being suspended. */
  datatype PC =
    | Submitted | Running | Suspended | Readied | Ending | Dropping | Finishing | DroppingSelf | Over
    | Asleep | Notified | Broken

  /** A root has no parent. `drops` counts how often the task's own reference has been given up. */
  datatype Node = Node(parent: Option<Task>, pc: PC, childRefCnt: nat, dependenceStatus: Dependence,
                       waitReleasing: bool, threadExit: bool, drops: nat)

  type State = seq<Node>

  datatype Label =
    | NewThread | Submit(t: Task) | Begin(t: Task) | WaitChildren(t: Task) | WaitData(t: Task) | DataDone(t: Task)
    | Resume(t: Task) | Return(t: Task) | DecChildRef(t: Task) | Drop(t: Task) | Finish(t: Task) | DropSelf(t: Task)
    | ThreadWait(t: Task) | ThreadCheck(t: Task) | ThreadExit(t: Task)

  predicate Enabled(s: State, l: Label) {
    if l.NewThread? then true else l.t < |s| && MayAct(s, l, s[l.t])
  }

  predicate MayAct(s: State, l: Label, n: Node)
    requires !l.NewThread? && l.t < |s|
  {
    match l
    case Submit(_) => n.pc.Running?
    case Begin(_) => n.pc.Submitted?
    case WaitChildren(_) => n.pc.Running? && n.parent.Some?
    case WaitData(_) => n.pc.Running? && n.parent.Some?
    case DataDone(_) => n.pc.Suspended? && n.dependenceStatus.DATA_DEPENDENCE?
    case Resume(_) => n.pc.Readied?
    case Return(_) => n.pc.Running? && n.parent.Some?
    case DecChildRef(_) => n.pc.Ending? && n.parent.Some? && n.parent.value < l.t && s[n.parent.value].childRefCnt > 0
    case Drop(_) => n.pc.Dropping? && n.parent.Some? && n.parent.value < l.t
    case Finish(_) => n.pc.Finishing?
    case DropSelf(_) => n.pc.DroppingSelf?
    case ThreadWait(_) => n.pc.Running? && n.parent.None?
    case ThreadCheck(_) => n.pc.Notified?
    case ThreadExit(_) => n.pc.Running? && n.parent.None?
  }

  /** What the last child does to its parent under the parent's mutex, and what is left for it to do. */
  function LastChild(p: Node): (Node, PC)
    requires p.childRefCnt == 0
  {
    if p.parent.None? && p.threadExit then (p, Dropping)
    else if p.parent.Some? && p.waitReleasing then (p, Dropping)
    else if !p.dependenceStatus.CALL_DEPENDENCE? then (p, Finishing)
    else
      var q := p.(dependenceStatus := DEPENDENCE_INIT);
      if p.parent.None? then (q.(pc := if p.pc.Asleep? then Notified else p.pc), Finishing)
      else (q.(pc := if p.pc.Suspended? then Readied else Broken), Finishing)
  }

  function ChildLeaves(p: Node): (Node, PC)
    requires p.childRefCnt > 0
  {
    var q := p.(childRefCnt := p.childRefCnt - 1);
    if q.childRefCnt != 0 then (q, Finishing) else LastChild(q)
  }

  /** The steps that change the acting task only. */
  function Own(n: Node, l: Label): Node {
    match l
    case Begin(_) => n.(pc := Running)
    case WaitChildren(_) => if n.childRefCnt == 0 then n else n.(pc := Suspended, dependenceStatus := CALL_DEPENDENCE)
    case WaitData(_) => n.(pc := Suspended, dependenceStatus := DATA_DEPENDENCE)
    case DataDone(_) => n.(pc := Readied, dependenceStatus := DEPENDENCE_INIT)
    case Resume(_) => n.(pc := Running)
    case Return(_) => n.(pc := Ending)
    case Finish(_) => if n.childRefCnt == 0 then n.(pc := DroppingSelf) else n.(pc := Over, waitReleasing := true)
    case DropSelf(_) => n.(pc := Over, drops := n.drops + 1)
    case ThreadWait(_) => n.(pc := if n.childRefCnt == 0 then Running else Asleep, dependenceStatus := CALL_DEPENDENCE)
    case ThreadCheck(_) => n.(pc := if n.childRefCnt == 0 then Running else Asleep)
    case ThreadExit(_) => if n.childRefCnt == 0 then n.(pc := DroppingSelf) else n.(pc := Over, threadExit := true)
    case NewThread => n
    case Submit(_) => n.(childRefCnt := n.childRefCnt + 1)
    case DecChildRef(_) => n
    case Drop(_) => n.(pc := Finishing)
  }

  function NewNode(parent: Option<Task>, pc: PC): Node {
    Node(parent, pc, 0, DEPENDENCE_INIT, false, false, 0)
  }

  function Step(s: State, l: Label): State
    requires Enabled(s, l)
  {
    if l.NewThread? then s + [NewNode(None, Running)]
    else if l.Submit? then s[l.t := Own(s[l.t], l)] + [NewNode(Some(l.t), Submitted)]
    else if l.DecChildRef? then
      var (p, pc) := ChildLeaves(s[s[l.t].parent.value]);
      s[s[l.t].parent.value := p][l.t := s[l.t].(pc := pc)]
    else if l.Drop? then
      var p := s[s[l.t].parent.value];
      s[s[l.t].parent.value := p.(drops := p.drops + 1)][l.t := Own(s[l.t], l)]
    else s[l.t := Own(s[l.t], l)]
  }

  // ----- the invariant

  /** Not yet subtracted from its parent's count. */
  predicate Unfinished(pc: PC) {
    pc.Submitted? || pc.Running? || pc.Suspended? || pc.Readied? || pc.Ending?
  }

  ghost function Children(s: State, n: Task): set<Task> {
    set c | 0 <= c < |s| && s[c].parent == Some(n) && Unfinished(s[c].pc)
  }

  /** Those who are about to give up the reference of `n`. */
  ghost function Droppers(s: State, n: Task): set<Task> {
    set x | 0 <= x < |s| && Drops(s, x, n)
  }

  predicate Drops(s: State, x: Task, n: Task)
    requires x < |s|
  {
    (s[x].pc.Dropping? && s[x].parent == Some(n)) || (s[x].pc.DroppingSelf? && x == n)
  }

  /** The body is over and so are the children. */
  predicate Gone(n: Node) {
    (n.pc.Over? || n.pc.DroppingSelf?) && n.childRefCnt == 0
  }

  function One(b: bool): nat {
    if b then 1 else 0
  }

  predicate TaskOk(n: Node) {
    && !n.pc.Asleep? && !n.pc.Notified? && !n.pc.Broken? && !n.threadExit
    && (n.pc.Suspended? <==> !n.dependenceStatus.DEPENDENCE_INIT?)
    && (n.dependenceStatus.CALL_DEPENDENCE? ==> n.childRefCnt > 0)
    && (n.waitReleasing ==> n.pc.Over?)
    && (n.pc.Over? && n.childRefCnt > 0 ==> n.waitReleasing)
    && (n.pc.DroppingSelf? || n.pc.Submitted? ==> n.childRefCnt == 0)
  }

  predicate RootOk(n: Node) {
    && (n.pc.Running? || n.pc.Asleep? || n.pc.Notified? || n.pc.DroppingSelf? || n.pc.Over?) && !n.waitReleasing
    && (n.pc.Asleep? ==> n.dependenceStatus.CALL_DEPENDENCE? && n.childRefCnt > 0)
    && (n.pc.Notified? || n.pc.DroppingSelf? ==> n.childRefCnt == 0)
    && (n.threadExit ==> n.pc.Over?)
    && (n.pc.Over? && n.childRefCnt > 0 ==> n.threadExit)
  }

  predicate Local(n: Node, i: Task) {
    if n.parent.None? then RootOk(n) else n.parent.value < i && TaskOk(n)
  }

  ghost predicate NodeOk(s: State, i: Task)
    requires i < |s|
  {
    && Local(s[i], i)
    && s[i].childRefCnt == |Children(s, i)|
    && s[i].drops + |Droppers(s, i)| == One(Gone(s[i]))
  }

  ghost predicate Inv(s: State) {
    forall i :: 0 <= i < |s| ==> NodeOk(s, i)
  }

  // ----- every step keeps it

  /** A step that makes nobody's child, and nobody a dropper, appear or disappear. */
  lemma QuietStep(s: State, t: Task, n: Node)
    requires Inv(s) && t < |s| && Local(n, t) && n.parent == s[t].parent
    requires n.childRefCnt == s[t].childRefCnt && n.drops == s[t].drops && Gone(n) == Gone(s[t])
    requires (n.parent.Some? ==> Unfinished(n.pc) == Unfinished(s[t].pc))
    requires n.pc.Dropping? == s[t].pc.Dropping? && n.pc.DroppingSelf? == s[t].pc.DroppingSelf?
    ensures Inv(s[t := n])
  {
    var s' := s[t := n];
    forall i | 0 <= i < |s'| ensures NodeOk(s', i) {
      assert NodeOk(s, i);
      assert Children(s', i) == Children(s, i);
      assert Droppers(s', i) == Droppers(s, i);
    }
  }

  /** A task or thread that ends after its children is left to give up its own reference. */
  lemma EndStep(s: State, t: Task)
    requires Inv(s) && t < |s| && s[t].childRefCnt == 0
    requires s[t].pc.Finishing? || (s[t].parent.None? && s[t].pc.Running?)
    ensures Inv(s[t := s[t].(pc := DroppingSelf)])
  {
    var s' := s[t := s[t].(pc := DroppingSelf)];
    forall i | 0 <= i < |s'| ensures NodeOk(s', i) {
      assert NodeOk(s, i);
      assert Children(s', i) == Children(s, i);
      assert Droppers(s', i) == if i == t then Droppers(s, i) + {t} else Droppers(s, i);
    }
  }

  lemma DropSelfStep(s: State, t: Task)
    requires Inv(s) && t < |s| && s[t].pc.DroppingSelf?
    ensures Inv(s[t := s[t].(pc := Over, drops := s[t].drops + 1)])
  {
    var s' := s[t := s[t].(pc := Over, drops := s[t].drops + 1)];
    forall i | 0 <= i < |s'| ensures NodeOk(s', i) {
      assert NodeOk(s, i);
      assert Children(s', i) == Children(s, i);
      assert i == t ==> t in Droppers(s, i);
      assert Droppers(s', i) == if i == t then Droppers(s, i) - {t} else Droppers(s, i);
    }
  }

  lemma DropStep(s: State, t: Task)
    requires Inv(s) && Enabled(s, Drop(t))
    ensures Inv(Step(s, Drop(t)))
  {
    var p, s' := s[t].parent.value, Step(s, Drop(t));
    forall i | 0 <= i < |s'| ensures NodeOk(s', i) {
      assert NodeOk(s, i);
      assert Children(s', i) == Children(s, i);
      assert i == p ==> t in Droppers(s, i);
      assert Droppers(s', i) == if i == p then Droppers(s, i) - {t} else Droppers(s, i);
    }
  }

  lemma NewStep(s: State, s0: State, n: Node)
    requires Inv(s0) && |s| == |s0| && n.childRefCnt == 0 && n.drops == 0 && Local(n, |s|)
    requires n.pc.Running? || n.pc.Submitted?
    requires forall i :: 0 <= i < |s|
               ==> s[i].pc == s0[i].pc && s[i].parent == s0[i].parent && s[i].drops == s0[i].drops
    requires forall i :: 0 <= i < |s| ==> s[i] == s0[i].(childRefCnt := s0[i].childRefCnt + One(n.parent == Some(i)))
    requires n.parent.Some? ==> s0[n.parent.value].pc.Running?
    ensures Inv(s + [n])
  {
    var s' := s + [n];
    forall i | 0 <= i < |s| ensures NodeOk(s', i) {
      assert NodeOk(s0, i);
      assert Children(s', i) == if n.parent == Some(i) then Children(s0, i) + {|s|} else Children(s0, i);
      assert Droppers(s', i) == Droppers(s0, i);
    }
    Nobody(s0, s, n);
  }

  lemma Nobody(s0: State, s: State, n: Node)
    requires Inv(s0) && |s| == |s0| && (n.parent.Some? ==> n.parent.value < |s|) && !n.pc.DroppingSelf?
    requires forall i :: 0 <= i < |s| ==> s[i].pc == s0[i].pc && s[i].parent == s0[i].parent
    ensures Children(s + [n], |s|) == {} && Droppers(s + [n], |s|) == {}
  {
    forall i | 0 <= i < |s| ensures s[i].parent != Some(|s|) {
      assert NodeOk(s0, i);
    }
  }

  /** What leaving a child does to the parent's own part of the invariant. */
  lemma ParentLeft(p: Node, i: Task)
    requires Local(p, i) && p.childRefCnt > 0
    ensures var (q, pc) := ChildLeaves(p);
            && Local(q, i) && q.parent == p.parent && q.drops == p.drops && q.childRefCnt == p.childRefCnt - 1
            && (Unfinished(q.pc) == Unfinished(p.pc) || p.parent.None?)
            && q.pc.Dropping? == p.pc.Dropping? && q.pc.DroppingSelf? == p.pc.DroppingSelf?
            && (pc.Dropping? || pc.Finishing?) && (pc.Dropping? <==> Gone(q)) && !Gone(p)
  {
  }

  lemma DecChildRefStep(s: State, t: Task)
    requires Inv(s) && Enabled(s, DecChildRef(t))
    ensures Inv(Step(s, DecChildRef(t)))
  {
    var p, s' := s[t].parent.value, Step(s, DecChildRef(t));
    forall i | 0 <= i < |s'| ensures NodeOk(s', i) {
      assert NodeOk(s, p) && NodeOk(s, i);
      if i == p {
        ParentLeaves(s, t);
      } else {
        ElsewhereLeaves(s, t, i);
      }
    }
  }

  /** What the departure of a child does to its parent. */
  lemma ParentLeaves(s: State, t: Task)
    requires Enabled(s, DecChildRef(t)) && NodeOk(s, s[t].parent.value)
    ensures NodeOk(Step(s, DecChildRef(t)), s[t].parent.value)
  {
    var p, s' := s[t].parent.value, Step(s, DecChildRef(t));
    ParentLeft(s[p], p);
    hide LastChild, ChildLeaves, Local;
    assert t in Children(s, p);
    assert Children(s', p) == Children(s, p) - {t};
    assert Droppers(s', p) == if s'[t].pc.Dropping? then Droppers(s, p) + {t} else Droppers(s, p);
  }

  /** What it does to the child itself and to the others. */
  lemma ElsewhereLeaves(s: State, t: Task, i: Task)
    requires Enabled(s, DecChildRef(t)) && i < |s| && i != s[t].parent.value && NodeOk(s, i)
    requires NodeOk(s, s[t].parent.value)
    ensures NodeOk(Step(s, DecChildRef(t)), i)
  {
    var s' := Step(s, DecChildRef(t));
    ParentLeft(s[s[t].parent.value], s[t].parent.value);
    hide LastChild, ChildLeaves, Local;
    assert Children(s', i) == Children(s, i) && Droppers(s', i) == Droppers(s, i);
    if i == t {
      LocalEnds(s[t], t, s'[t].pc);
    }
  }

  lemma LocalEnds(n: Node, i: Task, pc: PC)
    requires Local(n, i) && n.pc.Ending? && (pc.Dropping? || pc.Finishing?)
    ensures Local(n.(pc := pc), i)
  {
  }

  lemma InvStep(s: State, l: Label)
    requires Inv(s) && Enabled(s, l)
    ensures Inv(Step(s, l))
  {
    hide Inv;
    if l.NewThread? {
      NewStep(s, s, NewNode(None, Running));
    } else if l.Submit? {
      NewStep(s[l.t := Own(s[l.t], l)], s, NewNode(Some(l.t), Submitted));
    } else if l.DecChildRef? {
      DecChildRefStep(s, l.t);
    } else if l.Drop? {
      DropStep(s, l.t);
    } else if l.DropSelf? {
      DropSelfStep(s, l.t);
    } else if (l.Finish? || l.ThreadExit?) && s[l.t].childRefCnt == 0 {
      EndStep(s, l.t);
    } else {
      OwnStep(s, l);
      QuietStep(s, l.t, Own(s[l.t], l));
    }
  }

  lemma OwnStep(s: State, l: Label)
    requires Inv(s) && Enabled(s, l) && !l.NewThread? && !l.Submit? && !l.DecChildRef? && !l.Drop? && !l.DropSelf?
    requires (l.Finish? || l.ThreadExit?) ==> s[l.t].childRefCnt > 0
    ensures var n := Own(s[l.t], l);
            && Local(n, l.t) && n.parent == s[l.t].parent
            && n.childRefCnt == s[l.t].childRefCnt && n.drops == s[l.t].drops && Gone(n) == Gone(s[l.t])
            && (n.parent.Some? ==> Unfinished(n.pc) == Unfinished(s[l.t].pc))
            && n.pc.Dropping? == s[l.t].pc.Dropping? && n.pc.DroppingSelf? == s[l.t].pc.DroppingSelf?
  {
    assert NodeOk(s, l.t);
  }

  // ----- runs

  ghost predicate Run(ss: seq<State>, ls: seq<Label>) {
    && |ss| == |ls| + 1 && ss[0] == []
    && forall i :: 0 <= i < |ls| ==> Enabled(ss[i], ls[i]) && ss[i + 1] == Step(ss[i], ls[i])
  }

  lemma {:induction false} RunInv(ss: seq<State>, ls: seq<Label>, k: nat)
    requires Run(ss, ls) && k < |ss|
    ensures Inv(ss[k])
    decreases k
  {
    if k > 0 {
      RunInv(ss, ls, k - 1);
      InvStep(ss[k - 1], ls[k - 1]);
    }
  }

  predicate ChildrenDone(s: State, n: Task) {
    forall c :: 0 <= c < |s| && s[c].parent == Some(n) ==> !Unfinished(s[c].pc)
  }

  /** A task's own reference is given up at most once, and only when its body and its children are over. */
  lemma DroppedOnce(ss: seq<State>, ls: seq<Label>, k: nat, n: Task)
    requires Run(ss, ls) && k < |ss| && n < |ss[k]|
    ensures ss[k][n].drops <= 1
    ensures ss[k][n].drops == 1 ==> ss[k][n].pc.Over? && ChildrenDone(ss[k], n)
  {
    RunInv(ss, ls, k);
    var s := ss[k];
    assert NodeOk(s, n);
    if s[n].drops == 1 {
      assert Droppers(s, n) == {};
      assert n !in Droppers(s, n);
      assert Children(s, n) == {};
      forall c | 0 <= c < |s| && s[c].parent == Some(n) ensures !Unfinished(s[c].pc) {
        assert c !in Children(s, n);
      }
    }
  }

  /** When everything has ended nothing has been leaked: every task and every root is given up exactly once. */
  lemma AllDropped(ss: seq<State>, ls: seq<Label>, k: nat)
    requires Run(ss, ls) && k < |ss| && forall n :: 0 <= n < |ss[k]| ==> ss[k][n].pc.Over?
    ensures forall n :: 0 <= n < |ss[k]| ==> ss[k][n].drops == 1
  {
    RunInv(ss, ls, k);
    var s := ss[k];
    forall n | 0 <= n < |s| ensures s[n].drops == 1 {
      assert NodeOk(s, n);
      assert Children(s, n) == {};
      assert Droppers(s, n) == {};
    }
  }

  /** The tasks whose memory a step uses. */
  function Touches(s: State, l: Label): set<Task>
    requires Enabled(s, l)
  {
    if l.NewThread? then {}
    else if l.DecChildRef? || l.Drop? then {l.t, s[l.t].parent.value}
    else {l.t}
  }

  /** No step uses a task that has been given up. */
  lemma TouchesLive(ss: seq<State>, ls: seq<Label>, k: nat, n: Task)
    requires Run(ss, ls) && k < |ls| && n in Touches(ss[k], ls[k])
    ensures n < |ss[k]| && ss[k][n].drops == 0
  {
    RunInv(ss, ls, k);
    var s, t := ss[k], ls[k].t;
    assert NodeOk(s, n) && NodeOk(s, t);
    if ls[k].DecChildRef? {
      assert t in Children(s, s[t].parent.value);
    } else if ls[k].Drop? {
      assert t in Droppers(s, s[t].parent.value);
    } else if ls[k].DropSelf? {
      assert t in Droppers(s, t);
    }
  }

  /** As long as a task has not left its parent, the parent is there. */
  lemma ParentStays(ss: seq<State>, ls: seq<Label>, k: nat, c: Task)
    requires Run(ss, ls) && k < |ss| && c < |ss[k]| && ss[k][c].parent.Some? && Unfinished(ss[k][c].pc)
    ensures ss[k][c].parent.value < |ss[k]| && ss[k][ss[k][c].parent.value].drops == 0
  {
    RunInv(ss, ls, k);
    assert NodeOk(ss[k], c) && NodeOk(ss[k], ss[k][c].parent.value);
    assert c in Children(ss[k], ss[k][c].parent.value);
  }

  /** In `wait()`, suspended or asleep. */
  predicate InWait(n: Node) {
    n.pc.Asleep? || (n.pc.Suspended? && n.dependenceStatus.CALL_DEPENDENCE?)
  }

  /** A waiter has an unfinished child, whose `DecChildRef` is still to come: no wake is lost. Nobody is made
      ready who was not suspended. */
  lemma NobodyForgotten(ss: seq<State>, ls: seq<Label>, k: nat, n: Task)
    requires Run(ss, ls) && k < |ss| && n < |ss[k]|
    ensures !ss[k][n].pc.Broken?
    ensures InWait(ss[k][n]) ==> exists c :: 0 <= c < |ss[k]| && ss[k][c].parent == Some(n) && Unfinished(ss[k][c].pc)
  {
    RunInv(ss, ls, k);
    assert NodeOk(ss[k], n);
    if InWait(ss[k][n]) {
      assert Children(ss[k], n) != {};
      var c :| c in Children(ss[k], n);
    }
  }

  /** The step by which `wait()` lets a task or thread go on, at once or later. */
  ghost predicate WaitEnds(s: State, l: Label, s': State, n: Task)
    requires n < |s| && n < |s'|
  {
    || (l == WaitChildren(n) && s'[n].pc.Running?)
    || ((l == ThreadWait(n) || l == ThreadCheck(n)) && s'[n].pc.Running?)
    || (InWait(s[n]) && !InWait(s'[n]))
  }

  /** `wait()` ends only when every child is done. */
  lemma WaitMeansDone(ss: seq<State>, ls: seq<Label>, k: nat, n: Task)
    requires Run(ss, ls) && k < |ls| && n < |ss[k]| <= |ss[k + 1]| && WaitEnds(ss[k], ls[k], ss[k + 1], n)
    ensures ChildrenDone(ss[k + 1], n)
  {
    RunInv(ss, ls, k);
    RunInv(ss, ls, k + 1);
    var s' := ss[k + 1];
    assert NodeOk(ss[k], n) && NodeOk(s', n);
    assert s'[n].childRefCnt == 0;
    assert Children(s', n) == {};
    forall c | 0 <= c < |s'| && s'[c].parent == Some(n) ensures !Unfinished(s'[c].pc) {
      assert c !in Children(s', n);
    }
  }

  // ----- a body is run from its beginning to its end

  /** Between the beginning and the end of the body. */
  predicate InBody(n: Node) {
    n.pc.Running? || n.pc.Suspended? || n.pc.Readied? || n.pc.Asleep? || n.pc.Notified?
  }

  /** A body begins by `Begin` and ends by `Return`, and a thread ends by its exit: no wait, and nothing that happens to
      other tasks, skips a part of it or starts it again. A task that resumes runs on. */
  lemma BodyInOnePiece(ss: seq<State>, ls: seq<Label>, k: nat, t: Task)
    requires Run(ss, ls) && k < |ls| && t < |ss[k]|
    ensures t < |ss[k + 1]| && ss[k + 1][t].parent == ss[k][t].parent
    ensures InBody(ss[k + 1][t]) <==>
              ls[k] == Begin(t) || (InBody(ss[k][t]) && ls[k] != Return(t) && ls[k] != ThreadExit(t))
    ensures ls[k] == Begin(t) || ls[k] == Resume(t) ==> ss[k + 1][t].pc.Running?
    ensures ss[k + 1][t].pc.Submitted? <==> ss[k][t].pc.Submitted? && ls[k] != Begin(t)
  {
    RunInv(ss, ls, k);
    RunInv(ss, ls, k + 1);
    assert Enabled(ss[k], ls[k]);
    BodyStep(ss[k], ls[k], t);
  }

  lemma BodyStep(s: State, l: Label, t: Task)
    requires Inv(s) && Enabled(s, l) && Inv(Step(s, l)) && t < |s|
    ensures var s' := Step(s, l);
            && t < |s'| && s'[t].parent == s[t].parent
            && (InBody(s'[t]) <==> l == Begin(t) || (InBody(s[t]) && l != Return(t) && l != ThreadExit(t)))
            && (l == Begin(t) || l == Resume(t) ==> s'[t].pc.Running?)
            && (s'[t].pc.Submitted? <==> s[t].pc.Submitted? && l != Begin(t))
  {
    var s' := Step(s, l);
    assert NodeOk(s, t) && NodeOk(s', t);
    hide Children, Droppers;
    if l.DecChildRef? {
      assert NodeOk(s, s[l.t].parent.value);
    }
  }

  /** A task starts and stops running by steps of its own only: whoever wakes it makes it ready, and it runs on when
      it is scheduled again. */
  lemma RunsByItself(ss: seq<State>, ls: seq<Label>, k: nat, t: Task)
    requires Run(ss, ls) && k < |ls| && t < |ss[k]|
    ensures t < |ss[k + 1]|
    ensures !ss[k][t].pc.Running? && ss[k + 1][t].pc.Running? ==> ls[k] in {Begin(t), Resume(t), ThreadCheck(t)}
    ensures ss[k][t].pc.Running? && !ss[k + 1][t].pc.Running? ==>
              ls[k] in {WaitChildren(t), WaitData(t), ThreadWait(t), Return(t), ThreadExit(t)}
  {
    RunInv(ss, ls, k);
    assert Enabled(ss[k], ls[k]);
    RunsOnStep(ss[k], ls[k], t);
  }

  lemma RunsOnStep(s: State, l: Label, t: Task)
    requires Inv(s) && Enabled(s, l) && t < |s|
    ensures var s' := Step(s, l);
            && t < |s'|
            && (!s[t].pc.Running? && s'[t].pc.Running? ==> l in {Begin(t), Resume(t), ThreadCheck(t)})
            && (s[t].pc.Running? && !s'[t].pc.Running? ==>
                  l in {WaitChildren(t), WaitData(t), ThreadWait(t), Return(t), ThreadExit(t)})
  {
    assert NodeOk(s, t);
    hide Children, Droppers;
    if l.DecChildRef? {
      assert NodeOk(s, s[l.t].parent.value);
    }
  }

  /** No task begins twice. */
  lemma {:induction false} BegunOnce(ss: seq<State>, ls: seq<Label>, i: nat, j: nat, t: Task)
    requires Run(ss, ls) && i < j <= |ls| && ls[i] == Begin(t)
    ensures t < |ss[j]| && !ss[j][t].pc.Submitted? && (j < |ls| ==> ls[j] != Begin(t))
    decreases j
  {
    if j < |ls| {
      assert Enabled(ss[j], ls[j]);
    }
    if i + 1 < j {
      BegunOnce(ss, ls, i, j - 1, t);
    } else {
      assert Enabled(ss[i], ls[i]);
    }
    BodyInOnePiece(ss, ls, j - 1, t);
  }

  /** A count is never taken below zero: a task that is to leave its parent is counted there. */
  lemma CountsSuffice(ss: seq<State>, ls: seq<Label>, k: nat, t: Task)
    requires Run(ss, ls) && k < |ss| && t < |ss[k]|
    ensures ss[k][t].pc.Ending? ==> Enabled(ss[k], DecChildRef(t))
    ensures ss[k][t].pc.Dropping? ==> Enabled(ss[k], Drop(t))
  {
    RunInv(ss, ls, k);
    assert NodeOk(ss[k], t);
    if ss[k][t].pc.Ending? {
      assert NodeOk(ss[k], ss[k][t].parent.value);
      assert t in Children(ss[k], ss[k][t].parent.value);
    }
  }

  function NextLabel(n: Node, t: Task): Label {
    match n.pc
    case Submitted => Begin(t)
    case Running => if n.parent.None? then ThreadExit(t) else Return(t)
    case Suspended => DataDone(t)
    case Readied => Resume(t)
    case Ending => DecChildRef(t)
    case Dropping => Drop(t)
    case Finishing => Finish(t)
    case DroppingSelf => DropSelf(t)
    case Notified => ThreadCheck(t)
    case Over => Submit(t)
    case Asleep => Submit(t)
    case Broken => Submit(t)
  }

  /** Apart from waits for data, which always end here, waiting for children never ends in a deadlock: the
      youngest task that is not over can move. */
  lemma SomebodyMoves(ss: seq<State>, ls: seq<Label>, k: nat, t: Task)
    requires Run(ss, ls) && k < |ss| && t < |ss[k]| && !ss[k][t].pc.Over?
    requires forall c :: t < c < |ss[k]| ==> ss[k][c].pc.Over?
    ensures Enabled(ss[k], NextLabel(ss[k][t], t))
  {
    var s := ss[k];
    RunInv(ss, ls, k);
    NobodyForgotten(ss, ls, k, t);
    CountsSuffice(ss, ls, k, t);
    assert NodeOk(s, t);
    forall c | 0 <= c < |s| && s[c].parent == Some(t) ensures c > t {
      assert NodeOk(s, c);
    }
  }

  lemma Extend(ss: seq<State>, ls: seq<Label>, l: Label) returns (ss': seq<State>, ls': seq<Label>)
    requires Run(ss, ls) && Enabled(ss[|ls|], l)
    ensures Run(ss', ls') && ss' == ss + [Step(ss[|ls|], l)] && ls' == ls + [l]
  {
    ss', ls' := ss + [Step(ss[|ls|], l)], ls + [l];
  }

  /** The child has left its parent. */
  lemma ChildOver() returns (ss: seq<State>, ls: seq<Label>)
    ensures Run(ss, ls)
    ensures ss[|ls|] == [NewNode(None, Running).(childRefCnt := 1), NewNode(Some(0), Running),
                         NewNode(Some(1), Finishing).(childRefCnt := 1), NewNode(Some(2), Submitted)]
  {
    ss, ls := ThreeGenerations();
    ss, ls := Extend(ss, ls, Return(2));
    ss, ls := Extend(ss, ls, DecChildRef(2));
  }

  /** A task, its child and its grandchild, all at work. */
  lemma ThreeGenerations() returns (ss: seq<State>, ls: seq<Label>)
    ensures Run(ss, ls)
    ensures ss[|ls|] == [NewNode(None, Running).(childRefCnt := 1), NewNode(Some(0), Running).(childRefCnt := 1),
                         NewNode(Some(1), Running).(childRefCnt := 1), NewNode(Some(2), Submitted)]
  {
    var root, task := NewNode(None, Running), NewNode(Some(0), Running);
    ss, ls := Extend([[]], [], NewThread);
    ss, ls := Extend(ss, ls, Submit(0));
    ss, ls := Extend(ss, ls, Begin(1));
    assert ss[|ls|] == [root.(childRefCnt := 1), task];
    ss, ls := Extend(ss, ls, Submit(1));
    ss, ls := Extend(ss, ls, Begin(2));
    assert ss[|ls|] == [root.(childRefCnt := 1), task.(childRefCnt := 1), NewNode(Some(1), Running)];
    ss, ls := Extend(ss, ls, Submit(2));
  }

  /** `wait()` and the count cover children only: a task can wait, end and be given up while a grandchild has
      yet to run. */
  lemma GrandchildOutlives() returns (ss: seq<State>, ls: seq<Label>)
    ensures Run(ss, ls) && WaitChildren(1) in ls
    ensures var s := ss[|ls|];
            |s| == 4 && s[3].pc.Submitted? && s[3].parent == Some(2) && s[2].parent == Some(1) && s[1].drops == 1
  {
    var root, task := NewNode(None, Running), NewNode(Some(0), Running);
    var child, grandchild := NewNode(Some(1), Running).(childRefCnt := 1), NewNode(Some(2), Submitted);
    ss, ls := ChildOver();
    ss, ls := Extend(ss, ls, WaitChildren(1));
    ss, ls := Extend(ss, ls, Return(1));
    assert ss[|ls|] == [root.(childRefCnt := 1), task.(pc := Ending), child.(pc := Finishing), grandchild];
    ss, ls := Extend(ss, ls, DecChildRef(1));
    assert ss[|ls|] == [root, task.(pc := Finishing), child.(pc := Finishing), grandchild];
    ss, ls := Extend(ss, ls, Finish(1));
    ss, ls := Extend(ss, ls, DropSelf(1));
  }
}
