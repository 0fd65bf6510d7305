/** What every state between critical sections satisfies, and what follows from it: which tasks
    may run side by side, that some task can always run, and that nothing is left behind. */
module DependenceSafety {
  import opened Wrappers
  import opened AccessOrder
  import opened VersionList
  import opened Dependence
  import opened DependenceInv
  import opened DependenceCounts
  import opened DependenceSteps
  import opened DependenceFinish
  import opened DependenceOrder
  import opened DependenceRun
  import opened TaskOrder

  /** The parent of every task, the sequential order of all tasks, and whether every child has kept
      to the data its parent declared. */
  datatype History = History(parents: seq<Option<Task>>, order: seq<Task>, orderly: bool)

  ghost predicate Recorded(s: State, g: History) {
    && |g.parents| == |s.tasks|
    && ParentsLast(g.parents, g.order)
    && (forall t: Task :: t in g.order <==> t < |s.tasks|)
  }

  ghost predicate AllExclusive(h: Shadow, rel: set<Task>, parents: seq<Option<Task>>) {
    forall d :: d in h.pend ==> Exclusive(h.pend[d], rel, parents)
  }

  ghost predicate AllSorted(h: Shadow, order: seq<Task>) {
    forall d :: d in h.pend ==> Sorted(h.pend[d], order)
  }

  ghost predicate Sound(s: State, h: Shadow, g: History) {
    && Quiet(s, h)
    && Recorded(s, g)
    && AllExclusive(h, s.released, g.parents)
    && (g.orderly ==> AllSorted(h, g.order))
  }

  /** Every datum the new task uses is one its parent declared, or nobody uses it. */
  ghost predicate AllCovered(h: Shadow, parent: Option<Task>, ins: seq<Signature>, outs: seq<Signature>) {
    forall d :: (d in outs ==> Covered(Pending(h, d), parent, true))
             && (d in ins && d !in outs ==> Covered(Pending(h, d), parent, false))
  }

  ghost function Logged(g: History, parent: Option<Task>, t: Task, covered: bool): History {
    History(g.parents + [parent], Enlist(g.order, parent, t), g.orderly && covered)
  }

  // ----- submission keeps the state sound

  /** `Ready` on a task without references. */
  function Readying(s: State, t: Task): State
    requires t < |s.tasks|
  {
    if s.tasks[t].submitDep == 0 then s.(released := s.released + {t}) else s
  }

  lemma ReadyCore(s: State, h: Shadow, t: Task)
    requires Core(s, h, {}, {}) && t < |s.tasks| && t !in s.released
    ensures Core(Readying(s, t), h, {}, {})
    ensures t in Readying(s, t).released <==> DepSet(h.pend, t) == {} && |h.surplus| == |s.tasks| && h.surplus[t] == 0
  {
    hide Structure, Accesses, Holdings, Trash, DepSet;
    var s' := Readying(s, t);
    assert s.tasks[t].submitDep == |DepSet(h.pend, t)| + h.surplus[t];
    if s.tasks[t].submitDep == 0 {
      assert |DepSet(h.pend, t)| == 0;
    } else if DepSet(h.pend, t) == {} {
      assert |DepSet(h.pend, t)| == 0;
    }
    assert Counts(s', h, {});
    hide Counts;
    ReleaseStructure(s, h, s');
    ReleaseAccesses(s, h, s');
    HoldingsSame(s, h, s', h, {});
    TrashSame(s, h, s', h);
  }

  lemma SubmitQuiet(s: State, h0: Shadow, h: Shadow, parent: Option<Task>, t: Task, ins: seq<Signature>,
      outs: seq<Signature>)
    requires Submitting(s, h0, h, parent, t, ins, outs) && s.versionTrashcan == []
    requires forall d :: d in h0.lists && h0.lists[d] == [] ==> d in ins || d in outs
    requires forall u :: 0 <= u < |s.tasks| && u != t && u !in s.released ==> s.tasks[u].submitDep > 0
    requires forall u :: u in s.released ==> u < |h0.surplus| && h0.surplus[u] == 0
    requires h0.done <= s.released
    ensures Quiet(Readying(s, t), h)
    ensures t in Readying(s, t).released <==> DepSet(h.pend, t) == {}
    ensures t < |h.surplus| && h.surplus[t] == Repeats(ins, DepSet(h.pend, t))
  {
    hide Core, DepSet, Spread, Occurs;
    ReadyCore(s, h, t);
    RepeatsZero(ins, DepSet(h.pend, t));
  }

  lemma SubmitExclusive(h0: Shadow, h: Shadow, rel: set<Task>, g: History, parent: Option<Task>, t: Task,
                        ins: seq<Signature>, outs: seq<Signature>)
    requires AllExclusive(h0, rel, g.parents) && t !in rel && t == |g.parents| && (parent.Some? ==> parent.value < t)
    requires SpreadOver(h0, h, parent, t, ins, outs)
    ensures AllExclusive(h, rel, g.parents + [parent])
  {
    hide Exclusive, Place;
    forall d | d in h.pend ensures Exclusive(h.pend[d], rel, g.parents + [parent]) {
      var p := Pending(h0, d);
      assert Exclusive(p, rel, g.parents) by {
        EmptyExclusive(rel, g.parents);
      }
      GrowExclusive(p, rel, g.parents, parent);
      PlaceExclusive(p, parent, Access(t, true), rel, g.parents + [parent]);
      PlaceExclusive(p, parent, Access(t, false), rel, g.parents + [parent]);
    }
  }

  lemma EmptyExclusive(rel: set<Task>, parents: seq<Option<Task>>)
    ensures Exclusive([], rel, parents)
  {
  }

  lemma SubmitSorted(s: State, h0: Shadow, h: Shadow, order: seq<Task>, parent: Option<Task>, t: Task,
                     ins: seq<Signature>, outs: seq<Signature>)
    requires AllSorted(h0, order) && t !in order && (parent.Some? ==> parent.value in order)
    requires AllCovered(h0, parent, ins, outs)
    requires forall d :: d in h0.pend ==> NoDup(h0.pend[d])
    requires forall d :: d in h0.pend && parent.Some? && Does(h0.pend[d], parent.value, false) ==>
               AllReads(h0.pend[d][..IndexOf(h0.pend[d], parent.value)])
    requires SpreadOver(h0, h, parent, t, ins, outs)
    ensures AllSorted(h, Enlist(order, parent, t))
  {
    hide Sorted, Place, NoDup, AllReads, Covered, Enlist, Does;
    forall d | d in h.pend ensures Sorted(h.pend[d], Enlist(order, parent, t)) {
      var p := Pending(h0, d);
      EmptyPlace(order, parent);
      if d in outs {
        PlaceSorted(p, order, parent, Access(t, true));
      } else if d in ins {
        PlaceSorted(p, order, parent, Access(t, false));
      } else {
        EnlistSorted(p, order, parent, t);
      }
    }
  }

  lemma EmptyPlace(order: seq<Task>, parent: Option<Task>)
    ensures Sorted([], order) && NoDup([])
    ensures parent.Some? ==> !Does([], parent.value, false)
  {
  }

  /** A running parent that reads a datum has only reads in front of it. */
  lemma RunningReads(s: State, h: Shadow, t: Task, d: Signature)
    requires Quiet(s, h) && t in s.released && t !in h.done && d in h.pend && Does(h.pend[d], t, false)
    ensures AllReads(h.pend[d][..IndexOf(h.pend[d], t)])
  {
    hide Versions, Counts, Holdings, Linked, AllReads, Structure, Trash, Free, NoDup, Occurs, Settled, Stranded;
    assert NoDup(h.pend[d]);
    hide Accesses;
    HeldInput(s, h, d, t);
    var a :| a in InsOf(s, t) && s.versions[a].signature == d;
    hide InsOf;
    InputSlot(s, h, d, t, a);
    PrefixReads(h.pend[d], IndexOf(h.pend[d], t));
  }

  lemma PrefixReads(p: seq<Access>, k: nat)
    requires k < |p| && AllReads(p[..k + 1])
    ensures AllReads(p[..k])
  {
    forall j | 0 <= j < k ensures !p[..k][j].write {
      assert p[..k][j] == p[..k + 1][j];
    }
  }

  lemma FreeOfWaits(s: State, h: Shadow, u: Task)
    requires Accesses(s, h) && DepSet(h.pend, u) == {}
    ensures forall d :: d in h.pend ==> !Blocked(h.pend[d], u)
  {
    hide Blocked, DepSet, NoDup, Free, Versions;
    forall d | d in h.pend ensures !Blocked(h.pend[d], u) {
      WaitsIff(s, h, d, u);
    }
  }

  lemma ReleaseAllExclusive(s: State, h: Shadow, rel: set<Task>, rel': set<Task>, parents: seq<Option<Task>>)
    requires Accesses(s, h) && AllExclusive(h, rel, parents)
    requires forall u :: u in rel' && u !in rel ==> DepSet(h.pend, u) == {}
    ensures AllExclusive(h, rel', parents)
  {
    hide Blocked, DepSet, NoDup, Free, Versions, Exclusive, Accesses;
    forall d | d in h.pend ensures Exclusive(h.pend[d], rel', parents) {
      forall u | u in rel' && u !in rel ensures !Blocked(h.pend[d], u) {
        FreeOfWaits(s, h, u);
      }
      ReleaseExclusive(h.pend[d], rel, rel', parents);
    }
  }

  lemma EnlistMembers(order: seq<Task>, parent: Option<Task>, t: Task, u: Task)
    ensures u in Enlist(order, parent, t) <==> u in order || u == t
  {
    var q := Enlist(order, parent, t);
    var k := if parent.Some? then Rank(order, parent.value) else |order|;
    if u in order {
      var i :| 0 <= i < |order| && order[i] == u;
      assert q[if i < k then i else i + 1] == u;
    }
    if u == t {
      assert q[k] == u;
    }
  }

  /** `onSubmit` as a whole. The new task is ready at once exactly when no earlier unfinished
      access conflicts with its own. */
  lemma SubmitSound(s0: State, h0: Shadow, g: History, h1: Shadow, s: State, h: Shadow,
                    parent: Option<Task>, t: Task, ins: seq<Signature>, outs: seq<Signature>)
    requires Sound(s0, h0, g) && t == |s0.tasks| && Running(s0, h0, parent)
    requires Submitting(s, h1, h, parent, t, ins, outs) && s.versionTrashcan == []
    requires h1.pend == h0.pend && h1.done == h0.done && h1.surplus == h0.surplus + [0]
    requires forall d :: d in h1.lists && h1.lists[d] == [] ==> d in ins || d in outs
    requires s.released == s0.released && |s.tasks| == t + 1
    requires forall u :: 0 <= u < t ==> s.tasks[u].submitDep == s0.tasks[u].submitDep
    ensures Sound(Readying(s, t), h, Logged(g, parent, t, AllCovered(h0, parent, ins, outs)))
    ensures t in Readying(s, t).released <==> DepSet(h.pend, t) == {}
    ensures t < |h.surplus| && h.surplus[t] == Repeats(ins, DepSet(h.pend, t))
  {
    hide Core, DepSet, Occurs, AllExclusive, AllSorted, AllCovered, SpreadOver, Unlisted, Enlist;
    var s' := Readying(s, t);
    SubmitQuiet(s, h1, h, parent, t, ins, outs);
    SubmitExclusive(h1, h, s0.released, g, parent, t, ins, outs) by {
      SameExclusive(h0, h1, s0.released, g.parents);
    }
    CoreAccesses(s, h);
    ReleaseAllExclusive(s, h, s.released, s'.released, g.parents + [parent]);
    forall u: Task ensures u in Enlist(g.order, parent, t) <==> u < |s.tasks| {
      EnlistMembers(g.order, parent, t, u);
    }
    EnlistParents(g, parent, t);
    if g.orderly && AllCovered(h0, parent, ins, outs) {
      SubmitSortedSound(s0, h0, g, h1, h, parent, t, ins, outs);
    }
  }

  ghost predicate ParentsLast(parents: seq<Option<Task>>, order: seq<Task>) {
    forall t :: 0 <= t < |parents| && parents[t].Some? ==>
      parents[t].value < t && Rank(order, t) < Rank(order, parents[t].value)
  }

  /** A new task is enlisted before its parent. */
  lemma EnlistParents(g: History, parent: Option<Task>, t: Task)
    requires ParentsLast(g.parents, g.order) && t == |g.parents| && t !in g.order && (parent.Some? ==> parent.value < t)
    ensures ParentsLast(g.parents + [parent], Enlist(g.order, parent, t))
  {
    hide Rank, Enlist;
    var ps, order := g.parents + [parent], Enlist(g.order, parent, t);
    forall u | 0 <= u < |ps| && ps[u].Some? ensures ps[u].value < u && Rank(order, u) < Rank(order, ps[u].value) {
      EnlistRank(g.order, parent, t, u);
      EnlistRank(g.order, parent, t, ps[u].value);
      assert u < t ==> ps[u] == g.parents[u];
    }
  }

  lemma SameExclusive(h: Shadow, h': Shadow, rel: set<Task>, parents: seq<Option<Task>>)
    requires AllExclusive(h, rel, parents) && h'.pend == h.pend
    ensures AllExclusive(h', rel, parents)
  {
  }

  lemma SubmitSortedSound(s0: State, h0: Shadow, g: History, h1: Shadow, h: Shadow,
                          parent: Option<Task>, t: Task, ins: seq<Signature>, outs: seq<Signature>)
    requires Sound(s0, h0, g) && g.orderly && t == |s0.tasks| && Running(s0, h0, parent)
    requires h1.pend == h0.pend && SpreadOver(h1, h, parent, t, ins, outs) && AllCovered(h0, parent, ins, outs)
    ensures AllSorted(h, Enlist(g.order, parent, t))
  {
    hide Structure, Counts, Holdings, Trash, Settled, Stranded, AllExclusive, Sorted, NoDup, Free, Versions, AllReads,
      Does, Covered, SpreadOver, Enlist;
    forall d | d in h0.pend && parent.Some? && Does(h0.pend[d], parent.value, false)
      ensures AllReads(h0.pend[d][..IndexOf(h0.pend[d], parent.value)])
    {
      RunningReads(s0, h0, parent.value, d);
    }
    SubmitSorted(s0, h1, h, g.order, parent, t, ins, outs);
  }

  // ----- completion keeps the state sound

  /** Exactly the tasks left without anything to wait for become ready. */
  ghost predicate ReleasedBy(s: State, h: Shadow, s': State, h': Shadow) {
    forall u :: u in s'.released <==>
      u in s.released || (0 <= u < |s.tasks| && u < |h'.surplus| && DepSet(h'.pend, u) == {} && h'.surplus[u] == 0)
  }

  lemma FinishSound(s0: State, h0: Shadow, g: History, s: State, h: Shadow, s': State, h': Shadow, t: Task)
    requires Sound(s0, h0, g) && t in s0.released && t !in h0.done
    requires Finishing(s0, h0, s, h, t)
    requires forall d :: d in h.pend ==> h.pend[d] == Without(h0.pend[d], t)
    requires Sweeping(s, h.(done := h.done + {t}), s', h') && s'.versionTrashcan == []
    ensures Sound(s', h', g)
    ensures h'.done == h0.done + {t} && h'.surplus == h0.surplus && |s'.tasks| == |s0.tasks|
    ensures forall d :: Pending(h', d) == Without(Pending(h0, d), t)
    ensures ReleasedBy(s0, h0, s', h')
  {
    hide Core, DepSet, AllExclusive, AllSorted, Without, Occurs, NoDup;
    DeadEmpty(s', h');
    forall d ensures Pending(h', d) == Without(Pending(h0, d), t) {
      EmptyWithout(t);
      assert Pending(h', d) == Pending(h.(done := h.done + {t}), d);
    }
    forall u ensures DepSet(h.pend, u) == DepSet(h'.pend, u) {
      SameDepSet(h, h', u);
    }
    FinishExclusive(h0, h', s0.released, g.parents, t);
    CoreAccesses(s', h');
    ReleaseAllExclusive(s', h', s0.released, s'.released, g.parents);
    if g.orderly {
      FinishSorted(h0, h', g.order, t);
    }
    FinishReleased(s0, h0, s', h');
  }

  lemma EmptyWithout(t: Task)
    ensures Without([], t) == []
  {
  }

  lemma SameDepSet(h: Shadow, h': Shadow, u: Task)
    requires forall d :: Pending(h', d) == Pending(h, d)
    ensures DepSet(h'.pend, u) == DepSet(h.pend, u)
  {
    hide Versions;
    VersionsShape([]);
    forall d ensures d in DepSet(h'.pend, u) <==> d in DepSet(h.pend, u) {
      assert Pending(h', d) == Pending(h, d);
      assert !CellBlocked(Versions([]), u);
    }
  }

  lemma FinishExclusive(h0: Shadow, h': Shadow, rel: set<Task>, parents: seq<Option<Task>>, t: Task)
    requires AllExclusive(h0, rel, parents) && forall d :: Pending(h', d) == Without(Pending(h0, d), t)
    ensures AllExclusive(h', rel, parents)
  {
    hide Exclusive, Without;
    forall d | d in h'.pend ensures Exclusive(h'.pend[d], rel, parents) {
      assert Pending(h', d) == Without(Pending(h0, d), t);
      EmptyExclusive(rel, parents);
      WithoutExclusive(Pending(h0, d), t, rel, parents);
    }
  }

  lemma FinishSorted(h0: Shadow, h': Shadow, order: seq<Task>, t: Task)
    requires AllSorted(h0, order) && forall d :: Pending(h', d) == Without(Pending(h0, d), t)
    ensures AllSorted(h', order)
  {
    hide Sorted, Without;
    forall d | d in h'.pend ensures Sorted(h'.pend[d], order) {
      assert Pending(h', d) == Without(Pending(h0, d), t);
      EmptyPlace(order, None);
      WithoutSorted(Pending(h0, d), t, order);
    }
  }

  lemma FinishReleased(s0: State, h0: Shadow, s': State, h': Shadow)
    requires Quiet(s', h') && s0.released <= s'.released && |s'.tasks| == |s0.tasks|
    requires forall u :: u in s'.released && u !in s0.released
               ==> u < |h'.surplus| && DepSet(h'.pend, u) == {} && h'.surplus[u] == 0
    ensures ReleasedBy(s0, h0, s', h')
  {
    hide Structure, Accesses, Holdings, Trash, DepSet;
    forall u | 0 <= u < |s0.tasks| && DepSet(h'.pend, u) == {} && h'.surplus[u] == 0 ensures u in s'.released {
      assert |DepSet(h'.pend, u)| == 0;
    }
  }
}
