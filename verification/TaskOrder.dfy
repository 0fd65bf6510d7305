/** Parents, the sequential order of all tasks, and what the orders of the data say about which
    tasks may run side by side. */
module TaskOrder {
  import opened Wrappers
  import opened AccessOrder
  import opened DependenceOrder

  /** `x` was submitted by `u`, or by a task that descends from `u`. */
  ghost predicate Descends(parents: seq<Option<Task>>, x: Task, u: Task)
    decreases x
  {
    && x < |parents| && parents[x].Some? && parents[x].value < x
    && (parents[x].value == u || Descends(parents, parents[x].value, u))
  }

  lemma {:induction false} DescendsTrans(parents: seq<Option<Task>>, x: Task, u: Task, w: Task)
    requires Descends(parents, x, u) && Descends(parents, u, w)
    ensures Descends(parents, x, w)
    decreases x
  {
    if parents[x].value != u {
      DescendsTrans(parents, parents[x].value, u, w);
    }
  }

  lemma {:induction false} DescendsGrow(parents: seq<Option<Task>>, p: Option<Task>, x: Task, u: Task)
    requires Descends(parents, x, u)
    ensures Descends(parents + [p], x, u)
    decreases x
  {
    if parents[x].value != u {
      DescendsGrow(parents, p, parents[x].value, u);
    }
  }

  /** Only its own descendants may stand, with a conflicting access, in front of a released task. */
  ghost predicate Exclusive(p: seq<Access>, rel: set<Task>, parents: seq<Option<Task>>) {
    forall j, k :: 0 <= j < k < |p| && p[k].task in rel && Conflict(p[j], p[k]) ==>
      Descends(parents, p[j].task, p[k].task)
  }

  lemma InsertExclusive(p: seq<Access>, k: nat, x: Access, rel: set<Task>, parents: seq<Option<Task>>)
    requires k <= |p| && Exclusive(p, rel, parents) && x.task !in rel
    requires forall j :: k <= j < |p| && p[j].task in rel && Conflict(x, p[j]) ==> Descends(parents, x.task, p[j].task)
    ensures Exclusive(Insert(p, k, x), rel, parents)
  {
    var q := Insert(p, k, x);
    forall i, j | 0 <= i < j < |q| && q[j].task in rel && Conflict(q[i], q[j])
      ensures Descends(parents, q[i].task, q[j].task)
    {
      var i', j' := if i < k then i else i - 1, if j < k then j else j - 1;
      assert q[j] == p[j'];
      if i != k {
        assert q[i] == p[i'];
      }
    }
  }

  /** A child's access goes where only its ancestors come after it. */
  lemma PlaceExclusive(p: seq<Access>, parent: Option<Task>, x: Access, rel: set<Task>, parents: seq<Option<Task>>)
    requires Exclusive(p, rel, parents) && x.task !in rel && x.task < |parents| && parents[x.task] == parent
    requires parent.Some? ==> parent.value < x.task
    ensures Exclusive(Place(p, parent, x), rel, parents)
  {
    if parent.Some? && (Does(p, parent.value, true) || (!x.write && Does(p, parent.value, false))) {
      var i := IndexOf(p, parent.value);
      var k := if Does(p, parent.value, true) then i else i + 1;
      assert Descends(parents, x.task, parent.value);
      forall j | k <= j < |p| && p[j].task in rel && Conflict(x, p[j]) ensures Descends(parents, x.task, p[j].task) {
        if j != i && p[j].task != parent.value {
          assert Conflict(p[i], p[j]);
          DescendsTrans(parents, x.task, parent.value, p[j].task);
        }
      }
      InsertExclusive(p, k, x, rel, parents);
    } else {
      assert Insert(p, |p|, x) == p + [x];
      InsertExclusive(p, |p|, x, rel, parents);
    }
  }

  lemma WithoutExclusive(p: seq<Access>, t: Task, rel: set<Task>, parents: seq<Option<Task>>)
    requires Exclusive(p, rel, parents)
    ensures Exclusive(Without(p, t), rel, parents)
  {
    var k, q := IndexOf(p, t), Without(p, t);
    if k < |p| {
      forall i, j | 0 <= i < j < |q| && q[j].task in rel && Conflict(q[i], q[j])
        ensures Descends(parents, q[i].task, q[j].task)
      {
        var i', j' := if i < k then i else i + 1, if j < k then j else j + 1;
        assert q[i] == p[i'] && q[j] == p[j'];
      }
    }
  }

  /** Releasing tasks that nothing blocks keeps the order exclusive. */
  lemma ReleaseExclusive(p: seq<Access>, rel: set<Task>, rel': set<Task>, parents: seq<Option<Task>>)
    requires Exclusive(p, rel, parents)
    requires forall u :: u in rel' && u !in rel ==> !Blocked(p, u)
    ensures Exclusive(p, rel', parents)
  {
  }

  lemma GrowExclusive(p: seq<Access>, rel: set<Task>, parents: seq<Option<Task>>, parent: Option<Task>)
    requires Exclusive(p, rel, parents)
    ensures Exclusive(p, rel, parents + [parent])
  {
    forall j, k | 0 <= j < k < |p| && p[k].task in rel && Conflict(p[j], p[k])
      ensures Descends(parents + [parent], p[j].task, p[k].task)
    {
      DescendsGrow(parents, parent, p[j].task, p[k].task);
    }
  }

  // ----- one order for all data

  function Rank(order: seq<Task>, t: Task): (k: nat)
    ensures k <= |order|
    ensures forall j :: 0 <= j < k ==> order[j] != t
    ensures k < |order| ==> order[k] == t
  {
    if order == [] || order[0] == t then 0 else 1 + Rank(order[1..], t)
  }

  /** A child comes directly in front of its parent, a task without parent last. */
  function Enlist(order: seq<Task>, parent: Option<Task>, t: Task): seq<Task> {
    var k := if parent.Some? then Rank(order, parent.value) else |order|;
    order[..k] + [t] + order[k..]
  }

  lemma EnlistRank(order: seq<Task>, parent: Option<Task>, t: Task, u: Task)
    requires t !in order
    ensures var k := if parent.Some? then Rank(order, parent.value) else |order|;
            && Rank(Enlist(order, parent, t), t) == k
            && (u != t ==> Rank(Enlist(order, parent, t), u) == if Rank(order, u) < k then Rank(order, u)
                           else Rank(order, u) + 1)
  {
    var k := if parent.Some? then Rank(order, parent.value) else |order|;
    RankAt(Enlist(order, parent, t), k);
    if u != t {
      RankBeside(order, k, t, u);
    }
  }

  lemma RankBeside(order: seq<Task>, k: nat, t: Task, u: Task)
    requires k <= |order| && u != t
    ensures var r := Rank(order, u);
            Rank(order[..k] + [t] + order[k..], u) == if r < k then r else r + 1
  {
    hide Rank;
    var q, r := order[..k] + [t] + order[k..], Rank(order, u);
    assert forall j :: 0 <= j < |q| && j != k ==> q[j] == order[if j < k then j else j - 1];
    if r < |order| {
      RankAt(q, if r < k then r else r + 1);
    } else {
      assert u !in q;
    }
  }

  lemma RankAt(order: seq<Task>, k: nat)
    requires k < |order| && forall j :: 0 <= j < k ==> order[j] != order[k]
    ensures Rank(order, order[k]) == k
  {
  }

  ghost predicate Sorted(p: seq<Access>, order: seq<Task>) {
    && (forall k :: 0 <= k < |p| ==> p[k].task in order)
    && forall j, k :: 0 <= j < k < |p| && Conflict(p[j], p[k]) ==> Rank(order, p[j].task) < Rank(order, p[k].task)
  }

  /** The parent of a task has declared the datum too, or nobody is using it. */
  predicate Covered(p: seq<Access>, parent: Option<Task>, write: bool) {
    parent.None? || Does(p, parent.value, true) || (!write && Does(p, parent.value, false)) || p == []
  }

  lemma EnlistSorted(p: seq<Access>, order: seq<Task>, parent: Option<Task>, t: Task)
    requires Sorted(p, order) && t !in order
    ensures Sorted(p, Enlist(order, parent, t))
  {
    var q := Enlist(order, parent, t);
    var k := if parent.Some? then Rank(order, parent.value) else |order|;
    forall u | u in order ensures u in q && u != t {
      assert q[if Rank(order, u) < k then Rank(order, u) else Rank(order, u) + 1] == u;
    }
    forall i, j | 0 <= i < j < |p| && Conflict(p[i], p[j]) ensures Rank(q, p[i].task) < Rank(q, p[j].task) {
      EnlistRank(order, parent, t, p[i].task);
      EnlistRank(order, parent, t, p[j].task);
    }
  }

  lemma InsertSorted(p: seq<Access>, k: nat, x: Access, order: seq<Task>)
    requires k <= |p| && Sorted(p, order) && x.task in order
    requires forall j :: 0 <= j < k && Conflict(p[j], x) ==> Rank(order, p[j].task) < Rank(order, x.task)
    requires forall j :: k <= j < |p| && Conflict(x, p[j]) ==> Rank(order, x.task) < Rank(order, p[j].task)
    ensures Sorted(Insert(p, k, x), order)
  {
    var q := Insert(p, k, x);
    assert forall j :: 0 <= j < |q| && j != k ==> q[j] == p[if j < k then j else j - 1];
    assert q[k] == x;
  }

  lemma RanksAround(p: seq<Access>, order: seq<Task>, parent: Option<Task>, t: Task)
    requires Sorted(p, order) && t !in order && (parent.Some? ==> parent.value in order)
    ensures var order' := Enlist(order, parent, t);
            && Sorted(p, order') && t in order'
            && forall j :: 0 <= j < |p| ==>
                 if parent.None? || Rank(order, p[j].task) < Rank(order, parent.value)
                 then Rank(order', p[j].task) < Rank(order', t) else Rank(order', t) < Rank(order', p[j].task)
  {
    EnlistSorted(p, order, parent, t);
    var order' := Enlist(order, parent, t);
    assert order'[if parent.Some? then Rank(order, parent.value) else |order|] == t;
    forall j | 0 <= j < |p|
      ensures if parent.None? || Rank(order, p[j].task) < Rank(order, parent.value)
              then Rank(order', p[j].task) < Rank(order', t) else Rank(order', t) < Rank(order', p[j].task)
    {
      EnlistRank(order, parent, t, p[j].task);
    }
  }

  lemma PlaceSortedOut(p: seq<Access>, order: seq<Task>, parent: Task, x: Access)
    requires Sorted(p, order) && x.task !in order && NoDup(p) && Does(p, parent, true)
    ensures Sorted(Insert(p, IndexOf(p, parent), x), Enlist(order, Some(parent), x.task))
  {
    hide Enlist, Insert, Rank, NoDup, IndexOf;
    var i := IndexOf(p, parent);
    assert p[i].task in order;
    RanksAround(p, order, Some(parent), x.task);
    assert forall j :: 0 <= j < i ==> Conflict(p[j], p[i]);
    assert forall j :: i < j < |p| ==> Conflict(p[i], p[j]);
    InsertSorted(p, i, x, Enlist(order, Some(parent), x.task));
  }

  lemma PlaceSortedIn(p: seq<Access>, order: seq<Task>, parent: Task, x: Access)
    requires Sorted(p, order) && x.task !in order && NoDup(p) && Does(p, parent, false) && !x.write
    requires AllReads(p[..IndexOf(p, parent)])
    ensures Sorted(Insert(p, IndexOf(p, parent) + 1, x), Enlist(order, Some(parent), x.task))
  {
    hide Enlist, Insert, Rank, NoDup, IndexOf;
    var i := IndexOf(p, parent);
    assert p[i].task in order;
    RanksAround(p, order, Some(parent), x.task);
    assert forall j :: 0 <= j < i ==> !p[..i][j].write;
    assert forall j :: i < j < |p| && Conflict(x, p[j]) ==> Conflict(p[i], p[j]);
    InsertSorted(p, i + 1, x, Enlist(order, Some(parent), x.task));
  }

  /** The order of one datum and the order of all tasks grow consistently as long as children stay
      within what their parents declared. */
  lemma PlaceSorted(p: seq<Access>, order: seq<Task>, parent: Option<Task>, x: Access)
    requires Sorted(p, order) && x.task !in order && NoDup(p) && Covered(p, parent, x.write)
    requires parent.Some? && Does(p, parent.value, false) ==> AllReads(p[..IndexOf(p, parent.value)])
    requires parent.Some? ==> parent.value in order
    ensures Sorted(Place(p, parent, x), Enlist(order, parent, x.task))
  {
    hide Enlist, Sorted, NoDup;
    if parent.Some? && Does(p, parent.value, true) {
      PlaceSortedOut(p, order, parent.value, x);
    } else if parent.Some? && !x.write && Does(p, parent.value, false) {
      PlaceSortedIn(p, order, parent.value, x);
    } else {
      assert Insert(p, |p|, x) == p + [x];
      RanksAround(p, order, parent, x.task);
      InsertSorted(p, |p|, x, Enlist(order, parent, x.task));
    }
  }

  lemma WithoutSorted(p: seq<Access>, t: Task, order: seq<Task>)
    requires Sorted(p, order)
    ensures Sorted(Without(p, t), order)
  {
    var k, q := IndexOf(p, t), Without(p, t);
    if k < |p| {
      assert forall j :: 0 <= j < |q| ==> q[j] == p[if j < k then j else j + 1];
    }
  }
}
