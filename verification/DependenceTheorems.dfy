/** What the dependence manager guarantees in every state between critical sections. */
module DependenceTheorems {
  import opened Wrappers
  import opened AccessOrder
  import opened VersionList
  import opened Dependence
  import opened DependenceInv
  import opened DependenceCounts
  import opened DependenceSteps
  import opened DependenceOrder
  import opened DependenceRun
  import opened TaskOrder
  import opened DependenceSafety

  // ----- the dependence count

  /** The unproduced versions that `u` reads. */
  ghost function AwaitedReads(s: State, u: Task): set<Address> {
    set v | v in s.versions && s.versions[v].status.IDLE? && u in s.versions[v].consumers
  }

  /** The versions that have `u` as their next producer. */
  ghost function AwaitedWrites(s: State, u: Task): set<Address> {
    set v | v in s.versions && s.versions[v].nextProducer == Some(u)
  }

  ghost predicate Awaited(s: State, v: Address, u: Task) {
    v in AwaitedReads(s, u) || v in AwaitedWrites(s, u)
  }

  /** The cell of a version in a quiet state. */
  lemma VersionCell(s: State, h: Shadow, v: Address) returns (i: nat)
    requires Quiet(s, h) && v in s.versions && s.versions[v].signature in s.vaMap
             && v != s.vaMap[s.versions[v].signature]
    ensures var d := s.versions[v].signature;
            && d in h.lists && i < |h.lists[d]| && h.lists[d][i] == v
            && i < |Versions(Pending(h, d))| && CellMatch(s.versions[v], Versions(Pending(h, d)), i, s.released)
  {
    hide Versions, Counts, Accesses, Holdings, Linked, Structure, Trash;
    i := Whereabouts(s, h, v);
  }

  lemma NotRootEither(s: State, h: Shadow, v: Address)
    requires Quiet(s, h) && v in s.versions
    requires s.versions[v].consumers != {} || s.versions[v].nextProducer.Some? || !s.versions[v].status.IDLE?
    ensures s.versions[v].signature in s.vaMap && v != s.vaMap[s.versions[v].signature]
  {
    hide Matches, Versions, Counts, Accesses, Holdings, Trash;
    assert Placed(s, h, v);
    assert DatumOk(s, h, s.versions[v].signature);
  }

  lemma AwaitedCell(s: State, h: Shadow, v: Address, u: Task) returns (d: Signature, i: nat)
    requires Quiet(s, h) && Awaited(s, v, u) && u !in s.released
    ensures v in s.versions && d == s.versions[v].signature && d in h.pend && d in h.lists && i < |h.lists[d]|
            && h.lists[d][i] == v
    ensures var g := Versions(h.pend[d]);
            i < |g| && ((g[i].writer.Some? && u in g[i].readers) || (i + 1 < |g| && g[i + 1].writer == Some(u)))
    ensures d in DepSet(h.pend, u)
  {
    hide Versions, Core;
    NotRootEither(s, h, v);
    d := s.versions[v].signature;
    i := VersionCell(s, h, v);
    VersionsShape(Pending(h, d));
  }

  lemma AwaitedUnique(s: State, h: Shadow, v: Address, w: Address, u: Task)
    requires Quiet(s, h) && u !in s.released && Awaited(s, v, u) && Awaited(s, w, u)
    requires v in s.versions && w in s.versions && s.versions[v].signature == s.versions[w].signature
    ensures v == w
    ensures v !in AwaitedReads(s, u) || v !in AwaitedWrites(s, u)
  {
    hide Versions, Counts, Holdings, Structure, Trash, DepSet;
    var d, i := AwaitedCell(s, h, v, u);
    var e, j := AwaitedCell(s, h, w, u);
    assert NoDup(h.pend[d]);
    VersionsOnePlace(h.pend[d]);
    NotRootEither(s, h, v);
    var k := VersionCell(s, h, v);
  }

  lemma AwaitedExists(s: State, h: Shadow, d: Signature, u: Task) returns (v: Address)
    requires Quiet(s, h) && u !in s.released && d in DepSet(h.pend, u)
    ensures Awaited(s, v, u) && v in s.versions && s.versions[v].signature == d
  {
    hide Versions, Core, Settled, Stranded;
    var g := Versions(h.pend[d]);
    if i :| 0 <= i < |g| && g[i].writer.Some? && u in g[i].readers {
      v := CellVersion(s, h, d, i);
    } else {
      var i :| 0 < i < |g| && g[i].writer == Some(u);
      v := CellVersion(s, h, d, i - 1);
    }
  }

  lemma CellVersion(s: State, h: Shadow, d: Signature, i: nat) returns (v: Address)
    requires Quiet(s, h) && d in h.pend && i < |Versions(h.pend[d])|
    ensures v in s.versions && s.versions[v].signature == d
            && CellMatch(s.versions[v], Versions(h.pend[d]), i, s.released)
  {
    hide Versions, Counts, Holdings, Linked, Accesses, Trash;
    assert DatumOk(s, h, d);
    hide Structure, Settled, Stranded;
    v := LiveNodes(h, d)[i];
    assert CellMatch(s.versions[v], Versions(h.pend[d]), i, s.released);
    LiveNode(s, h, d, i);
  }

  lemma {:induction false} SameSize(a: set<Address>, m: Memory, b: set<Signature>)
    requires forall v :: v in a ==> v in m && m[v].signature in b
    requires forall v, w :: v in a && w in a && m[v].signature == m[w].signature ==> v == w
    requires forall d :: d in b ==> exists v :: v in a && m[v].signature == d
    ensures |a| == |b|
    decreases a
  {
    if a == {} {
      assert b == {};
    } else {
      var v :| v in a;
      forall d | d in b - {m[v].signature} ensures exists w :: w in a - {v} && m[w].signature == d {
        var w :| w in a && m[w].signature == d;
        assert w in a - {v};
      }
      SameSize(a - {v}, m, b - {m[v].signature});
    }
  }

  /** The dependence count of a waiting task is the number of unproduced versions it reads plus the
      number of versions that have it as next producer; each of them stands for one datum on which
      an earlier unfinished access conflicts with the task's own. */
  lemma ExactCount(s: State, h: Shadow, u: Task)
    requires Quiet(s, h) && u < |s.tasks| && u !in s.released
    ensures |h.surplus| == |s.tasks|
    ensures s.tasks[u].submitDep == |AwaitedReads(s, u)| + |AwaitedWrites(s, u)| + h.surplus[u]
    ensures |AwaitedReads(s, u)| + |AwaitedWrites(s, u)| == |set d | d in h.pend && Blocked(h.pend[d], u)|
  {
    hide Structure, Holdings, Trash, Accesses, AwaitedReads, AwaitedWrites, DepSet, Settled, Stranded, Blocked;
    var r, w, b := AwaitedReads(s, u), AwaitedWrites(s, u), DepSet(h.pend, u);
    assert s.tasks[u].submitDep == |b| + h.surplus[u];
    hide Counts;
    CountedOnce(s, h, u);
    assert |r + w| == |r| + |w|;
    assert b == set d | d in h.pend && Blocked(h.pend[d], u) by {
      BlockedSet(s, h, u);
    }
  }

  lemma BlockedSet(s: State, h: Shadow, u: Task)
    requires Accesses(s, h)
    ensures DepSet(h.pend, u) == set d | d in h.pend && Blocked(h.pend[d], u)
  {
    hide Blocked, Accesses, Versions;
    forall d | d in h.pend ensures d in DepSet(h.pend, u) <==> Blocked(h.pend[d], u) {
      WaitsIff(s, h, d, u);
    }
  }

  lemma CountedOnce(s: State, h: Shadow, u: Task)
    requires Quiet(s, h) && u !in s.released
    ensures |AwaitedReads(s, u) + AwaitedWrites(s, u)| == |DepSet(h.pend, u)|
    ensures AwaitedReads(s, u) !! AwaitedWrites(s, u)
  {
    hide Quiet, DepSet, AwaitedReads, AwaitedWrites;
    var a, b := AwaitedReads(s, u) + AwaitedWrites(s, u), DepSet(h.pend, u);
    forall v | v in a ensures v in s.versions && s.versions[v].signature in b
        && (v !in AwaitedReads(s, u) || v !in AwaitedWrites(s, u)) {
      var d, i := AwaitedCell(s, h, v, u);
      AwaitedUnique(s, h, v, v, u);
    }
    forall v, w | v in a && w in a && s.versions[v].signature == s.versions[w].signature ensures v == w {
      AwaitedUnique(s, h, v, w, u);
    }
    forall d | d in b ensures exists v :: v in a && s.versions[v].signature == d {
      var v := AwaitedExists(s, h, d, u);
      assert v in a;
    }
    SameSize(a, s.versions, b);
  }

  // ----- versions between critical sections

  /** Between critical sections no version is CONSUMED and only the oldest one of a datum can be
      READY, and then an unfinished task still reads it. */
  lemma VersionStates(s: State, h: Shadow, v: Address)
    requires Quiet(s, h) && v in s.versions && !s.versions[v].status.IDLE?
    ensures s.versions[v].status.READY? && s.versions[v].consumers != {}
    ensures s.versions[v].last == None
  {
    hide Versions, Counts, Accesses, Holdings, Trash, Matches;
    NotRootEither(s, h, v);
    var i := VersionCell(s, h, v);
    var d := s.versions[v].signature;
    VersionsShape(Pending(h, d));
    assert DatumOk(s, h, d);
    assert NodeOk(s.versions, d, s.vaMap[d], h.lists[d], i);
  }

  /** Once every task is done no record is left. */
  lemma Drained(s: State, h: Shadow)
    requires Quiet(s, h) && forall u :: 0 <= u < |s.tasks| ==> u in h.done
    ensures s.vaMap == map[] && s.versions == map[]
  {
    hide Versions, Counts, Holdings, Trash, Linked;
    forall v | v in s.versions ensures s.versions[v].signature in s.vaMap {
      assert Placed(s, h, v);
    }
    forall d ensures d !in s.vaMap {
      if d in s.vaMap {
        UnfinishedUse(s, h, d);
      }
    }
  }

  /** A datum that is still represented has an unfinished access. */
  lemma UnfinishedUse(s: State, h: Shadow, d: Signature)
    requires Quiet(s, h) && d in s.vaMap
    ensures d in h.pend && h.pend[d] != [] && h.pend[d][0].task < |s.tasks| && h.pend[d][0].task !in h.done
  {
    hide Versions, Counts, Holdings, Trash, Linked;
    assert DatumOk(s, h, d);
    VersionsShape(Pending(h, d));
  }

  // ----- tasks side by side

  ghost predicate Active(s: State, h: Shadow, t: Task) {
    t in s.released && t !in h.done
  }

  /** Two running tasks of which neither descends from the other never have conflicting accesses
      to the same datum. */
  lemma NoRace(s: State, h: Shadow, g: History, d: Signature, j: nat, k: nat)
    requires Sound(s, h, g) && d in h.pend && j < |h.pend[d]| && k < |h.pend[d]| && j != k
    requires var t, u := h.pend[d][j].task, h.pend[d][k].task;
             Active(s, h, t) && Active(s, h, u) && !Descends(g.parents, t, u) && !Descends(g.parents, u, t)
    ensures !Conflict(h.pend[d][j], h.pend[d][k])
  {
    assert Exclusive(h.pend[d], s.released, g.parents);
  }

  /** A task is made ready only when every earlier conflicting access is finished. */
  lemma WaitingMeansBlocked(s: State, h: Shadow, u: Task)
    requires Quiet(s, h) && u < |s.tasks| && |h.surplus| == |s.tasks| && h.surplus[u] == 0
    ensures u !in s.released ==> exists d :: d in h.pend && Blocked(h.pend[d], u)
  {
    hide Structure, Holdings, Trash, DepSet, NoDup, Free, Versions;
    if u !in s.released {
      assert s.tasks[u].submitDep == |DepSet(h.pend, u)|;
      hide Counts;
      BlockedSet(s, h, u);
      var d :| d in DepSet(h.pend, u);
    }
  }

  // ----- progress

  /** The first unfinished task in the order of all tasks. */
  lemma FirstUnfinished(order: seq<Task>, done: set<Task>) returns (k: nat)
    requires exists i :: 0 <= i < |order| && order[i] !in done
    ensures k < |order| && order[k] !in done && forall j :: 0 <= j < k ==> order[j] in done
  {
    k := 0;
    while order[k] in done
      invariant k < |order| && forall j :: 0 <= j < k ==> order[j] in done
      decreases |order| - k
    {
      k := k + 1;
    }
  }

  /** The first unfinished task of the sequential order has been released, provided no task waits for a
      reference nobody returns and every child keeps to the data of its parent. */
  lemma FirstReleased(s: State, h: Shadow, g: History, t: Task) returns (k: nat)
    requires Sound(s, h, g) && g.orderly && t < |s.tasks| && t !in h.done
    requires forall u :: 0 <= u < |h.surplus| ==> h.surplus[u] == 0
    ensures k < |g.order| && (forall j :: 0 <= j < k ==> g.order[j] in h.done)
    ensures Active(s, h, g.order[k]) && g.order[k] < |s.tasks|
  {
    hide Structure, Counts, Holdings, Trash, AllExclusive, Settled, Stranded, Free, NoDup, Versions, Rank;
    assert t in g.order;
    k := FirstUnfinished(g.order, h.done);
    var u := g.order[k];
    assert u in g.order;
    if u !in s.released {
      CoreAccesses(s, h);
      WaitingMeansBlocked(s, h, u);
      var d :| d in h.pend && Blocked(h.pend[d], u);
      EarlierUnfinished(s, h, d, g.order, u);
    }
  }

  lemma EarlierUnfinished(s: State, h: Shadow, d: Signature, order: seq<Task>, u: Task)
    requires Accesses(s, h) && d in h.pend && Sorted(h.pend[d], order) && Blocked(h.pend[d], u)
    ensures exists j :: 0 <= j < Rank(order, u) && order[j] !in h.done
  {
    hide Free, NoDup, Versions, Rank;
    var p := h.pend[d];
    var x, y :| 0 <= x < y < |p| && p[y].task == u && Conflict(p[x], p[y]);
    var j := Rank(order, p[x].task);
    assert order[j] == p[x].task;
  }
}
