/** The pending accesses of one datum, in the order in which the sequential program would make
    them, and the version list that this order determines.

    Each datum has a list of unfinished accesses. `Versions` groups that list the way the
    dependence manager does: a write opens a new version, a read joins the newest version, and
    reads with no write before them share one version that is already produced. */
module AccessOrder {
  import opened Wrappers

  type Task = nat

  datatype Access = Access(task: Task, write: bool)

  /** One version of a datum: the unfinished task that will produce it (none once it has been
      produced) and the unfinished tasks that read it. */
  datatype Cell = Cell(writer: Option<Task>, readers: set<Task>)

  ghost predicate NoDup(p: seq<Access>) {
    forall i, j :: 0 <= i < j < |p| ==> p[i].task != p[j].task
  }

  ghost predicate Occurs(p: seq<Access>, t: Task) {
    exists k :: 0 <= k < |p| && p[k].task == t
  }

  ghost predicate AllReads(p: seq<Access>) {
    forall k :: 0 <= k < |p| ==> !p[k].write
  }

  predicate Conflict(a: Access, b: Access) {
    a.write || b.write
  }

  /** The reference meaning of "`t` has to wait for this datum": some access earlier in the
      order conflicts with the access of `t`. */
  ghost predicate Blocked(p: seq<Access>, t: Task) {
    exists j, k :: 0 <= j < k < |p| && p[k].task == t && Conflict(p[j], p[k])
  }

  function Extend(g: seq<Cell>, a: Access): seq<Cell> {
    if a.write then g + [Cell(Some(a.task), {})]
    else if g == [] then [Cell(None, {a.task})]
    else g[|g| - 1 := Cell(g[|g| - 1].writer, g[|g| - 1].readers + {a.task})]
  }

  function Versions(p: seq<Access>): (g: seq<Cell>)
  {
    if p == [] then [] else Extend(Versions(p[..|p| - 1]), p[|p| - 1])
  }

  /** What the dependence manager counts: a reader of an unproduced version waits for the
      producer, a producer that is not the oldest waits for the version before its own. */
  ghost predicate CellBlocked(g: seq<Cell>, t: Task) {
    || (exists i :: 0 <= i < |g| && g[i].writer.Some? && t in g[i].readers)
    || (exists i :: 0 < i < |g| && g[i].writer == Some(t))
  }

  lemma VersionsOfAppend(p: seq<Access>, a: Access)
    ensures Versions(p + [a]) == Extend(Versions(p), a)
  {
    assert (p + [a])[..|p|] == p;
  }

  /** Only the oldest version can be already produced, and then it has a reader left. */
  lemma {:induction false} VersionsShape(p: seq<Access>)
    ensures Versions(p) == [] <==> p == []
    ensures forall i :: 0 < i < |Versions(p)| ==> Versions(p)[i].writer.Some?
    ensures p != [] && Versions(p)[0].writer.None? ==> Versions(p)[0].readers != {}
  {
    if p != [] {
      VersionsShape(p[..|p| - 1]);
    }
  }

  /** A write always starts a version of its own, so the list can be cut in front of it. */
  lemma {:induction false} VersionsSplit(a: seq<Access>, b: seq<Access>)
    requires b == [] || b[0].write
    ensures Versions(a + b) == Versions(a) + Versions(b)
  {
    if b == [] {
      assert a + b == a;
    } else {
      var b', x := b[..|b| - 1], b[|b| - 1];
      assert (a + b)[..|a + b| - 1] == a + b';
      VersionsSplit(a, b');
      VersionsShape(b');
    }
  }

  lemma {:induction false} VersionsOfReads(p: seq<Access>)
    requires AllReads(p)
    ensures |Versions(p)| <= 1
    ensures p != [] ==> Versions(p)[0].writer == None
  {
    if p != [] {
      VersionsOfReads(p[..|p| - 1]);
    }
  }

  /** The newest version is unproduced exactly when the list holds a write. */
  lemma {:induction false} NewestUnproduced(p: seq<Access>)
    requires p != []
    ensures Versions(p) != []
    ensures Versions(p)[|Versions(p)| - 1].writer.Some? <==> !AllReads(p)
  {
    var q := p[..|p| - 1];
    VersionsShape(p);
    VersionsShape(q);
    if q != [] {
      NewestUnproduced(q);
    }
  }

  /** Every task of the list has exactly one place among the versions. */
  ghost predicate InVersions(g: seq<Cell>, t: Task) {
    exists i :: 0 <= i < |g| && (t in g[i].readers || g[i].writer == Some(t))
  }

  lemma {:induction false} VersionsMembers(p: seq<Access>, t: Task)
    ensures InVersions(Versions(p), t) <==> Occurs(p, t)
  {
    if p != [] {
      var q, x := p[..|p| - 1], p[|p| - 1];
      VersionsMembers(q, t);
      var g, h := Versions(q), Versions(p);
      if Occurs(p, t) {
        if x.task == t {
          assert t in h[|h| - 1].readers || h[|h| - 1].writer == Some(t);
        } else {
          assert Occurs(q, t);
          var i :| 0 <= i < |g| && (t in g[i].readers || g[i].writer == Some(t));
          assert t in h[i].readers || h[i].writer == Some(t);
        }
      }
      if InVersions(h, t) {
        var i :| 0 <= i < |h| && (t in h[i].readers || h[i].writer == Some(t));
        if x.task == t {
          assert p[|p| - 1].task == t;
        } else {
          assert t in g[i].readers || g[i].writer == Some(t);
          var k :| 0 <= k < |q| && q[k].task == t;
          assert p[k].task == t;
        }
      }
    }
  }

  ghost predicate SoleReader(g: seq<Cell>) {
    forall i, j, t :: 0 <= i < |g| && 0 <= j < |g| && t in g[i].readers && t in g[j].readers ==> i == j
  }

  ghost predicate SoleWriter(g: seq<Cell>) {
    forall i, j :: 0 <= i < j < |g| && g[i].writer.Some? ==> g[i].writer != g[j].writer
  }

  ghost predicate NotBoth(g: seq<Cell>) {
    forall i, j :: 0 <= i < |g| && 0 <= j < |g| && g[j].writer.Some? ==> g[j].writer.value !in g[i].readers
  }

  ghost predicate OnePlace(g: seq<Cell>) {
    SoleReader(g) && SoleWriter(g) && NotBoth(g)
  }

  lemma {:induction false} VersionsOnePlace(p: seq<Access>)
    requires NoDup(p)
    ensures OnePlace(Versions(p))
  {
    if p != [] {
      var q, x := p[..|p| - 1], p[|p| - 1];
      VersionsOnePlace(q);
      assert !Occurs(q, x.task);
      VersionsMembers(q, x.task);
      var g := Versions(q);
      assert forall i :: 0 <= i < |g| ==> x.task !in g[i].readers && g[i].writer != Some(x.task);
    }
  }

  /** Counting over versions is waiting for an earlier conflicting access. */
  lemma {:induction false} BlockedIff(p: seq<Access>, t: Task)
    requires NoDup(p)
    ensures Blocked(p, t) <==> CellBlocked(Versions(p), t)
  {
    if p != [] {
      var q, x := p[..|p| - 1], p[|p| - 1];
      BlockedIff(q, t);
      VersionsShape(q);
      VersionsOnePlace(p);
      assert !Occurs(q, x.task);
      VersionsMembers(q, x.task);
      BlockedAppend(q, x, t);
      assert p == q + [x];
      if q != [] {
        NewestUnproduced(q);
      }
      CellBlockedExtend(Versions(q), x, t);
    }
  }

  /** Appending an access blocks nobody but its own task, and that one exactly when it conflicts. */
  lemma BlockedAppend(q: seq<Access>, x: Access, t: Task)
    requires NoDup(q + [x])
    ensures t != x.task ==> (Blocked(q + [x], t) <==> Blocked(q, t))
    ensures t == x.task ==> (Blocked(q + [x], t) <==> q != [] && (x.write || !AllReads(q)))
  {
    var p := q + [x];
    if t != x.task {
      if Blocked(p, t) {
        var j, k :| 0 <= j < k < |p| && p[k].task == t && Conflict(p[j], p[k]);
        assert q[k].task == t && Conflict(q[j], q[k]);
      }
      if Blocked(q, t) {
        var j, k :| 0 <= j < k < |q| && q[k].task == t && Conflict(q[j], q[k]);
        assert p[k].task == t && Conflict(p[j], p[k]);
      }
    } else {
      if q != [] && (x.write || !AllReads(q)) {
        var j :| 0 <= j < |q| && (x.write || q[j].write);
        assert p[|q|].task == t && Conflict(p[j], p[|q|]);
      }
      if Blocked(p, t) {
        var j, k :| 0 <= j < k < |p| && p[k].task == t && Conflict(p[j], p[k]);
        assert k == |q|;
        assert p[j] == q[j];
      }
    }
  }

  lemma CellBlockedExtend(g: seq<Cell>, x: Access, t: Task)
    requires OnePlace(Extend(g, x))
    requires !InVersions(g, x.task)
    ensures t != x.task ==> (CellBlocked(Extend(g, x), t) <==> CellBlocked(g, t))
    ensures t == x.task ==> (CellBlocked(Extend(g, x), t) <==> g != [] && (x.write || g[|g| - 1].writer.Some?))
  {
    var h := Extend(g, x);
    if t != x.task {
      assert forall i :: 0 <= i < |g| ==> (t in g[i].readers <==> t in h[i].readers) && g[i].writer == h[i].writer;
    } else if g != [] && x.write {
      assert h[|g|].writer == Some(t);
    } else if g != [] && g[|g| - 1].writer.Some? {
      assert h[|g| - 1].writer.Some? && t in h[|g| - 1].readers;
    }
  }

  /** The step taken when the producer of version `i` finishes. The oldest version becomes
      readable, or disappears if nobody reads it; a later one is folded into the version
      before it. */
  function Produce(g: seq<Cell>, i: nat): seq<Cell>
    requires i < |g|
  {
    if i > 0 then g[..i - 1] + [Cell(g[i - 1].writer, g[i - 1].readers + g[i].readers)] + g[i + 1..]
    else if g[0].readers == {} then g[1..]
    else g[0 := Cell(None, g[0].readers)]
  }

  /** The step taken when a reader of the oldest version finishes. */
  function Consume(g: seq<Cell>, t: Task): seq<Cell>
    requires g != []
  {
    if g[0].readers == {t} then g[1..] else g[0 := Cell(g[0].writer, g[0].readers - {t})]
  }

  /** A write behind the accesses `a` opens the version that follows those of `a`. */
  lemma WriteAt(a: seq<Access>, t: Task, b: seq<Access>)
    ensures |Versions(a)| < |Versions(a + [Access(t, true)] + b)|
    ensures Versions(a + [Access(t, true)] + b)[|Versions(a)|].writer == Some(t)
    ensures Versions(a + [Access(t, true)] + b)[..|Versions(a)|] == Versions(a)
  {
    var w := [Access(t, true)] + b;
    assert a + [Access(t, true)] + b == a + w;
    VersionsSplit(a, w);
    OwnVersion(t, b);
  }

  lemma {:induction false} OwnVersion(t: Task, b: seq<Access>)
    ensures Versions([Access(t, true)] + b) != []
    ensures Versions([Access(t, true)] + b)[0].writer == Some(t)
  {
    var w := [Access(t, true)] + b;
    if b == [] {
      assert w[..0] == [];
    } else {
      assert w[..|w| - 1] == [Access(t, true)] + b[..|b| - 1];
      OwnVersion(t, b[..|b| - 1]);
    }
  }

  /** Producing a version is deleting the write from the order: nothing else about the list of
      versions remembers that the producer ever existed. */
  lemma {:induction false} ProduceIsRemoval(a: seq<Access>, t: Task, b: seq<Access>)
    ensures |Versions(a)| < |Versions(a + [Access(t, true)] + b)|
    ensures Versions(a + b) == Produce(Versions(a + [Access(t, true)] + b), |Versions(a)|)
  {
    var w := [Access(t, true)] + b;
    assert a + [Access(t, true)] + b == a + w;
    VersionsSplit(a, w);
    OwnVersion(t, b);
    if b == [] {
      assert a + b == a;
      assert w[..0] == [];
      ProduceUnread(Versions(a), t);
    } else {
      var b', y := b[..|b| - 1], b[|b| - 1];
      var w' := [Access(t, true)] + b';
      ProduceIsRemoval(a, t, b');
      assert a + [Access(t, true)] + b' == a + w';
      VersionsSplit(a, w');
      OwnVersion(t, b');
      assert w[..|w| - 1] == w';
      assert (a + b)[..|a + b| - 1] == a + b';
      ProduceExtend(Versions(a), Versions(w'), y);
    }
  }

  lemma ProduceUnread(ga: seq<Cell>, t: Task)
    ensures Produce(ga + [Cell(Some(t), {})], |ga|) == ga
  {
    var n := |ga|;
    if n > 0 {
      assert ga[n - 1].readers + {} == ga[n - 1].readers;
      assert ga == ga[..n - 1] + [ga[n - 1]];
    }
  }

  lemma ProduceExtend(ga: seq<Cell>, gw: seq<Cell>, y: Access)
    requires gw != []
    ensures Extend(gw, y) != []
    ensures Extend(Produce(ga + gw, |ga|), y) == Produce(ga + Extend(gw, y), |ga|)
  {
    var n := |ga|;
    if y.write || |gw| > 1 {
      assert (ga + gw)[n] == gw[0] && (ga + Extend(gw, y))[n] == gw[0];
      assert (ga + gw)[n + 1..] == gw[1..];
      assert (ga + Extend(gw, y))[n + 1..] == Extend(gw, y)[1..];
      assert |gw| > 1 ==> Extend(gw, y)[1..] == Extend(gw[1..], y);
      assert |gw| == 1 ==> Extend(gw, y)[1..] == [Cell(Some(y.task), {})];
    } else {
      assert Extend(gw, y) == [Cell(gw[0].writer, gw[0].readers + {y.task})];
      if n > 0 {
        assert Produce(ga + gw, n) == ga[..n - 1] + [Cell(ga[n - 1].writer, ga[n - 1].readers + gw[0].readers)];
        assert Produce(ga + Extend(gw, y), n)
            == ga[..n - 1] + [Cell(ga[n - 1].writer, ga[n - 1].readers + (gw[0].readers + {y.task}))];
        assert ga[n - 1].readers + (gw[0].readers + {y.task}) == ga[n - 1].readers + gw[0].readers + {y.task};
      } else {
        assert ga + gw == gw && ga + Extend(gw, y) == Extend(gw, y);
        assert y.task in gw[0].readers + {y.task};
        assert gw[0].readers == {} ==> gw[0].readers + {y.task} == {y.task};
      }
    }
  }

  /** Finishing a read that no write precedes is deleting it from the order. */
  lemma {:induction false} ConsumeIsRemoval(a: seq<Access>, t: Task, b: seq<Access>)
    requires AllReads(a) && NoDup(a + [Access(t, false)] + b)
    ensures Versions(a + [Access(t, false)] + b) != []
    ensures Versions(a + [Access(t, false)] + b)[0].writer == None
    ensures t in Versions(a + [Access(t, false)] + b)[0].readers
    ensures Versions(a + b) == Consume(Versions(a + [Access(t, false)] + b), t)
  {
    var p := a + [Access(t, false)] + b;
    if b == [] {
      assert a + b == a && p[..|p| - 1] == a;
      VersionsOfReads(a);
      VersionsShape(a);
      assert !Occurs(a, t) by {
        forall k | 0 <= k < |a| ensures a[k].task != t {
          assert p[k].task != p[|a|].task;
        }
      }
      VersionsMembers(a, t);
      assert a != [] ==> t !in Versions(a)[0].readers;
    } else {
      var b', y := b[..|b| - 1], b[|b| - 1];
      assert p[..|p| - 1] == a + [Access(t, false)] + b';
      assert (a + b)[..|a + b| - 1] == a + b';
      assert p[|p| - 1] == y && p[|a|].task == t;
      ConsumeIsRemoval(a, t, b');
      ConsumeExtend(Versions(p[..|p| - 1]), t, y);
    }
  }

  lemma ConsumeExtend(g: seq<Cell>, t: Task, y: Access)
    requires g != [] && g[0].writer == None && t in g[0].readers && y.task != t
    ensures Extend(Consume(g, t), y) == Consume(Extend(g, y), t)
  {
    if y.write {
      assert (g + [Cell(Some(y.task), {})])[1..] == g[1..] + [Cell(Some(y.task), {})];
    } else if |g| > 1 {
      assert Extend(g, y)[1..] == Extend(g[1..], y);
    } else {
      assert Extend(g, y) == [Cell(None, g[0].readers + {y.task})];
      if g[0].readers == {t} {
        assert g[0].readers + {y.task} - {t} == {y.task};
        assert y.task in g[0].readers + {y.task};
      } else {
        assert g[0].readers + {y.task} != {t};
        assert g[0].readers - {t} + {y.task} == g[0].readers + {y.task} - {t};
      }
    }
  }

  /** A read placed behind reads only joins the oldest version. */
  lemma {:induction false} JoinOldest(a: seq<Access>, t: Task, b: seq<Access>)
    requires AllReads(a) && a != []
    ensures Versions(a + b) != []
    ensures Versions(a + [Access(t, false)] + b)
         == Versions(a + b)[0 := Cell(Versions(a + b)[0].writer, Versions(a + b)[0].readers + {t})]
  {
    var p := a + [Access(t, false)] + b;
    if b == [] {
      assert a + b == a && p[..|p| - 1] == a;
      VersionsOfReads(a);
      VersionsShape(a);
    } else {
      var b', y := b[..|b| - 1], b[|b| - 1];
      assert p[..|p| - 1] == a + [Access(t, false)] + b';
      assert (a + b)[..|a + b| - 1] == a + b';
      JoinOldest(a, t, b');
      var g := Versions(a + b');
      if !y.write && |g| == 1 {
        assert g[0].readers + {t} + {y.task} == g[0].readers + {y.task} + {t};
      }
    }
  }

  /** Which tasks stop waiting when version `i` is produced: its readers if it is the oldest,
      the next producer if nobody read it, and nobody if it is folded into an unproduced one. */
  lemma ProduceUnblocks(g: seq<Cell>, i: nat, u: Task)
    requires OnePlace(g) && i < |g| && g[i].writer.Some? && g[i].writer != Some(u)
    requires forall j :: 0 < j < |g| ==> g[j].writer.Some?
    requires i > 0 ==> g[i - 1].writer.Some?
    ensures i > 0 ==> (CellBlocked(Produce(g, i), u) <==> CellBlocked(g, u))
    ensures i == 0 && g[0].readers != {} ==>
              (CellBlocked(Produce(g, i), u) <==> CellBlocked(g, u) && u !in g[0].readers)
    ensures i == 0 && g[0].readers == {} ==>
              (CellBlocked(Produce(g, i), u) <==> CellBlocked(g, u) && !(|g| > 1 && g[1].writer == Some(u)))
  {
    if i > 0 {
      FoldUnblocks(g, i, u);
    } else if g[0].readers == {} {
      DropOldest(g, u);
    } else {
      ReadableOldest(g, u);
    }
  }

  lemma FoldAt(g: seq<Cell>, i: nat)
    requires 0 < i < |g|
    ensures |Produce(g, i)| == |g| - 1
    ensures forall j :: 0 <= j < i - 1 ==> Produce(g, i)[j] == g[j]
    ensures Produce(g, i)[i - 1] == Cell(g[i - 1].writer, g[i - 1].readers + g[i].readers)
    ensures forall j :: i <= j < |g| - 1 ==> Produce(g, i)[j] == g[j + 1]
  {
  }

  lemma FoldUnblocks(g: seq<Cell>, i: nat, u: Task)
    requires 0 < i < |g| && g[i].writer.Some? && g[i].writer != Some(u)
    requires g[i - 1].writer.Some?
    ensures CellBlocked(Produce(g, i), u) <==> CellBlocked(g, u)
  {
    var h := Produce(g, i);
    FoldAt(g, i);
    if CellBlocked(g, u) {
      if r :| 0 <= r < |g| && g[r].writer.Some? && u in g[r].readers {
        var r' := if r < i then r else r - 1;
        assert h[r'].writer.Some? && u in h[r'].readers;
      } else {
        var r :| 0 < r < |g| && g[r].writer == Some(u);
        var r' := if r < i then r else r - 1;
        assert h[r'].writer == Some(u) && r' > 0;
      }
    }
    if CellBlocked(h, u) {
      if r :| 0 <= r < |h| && h[r].writer.Some? && u in h[r].readers {
        var r' := if r < i - 1 then r else if r > i - 1 then r + 1 else if u in g[i].readers then i else i - 1;
        assert g[r'].writer.Some? && u in g[r'].readers;
      } else {
        var r :| 0 < r < |h| && h[r].writer == Some(u);
        var r' := if r < i then r else r + 1;
        assert g[r'].writer == Some(u);
      }
    }
  }

  lemma DropOldest(g: seq<Cell>, u: Task)
    requires OnePlace(g) && g != [] && (u !in g[0].readers || g[0].writer.None?)
    ensures CellBlocked(g[1..], u) <==> CellBlocked(g, u) && !(|g| > 1 && g[1].writer == Some(u))
  {
    var h := g[1..];
    if CellBlocked(h, u) {
      if r :| 0 <= r < |h| && h[r].writer.Some? && u in h[r].readers {
        assert g[r + 1].writer.Some? && u in g[r + 1].readers;
      } else {
        var r :| 0 < r < |h| && h[r].writer == Some(u);
        assert g[r + 1].writer == Some(u);
      }
    }
    if CellBlocked(g, u) && !(|g| > 1 && g[1].writer == Some(u)) {
      if r :| 0 <= r < |g| && g[r].writer.Some? && u in g[r].readers {
        assert h[r - 1].writer.Some? && u in h[r - 1].readers;
      } else {
        var r :| 0 < r < |g| && g[r].writer == Some(u);
        assert h[r - 1].writer == Some(u);
      }
    }
  }

  lemma ReadableOldest(g: seq<Cell>, u: Task)
    requires OnePlace(g) && g != [] && g[0].writer != Some(u)
    requires g[0].writer.Some?
    ensures CellBlocked(g[0 := Cell(None, g[0].readers)], u) <==> CellBlocked(g, u) && u !in g[0].readers
  {
    var h := g[0 := Cell(None, g[0].readers)];
    assert forall j :: 0 < j < |g| ==> h[j] == g[j];
    if CellBlocked(g, u) && u !in g[0].readers {
      if r :| 0 <= r < |g| && g[r].writer.Some? && u in g[r].readers {
        assert h[r].writer.Some? && u in h[r].readers;
      } else {
        var r :| 0 < r < |g| && g[r].writer == Some(u);
        assert h[r].writer == Some(u);
      }
    }
  }

  /** Which tasks stop waiting when `t` finishes reading the oldest version. */
  lemma ConsumeUnblocks(g: seq<Cell>, t: Task, u: Task)
    requires OnePlace(g) && g != [] && g[0].writer == None && t in g[0].readers && t != u
    ensures g[0].readers != {t} ==> (CellBlocked(Consume(g, t), u) <==> CellBlocked(g, u))
    ensures g[0].readers == {t} ==>
              (CellBlocked(Consume(g, t), u) <==> CellBlocked(g, u) && !(|g| > 1 && g[1].writer == Some(u)))
  {
    var h := Consume(g, t);
    if g[0].readers == {t} {
      DropOldest(g, u);
    } else {
      assert forall j :: 0 < j < |g| ==> h[j] == g[j];
      assert h[0].writer == None;
    }
  }

  /** Putting a version in front of a version whose producer already runs delays nobody else. */
  lemma InsertKeepsBlocked(ga: seq<Cell>, c: Cell, gb: seq<Cell>, u: Task)
    requires gb == [] || (gb[0].writer.Some? && gb[0].writer != Some(u))
    requires u !in c.readers && c.writer != Some(u)
    ensures CellBlocked(ga + [c] + gb, u) <==> CellBlocked(ga + gb, u)
  {
    var g: seq<Cell>, g': seq<Cell>, n := ga + gb, ga + [c] + gb, |ga|;
    assert forall j :: 0 <= j < n ==> g'[j] == g[j];
    assert forall j :: n <= j < |g| ==> g'[j + 1] == g[j];
    assert g'[n] == c && (gb != [] ==> g[n] == gb[0]);
    if CellBlocked(g, u) {
      if r :| 0 <= r < |g| && g[r].writer.Some? && u in g[r].readers {
        var r' := if r < n then r else r + 1;
        assert g'[r'].writer.Some? && u in g'[r'].readers;
      } else {
        var r :| 0 < r < |g| && g[r].writer == Some(u);
        var r' := if r < n then r else r + 1;
        assert g'[r'].writer == Some(u);
      }
    }
    if CellBlocked(g', u) {
      if r :| 0 <= r < |g'| && g'[r].writer.Some? && u in g'[r].readers {
        var r' := if r < n then r else r - 1;
        assert g[r'].writer.Some? && u in g[r'].readers;
      } else {
        var r :| 0 < r < |g'| && g'[r].writer == Some(u);
        var r' := if r < n then r else r - 1;
        assert g[r'].writer == Some(u) && r' > 0;
      }
    }
  }

  lemma SameKeepsBlocked(g: seq<Cell>, g': seq<Cell>, u: Task)
    requires |g'| == |g|
    requires forall i :: 0 <= i < |g| ==> g'[i].writer == g[i].writer && (u in g'[i].readers <==> u in g[i].readers)
    ensures CellBlocked(g', u) <==> CellBlocked(g, u)
  {
  }

  /** The order after the access `x` has been put between `a` and `b`: only its own task may wait
      for more than before, exactly when an earlier access conflicts. */
  lemma PlaceBlocks(a: seq<Access>, x: Access, b: seq<Access>, u: Task)
    requires b == [] || (b[0].write && b[0].task != u)
    requires NoDup(a + [x] + b)
    ensures u != x.task ==> (CellBlocked(Versions(a + [x] + b), u) <==> CellBlocked(Versions(a + b), u))
    ensures u == x.task ==> !CellBlocked(Versions(a + b), u)
    ensures u == x.task ==> (CellBlocked(Versions(a + [x] + b), u) <==> a != [] && (x.write || !AllReads(a)))
  {
    var p := a + [x] + b;
    VersionsSplit(a, b);
    VersionsSplit(a + [x], b);
    VersionsOfAppend(a, x);
    VersionsShape(a);
    assert p[|a|] == x;
    var ga, gb := Versions(a), Versions(b);
    assert !Occurs(a + b, x.task) by {
      forall k | 0 <= k < |a + b| ensures (a + b)[k].task != x.task {
        assert (a + b)[k] == p[if k < |a| then k else k + 1];
      }
    }
    VersionsMembers(a + b, x.task);
    if a != [] {
      NewestUnproduced(a);
    }
    if b != [] {
      assert b == [Access(b[0].task, true)] + b[1..];
      OwnVersion(b[0].task, b[1..]);
    }
    VersionsShape(b);
    if u != x.task {
      PlaceKeepsBlocked(ga, x, gb, u);
    } else {
      PlaceOwnBlocked(ga, x, gb);
    }
  }

  lemma PlaceKeepsBlocked(ga: seq<Cell>, x: Access, gb: seq<Cell>, u: Task)
    requires gb == [] || (gb[0].writer.Some? && gb[0].writer != Some(u))
    requires u != x.task
    ensures CellBlocked(Extend(ga, x) + gb, u) <==> CellBlocked(ga + gb, u)
  {
    if x.write {
      InsertKeepsBlocked(ga, Cell(Some(x.task), {}), gb, u);
    } else if ga == [] {
      InsertKeepsBlocked(ga, Cell(None, {x.task}), gb, u);
      assert [] + [Cell(None, {x.task})] == [Cell(None, {x.task})];
    } else {
      SameKeepsBlocked(ga + gb, Extend(ga, x) + gb, u);
    }
  }

  lemma PlaceOwnBlocked(ga: seq<Cell>, x: Access, gb: seq<Cell>)
    requires !InVersions(ga + gb, x.task)
    ensures !CellBlocked(ga + gb, x.task)
    ensures CellBlocked(Extend(ga, x) + gb, x.task) <==> ga != [] && (x.write || ga[|ga| - 1].writer.Some?)
  {
    var g: seq<Cell>, g': seq<Cell>, n := ga + gb, Extend(ga, x) + gb, |ga|;
    assert forall i :: 0 <= i < |g| ==> x.task !in g[i].readers && g[i].writer != Some(x.task);
    assert forall i :: 0 <= i < |gb| ==> gb[i] == g[n + i];
    assert forall i :: 0 <= i < |ga| ==> ga[i] == g[i];
    if ga != [] && x.write {
      assert g'[n].writer == Some(x.task);
    } else if ga != [] && ga[n - 1].writer.Some? {
      assert g'[n - 1].writer.Some? && x.task in g'[n - 1].readers;
    }
  }
}
