/** Tasks that wait for data: `onWait` with dependences. A waiting task is entered in the newest
    unproduced version of each datum and counts those entries. */
module DependenceWaits {
  import opened Wrappers
  import opened AccessOrder
  import opened VersionList
  import opened Dependence
  import opened DependenceInv
  import opened DependenceCounts
  import opened DependenceSteps
  import opened DependenceFinish
  import opened DependenceOrder
  import opened DependenceRun

  // ----- entries of all versions together

  function WaitsAt(m: Memory, a: Address): seq<Task> {
    if a in m then m[a].dataWaitTaskByThis else []
  }

  /** How often each task is entered in some version. */
  ghost function Tally(m: Memory): multiset<Task>
    decreases |m|
  {
    if m == map[] then multiset{}
    else
      var a :| a in m;
      multiset(m[a].dataWaitTaskByThis) + Tally(m - {a})
  }

  lemma {:induction false} TallyTake(m: Memory, a: Address)
    requires a in m
    ensures Tally(m) == multiset(m[a].dataWaitTaskByThis) + Tally(m - {a})
    decreases |m|
  {
    var b :| b in m && Tally(m) == multiset(m[b].dataWaitTaskByThis) + Tally(m - {b});
    if a != b {
      TallyTake(m - {b}, a);
      TallyTake(m - {a}, b);
      assert m - {a} - {b} == m - {b} - {a};
    }
  }

  lemma {:induction false} TallyEmpty(m: Memory)
    requires forall a :: a in m ==> m[a].dataWaitTaskByThis == []
    ensures Tally(m) == multiset{}
    decreases |m|
  {
    if m != map[] {
      var a :| a in m;
      TallyTake(m, a);
      TallyEmpty(m - {a});
    }
  }

  /** Only the entries matter. */
  lemma {:induction false} TallySame(m: Memory, m': Memory)
    requires forall a :: WaitsAt(m', a) == WaitsAt(m, a)
    ensures Tally(m') == Tally(m)
    decreases |m|
  {
    if m == map[] {
      forall a | a in m' ensures m'[a].dataWaitTaskByThis == [] {
        assert WaitsAt(m', a) == WaitsAt(m, a);
      }
      TallyEmpty(m');
    } else {
      var a :| a in m;
      TallyTake(m, a);
      if a in m' {
        TallyTake(m', a);
        assert WaitsAt(m', a) == WaitsAt(m, a);
        forall b ensures WaitsAt(m' - {a}, b) == WaitsAt(m - {a}, b) {
          assert WaitsAt(m', b) == WaitsAt(m, b);
        }
        TallySame(m - {a}, m' - {a});
      } else {
        assert WaitsAt(m', a) == WaitsAt(m, a);
        forall b ensures WaitsAt(m', b) == WaitsAt(m - {a}, b) {
          assert WaitsAt(m', b) == WaitsAt(m, b);
        }
        TallySame(m - {a}, m');
      }
    }
  }

  /** The entries of one version change. */
  lemma TallyAt(m: Memory, m': Memory, v: Address)
    requires forall a :: a != v ==> WaitsAt(m', a) == WaitsAt(m, a)
    ensures Tally(m') + multiset(WaitsAt(m, v)) == Tally(m) + multiset(WaitsAt(m', v))
  {
    var n, n' := m - {v}, m' - {v};
    forall a ensures WaitsAt(n', a) == WaitsAt(n, a) {
      assert a != v ==> WaitsAt(m', a) == WaitsAt(m, a);
    }
    TallySame(n, n');
    TallyAway(m, v);
    TallyAway(m', v);
    hide Tally, WaitsAt;
  }

  lemma TallyAway(m: Memory, v: Address)
    ensures Tally(m) == Tally(m - {v}) + multiset(WaitsAt(m, v))
  {
    if v in m {
      TallyTake(m, v);
    } else {
      assert m - {v} == m;
    }
  }

  lemma TallyHas(m: Memory, a: Address, u: Task)
    requires a in m && u in m[a].dataWaitTaskByThis
    ensures Tally(m)[u] > 0
  {
    TallyTake(m, a);
    assert u in multiset(m[a].dataWaitTaskByThis);
  }

  // ----- the write after a given one

  function FirstWrite(p: seq<Access>): Option<Task> {
    if p == [] then None else if p[0].write then Some(p[0].task) else FirstWrite(p[1..])
  }

  function NextWrite(p: seq<Access>, w: Task): Option<Task> {
    if IndexOf(p, w) < |p| then FirstWrite(p[IndexOf(p, w) + 1..]) else None
  }

  lemma {:induction false} FirstWriteAt(p: seq<Access>) returns (k: nat)
    requires FirstWrite(p).Some?
    ensures k < |p| && p[k] == Access(FirstWrite(p).value, true) && AllReads(p[..k])
  {
    if p[0].write {
      k := 0;
    } else {
      k := FirstWriteAt(p[1..]);
      k := k + 1;
      assert p[..k] == [p[0]] + p[1..][..k - 1];
    }
  }

  lemma {:induction false} FirstWriteIs(p: seq<Access>, k: nat)
    requires k < |p| && p[k].write && AllReads(p[..k])
    ensures FirstWrite(p) == Some(p[k].task)
  {
    if k > 0 {
      assert p[..k][0] == p[0];
      assert p[1..][..k - 1] == p[..k][1..];
      FirstWriteIs(p[1..], k - 1);
    }
  }

  lemma {:induction false} FirstWriteNone(p: seq<Access>)
    ensures FirstWrite(p).None? <==> AllReads(p)
  {
    if p != [] && !p[0].write {
      FirstWriteNone(p[1..]);
      if AllReads(p[1..]) {
        assert forall k :: 0 <= k < |p| ==> p[k] == if k == 0 then p[0] else p[1..][k - 1];
      } else {
        var k :| 0 <= k < |p| - 1 && p[1..][k].write;
        assert p[k + 1].write;
      }
    }
  }

  lemma {:induction false} FirstWriteInsert(p: seq<Access>, k: nat, x: Access)
    requires k <= |p|
    ensures FirstWrite(Insert(p, k, x)) == FirstWrite(p) || (x.write && FirstWrite(Insert(p, k, x)) == Some(x.task))
  {
    var q := Insert(p, k, x);
    if k == 0 {
      assert q[1..] == p;
    } else {
      assert q[0] == p[0] && q[1..] == Insert(p[1..], k - 1, x);
      FirstWriteInsert(p[1..], k - 1, x);
    }
  }

  lemma {:induction false} FirstWriteRemove(a: seq<Access>, x: Access, b: seq<Access>)
    ensures FirstWrite(a + b) == FirstWrite(a + [x] + b) || (x.write && FirstWrite(a + [x] + b) == Some(x.task))
    ensures x.write && FirstWrite(a + [x] + b) == Some(x.task) && (forall i :: 0 <= i < |a| ==> a[i].task != x.task) ==>
              FirstWrite(a + b) == FirstWrite(b)
  {
    if a == [] {
      assert a + b == b && a + [x] + b == [x] + b && ([x] + b)[1..] == b;
    } else {
      assert (a + b)[1..] == a[1..] + b && (a + [x] + b)[1..] == a[1..] + [x] + b;
      FirstWriteRemove(a[1..], x, b);
    }
  }

  /** A new access changes the write after another one only by being it. */
  lemma NextWriteInsert(p: seq<Access>, k: nat, x: Access, w: Task)
    requires k <= |p| && w != x.task
    ensures NextWrite(Insert(p, k, x), w) == NextWrite(p, w)
            || (x.write && NextWrite(Insert(p, k, x), w) == Some(x.task))
  {
    hide FirstWrite, IndexOf;
    var q, i := Insert(p, k, x), IndexOf(p, w);
    assert q[k] == x;
    if i < |p| {
      if i < k {
        IndexIs(q, i, w);
        assert q[i + 1..] == Insert(p[i + 1..], k - i - 1, x);
        FirstWriteInsert(p[i + 1..], k - i - 1, x);
      } else {
        IndexIs(q, i + 1, w);
        assert q[i + 2..] == p[i + 1..];
      }
    } else {
      assert forall j :: 0 <= j < |q| ==> q[j].task != w;
    }
  }

  lemma IndexIs(p: seq<Access>, k: nat, t: Task)
    requires k < |p| && p[k].task == t && forall j :: 0 <= j < k ==> p[j].task != t
    ensures IndexOf(p, t) == k
  {
  }

  /** The write after `w`, once the access of `t` has gone. */
  lemma NextWriteWithout(p: seq<Access>, t: Task, w: Task)
    requires NoDup(p) && w != t
    ensures NextWrite(p, w) != Some(t) ==> NextWrite(Without(p, t), w) == NextWrite(p, w)
    ensures NextWrite(p, w) == Some(t) && Does(p, t, true) ==> NextWrite(Without(p, t), w) == NextWrite(p, t)
  {
    hide NoDup, FirstWrite, IndexOf;
    var q, i, k := Without(p, t), IndexOf(p, w), IndexOf(p, t);
    if k < |p| {
      if i == |p| {
        assert forall j :: 0 <= j < |q| ==> q[j] == p[if j < k then j else j + 1];
        assert forall j :: 0 <= j < |q| ==> q[j].task != w;
      } else if i < k {
        assert p == p[..i] + [p[i]] + (p[i + 1..k] + [p[k]] + p[k + 1..]);
        WriteBefore(p[..i], p[i], p[i + 1..k], p[k], p[k + 1..]);
      } else {
        assert forall j :: 0 <= j < |q| ==> q[j] == p[if j < k then j else j + 1];
        IndexIs(q, i - 1, w);
        assert q[i..] == p[i + 1..];
        NotAfter(p, i, t);
      }
    }
  }

  lemma WriteBefore(l: seq<Access>, x: Access, a: seq<Access>, y: Access, b: seq<Access>)
    requires (forall j :: 0 <= j < |l| ==> l[j].task != x.task && l[j].task != y.task) && x.task != y.task
    requires forall j :: 0 <= j < |a| ==> a[j].task != y.task
    ensures var p := l + [x] + (a + [y] + b); var q, w, t := Without(p, y.task), x.task, y.task;
            && (NextWrite(p, w) != Some(t) ==> NextWrite(q, w) == NextWrite(p, w))
            && (NextWrite(p, w) == Some(t) && y.write ==> NextWrite(q, w) == NextWrite(p, t))
  {
    hide FirstWrite, IndexOf, NextWrite, Without;
    var p := l + [x] + (a + [y] + b);
    NextWriteOf(l, x, a + [y] + b);
    assert p == (l + [x] + a) + [y] + b;
    NextWriteOf(l + [x] + a, y, b);
    WithoutOf(l + [x] + a, y, b);
    assert (l + [x] + a) + b == l + [x] + (a + b);
    NextWriteOf(l, x, a + b);
    FirstWriteRemove(a, y, b);
  }

  lemma NextWriteOf(l: seq<Access>, x: Access, r: seq<Access>)
    requires forall j :: 0 <= j < |l| ==> l[j].task != x.task
    ensures NextWrite(l + [x] + r, x.task) == FirstWrite(r)
  {
    var p := l + [x] + r;
    IndexIs(p, |l|, x.task);
    assert p[|l| + 1..] == r;
  }

  lemma WithoutOf(l: seq<Access>, x: Access, r: seq<Access>)
    requires forall j :: 0 <= j < |l| ==> l[j].task != x.task
    ensures Without(l + [x] + r, x.task) == l + r
  {
    var p := l + [x] + r;
    IndexIs(p, |l|, x.task);
    assert p[..|l|] == l && p[|l| + 1..] == r;
  }

  lemma NotAfter(p: seq<Access>, i: nat, t: Task)
    requires NoDup(p) && IndexOf(p, t) < i < |p|
    ensures FirstWrite(p[i + 1..]) != Some(t)
  {
    if FirstWrite(p[i + 1..]) == Some(t) {
      var k := FirstWriteAt(p[i + 1..]);
    }
  }

  /** The write after another one has a conflicting access before it. */
  lemma NextWriteBlocked(p: seq<Access>, w: Task)
    requires Does(p, w, true) && NextWrite(p, w).Some?
    ensures Blocked(p, NextWrite(p, w).value)
  {
    var i := IndexOf(p, w);
    var k := FirstWriteAt(p[i + 1..]);
    assert p[i + 1 + k] == p[i + 1..][k];
    assert Conflict(p[i], p[i + 1 + k]);
  }

  /** Neighbouring versions have neighbouring writes. */
  lemma {:induction false} NextCell(p: seq<Access>, i: nat, x: Task)
    requires NoDup(p) && i + 1 < |Versions(p)| && Versions(p)[i].writer == Some(x)
    ensures NextWrite(p, x) == Versions(p)[i + 1].writer
  {
    VersionsShape(p);
    var t := Versions(p)[i + 1].writer.value;
    var k := WriterPlace(p, i + 1, t);
    var j := WriterPlace(p, i, x);
    IndexUnique(p, j);
    PrefixCount(p, j, k);
    var a := p[j + 1..k];
    if !AllReads(a) {
      var n :| 0 <= n < |a| && a[n].write;
      assert p[j + 1 + n].write;
      PrefixGrows(p, j, j + 1 + n);
      PrefixGrows(p, j + 1 + n, k);
      assert false;
    }
    assert p[j + 1..][..k - j - 1] == a && p[j + 1..][k - j - 1] == p[k];
    FirstWriteIs(p[j + 1..], k - j - 1);
  }

  lemma PrefixCount(p: seq<Access>, j: nat, k: nat)
    requires j < |p| && k < |p| && |Versions(p[..j])| < |Versions(p[..k])|
    ensures j < k
  {
    if k <= j {
      PrefixMonotone(p, k, j);
    }
  }

  lemma {:induction false} PrefixMonotone(p: seq<Access>, j: nat, k: nat)
    requires j <= k <= |p|
    ensures |Versions(p[..j])| <= |Versions(p[..k])|
    decreases k
  {
    if j < k {
      assert p[..k][..k - 1] == p[..k - 1];
      PrefixMonotone(p, j, k - 1);
    }
  }

  lemma PrefixGrows(p: seq<Access>, j: nat, k: nat)
    requires j < k <= |p| && p[j].write
    ensures |Versions(p[..j])| < |Versions(p[..k])|
  {
    assert p[..j + 1][..j] == p[..j];
    PrefixMonotone(p, j + 1, k);
  }

  // ----- entries are where a waiting task will be found

  /** The write of `w` comes before the one of `u`, if `u` has one, and is not the same. */
  ghost predicate BeforeOwn(p: seq<Access>, w: Task, u: Task) {
    w != u && (Does(p, u, true) ==> IndexOf(p, w) < IndexOf(p, u))
  }

  /** The write of `w` is one for `u` to wait for, and the write after it cannot be in progress, unless it
      is the one of the waiting task itself. */
  ghost predicate NextFree(p: seq<Access>, w: Task, rel: set<Task>, u: Task) {
    && (NextWrite(p, w).None? || NextWrite(p, w).value !in rel || NextWrite(p, w).value == u)
    && BeforeOwn(p, w, u)
  }

  lemma BeforeInsert(p: seq<Access>, k: nat, x: Access, w: Task, u: Task)
    requires k <= |p| && BeforeOwn(p, w, u) && w != x.task && u != x.task
    ensures BeforeOwn(Insert(p, k, x), w, u)
  {
    hide Insert;
    IndexInsert(p, k, x, w);
    IndexInsert(p, k, x, u);
    InsertLength(p, k, x);
  }

  lemma BeforeWithout(p: seq<Access>, t: Task, w: Task, u: Task)
    requires NoDup(p) && BeforeOwn(p, w, u) && w != t && u != t
    ensures BeforeOwn(Without(p, t), w, u)
  {
    hide NoDup;
    if Does(Without(p, t), u, true) {
      OccursIn(p, t, u);
      hide Without;
      IndexWithout(p, t, u);
      IndexWithout(p, t, w);
    }
  }

  lemma OccursIn(p: seq<Access>, t: Task, u: Task)
    requires IndexOf(Without(p, t), u) < |Without(p, t)|
    ensures IndexOf(p, u) < |p|
  {
    var q, k := Without(p, t), IndexOf(p, t);
    var j := IndexOf(q, u);
    assert q[j] == p[if k < |p| && j >= k then j + 1 else j];
  }

  /** Whatever is behind a write is also behind the write just before it. */
  lemma BeforePassed(p: seq<Access>, t: Task, x: Task, u: Task)
    requires NoDup(p) && BeforeOwn(p, t, u) && x != t && NextWrite(p, x) == Some(t) && Does(p, x, true)
    ensures BeforeOwn(p, x, u) && Does(p, t, true) && IndexOf(p, x) < IndexOf(p, t)
  {
    var i := IndexOf(p, x);
    var k := FirstWriteAt(p[i + 1..]);
    assert p[i + 1 + k] == p[i + 1..][k] == Access(t, true);
    IndexUnique(p, i + 1 + k);
  }

  /** Task `u` is entered in version `c`. */
  ghost predicate Entry(s: State, h: Shadow, c: Address, u: Task)
    requires c in s.versions
  {
    && u < |s.tasks| && u in s.released && u !in h.done
    && c !in s.versionTrashcan && s.versions[c].status.IDLE? && s.versions[c].myProducer.Some?
    && NextFree(Pending(h, s.versions[c].signature), s.versions[c].myProducer.value, s.released, u)
  }

  ghost predicate Entries(s: State, h: Shadow) {
    forall c, u :: c in s.versions && u in s.versions[c].dataWaitTaskByThis ==> Entry(s, h, c, u)
  }

  ghost predicate Tallied(s: State) {
    forall u :: 0 <= u < |s.tasks| ==> s.tasks[u].waitDep == Tally(s.versions)[u]
  }

  /** The producer of a live unproduced version has its write in the order. */
  lemma ProducerDoes(s: State, h: Shadow, c: Address, except: set<Task>)
    requires Core(s, h, {}, except) && c in s.versions && c !in s.versionTrashcan
    requires s.versions[c].status.IDLE? && s.versions[c].myProducer.Some?
    ensures var d := s.versions[c].signature;
            d in h.pend && NoDup(h.pend[d]) && Does(h.pend[d], s.versions[c].myProducer.value, true)
  {
    hide Versions, Counts, Holdings, Linked, Matches, Free, NoDup;
    var d, w := s.versions[c].signature, s.versions[c].myProducer.value;
    NotRoot(s, h, c, w);
    var i := Whereabouts(s, h, c);
    hide Structure, Trash;
    VersionsShape([]);
    assert d in h.pend && NoDup(h.pend[d]);
    hide Accesses;
    var k := WriterPlace(h.pend[d], i, w);
    IndexUnique(h.pend[d], k);
  }

  /** The same tasks are entered in the same versions. */
  ghost predicate SameEntries(s: State, s': State) {
    && (forall a :: WaitsAt(s'.versions, a) == WaitsAt(s.versions, a))
    && (forall c :: c in s.versions && s.versions[c].dataWaitTaskByThis != [] ==>
          && c in s'.versions && s'.versions[c].status == s.versions[c].status
          && s'.versions[c].myProducer == s.versions[c].myProducer
          && s'.versions[c].signature == s.versions[c].signature
          && (c in s'.versionTrashcan ==> c in s.versionTrashcan))
  }

  lemma EntriesKept(s: State, h: Shadow, s': State, h': Shadow)
    requires Entries(s, h) && SameEntries(s, s') && |s.tasks| <= |s'.tasks| && s.released <= s'.released
    requires forall c, u :: c in s.versions && u in s.versions[c].dataWaitTaskByThis ==>
               u !in h'.done && NextFree(Pending(h', s.versions[c].signature), s.versions[c].myProducer.value,
                 s'.released, u)
    ensures Entries(s', h')
  {
    hide NextFree;
    forall c, u | c in s'.versions && u in s'.versions[c].dataWaitTaskByThis ensures Entry(s', h', c, u) {
      assert WaitsAt(s'.versions, c) == WaitsAt(s.versions, c);
      assert Entry(s, h, c, u);
    }
  }

  lemma TalliedKept(s: State, s': State)
    requires Tallied(s) && SameEntries(s, s') && |s'.tasks| == |s.tasks|
    requires forall u :: 0 <= u < |s.tasks| ==> s'.tasks[u].waitDep == s.tasks[u].waitDep
    ensures Tallied(s')
  {
    TallySame(s.versions, s'.versions);
  }

  // ----- a new access

  lemma PlaceIsInsert(p: seq<Access>, parent: Option<Task>, x: Access) returns (k: nat)
    ensures k <= |p| && Place(p, parent, x) == Insert(p, k, x)
  {
    if parent.Some? && Does(p, parent.value, true) {
      k := IndexOf(p, parent.value);
    } else if parent.Some? && !x.write && Does(p, parent.value, false) {
      k := IndexOf(p, parent.value) + 1;
    } else {
      k := |p|;
      assert p + [x] == Insert(p, |p|, x);
    }
  }

  lemma NextFreePlaced(p: seq<Access>, parent: Option<Task>, x: Access, w: Task, rel: set<Task>, u: Task)
    requires NextFree(p, w, rel, u) && w != x.task && u != x.task && x.task !in rel
    ensures NextFree(Place(p, parent, x), w, rel, u)
  {
    hide NextWrite, Insert, Place, BeforeOwn;
    var k := PlaceIsInsert(p, parent, x);
    NextWriteInsert(p, k, x, w);
    BeforeInsert(p, k, x, w, u);
  }

  lemma NextFreeSpread(p: seq<Access>, parent: Option<Task>, t: Task, d: Signature, ins: seq<Signature>,
      outs: seq<Signature>, w: Task, rel: set<Task>, u: Task)
    requires NextFree(p, w, rel, u) && w != t && u != t && t !in rel
    ensures NextFree(Spread(p, parent, t, d, ins, outs), w, rel, u)
  {
    hide NextFree, Place;
    NextFreePlaced(p, parent, Access(t, true), w, rel, u);
    NextFreePlaced(p, parent, Access(t, false), w, rel, u);
  }

  /** Registering the accesses of a new task leaves all entries in order. */
  lemma SpreadEntries(s: State, h: Shadow, s': State, h': Shadow, parent: Option<Task>, t: Task, ins: seq<Signature>,
      outs: seq<Signature>)
    requires Core(s, h, {}, {}) && Entries(s, h) && SameEntries(s, s') && |s'.tasks| == |s.tasks|
             && s'.released == s.released
    requires h'.done == h.done && t !in s.released && (forall d :: !Occurs(Pending(h, d), t))
    requires SpreadOver(h, h', parent, t, ins, outs)
    ensures Entries(s', h')
  {
    hide Core, SameEntries, NextFree, Spread, Occurs, Does;
    forall c, u | c in s.versions && u in s.versions[c].dataWaitTaskByThis
      ensures u !in h'.done && NextFree(Pending(h', s.versions[c].signature), s.versions[c].myProducer.value,
              s'.released, u)
    {
      assert Entry(s, h, c, u);
      var d, w := s.versions[c].signature, s.versions[c].myProducer.value;
      ProducerDoes(s, h, c, {});
      DoesOccurs(h.pend[d], w);
      assert !Occurs(Pending(h, d), t);
      NextFreeSpread(Pending(h, d), parent, t, d, ins, outs, w, s.released, u);
      assert Pending(h', d) == Spread(Pending(h, d), parent, t, d, ins, outs);
    }
    EntriesKept(s, h, s', h');
  }

  lemma DoesOccurs(p: seq<Access>, t: Task)
    requires Does(p, t, true) || Does(p, t, false)
    ensures Occurs(p, t)
  {
    assert p[IndexOf(p, t)].task == t;
  }

  lemma ConsumerEntries(s: State, v: Address, t: Task, nest: NestType, block: Address)
    requires Known(s.versions, v) && t < |s.tasks| && block !in s.versions
    requires forall c, u :: c in s.versions && u in s.versions[c].dataWaitTaskByThis ==> s.versions[c].status.IDLE?
    ensures SameEntries(s, AddConsumer(s, v, t, nest, block))
    ensures var s' := AddConsumer(s, v, t, nest, block);
            |s'.tasks| == |s.tasks| && forall u :: 0 <= u < |s.tasks| ==> s'.tasks[u].waitDep == s.tasks[u].waitDep
  {
    forall c | c in s.versions && s.versions[c].dataWaitTaskByThis != [] ensures s.versions[c].status.IDLE? {
      assert s.versions[c].dataWaitTaskByThis[0] in s.versions[c].dataWaitTaskByThis;
    }
  }

  lemma ProducerEntries(s: State, v: Address, t: Task, block: Address)
    requires Known(s.versions, v) && t < |s.tasks| && block !in s.versions && s.versions[v].last != Some(v)
    ensures SameEntries(s, AddProducer(s, v, t, block))
    ensures var s' := AddProducer(s, v, t, block);
            |s'.tasks| == |s.tasks| && forall u :: 0 <= u < |s.tasks| ==> s'.tasks[u].waitDep == s.tasks[u].waitDep
  {
    ProducerSameEntries(s, v, t, block);
    hide SameEntries, Produced;
  }

  lemma ProducerSameEntries(s: State, v: Address, t: Task, block: Address)
    requires Known(s.versions, v) && t < |s.tasks| && block !in s.versions && s.versions[v].last != Some(v)
    ensures SameEntries(s, AddProducer(s, v, t, block))
  {
    var s' := AddProducer(s, v, t, block);
    assert s'.versionTrashcan == s.versionTrashcan && s'.versions == Produced(s.versions, v, t, block);
    hide AddProducer;
  }

  // ----- releasing

  /** Tasks that wait for nothing are nobody's next write. */
  lemma ReleasedEntries(s: State, h: Shadow, s': State)
    requires Core(s, h, {}, {}) && Entries(s, h) && SameEntries(s, s') && |s'.tasks| == |s.tasks|
             && s.released <= s'.released
    requires forall n :: n in s'.released && n !in s.released ==> DepSet(h.pend, n) == {}
    ensures Entries(s', h)
  {
    hide Core, SameEntries, DepSet, Does, NextWrite;
    forall c, u | c in s.versions && u in s.versions[c].dataWaitTaskByThis
      ensures u !in h.done
      ensures NextFree(Pending(h, s.versions[c].signature), s.versions[c].myProducer.value, s'.released, u)
    {
      assert Entry(s, h, c, u);
      var d, w := s.versions[c].signature, s.versions[c].myProducer.value;
      ProducerDoes(s, h, c, {});
      if NextWrite(h.pend[d], w).Some? {
        NextWriteBlocked(h.pend[d], w);
        CoreAccesses(s, h);
        WaitsIff(s, h, d, NextWrite(h.pend[d], w).value);
      }
    }
    EntriesKept(s, h, s', h);
  }

  // ----- completion

  /** Nothing about the entries changes except in version `v`. */
  ghost predicate SameButOne(s: State, s': State, v: Address) {
    && (forall a :: a != v ==> WaitsAt(s'.versions, a) == WaitsAt(s.versions, a))
    && (forall c :: c in s.versions && c != v && s.versions[c].dataWaitTaskByThis != [] ==>
          && c in s'.versions && s'.versions[c].status == s.versions[c].status
          && s'.versions[c].myProducer == s.versions[c].myProducer
          && s'.versions[c].signature == s.versions[c].signature
          && (c in s'.versionTrashcan ==> c in s.versionTrashcan))
  }

  /** Version `v` of finishing task `t` is passed on to `x`, whose write is the one before. */
  ghost predicate PassedOn(s: State, h: Shadow, s': State, v: Address, d: Signature, t: Task, x: Task) {
    && v in s.versions && v in s'.versions && d in h.pend
    && s'.versions[v].dataWaitTaskByThis == s.versions[v].dataWaitTaskByThis
    && s.versions[v].signature == d && s'.versions[v].signature == d && s.versions[v].myProducer == Some(t)
    && s'.versions[v].myProducer == Some(x) && s'.versions[v].status.IDLE? && v !in s'.versionTrashcan
    && x != t && NextWrite(h.pend[d], x) == Some(t) && Does(h.pend[d], t, true) && Does(h.pend[d], x, true)
    && NoDup(h.pend[d])
  }

  lemma FinishedNext(s: State, h: Shadow, s': State, h': Shadow, d: Signature, t: Task, e: Signature, w: Task,
      n: Option<Task>, u: Task)
    requires Core(s', h', {}, {t}) && t < |s.tasks| && FinishedIn(s, h, s', h', d, t) && Unblocked(s, s', h')
    requires e in h'.pend && Does(h'.pend[e], w, true) && NextWrite(h'.pend[e], w) == n && BeforeOwn(h'.pend[e], w, u)
    requires n.None? || n.value !in s.released || n.value == u
    ensures NextFree(h'.pend[e], w, s'.released, u)
  {
    hide Core, DepSet, NextWrite, Does, Blocked, BeforeOwn;
    if n.Some? {
      NextWriteBlocked(h'.pend[e], w);
      CoreAccess(s', h', {t});
      WaitsIff(s', h', e, n.value);
    }
  }

  lemma CoreAccess(s: State, h: Shadow, except: set<Task>)
    requires Core(s, h, {}, except)
    ensures Accesses(s, h)
  {
  }

  lemma FinishedEntry(s: State, h: Shadow, s': State, h': Shadow, d: Signature, t: Task, c: Address, u: Task)
    requires Core(s, h, {}, {t}) && t < |s.tasks| && t in s.released && FinishedIn(s, h, s', h', d, t)
             && Unblocked(s, s', h')
    requires c in s.versions && Entry(s, h, c, u) && u != t
    requires c in s'.versions && c !in s'.versionTrashcan && s'.versions[c].status.IDLE?
    requires s'.versions[c].myProducer == s.versions[c].myProducer
             && s'.versions[c].signature == s.versions[c].signature
    ensures Entry(s', h', c, u)
  {
    hide Core, DepSet, NextWrite, Does, Blocked, NoDup, Without, Occurs, Unblocked, BeforeOwn;
    var e, w := s.versions[c].signature, s.versions[c].myProducer.value;
    ProducerDoes(s, h, c, {t});
    ProducerDoes(s', h', c, {t});
    if e == d {
      DoesOccurs(h'.pend[d], w);
      OccursWithout(h.pend[d], t, w);
      NextWriteWithout(h.pend[d], t, w);
      BeforeWithout(h.pend[d], t, w, u);
    }
    FinishedNext(s, h, s', h', d, t, e, w, NextWrite(h.pend[e], w), u);
  }

  lemma PassedEntry(s: State, h: Shadow, s': State, h': Shadow, d: Signature, t: Task, x: Task, c: Address, u: Task)
    requires Core(s, h, {}, {t}) && t < |s.tasks| && t in s.released && FinishedIn(s, h, s', h', d, t)
             && Unblocked(s, s', h')
    requires c in s.versions && Entry(s, h, c, u) && u != t && PassedOn(s, h, s', c, d, t, x)
    ensures Entry(s', h', c, u)
  {
    hide Core, DepSet, NextWrite, Does, Blocked, NoDup, Without, Occurs, Unblocked, BeforeOwn;
    ProducerDoes(s', h', c, {t});
    NextWriteWithout(h.pend[d], t, x);
    BeforePassed(h.pend[d], t, x, u);
    BeforeWithout(h.pend[d], t, x, u);
    FinishedNext(s, h, s', h', d, t, d, x, NextWrite(h.pend[d], t), u);
  }

  /** A step of a finishing task that is not waiting itself leaves all entries in order. */
  lemma FinishedEntries(s: State, h: Shadow, s': State, h': Shadow, d: Signature, t: Task, v: Address, x: Option<Task>)
    requires Core(s, h, {}, {t}) && t < |s.tasks| && t in s.released && t !in h.done
    requires FinishedIn(s, h, s', h', d, t) && Unblocked(s, s', h') && Entries(s, h) && SameButOne(s, s', v)
    requires forall c :: c in s.versions ==> t !in s.versions[c].dataWaitTaskByThis
    requires WaitsAt(s'.versions, v) == [] || (x.Some? && PassedOn(s, h, s', v, d, t, x.value))
    ensures Entries(s', h')
  {
    hide Core, DepSet, NextWrite, Does, Blocked, NoDup, Without, Occurs, Unblocked, FinishedIn, NextFree;
    forall c, u | c in s'.versions && u in s'.versions[c].dataWaitTaskByThis ensures Entry(s', h', c, u) {
      if c != v {
        assert WaitsAt(s'.versions, c) == WaitsAt(s.versions, c);
        assert Entry(s, h, c, u);
        FinishedEntry(s, h, s', h', d, t, c, u);
      } else {
        assert WaitsAt(s'.versions, v) != [];
        assert Entry(s, h, c, u);
        PassedEntry(s, h, s', h', d, t, x.value, c, u);
      }
    }
  }

  /** `onConsumed` meets no entries. */
  lemma ConsumedEntries(s: State, h: Shadow, v: Address, t: Task)
    requires Entries(s, h) && v in s.versions && Owed(s, Next(s.versions[v])) && !s.versions[v].status.IDLE?
    ensures SameButOne(s, OnConsumed(s, v, t), v) && WaitsAt(OnConsumed(s, v, t).versions, v) == []
    ensures var s' := OnConsumed(s, v, t);
            && SameEntries(s, s') && |s'.tasks| == |s.tasks|
            && forall u :: 0 <= u < |s.tasks| ==> s'.tasks[u].waitDep == s.tasks[u].waitDep
  {
    NoEntries(s, h, v);
  }

  lemma NoEntries(s: State, h: Shadow, v: Address)
    requires Entries(s, h) && v in s.versions
             && (!s.versions[v].status.IDLE? || v in s.versionTrashcan || s.versions[v].myProducer.None?)
    ensures s.versions[v].dataWaitTaskByThis == []
  {
    hide Entries;
    var us := s.versions[v].dataWaitTaskByThis;
    if us != [] {
      EntryThere(s, h, v, us[0]);
    }
  }

  lemma FirstIn(us: seq<Task>)
    ensures us == [] || exists u :: u in us
  {
    if us != [] {
      assert us[0] in us;
    }
  }

  lemma EntryThere(s: State, h: Shadow, v: Address, u: Task)
    requires Entries(s, h) && v in s.versions && u in s.versions[v].dataWaitTaskByThis
    ensures s.versions[v].status.IDLE? && v !in s.versionTrashcan && s.versions[v].myProducer.Some?
  {
    assert Entry(s, h, v, u);
  }

  /** `onProduced` without merging takes the waiting tasks out of the version. */
  lemma ProducedEntries(s: State, v: Address)
    requires CanProduce(s, v) && !Merges(s.versions, v)
    ensures SameButOne(s, OnProduced(s, v), v) && WaitsAt(OnProduced(s, v).versions, v) == []
    ensures var s' := OnProduced(s, v);
            && |s'.tasks| == |s.tasks|
            && forall u :: 0 <= u < |s.tasks| ==>
                 s'.tasks[u].waitDep == s.tasks[u].waitDep - Waits(s.versions[v].dataWaitTaskByThis, u)
  {
  }

  lemma ProducedTally(s: State, v: Address)
    requires CanProduce(s, v) && !Merges(s.versions, v) && Tallied(s)
    ensures Tallied(OnProduced(s, v))
  {
    hide OnProduced;
    ProducedEntries(s, v);
    var s' := OnProduced(s, v);
    TallyAt(s.versions, s'.versions, v);
    forall u | 0 <= u < |s'.tasks| ensures s'.tasks[u].waitDep == Tally(s'.versions)[u] {
      assert (Tally(s'.versions) + multiset(WaitsAt(s.versions, v)))[u]
        == (Tally(s.versions) + multiset(WaitsAt(s'.versions, v)))[u];
    }
  }

  /** Merging an unproduced child moves no entries, because the child has none. */
  lemma MergedEntries(s: State, v: Address)
    requires CanProduce(s, v) && Merges(s.versions, v)
    requires var c := s.versions[v].last.value;
             s.versions[c].status.IDLE? && s.versions[c].dataWaitTaskByThis == [] && c != v
    ensures SameButOne(s, OnProduced(s, v), v)
    ensures var s' := OnProduced(s, v); var c := s.versions[v].last.value;
            && |s'.tasks| == |s.tasks| && v in s'.versions
            && (forall a :: WaitsAt(s'.versions, a) == WaitsAt(s.versions, a))
            && s'.versions[v].signature == s.versions[v].signature
            && s'.versions[v].myProducer == s.versions[c].myProducer && s'.versions[v].status.IDLE?
            && s'.versionTrashcan == s.versionTrashcan + [c]
            && forall u :: 0 <= u < |s.tasks| ==> s'.tasks[u].waitDep == s.tasks[u].waitDep
  {
  }

  lemma MergedTally(s: State, v: Address)
    requires CanProduce(s, v) && Merges(s.versions, v) && Tallied(s)
    requires var c := s.versions[v].last.value;
             s.versions[c].status.IDLE? && s.versions[c].dataWaitTaskByThis == [] && c != v
    ensures Tallied(OnProduced(s, v))
  {
    hide OnProduced;
    MergedEntries(s, v);
    TallySame(s.versions, OnProduced(s, v).versions);
  }

  /** The newest child of a finishing producer: its write is the one in front of the parent's, and
      nobody but the parent could be entered in it. */
  lemma ChildBefore(s: State, h: Shadow, d: Signature, t: Task, v: Address)
    requires Core(s, h, {}, {t}) && d !in h.dead && v in OutsOf(s, t) && s.versions[v].signature == d && t in s.released
             && t < |s.tasks|
    requires Mergeable(Pending(h, d), t) && CanProduce(s, v) && Merges(s.versions, v)
    ensures var c := s.versions[v].last.value;
            && c != v && s.versions[c].status.IDLE? && s.versions[c].myProducer.Some?
            && s.versions[c].myProducer != Some(t)
            && s.versions[c].signature == d && d in h.pend
            && NextWrite(h.pend[d], s.versions[c].myProducer.value) == Some(t)
            && Does(h.pend[d], t, true) && NoDup(h.pend[d])
  {
    hide Versions, Counts, Holdings, Trash, Mergeable, InsOf, CanProduce, Linked, Matches, Structure, NoDup, Accesses,
      NextWrite;
    FinishReady(s, h, d, t, v);
    hide OutsOf;
    var p, k := h.pend[d], IndexOf(h.pend[d], t);
    ProducingNode(s, h, d, p[..k], t, p[k + 1..], v);
    MergingNode(s, h, d, p[..k], t, p[k + 1..], v);
    NodeCell(s, h, d, |Versions(p[..k])| - 1);
    AccessesNoDup(s, h, d);
    NextCell(p, |Versions(p[..k])| - 1, s.versions[s.versions[v].last.value].myProducer.value);
  }

  lemma NodeCell(s: State, h: Shadow, d: Signature, i: nat)
    requires d in h.lists && d in h.pend && i < |h.lists[d]|
             && Matches(s.versions, h.lists[d], Versions(h.pend[d]), s.released)
    ensures i < |Versions(h.pend[d])| && h.lists[d][i] in s.versions
    ensures CellMatch(s.versions[h.lists[d][i]], Versions(h.pend[d]), i, s.released)
  {
  }

  // ----- what a waiting task waits for

  /** A task called `wait` on a datum when `writers` were the unfinished writes to wait for. */
  datatype WaitRecord = WaitRecord(task: Task, datum: Signature, writers: set<Task>)

  ghost predicate NotAfterWrite(p: seq<Access>, w: Task, y: Task) {
    Does(p, w, true) && Does(p, y, true) && IndexOf(p, w) <= IndexOf(p, y)
  }

  /** The entry in version `c` is still there for every write of the record that is not over. */
  ghost predicate HonouredBy(s: State, h: Shadow, over: set<Task>, r: WaitRecord, c: Address) {
    && c in s.versions && s.versions[c].signature == r.datum && r.task in s.versions[c].dataWaitTaskByThis
    && s.versions[c].myProducer.Some?
    && forall w :: w in r.writers && w !in over
         ==> NotAfterWrite(Pending(h, r.datum), w, s.versions[c].myProducer.value)
  }

  ghost predicate Honoured(s: State, h: Shadow, over: set<Task>, r: WaitRecord) {
    r.writers <= over || exists c :: HonouredBy(s, h, over, r, c)
  }

  /** `over` are the finished tasks and the one that is finishing. */
  ghost predicate WaitsOk(s: State, h: Shadow, over: set<Task>, rs: set<WaitRecord>) {
    Entries(s, h) && Tallied(s) && forall r :: r in rs ==> Honoured(s, h, over, r)
  }

  lemma OrderInsert(p: seq<Access>, k: nat, x: Access, w: Task, y: Task)
    requires k <= |p| && NotAfterWrite(p, w, y) && !Occurs(p, x.task)
    ensures NotAfterWrite(Insert(p, k, x), w, y)
  {
    hide Insert;
    assert p[IndexOf(p, w)].task == w && p[IndexOf(p, y)].task == y;
    IndexInsert(p, k, x, w);
    IndexInsert(p, k, x, y);
    assert |Insert(p, k, x)| == |p| + 1 by {
      InsertLength(p, k, x);
    }
  }

  lemma InsertLength(p: seq<Access>, k: nat, x: Access)
    requires k <= |p|
    ensures |Insert(p, k, x)| == |p| + 1
  {
  }

  lemma IndexWithout(p: seq<Access>, t: Task, w: Task)
    requires NoDup(p) && w != t && IndexOf(p, w) < |p|
    ensures var i, k, q := IndexOf(p, w), IndexOf(p, t), Without(p, t);
            IndexOf(q, w) == (if i < k then i else i - 1) && IndexOf(q, w) < |q| && q[IndexOf(q, w)] == p[i]
  {
    var i, k, q := IndexOf(p, w), IndexOf(p, t), Without(p, t);
    if k < |p| {
      assert forall j :: 0 <= j < |q| ==> q[j] == p[if j < k then j else j + 1];
      IndexIs(q, if i < k then i else i - 1, w);
    }
  }

  lemma OrderWithout(p: seq<Access>, t: Task, w: Task, y: Task)
    requires NoDup(p) && NotAfterWrite(p, w, y) && w != t && y != t
    ensures NotAfterWrite(Without(p, t), w, y)
  {
    hide Without, NoDup;
    IndexWithout(p, t, w);
    IndexWithout(p, t, y);
  }

  /** Whatever write is before that of `t` is not after the write just before it. */
  lemma OrderPassed(p: seq<Access>, t: Task, w: Task, x: Task)
    requires NoDup(p) && NotAfterWrite(p, w, t) && w != t && x != t && NextWrite(p, x) == Some(t)
    requires Does(p, x, true)
    ensures NotAfterWrite(p, w, x)
  {
    var i := IndexOf(p, x);
    var k := FirstWriteAt(p[i + 1..]);
    assert p[i + 1 + k] == p[i + 1..][k] == Access(t, true);
    IndexUnique(p, i + 1 + k);
    assert forall j :: i < j < i + 1 + k ==> p[j] == p[i + 1..][..k][j - i - 1];
  }

  /** Records survive whatever keeps the entries and the order. */
  lemma HonouredKept(s: State, h: Shadow, s': State, h': Shadow, over: set<Task>, over': set<Task>, r: WaitRecord)
    requires Honoured(s, h, over, r) && SameEntries(s, s') && over <= over'
    requires forall w, y :: w !in over' && NotAfterWrite(Pending(h, r.datum), w, y)
               ==> NotAfterWrite(Pending(h', r.datum), w, y)
    ensures Honoured(s', h', over', r)
  {
    hide NotAfterWrite;
    if !(r.writers <= over) {
      var c :| HonouredBy(s, h, over, r, c);
      assert WaitsAt(s'.versions, c) == WaitsAt(s.versions, c);
      assert s.versions[c].dataWaitTaskByThis != [];
      assert HonouredBy(s', h', over', r, c);
    }
  }

  lemma OrderSpread(p: seq<Access>, parent: Option<Task>, t: Task, d: Signature, ins: seq<Signature>,
      outs: seq<Signature>, w: Task, y: Task)
    requires NotAfterWrite(p, w, y) && !Occurs(p, t)
    ensures NotAfterWrite(Spread(p, parent, t, d, ins, outs), w, y)
  {
    hide NotAfterWrite, Place, Insert, Occurs;
    if d in outs || d in ins {
      var x := Access(t, d in outs);
      var k := PlaceIsInsert(p, parent, x);
      OrderInsert(p, k, x, w, y);
    }
  }

  lemma HonouredSpread(s: State, h: Shadow, s': State, h': Shadow, over: set<Task>, parent: Option<Task>, t: Task,
                       ins: seq<Signature>, outs: seq<Signature>, r: WaitRecord)
    requires Honoured(s, h, over, r) && SameEntries(s, s') && !Occurs(Pending(h, r.datum), t)
    requires SpreadOver(h, h', parent, t, ins, outs)
    ensures Honoured(s', h', over, r)
  {
    hide NotAfterWrite, Spread, SameEntries, Honoured, Occurs;
    var d := r.datum;
    forall w, y | w !in over && NotAfterWrite(Pending(h, d), w, y) ensures NotAfterWrite(Pending(h', d), w, y) {
      OrderSpread(Pending(h, d), parent, t, d, ins, outs, w, y);
      assert Pending(h', d) == Spread(Pending(h, d), parent, t, d, ins, outs);
    }
    HonouredKept(s, h, s', h', over, over, r);
  }

  lemma HonouredElsewhere(s: State, h: Shadow, s': State, h': Shadow, over: set<Task>, d: Signature, t: Task,
      r: WaitRecord, c: Address)
    requires Core(s', h', {}, {t}) && t < |s.tasks| && FinishedIn(s, h, s', h', d, t) && t in over && NoDup(h.pend[d])
    requires HonouredBy(s, h, over, r, c) && c in s'.versions && c !in s'.versionTrashcan && s'.versions[c].status.IDLE?
    requires s'.versions[c].myProducer == s.versions[c].myProducer
             && s'.versions[c].signature == s.versions[c].signature
    requires s'.versions[c].dataWaitTaskByThis == s.versions[c].dataWaitTaskByThis
    ensures HonouredBy(s', h', over, r, c)
  {
    hide NotAfterWrite, Core, Without, NoDup, Does, Occurs;
    var y := s.versions[c].myProducer.value;
    ProducerDoes(s', h', c, {t});
    if r.datum == d {
      DoesOccurs(h'.pend[d], y);
      OccursWithout(h.pend[d], t, y);
      forall w | w in r.writers && w !in over ensures NotAfterWrite(h'.pend[d], w, y) {
        OrderWithout(h.pend[d], t, w, y);
      }
    }
  }

  lemma HonouredPassed(s: State, h: Shadow, s': State, h': Shadow, over: set<Task>, d: Signature, t: Task, x: Task,
      r: WaitRecord, c: Address)
    requires t < |s.tasks| && FinishedIn(s, h, s', h', d, t) && t in over && HonouredBy(s, h, over, r, c)
             && PassedOn(s, h, s', c, d, t, x)
    ensures HonouredBy(s', h', over, r, c)
  {
    hide NotAfterWrite, Core, Without, NoDup, Does, NextWrite;
    forall w | w in r.writers && w !in over ensures NotAfterWrite(h'.pend[d], w, x) {
      OrderPassed(h.pend[d], t, w, x);
      OrderWithout(h.pend[d], t, w, x);
    }
  }

  lemma HonouredHead(s: State, h: Shadow, over: set<Task>, d: Signature, t: Task, r: WaitRecord, c: Address)
    requires HonouredBy(s, h, over, r, c) && t in over && s.versions[c].signature == d
             && s.versions[c].myProducer == Some(t)
    requires d in h.pend && h.pend[d] != [] && h.pend[d][0] == Access(t, true)
    ensures r.writers <= over
  {
    assert IndexOf(h.pend[d], t) == 0;
    assert forall w :: NotAfterWrite(h.pend[d], w, t) ==> w == t;
  }

  /** A finishing task takes one write with it; records that relied on its version rely on the
      version's new producer, or are settled. */
  lemma HonouredFinished(s: State, h: Shadow, s': State, h': Shadow, over: set<Task>, d: Signature, t: Task, v: Address,
      x: Option<Task>, r: WaitRecord)
    requires Core(s', h', {}, {t}) && t < |s.tasks| && FinishedIn(s, h, s', h', d, t) && Entries(s, h)
             && NoDup(h.pend[d])
    requires Honoured(s, h, over, r) && SameButOne(s, s', v) && t in over
    requires WaitsAt(s'.versions, v) == [] || (x.Some? && PassedOn(s, h, s', v, d, t, x.value))
    requires WaitsAt(s'.versions, v) == [] && WaitsAt(s.versions, v) != [] ==>
               && d in h.pend && h.pend[d] != [] && h.pend[d][0] == Access(t, true) && v in s.versions
               && s.versions[v].signature == d && s.versions[v].myProducer == Some(t)
    ensures Honoured(s', h', over, r)
  {
    hide NotAfterWrite, Core, Without, NoDup, NextFree, FinishedIn, PassedOn, HonouredBy, Does, NextWrite;
    if !(r.writers <= over) {
      var c :| HonouredBy(s, h, over, r, c);
      HonouredHas(s, h, over, r, c);
      assert Entry(s, h, c, r.task);
      if c != v {
        assert WaitsAt(s'.versions, c) == WaitsAt(s.versions, c);
        HonouredElsewhere(s, h, s', h', over, d, t, r, c);
      } else if WaitsAt(s'.versions, v) == [] {
        HonouredHead(s, h, over, d, t, r, c);
      } else {
        HonouredPassed(s, h, s', h', over, d, t, x.value, r, c);
      }
    }
  }

  lemma HonouredHas(s: State, h: Shadow, over: set<Task>, r: WaitRecord, c: Address)
    requires HonouredBy(s, h, over, r, c)
    ensures c in s.versions && r.task in s.versions[c].dataWaitTaskByThis && s.versions[c].dataWaitTaskByThis != []
  {
  }
}
