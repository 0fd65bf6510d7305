/** The dequeue that guards low-priority classes against starvation. */
module Starvation {
  type Time = nat

  const MAX_PULL: nat := 5

  /** The due times and tasks of one priority class, earliest first. */
  type WhenMap<T> = seq<(Time, T)>

  predicate Due<T>(m: WhenMap<T>, now: Time) {
    m != [] && m[0].0 < now
  }

  /** Class `i` may be served out of turn: its head is due and it has not used up its share. */
  predicate Eligible<T>(maps: seq<WhenMap<T>>, counts: seq<nat>, now: Time, i: nat)
    requires |maps| == |counts|
  {
    i + 1 < |maps| && counts[i] < MAX_PULL && Due(maps[i], now)
  }

  /** `i` has the earliest head of all classes. */
  ghost predicate Earliest<T>(maps: seq<WhenMap<T>>, i: nat) {
    i < |maps| && maps[i] != [] && forall j :: 0 <= j < |maps| && maps[j] != [] ==> maps[i][0].0 <= maps[j][0].0
  }

  /** The class to serve: the first eligible one, else one with the earliest head. */
  ghost predicate Chosen<T>(maps: seq<WhenMap<T>>, counts: seq<nat>, now: Time, i: nat)
    requires |maps| == |counts|
  {
    || (Eligible(maps, counts, now, i) && forall j :: 0 <= j < i ==> !Eligible(maps, counts, now, j))
    || (Earliest(maps, i) && forall j :: 0 <= j < |maps| ==> !Eligible(maps, counts, now, j))
  }

  /** In times: a class that is not the last is served if its head is due, fewer than five of its tasks have been
      served, and this is so of no class before it; if there is no such class, the one with the earliest head is. */
  lemma ChosenMeans<T>(maps: seq<WhenMap<T>>, counts: seq<nat>, now: Time, i: nat)
    requires |maps| == |counts| && Chosen(maps, counts, now, i)
    ensures || (&& i < |maps| - 1 && maps[i] != [] && counts[i] < 5 && maps[i][0].0 < now
                && forall j :: 0 <= j < i ==> counts[j] >= 5 || maps[j] == [] || maps[j][0].0 >= now)
            || (&& i < |maps| && maps[i] != []
                && (forall j :: 0 <= j < |maps| - 1 ==> counts[j] >= 5 || maps[j] == [] || maps[j][0].0 >= now)
                && forall j :: 0 <= j < |maps| && maps[j] != [] ==> maps[i][0].0 <= maps[j][0].0)
  {
    forall j | 0 <= j < |maps| - 1 && !Eligible(maps, counts, now, j)
      ensures counts[j] >= 5 || maps[j] == [] || maps[j][0].0 >= now
    {
    }
    if Eligible(maps, counts, now, i) && forall j :: 0 <= j < i ==> !Eligible(maps, counts, now, j) {
      forall j | 0 <= j < i ensures counts[j] >= 5 || maps[j] == [] || maps[j][0].0 >= now {
        assert !Eligible(maps, counts, now, j);
      }
    } else {
      forall j | 0 <= j < |maps| - 1 ensures counts[j] >= 5 || maps[j] == [] || maps[j][0].0 >= now {
        assert !Eligible(maps, counts, now, j);
      }
    }
  }

  /** The counters after class `i` has been served. */
  function Served(counts: seq<nat>, i: nat): (r: seq<nat>)
    requires i < |counts|
    ensures |r| == |counts|
  {
    seq(|counts|, j requires 0 <= j < |counts| => if j < i then 0 else if j == i then counts[i] + 1 else counts[j])
  }

  class Dequeuer<T> {
    var whenMapVec: seq<WhenMap<T>>
    var pulledTaskCount: seq<nat>

    ghost predicate Valid()
      reads this
    {
      |whenMapVec| == |pulledTaskCount| > 0
    }

    constructor (classes: nat)
      requires classes > 0
      ensures Valid() && |whenMapVec| == classes
              && forall i :: 0 <= i < classes ==> whenMapVec[i] == [] && pulledTaskCount[i] == 0
    {
      whenMapVec := seq(classes, _ => []);
      pulledTaskCount := seq(classes, _ => 0);
    }

    method EarliestClass() returns (iterIndex: nat)
      requires Valid() && exists i :: 0 <= i < |whenMapVec| && whenMapVec[i] != []
      ensures Earliest(whenMapVec, iterIndex)
    {
      var idle := |whenMapVec| - 1;
      iterIndex := idle;
      for idx := 0 to idle
        invariant iterIndex < |whenMapVec|
        invariant whenMapVec[iterIndex] == []
                  ==> whenMapVec[idle] == [] && forall j :: 0 <= j < idx ==> whenMapVec[j] == []
        invariant whenMapVec[iterIndex] != [] ==>
                    forall j :: (0 <= j < idx || j == idle) && whenMapVec[j] != []
                        ==> whenMapVec[iterIndex][0].0 <= whenMapVec[j][0].0
      {
        if whenMapVec[idx] != [] {
          if whenMapVec[iterIndex] == [] || whenMapVec[iterIndex][0].0 > whenMapVec[idx][0].0 {
            iterIndex := idx;
          }
        }
      }
    }

    /** `DequeSingleAgainstStarvation`. */
    method Dequeue(now: Time) returns (head: T, iterIndex: nat)
      requires Valid() && exists i :: 0 <= i < |whenMapVec| && whenMapVec[i] != []
      modifies this
      ensures Valid() && |whenMapVec| == |old(whenMapVec)|
              && Chosen(old(whenMapVec), old(pulledTaskCount), now, iterIndex)
      ensures iterIndex < |whenMapVec| && old(whenMapVec)[iterIndex] != [] && head == old(whenMapVec)[iterIndex][0].1
      ensures whenMapVec == old(whenMapVec)[iterIndex := old(whenMapVec)[iterIndex][1..]]
      ensures pulledTaskCount == Served(old(pulledTaskCount), iterIndex)
      ensures var maps, counts, i := old(whenMapVec), old(pulledTaskCount), iterIndex;
              || (&& i < |maps| - 1 && counts[i] < 5 && maps[i][0].0 < now
                  && forall j :: 0 <= j < i ==> counts[j] >= 5 || maps[j] == [] || maps[j][0].0 >= now)
              || (&& (forall j :: 0 <= j < |maps| - 1 ==> counts[j] >= 5 || maps[j] == [] || maps[j][0].0 >= now)
                  && forall j :: 0 <= j < |maps| && maps[j] != [] ==> maps[i][0].0 <= maps[j][0].0)
      ensures forall j :: 0 <= j < |pulledTaskCount| ==>
                pulledTaskCount[j] == if j < iterIndex then 0
                                      else old(pulledTaskCount)[j] + if j == iterIndex then 1 else 0
    {
      iterIndex := EarliestClass();
      var found := false;
      for idx := 0 to |whenMapVec| - 1
        invariant !found && whenMapVec == old(whenMapVec) && pulledTaskCount == old(pulledTaskCount)
        invariant Earliest(whenMapVec, iterIndex)
        invariant forall j :: 0 <= j < idx ==> !Eligible(whenMapVec, pulledTaskCount, now, j)
      {
        if pulledTaskCount[idx] < MAX_PULL && whenMapVec[idx] != [] && whenMapVec[idx][0].0 < now {
          iterIndex := idx;
          found := true;
          break;
        }
      }
      head := whenMapVec[iterIndex][0].1;
      pulledTaskCount := pulledTaskCount[iterIndex := pulledTaskCount[iterIndex] + 1];
      for idx := 0 to iterIndex
        invariant |pulledTaskCount| == |old(pulledTaskCount)| && whenMapVec == old(whenMapVec)
        invariant forall j :: 0 <= j < |pulledTaskCount| ==>
                    pulledTaskCount[j] == if j < idx then 0 else if j == iterIndex then old(pulledTaskCount)[j] + 1
                      else old(pulledTaskCount)[j]
      {
        pulledTaskCount := pulledTaskCount[idx := 0];
      }
      assert pulledTaskCount == Served(old(pulledTaskCount), iterIndex);
      ChosenMeans(whenMapVec, old(pulledTaskCount), now, iterIndex);
      whenMapVec := whenMapVec[iterIndex := whenMapVec[iterIndex][1..]];
    }
  }

  // ----- the odometer

  function Cap(c: nat): nat {
    if c < MAX_PULL then c else MAX_PULL
  }

  function Pow6(j: nat): (p: nat)
    ensures p >= 1
  {
    if j == 0 then 1 else 6 * Pow6(j - 1)
  }

  /** The counters of the first `j` classes, read as a number in base six. */
  function Odometer(counts: seq<nat>, j: nat): nat
    requires j <= |counts|
  {
    if j == 0 then 0 else Odometer(counts, j - 1) + Cap(counts[j - 1]) * Pow6(j - 1)
  }

  lemma {:induction false} OdometerBound(counts: seq<nat>, j: nat)
    requires j <= |counts|
    ensures Odometer(counts, j) < Pow6(j)
  {
    if j > 0 {
      OdometerBound(counts, j - 1);
      var p, c := Pow6(j - 1), Cap(counts[j - 1]);
      assert c * p <= 5 * p by {
        Monotone(c, 5, p);
      }
    }
  }

  lemma Monotone(a: nat, b: nat, p: nat)
    requires a <= b
    ensures a * p <= b * p
  {
    assert (b - a) * p >= 0;
    assert b * p == a * p + (b - a) * p;
  }

  lemma OneMore(a: nat, p: nat)
    ensures (a + 1) * p == a * p + p
  {
  }

  lemma {:induction false} OdometerZero(counts: seq<nat>, j: nat)
    requires j <= |counts| && forall i :: 0 <= i < j ==> counts[i] == 0
    ensures Odometer(counts, j) == 0
  {
    if j > 0 {
      OdometerZero(counts, j - 1);
    }
  }

  lemma {:induction false} OdometerFull(counts: seq<nat>, j: nat)
    requires j <= |counts|
    ensures Odometer(counts, j) == Pow6(j) - 1 <==> forall i :: 0 <= i < j ==> counts[i] >= MAX_PULL
  {
    if j > 0 {
      OdometerFull(counts, j - 1);
      OdometerBound(counts, j - 1);
      var p, c := Pow6(j - 1), Cap(counts[j - 1]);
      if c < 5 {
        assert c * p <= 4 * p by {
          Monotone(c, 4, p);
        }
      }
    }
  }

  /** Serving class `i` adds its place value and takes away what stood below. */
  lemma {:induction false} OdometerServed(counts: seq<nat>, i: nat, j: nat)
    requires i < j <= |counts| && counts[i] < MAX_PULL
    ensures Odometer(Served(counts, i), j) == Odometer(counts, j) + Pow6(i) - Odometer(counts, i)
  {
    var r := Served(counts, i);
    if j == i + 1 {
      OdometerZero(r, i);
      OneMore(counts[i], Pow6(i));
    } else {
      OdometerServed(counts, i, j - 1);
    }
  }

  // ----- how long a class can be passed over

  /** What one dequeue sees. */
  datatype Turn<T> = Turn(maps: seq<WhenMap<T>>, now: Time, served: nat)

  /** A sequence of dequeues; between them tasks may be added to any class. */
  ghost predicate Dequeues<T>(turns: seq<Turn<T>>, counts: seq<seq<nat>>) {
    && |counts| == |turns| + 1
    && forall k :: 0 <= k < |turns| ==>
         && |turns[k].maps| == |counts[k]| && turns[k].served < |counts[k]|
         && Chosen(turns[k].maps, counts[k], turns[k].now, turns[k].served)
         && counts[k + 1] == Served(counts[k], turns[k].served)
  }

  /** Class `j` is passed over in all these dequeues although its head is due each time. */
  ghost predicate PassedOver<T>(turns: seq<Turn<T>>, j: nat) {
    forall k :: 0 <= k < |turns|
        ==> j + 1 < |turns[k].maps| && Due(turns[k].maps[j], turns[k].now) && turns[k].served != j
  }

  /** While a class with a share left is passed over, a class of higher priority is served within its
      share each time, and the odometer goes up. */
  lemma {:induction false} OdometerRises<T>(turns: seq<Turn<T>>, counts: seq<seq<nat>>, j: nat, k: nat)
    requires Dequeues(turns, counts) && PassedOver(turns, j) && k <= |turns| && j < |counts[0]|
             && counts[0][j] < MAX_PULL
    ensures |counts[k]| == |counts[0]| && counts[k][j] == counts[0][j]
    ensures Odometer(counts[k], j) >= Odometer(counts[0], j) + k
  {
    if k > 0 {
      OdometerRises(turns, counts, j, k - 1);
      var t, c := turns[k - 1], counts[k - 1];
      assert Eligible(t.maps, c, t.now, j);
      assert t.served < j && c[t.served] < MAX_PULL;
      OdometerServed(c, t.served, j);
      OdometerBound(c, t.served);
    }
  }

  /** A class below idle with a due head and a share left is served within 6^j dequeues. */
  lemma StarvationBound<T>(turns: seq<Turn<T>>, counts: seq<seq<nat>>, j: nat)
    requires Dequeues(turns, counts) && PassedOver(turns, j) && j < |counts[0]| && counts[0][j] < MAX_PULL
    ensures |turns| < Pow6(j)
  {
    OdometerRises(turns, counts, j, |turns|);
    OdometerBound(counts[|turns|], j);
  }

  ghost predicate AllDue<T>(t: Turn<T>, j: nat) {
    forall i :: 0 <= i <= j ==> i < |t.maps| && Due(t.maps[i], t.now)
  }

  /** With everything due the first class with a share left is served. */
  lemma FirstWithShare<T>(t: Turn<T>, c: seq<nat>, j: nat)
    requires AllDue(t, j) && |t.maps| == |c| && j + 1 < |c| && c[j] < MAX_PULL && Chosen(t.maps, c, t.now, t.served)
    ensures t.served <= j && c[t.served] < MAX_PULL && forall i :: 0 <= i < t.served ==> c[i] >= MAX_PULL
  {
    assert Eligible(t.maps, c, t.now, j);
    forall i | 0 <= i < t.served ensures c[i] >= MAX_PULL {
      assert Due(t.maps[i], t.now);
      assert !Eligible(t.maps, c, t.now, i);
    }
  }

  /** Then the odometer goes up by exactly one, until it is full. */
  lemma Tick<T>(t: Turn<T>, c: seq<nat>, j: nat)
    requires AllDue(t, j) && |t.maps| == |c| && j + 1 < |c| && c[j] < MAX_PULL && Chosen(t.maps, c, t.now, t.served)
    ensures t.served <= j
    ensures t.served == j <==> Odometer(c, j) == Pow6(j) - 1
    ensures t.served < j ==> Odometer(Served(c, t.served), j) == Odometer(c, j) + 1 && Served(c, t.served)[j] == c[j]
  {
    FirstWithShare(t, c, j);
    OdometerFull(c, j);
    hide Chosen, AllDue;
    if t.served < j {
      OdometerFull(c, t.served);
      OdometerServed(c, t.served, j);
    }
  }

  /** The bound is reached: with all classes of higher priority always due and all counters fresh, the
      first 6^j - 1 dequeues pass class `j` over and the next one serves it. */
  lemma {:induction false} BoundReached<T>(turns: seq<Turn<T>>, counts: seq<seq<nat>>, j: nat, k: nat)
    requires Dequeues(turns, counts) && k <= |turns| && k < Pow6(j)
    requires j + 1 < |counts[0]| && forall i :: 0 <= i <= j ==> counts[0][i] == 0
    requires forall n :: 0 <= n < |turns| ==> AllDue(turns[n], j)
    ensures |counts[k]| == |counts[0]| && counts[k][j] == 0 && Odometer(counts[k], j) == k
    ensures k < |turns| ==> (turns[k].served == j <==> k == Pow6(j) - 1) && turns[k].served <= j
  {
    hide Chosen, AllDue, Odometer, Pow6;
    if k == 0 {
      OdometerZero(counts[0], j);
    } else {
      BoundReached(turns, counts, j, k - 1);
      Tick(turns[k - 1], counts[k - 1], j);
    }
    if k < |turns| {
      Tick(turns[k], counts[k], j);
    }
  }

  // ----- a class that has used up its share

  /** The tasks of one class that are due by `t`. */
  function DueBy<T>(m: WhenMap<T>, t: Time): nat {
    if m == [] then 0 else (if m[0].0 <= t then 1 else 0) + DueBy(m[1..], t)
  }

  /** The tasks of the first `n` classes without class `j` that are due by `t`. */
  function Backlog<T>(maps: seq<WhenMap<T>>, j: nat, t: Time, n: nat): nat
    requires n <= |maps|
  {
    if n == 0 then 0 else Backlog(maps, j, t, n - 1) + if n - 1 == j then 0 else DueBy(maps[n - 1], t)
  }

  lemma {:induction false} BacklogServed<T>(maps: seq<WhenMap<T>>, j: nat, t: Time, n: nat, i: nat)
    requires n <= |maps| && i < |maps| && i != j && maps[i] != []
    ensures var maps' := maps[i := maps[i][1..]];
            Backlog(maps', j, t, n) == Backlog(maps, j, t, n) - if i < n && maps[i][0].0 <= t then 1 else 0
  {
    if n > 0 {
      BacklogServed(maps, j, t, n - 1, i);
    }
  }

  /** Class `j` has the same head all the time, and no task comes that is due as early as that. */
  ghost predicate NothingEarlier<T>(turns: seq<Turn<T>>, j: nat, t: Time) {
    && (forall k :: 0 <= k < |turns| ==> j < |turns[k].maps| && turns[k].maps[j] != [] && turns[k].maps[j][0].0 == t)
    && (forall k :: 0 < k < |turns| ==> Left(turns[k - 1], j, t) >= Backlog(turns[k].maps, j, t, |turns[k].maps|))
  }

  /** The backlog after a dequeue. */
  function Left<T>(turn: Turn<T>, j: nat, t: Time): nat {
    if turn.served < |turn.maps| && turn.maps[turn.served] != [] then
      Backlog(turn.maps[turn.served := turn.maps[turn.served][1..]], j, t, |turn.maps|)
    else Backlog(turn.maps, j, t, |turn.maps|)
  }

  /** What falls with every dequeue that serves a class before `j`: the backlog, and, for each task of
      it, what is missing to a full odometer. */
  function Potential(backlog: nat, counts: seq<nat>, j: nat): int
    requires j <= |counts|
  {
    backlog * Pow6(j) + Pow6(j) - 1 - Odometer(counts, j)
  }

  lemma TurnLowers<T>(turn: Turn<T>, c: seq<nat>, j: nat, t: Time)
    requires |turn.maps| == |c| && turn.served < j && j + 1 < |c| && Chosen(turn.maps, c, turn.now, turn.served)
    requires turn.maps[j] != [] && turn.maps[j][0].0 == t
    ensures Potential(Left(turn, j, t), Served(c, turn.served), j) < Potential(Backlog(turn.maps, j, t, |turn.maps|), c,
            j)
  {
    var i, b := turn.served, Backlog(turn.maps, j, t, |turn.maps|);
    BacklogServed(turn.maps, j, t, |turn.maps|, i);
    OdometerBound(c, j);
    OdometerBound(c, i);
    if Eligible(turn.maps, c, turn.now, i) {
      OdometerServed(c, i, j);
      Monotone(Left(turn, j, t), b, Pow6(j));
    } else {
      OneMore(b - 1, Pow6(j));
    }
  }

  lemma {:induction false} PotentialFalls<T>(turns: seq<Turn<T>>, counts: seq<seq<nat>>, j: nat, t: Time, k: nat)
    requires Dequeues(turns, counts) && PassedOver(turns, j) && NothingEarlier(turns, j, t) && k < |turns|
    requires forall n :: 0 <= n < k ==> turns[n].served < j
    ensures j + 1 < |counts[k]| == |turns[k].maps|
    ensures Potential(Backlog(turns[k].maps, j, t, |turns[k].maps|), counts[k], j) + k
            <= Potential(Backlog(turns[0].maps, j, t, |turns[0].maps|), counts[0], j)
  {
    hide Potential, Chosen;
    if k > 0 {
      PotentialFalls(turns, counts, j, t, k - 1);
      TurnLowers(turns[k - 1], counts[k - 1], j, t);
      PotentialMonotone(Backlog(turns[k].maps, j, t, |turns[k].maps|), Left(turns[k - 1], j, t), counts[k], j);
    }
  }

  lemma PotentialMonotone(a: nat, b: nat, c: seq<nat>, j: nat)
    requires a <= b && j <= |c|
    ensures Potential(a, c, j) <= Potential(b, c, j)
  {
    Monotone(a, b, Pow6(j));
  }

  /** How often only classes before `j` are served. */
  lemma {:induction false} FirstBeyond<T>(turns: seq<Turn<T>>, j: nat) returns (k: nat)
    ensures k <= |turns| && (forall n :: 0 <= n < k ==> turns[n].served <= j) && (k < |turns| ==> turns[k].served > j)
  {
    k := 0;
    while k < |turns| && turns[k].served <= j
      invariant k <= |turns| && forall n :: 0 <= n < k ==> turns[n].served <= j
    {
      k := k + 1;
    }
  }

  lemma Suffix<T>(turns: seq<Turn<T>>, counts: seq<seq<nat>>, j: nat, k: nat)
    requires Dequeues(turns, counts) && PassedOver(turns, j) && k <= |turns|
    ensures Dequeues(turns[k..], counts[k..]) && PassedOver(turns[k..], j)
  {
    hide Chosen;
    var a, b := turns[k..], counts[k..];
    assert forall n :: 0 <= n < |a| ==> a[n] == turns[k + n];
    assert forall n :: 0 <= n <= |a| ==> b[n] == counts[k + n];
  }

  /** Whatever its counter, a class below idle with a due head is served within `6^j` dequeues for each
      task of the other classes that is due as early as that, and twice as many more. */
  lemma SharelessBound<T>(turns: seq<Turn<T>>, counts: seq<seq<nat>>, j: nat, t: Time)
    requires Dequeues(turns, counts) && PassedOver(turns, j) && NothingEarlier(turns, j, t) && turns != []
    ensures |turns| < (Backlog(turns[0].maps, j, t, |turns[0].maps|) + 2) * Pow6(j)
  {
    hide Chosen;
    var b := Backlog(turns[0].maps, j, t, |turns[0].maps|);
    assert (b + 2) * Pow6(j) == b * Pow6(j) + Pow6(j) + Pow6(j);
    var k := FirstBeyond(turns, j);
    var m := if k < |turns| then k else k - 1;
    PotentialFalls(turns, counts, j, t, m);
    OdometerBound(counts[m], j);
    PotentialMonotone(0, Backlog(turns[m].maps, j, t, |turns[m].maps|), counts[m], j);
    if k < |turns| {
      Suffix(turns, counts, j, k + 1);
      StarvationBound(turns[k + 1..], counts[k + 1..], j);
    }
  }
}
