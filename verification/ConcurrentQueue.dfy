/** The concurrent queue off a loop: up to `maxConcurrency` runners, each either at work on a task or
    fetching the next one. Every method is one critical section or one step outside of one. */
module ConcurrentQueue {
  import opened Wrappers

  type Time = nat

  const MAX_TIME: Time := 0xffff_ffff_ffff_ffff
  const PRIORITY_LOW: nat := 2
  const PRIORITY_IDLE: nat := 3

  /** A time at which a task may be due. Delays are cut to a hundred years and added to a clock that counts
      the microseconds since the start of the system, so the largest time of all is out of reach. */
  type DueTime = t: nat | t < MAX_TIME

  const MAX_DELAY: Time := 1_000_000 * 100 * 60 * 60 * 24 * 365

  datatype Task = Task(id: nat, uptime: DueTime, delay: Time, prio: nat)

  /** The task attributes cut the delay; the task is due so much after now. */
  function NewTask(id: nat, now: Time, delay: Time, prio: nat): (t: Task)
    requires now + MAX_DELAY < MAX_TIME
    ensures now <= t.uptime == now + t.delay && t.delay <= delay && (delay <= MAX_DELAY ==> t.delay == delay)
  {
    var d := if delay > MAX_DELAY then MAX_DELAY else delay;
    Task(id, now + d, d, prio)
  }

  /** A runner at work on a task (none for the task that only starts delayed work), or in `Pull`. */
  datatype Runner = Executing(task: Option<Task>) | Pulling

  // ----- the time-ordered maps, one for each priority

  type WhenMap = seq<Task>

  ghost predicate Sorted(m: WhenMap) {
    forall i, j :: 0 <= i < j < |m| ==> m[i].uptime <= m[j].uptime
  }

  function Position(m: WhenMap, key: Time): (k: nat)
    ensures k <= |m| && (k < |m| ==> m[k].uptime > key) && forall i :: 0 <= i < k ==> m[i].uptime <= key
  {
    if m == [] || m[0].uptime > key then 0 else 1 + Position(m[1..], key)
  }

  function Insert(m: WhenMap, t: Task): WhenMap {
    m[..Position(m, t.uptime)] + [t] + m[Position(m, t.uptime)..]
  }

  lemma InsertSorted(m: WhenMap, t: Task)
    requires Sorted(m)
    ensures Sorted(Insert(m, t))
  {
    var k, r := Position(m, t.uptime), Insert(m, t);
    hide Position;
    assert forall i :: 0 <= i < |r| && i != k ==> r[i] == m[if i < k then i else i - 1];
    assert r[k] == t;
    forall i, j | 0 <= i < j < |r| ensures r[i].uptime <= r[j].uptime {
      if i == k {
        assert m[k].uptime <= m[j - 1].uptime;
      }
    }
  }

  function Times(m: WhenMap, t: Task): nat {
    multiset(m)[t]
  }

  /** How often a task is in the maps. */
  function InMaps(maps: seq<WhenMap>, t: Task): nat {
    if maps == [] then 0 else InMaps(maps[..|maps| - 1], t) + Times(maps[|maps| - 1], t)
  }

  lemma {:induction false} InMapsUpdate(maps: seq<WhenMap>, i: nat, m: WhenMap, t: Task)
    requires i < |maps|
    ensures InMaps(maps[i := m], t) + Times(maps[i], t) == InMaps(maps, t) + Times(m, t)
  {
    hide Times;
    var n := |maps| - 1;
    if i < n {
      InMapsUpdate(maps[..n], i, m, t);
      assert maps[i := m][..n] == maps[..n][i := m];
    } else {
      assert maps[i := m][..n] == maps[..n];
    }
  }

  lemma {:induction false} InMapsMember(maps: seq<WhenMap>, t: Task)
    ensures InMaps(maps, t) > 0 <==> exists i :: 0 <= i < |maps| && t in maps[i]
  {
    if maps != [] {
      var n := |maps| - 1;
      InMapsMember(maps[..n], t);
      if i :| 0 <= i < |maps| && t in maps[i] {
        assert i < n ==> t in maps[..n][i];
      }
      if InMaps(maps[..n], t) > 0 {
        var i :| 0 <= i < n && t in maps[..n][i];
        assert t in maps[i];
      }
    }
  }

  function One(o: Option<Task>, t: Task): nat {
    if o == Some(t) then 1 else 0
  }

  /** How often a task is held by starting submitters or runners. */
  function Held(ts: seq<Option<Task>>, t: Task): nat {
    if ts == [] then 0 else Held(ts[..|ts| - 1], t) + One(ts[|ts| - 1], t)
  }

  lemma HeldMore(ts: seq<Option<Task>>, o: Option<Task>, t: Task)
    ensures Held(ts + [o], t) == Held(ts, t) + One(o, t)
  {
    assert (ts + [o])[..|ts|] == ts;
  }

  lemma {:induction false} HeldLess(ts: seq<Option<Task>>, i: nat, t: Task)
    requires i < |ts|
    ensures Held(ts, t) == Held(ts[..i] + ts[i + 1..], t) + One(ts[i], t)
  {
    hide One;
    var n := |ts| - 1;
    if i < n {
      HeldLess(ts[..n], i, t);
      var r := ts[..i] + ts[i + 1..];
      assert r[..|r| - 1] == ts[..n][..i] + ts[..n][i + 1..];
      assert r[|r| - 1] == ts[n];
    } else {
      assert ts[..i] + ts[i + 1..] == ts[..n];
    }
  }

  function Hand(r: Runner): Option<Task> {
    if r.Executing? then r.task else None
  }

  function InHand(rs: seq<Runner>): (r: seq<Option<Task>>)
    ensures |r| == |rs| && forall i :: 0 <= i < |rs| ==> r[i] == Hand(rs[i])
  {
    seq(|rs|, i requires 0 <= i < |rs| => Hand(rs[i]))
  }

  lemma InHandMore(rs: seq<Runner>, to: Runner, t: Task)
    ensures Held(InHand(rs + [to]), t) == Held(InHand(rs), t) + One(Hand(to), t)
  {
    assert InHand(rs + [to]) == InHand(rs) + [Hand(to)];
    HeldMore(InHand(rs), Hand(to), t);
  }

  lemma InHandLess(rs: seq<Runner>, r: nat, t: Task)
    requires r < |rs|
    ensures Held(InHand(rs), t) == Held(InHand(rs[..r] + rs[r + 1..]), t) + One(Hand(rs[r]), t)
  {
    assert InHand(rs[..r] + rs[r + 1..]) == InHand(rs)[..r] + InHand(rs)[r + 1..];
    HeldLess(InHand(rs), r, t);
  }

  lemma InHandUpdate(rs: seq<Runner>, r: nat, to: Runner, t: Task)
    requires r < |rs|
    ensures Held(InHand(rs[r := to]), t) + One(Hand(rs[r]), t) == Held(InHand(rs), t) + One(Hand(to), t)
  {
    hide One, Hand, Held;
    InHandLess(rs, r, t);
    InHandLess(rs[r := to], r, t);
    assert rs[r := to][..r] + rs[r := to][r + 1..] == rs[..r] + rs[r + 1..];
  }

  // ----- what the maps hold, as `Pull` sees it

  /** The earliest time of all heads, or the largest time if there is none. */
  function MinTime(maps: seq<WhenMap>): (t: Time)
    ensures t <= MAX_TIME
  {
    if maps == [] then MAX_TIME
    else
      var rest, m := MinTime(maps[..|maps| - 1]), maps[|maps| - 1];
      if m != [] && m[0].uptime < rest then m[0].uptime else rest
  }

  ghost predicate AllSorted(maps: seq<WhenMap>) {
    forall i :: 0 <= i < |maps| ==> Sorted(maps[i])
  }

  lemma {:induction false} MinTimeIs(maps: seq<WhenMap>, t: Time)
    requires t <= MAX_TIME && (forall i :: 0 <= i < |maps| && maps[i] != [] ==> t <= maps[i][0].uptime)
    requires t == MAX_TIME || exists i :: 0 <= i < |maps| && maps[i] != [] && maps[i][0].uptime == t
    ensures t == MinTime(maps)
  {
    MinTimeMeans(maps);
    if t < MAX_TIME {
      var i :| 0 <= i < |maps| && maps[i] != [] && maps[i][0].uptime == t;
    }
  }

  lemma {:induction false} MinTimeMeans(maps: seq<WhenMap>)
    ensures forall i :: 0 <= i < |maps| && maps[i] != [] ==> MinTime(maps) <= maps[i][0].uptime
    ensures MinTime(maps) < MAX_TIME
            ==> exists i :: 0 <= i < |maps| && maps[i] != [] && maps[i][0].uptime == MinTime(maps)
  {
    if maps != [] {
      var n := |maps| - 1;
      MinTimeMeans(maps[..n]);
      assert forall i :: 0 <= i < n ==> maps[..n][i] == maps[i];
      if MinTime(maps) < MAX_TIME && MinTime(maps) == MinTime(maps[..n]) {
        var i :| 0 <= i < n && maps[..n][i] != [] && maps[..n][i][0].uptime == MinTime(maps[..n]);
        assert maps[i] != [] && maps[i][0].uptime == MinTime(maps);
      }
    }
  }

  ghost predicate NoneIn(maps: seq<WhenMap>) {
    forall i :: 0 <= i < |maps| ==> maps[i] == []
  }

  /** `Pull` takes the maps for empty exactly when they are. */
  lemma LooksEmpty(maps: seq<WhenMap>)
    ensures MinTime(maps) == MAX_TIME <==> NoneIn(maps)
  {
    MinTimeMeans(maps);
  }

  /** The most urgent class with something due is class `i`. */
  ghost predicate FirstDue(maps: seq<WhenMap>, now: Time, i: nat)
    requires i < |maps|
  {
    && maps[i] != [] && maps[i][0].uptime <= now
    && forall j :: 0 <= j < i && maps[j] != [] ==> maps[j][0].uptime > now
  }

  // ----- the queue as a whole

  /** What a queue holds, apart from its limit. */
  datatype Queue = Queue(
    concurrency: nat, maps: seq<WhenMap>, waitingAll: bool, waiting: WhenMap,
    starting: seq<Option<Task>>, runners: seq<Runner>)

  /** How often a task is in the queue and not dealt with yet. */
  ghost function Pending(q: Queue, t: Task): nat {
    InMaps(q.maps, t) + Times(q.waiting, t) + Held(q.starting, t) + Held(InHand(q.runners), t)
  }

  predicate Prioritised(m: WhenMap) {
    forall i :: 0 <= i < |m| ==> m[i].prio <= PRIORITY_IDLE
  }

  /** As many live runners as counted and never too many; without one, nothing is in the maps. */
  ghost predicate Shape(max: nat, q: Queue) {
    && |q.maps| == PRIORITY_IDLE + 1 && AllSorted(q.maps)
    && q.concurrency == |q.starting| + |q.runners| <= max && max > 0
    && (q.concurrency == 0 ==> NoneIn(q.maps))
    && (!q.waitingAll ==> q.waiting == []) && Prioritised(q.waiting)
  }

  /** Every accepted task is pending, has run or has been cancelled, and only one of these. */
  ghost predicate Accounted(q: Queue, over: multiset<Task>, accepted: multiset<Task>) {
    forall t :: Pending(q, t) + over[t] == accepted[t]
  }

  ghost predicate Ok(max: nat, q: Queue, over: multiset<Task>, accepted: multiset<Task>) {
    Shape(max, q) && Accounted(q, over, accepted)
  }

  function Inserted(maps: seq<WhenMap>, x: Task): seq<WhenMap>
    requires x.prio < |maps|
  {
    maps[x.prio := Insert(maps[x.prio], x)]
  }

  lemma InsertedSorted(maps: seq<WhenMap>, x: Task)
    requires x.prio < |maps| && AllSorted(maps)
    ensures AllSorted(Inserted(maps, x))
  {
    InsertSorted(maps[x.prio], x);
    hide Sorted, Insert;
  }

  lemma InsertedTimes(maps: seq<WhenMap>, x: Task, t: Task)
    requires x.prio < |maps|
    ensures InMaps(Inserted(maps, x), t) == InMaps(maps, t) + One(Some(x), t)
  {
    InMapsUpdate(maps, x.prio, Insert(maps[x.prio], x), t);
    InsertTimes(maps[x.prio], x, t);
    hide InMaps, Insert, Times;
  }

  lemma InsertTimes(m: WhenMap, x: Task, t: Task)
    ensures Times(Insert(m, x), t) == Times(m, t) + One(Some(x), t)
  {
    var k := Position(m, x.uptime);
    assert m == m[..k] + m[k..];
  }

  lemma InsertMultiset(m: WhenMap, x: Task)
    ensures multiset(Insert(m, x)) == multiset(m) + multiset{x}
  {
    forall t ensures multiset(Insert(m, x))[t] == (multiset(m) + multiset{x})[t] {
      InsertTimes(m, x, t);
    }
  }

  function Clamped(task: Task): (t: Task)
    ensures t.prio == (if task.prio in {0, 1, 2, 3} then task.prio else 2) && t.(prio := task.prio) == task
  {
    if task.prio > PRIORITY_IDLE then task.(prio := PRIORITY_LOW) else task
  }

  function PushedTo(q: Queue, max: nat, x: Task): Queue
    requires x.prio < |q.maps|
  {
    if q.concurrency < max then
      q.(concurrency := q.concurrency + 1,
         maps := if x.delay > 0 then Inserted(q.maps, x) else q.maps,
         starting := q.starting + [if x.delay > 0 then None else Some(x)])
    else q.(maps := Inserted(q.maps, x))
  }

  lemma PushShape(max: nat, q: Queue, x: Task)
    requires Shape(max, q) && x.prio <= PRIORITY_IDLE
    ensures Shape(max, PushedTo(q, max, x))
  {
    InsertedSorted(q.maps, x);
    hide AllSorted, MinTime, Prioritised, Insert;
  }

  lemma PushPending(max: nat, q: Queue, x: Task, t: Task)
    requires x.prio < |q.maps|
    ensures Pending(PushedTo(q, max, x), t) == Pending(q, t) + One(Some(x), t)
  {
    InsertedTimes(q.maps, x, t);
    HeldMore(q.starting, if x.delay > 0 then None else Some(x), t);
    hide InMaps, Held, Times, InHand, Inserted;
  }

  lemma PushOk(max: nat, q: Queue, over: multiset<Task>, accepted: multiset<Task>, x: Task)
    requires Ok(max, q, over, accepted) && x.prio <= PRIORITY_IDLE
    ensures Ok(max, PushedTo(q, max, x), over, accepted + multiset{x})
  {
    PushShape(max, q, x);
    var q' := PushedTo(q, max, x);
    hide Pending, PushedTo;
    forall t ensures Pending(q', t) + over[t] == (accepted + multiset{x})[t] {
      PushPending(max, q, x, t);
      assert Pending(q, t) + over[t] == accepted[t];
    }
  }

  lemma DeferOk(max: nat, q: Queue, over: multiset<Task>, accepted: multiset<Task>, x: Task)
    requires Ok(max, q, over, accepted) && q.waitingAll && x.prio <= PRIORITY_IDLE
    ensures Ok(max, q.(waiting := Insert(q.waiting, x)), over, accepted + multiset{x})
  {
    var q' := q.(waiting := Insert(q.waiting, x));
    assert Prioritised(q'.waiting);
    hide AllSorted, InMaps, Held, Times, MinTime, Insert, Prioritised;
    forall t ensures Pending(q', t) + over[t] == (accepted + multiset{x})[t] {
      InsertTimes(q.waiting, x, t);
      assert Pending(q, t) + over[t] == accepted[t];
    }
  }

  function Started(q: Queue, i: nat): Queue
    requires i < |q.starting|
  {
    q.(starting := q.starting[..i] + q.starting[i + 1..], runners := q.runners + [Executing(q.starting[i])])
  }

  lemma StartOk(max: nat, q: Queue, over: multiset<Task>, accepted: multiset<Task>, i: nat)
    requires Ok(max, q, over, accepted) && i < |q.starting|
    ensures Ok(max, Started(q, i), over, accepted)
  {
    var q' := Started(q, i);
    hide AllSorted, InMaps, Held, Times, MinTime, InHand;
    forall t ensures Pending(q', t) + over[t] == accepted[t] {
      HeldLess(q.starting, i, t);
      InHandMore(q.runners, Executing(q.starting[i]), t);
      assert Pending(q, t) + over[t] == accepted[t];
    }
  }

  lemma FinishOk(max: nat, q: Queue, over: multiset<Task>, accepted: multiset<Task>, r: nat)
    requires Ok(max, q, over, accepted) && r < |q.runners| && q.runners[r].Executing?
    ensures var x := q.runners[r].task;
            Ok(max, q.(runners := q.runners[r := Pulling]), over + (if x.Some? then multiset{x.value} else multiset{}),
              accepted)
  {
    var x, q' := q.runners[r].task, q.(runners := q.runners[r := Pulling]);
    var over' := over + (if x.Some? then multiset{x.value} else multiset{});
    hide AllSorted, InMaps, Held, Times, MinTime, InHand;
    forall t ensures Pending(q', t) + over'[t] == accepted[t] {
      InHandUpdate(q.runners, r, Pulling, t);
      assert Pending(q, t) + over[t] == accepted[t];
    }
  }

  lemma LeaveOk(max: nat, q: Queue, over: multiset<Task>, accepted: multiset<Task>, r: nat)
    requires Ok(max, q, over, accepted) && r < |q.runners| && q.runners[r].Pulling? && MinTime(q.maps) == MAX_TIME
    ensures q.concurrency > 0
    ensures Ok(max, q.(concurrency := q.concurrency - 1, runners := q.runners[..r] + q.runners[r + 1..]), over,
            accepted)
  {
    LooksEmpty(q.maps);
    var q' := q.(concurrency := q.concurrency - 1, runners := q.runners[..r] + q.runners[r + 1..]);
    hide AllSorted, InMaps, Held, Times, MinTime, InHand;
    forall t ensures Pending(q', t) + over[t] == accepted[t] {
      InHandLess(q.runners, r, t);
      assert Pending(q, t) + over[t] == accepted[t];
    }
  }

  lemma TakeOk(max: nat, q: Queue, over: multiset<Task>, accepted: multiset<Task>, r: nat, i: nat)
    requires Ok(max, q, over, accepted) && r < |q.runners| && q.runners[r].Pulling? && i < |q.maps| && q.maps[i] != []
    ensures Ok(max, q.(maps := q.maps[i := q.maps[i][1..]], runners := q.runners[r := Executing(Some(q.maps[i][0]))]),
            over, accepted)
  {
    var x := q.maps[i][0];
    var q' := q.(maps := q.maps[i := q.maps[i][1..]], runners := q.runners[r := Executing(Some(x))]);
    assert Sorted(q.maps[i]);
    assert AllSorted(q'.maps);
    hide AllSorted, InMaps, Held, Times, MinTime, InHand;
    forall t ensures Pending(q', t) + over[t] == accepted[t] {
      InHandUpdate(q.runners, r, Executing(Some(x)), t);
      InMapsUpdate(q.maps, i, q.maps[i][1..], t);
      TimesTail(q.maps[i], t);
      assert Pending(q, t) + over[t] == accepted[t];
    }
  }

  lemma TimesTail(m: WhenMap, t: Task)
    requires m != []
    ensures Times(m, t) == Times(m[1..], t) + One(Some(m[0]), t)
  {
    assert m == [m[0]] + m[1..];
  }

  lemma TimesCut(m: WhenMap, k: nat, t: Task)
    requires k < |m|
    ensures Times(m, t) == Times(m[..k] + m[k + 1..], t) + One(Some(m[k]), t)
  {
    assert m == m[..k] + [m[k]] + m[k + 1..];
  }

  lemma CutMultiset(m: WhenMap, k: nat)
    requires k < |m|
    ensures multiset(m[..k] + m[k + 1..]) <= multiset(m)
  {
    assert m == m[..k] + [m[k]] + m[k + 1..];
  }

  lemma CancelOk(max: nat, q: Queue, over: multiset<Task>, accepted: multiset<Task>, i: nat, k: nat)
    requires Ok(max, q, over, accepted) && i < |q.maps| && k < |q.maps[i]|
    ensures Ok(max, q.(maps := q.maps[i := q.maps[i][..k] + q.maps[i][k + 1..]]), over + multiset{q.maps[i][k]},
            accepted)
  {
    var m := q.maps[i];
    var m', x := m[..k] + m[k + 1..], m[k];
    var q' := q.(maps := q.maps[i := m']);
    assert Sorted(m);
    assert forall j :: 0 <= j < |m'| ==> m'[j] == m[if j < k then j else j + 1];
    assert AllSorted(q'.maps);
    forall t ensures InMaps(q'.maps, t) + One(Some(x), t) == InMaps(q.maps, t) {
      InMapsUpdate(q.maps, i, m', t);
      TimesCut(m, k, t);
    }
    hide AllSorted, InMaps, Held, Times, MinTime, InHand;
    forall t ensures Pending(q', t) + (over + multiset{x})[t] == accepted[t] {
      assert Pending(q, t) + over[t] == accepted[t];
    }
  }

  lemma CancelWaitingOk(max: nat, q: Queue, over: multiset<Task>, accepted: multiset<Task>, k: nat)
    requires Ok(max, q, over, accepted) && k < |q.waiting|
    ensures Ok(max, q.(waiting := q.waiting[..k] + q.waiting[k + 1..]), over + multiset{q.waiting[k]}, accepted)
  {
    var x, q' := q.waiting[k], q.(waiting := q.waiting[..k] + q.waiting[k + 1..]);
    assert Prioritised(q'.waiting);
    hide AllSorted, InMaps, Held, Times, MinTime, InHand, Prioritised;
    forall t ensures Pending(q', t) + (over + multiset{x})[t] == accepted[t] {
      TimesCut(q.waiting, k, t);
      assert Pending(q, t) + over[t] == accepted[t];
    }
  }

  /** Without a live runner every accepted task that is not deferred has run or been cancelled. */
  lemma Emptied(max: nat, q: Queue, over: multiset<Task>, accepted: multiset<Task>)
    requires Ok(max, q, over, accepted) && q.concurrency == 0
    ensures accepted == over + multiset(q.waiting) && Prioritised(q.waiting)
    ensures Ok(max, q.(waitingAll := false, waiting := []), over, over)
  {
    var q' := q.(waitingAll := false, waiting := []);
    forall t ensures accepted[t] == over[t] + Times(q.waiting, t) && Pending(q', t) == 0 {
      InMapsMember(q.maps, t);
      assert Pending(q, t) + over[t] == accepted[t];
    }
  }

  // ----- time and priority

  /** Nothing has been handed out before its time, and a task without delay that is deferred is due. */
  ghost predicate OnTime(q: Queue, clock: Time) {
    && (forall i :: 0 <= i < |q.starting| && q.starting[i].Some? ==> q.starting[i].value.uptime <= clock)
    && (forall r :: 0 <= r < |q.runners| && Hand(q.runners[r]).Some? ==> Hand(q.runners[r]).value.uptime <= clock)
    && (forall i :: 0 <= i < |q.waiting| && q.waiting[i].delay == 0 ==> q.waiting[i].uptime <= clock)
  }

  /** Every stored task is in the class of its priority. */
  ghost predicate Classed(maps: seq<WhenMap>) {
    forall i, j :: 0 <= i < |maps| && 0 <= j < |maps[i]| ==> maps[i][j].prio == i
  }

  lemma PushOnTime(q: Queue, max: nat, x: Task, clock: Time, now: Time)
    requires OnTime(q, clock) && clock <= now && x.prio < |q.maps| && (x.delay == 0 ==> x.uptime <= now)
    ensures OnTime(PushedTo(q, max, x), now)
  {
    hide Inserted;
  }

  lemma DeferOnTime(q: Queue, x: Task, clock: Time, now: Time)
    requires OnTime(q, clock) && clock <= now && (x.delay == 0 ==> x.uptime <= now)
    ensures OnTime(q.(waiting := Insert(q.waiting, x)), now)
  {
    InsertMembers(q.waiting, x);
    hide Insert;
    var w := Insert(q.waiting, x);
    forall i | 0 <= i < |w| && w[i].delay == 0 ensures w[i].uptime <= now {
      assert w[i] in w;
    }
  }

  lemma InsertMembers(m: WhenMap, x: Task)
    ensures forall t :: t in Insert(m, x) <==> t in m || t == x
  {
    hide Position;
    var k := Position(m, x.uptime);
    assert m == m[..k] + m[k..];
  }

  lemma StartOnTime(q: Queue, i: nat, clock: Time)
    requires OnTime(q, clock) && i < |q.starting|
    ensures OnTime(Started(q, i), clock)
  {
  }

  lemma LaterOnTime(q: Queue, clock: Time, now: Time)
    requires OnTime(q, clock) && clock <= now
    ensures OnTime(q, now)
  {
  }

  lemma LeaveOnTime(q: Queue, r: nat, now: Time)
    requires OnTime(q, now) && r < |q.runners| && q.concurrency > 0
    ensures OnTime(q.(concurrency := q.concurrency - 1, runners := q.runners[..r] + q.runners[r + 1..]), now)
  {
  }

  lemma TakeOnTime(q: Queue, r: nat, i: nat, now: Time)
    requires OnTime(q, now) && Classed(q.maps) && r < |q.runners| && i < |q.maps| && q.maps[i] != []
    requires q.maps[i][0].uptime <= now
    ensures OnTime(q.(maps := q.maps[i := q.maps[i][1..]], runners := q.runners[r := Executing(Some(q.maps[i][0]))]),
            now)
    ensures Classed(q.maps[i := q.maps[i][1..]])
  {
  }

  lemma CutOnTime(q: Queue, k: nat, clock: Time)
    requires OnTime(q, clock) && k < |q.waiting|
    ensures OnTime(q.(waiting := q.waiting[..k] + q.waiting[k + 1..]), clock)
  {
  }

  lemma InsertedClassed(maps: seq<WhenMap>, x: Task)
    requires Classed(maps) && x.prio < |maps|
    ensures Classed(Inserted(maps, x))
  {
    var maps': seq<WhenMap>, p := Inserted(maps, x), x.prio;
    InsertMembers(maps[p], x);
    hide Insert;
    forall i, j | 0 <= i < |maps'| && 0 <= j < |maps'[i]| ensures maps'[i][j].prio == i {
      if i == p {
        assert maps'[i][j] in maps'[i];
      }
    }
  }

  lemma CutClassed(maps: seq<WhenMap>, i: nat, k: nat)
    requires Classed(maps) && i < |maps| && k < |maps[i]|
    ensures Classed(maps[i := maps[i][..k] + maps[i][k + 1..]])
  {
  }

  ghost predicate Sound(max: nat, q: Queue, over: multiset<Task>, accepted: multiset<Task>, clock: Time) {
    Ok(max, q, over, accepted) && OnTime(q, clock) && Classed(q.maps)
  }

  lemma SoundLater(max: nat, q: Queue, over: multiset<Task>, accepted: multiset<Task>, clock: Time, now: Time)
    requires Sound(max, q, over, accepted, clock) && clock <= now
    ensures Sound(max, q, over, accepted, now) && |q.maps| == PRIORITY_IDLE + 1
  {
    hide Accounted;
  }

  lemma SoundPush(max: nat, q: Queue, over: multiset<Task>, accepted: multiset<Task>, clock: Time, x: Task)
    requires Sound(max, q, over, accepted, clock) && x.prio <= PRIORITY_IDLE && (x.delay == 0 ==> x.uptime <= clock)
    ensures |q.maps| == PRIORITY_IDLE + 1 && Sound(max, PushedTo(q, max, x), over, accepted + multiset{x}, clock)
  {
    PushOk(max, q, over, accepted, x);
    PushOnTime(q, max, x, clock, clock);
    InsertedClassed(q.maps, x);
    hide OnTime, Classed, Accounted, AllSorted, Inserted;
  }

  lemma SoundDefer(max: nat, q: Queue, over: multiset<Task>, accepted: multiset<Task>, clock: Time, x: Task)
    requires Sound(max, q, over, accepted, clock) && x.prio <= PRIORITY_IDLE && (x.delay == 0 ==> x.uptime <= clock)
    requires q.waitingAll
    ensures Sound(max, q.(waiting := Insert(q.waiting, x)), over, accepted + multiset{x}, clock)
  {
    DeferOk(max, q, over, accepted, x);
    DeferOnTime(q, x, clock, clock);
    hide Ok, OnTime, Insert;
  }

  lemma SoundStart(max: nat, q: Queue, over: multiset<Task>, accepted: multiset<Task>, clock: Time, i: nat)
    requires Sound(max, q, over, accepted, clock) && i < |q.starting|
    ensures Sound(max, Started(q, i), over, accepted, clock)
  {
    StartOk(max, q, over, accepted, i);
    StartOnTime(q, i, clock);
    hide Ok, OnTime;
  }

  lemma SoundFinish(max: nat, q: Queue, over: multiset<Task>, accepted: multiset<Task>, clock: Time, r: nat)
    requires Sound(max, q, over, accepted, clock) && r < |q.runners| && q.runners[r].Executing?
    ensures var x := q.runners[r].task;
            Sound(max, q.(runners := q.runners[r := Pulling]),
              over + (if x.Some? then multiset{x.value} else multiset{}), accepted, clock)
  {
    FinishOk(max, q, over, accepted, r);
    hide Ok;
  }

  lemma SoundLeave(max: nat, q: Queue, over: multiset<Task>, accepted: multiset<Task>, clock: Time, r: nat)
    requires Sound(max, q, over, accepted, clock) && r < |q.runners| && q.runners[r].Pulling?
    requires MinTime(q.maps) == MAX_TIME
    ensures q.concurrency > 0
    ensures Sound(max, q.(concurrency := q.concurrency - 1, runners := q.runners[..r] + q.runners[r + 1..]), over,
            accepted, clock)
  {
    LeaveOk(max, q, over, accepted, r);
    LeaveOnTime(q, r, clock);
    hide Ok, OnTime;
  }

  lemma SoundTake(max: nat, q: Queue, over: multiset<Task>, accepted: multiset<Task>, clock: Time, r: nat, i: nat)
    requires Sound(max, q, over, accepted, clock) && r < |q.runners| && q.runners[r].Pulling?
    requires i < |q.maps| && q.maps[i] != [] && q.maps[i][0].uptime <= clock
    ensures var q' := q.(maps := q.maps[i := q.maps[i][1..]],
                         runners := q.runners[r := Executing(Some(q.maps[i][0]))]);
            Sound(max, q', over, accepted, clock)
  {
    TakeOk(max, q, over, accepted, r, i);
    TakeOnTime(q, r, i, clock);
    hide Ok, OnTime, Classed;
  }

  lemma SoundCancel(max: nat, q: Queue, over: multiset<Task>, accepted: multiset<Task>, clock: Time, i: nat, k: nat)
    requires Sound(max, q, over, accepted, clock) && i < |q.maps| && k < |q.maps[i]|
    ensures Sound(max, q.(maps := q.maps[i := q.maps[i][..k] + q.maps[i][k + 1..]]), over + multiset{q.maps[i][k]},
            accepted, clock)
  {
    CancelOk(max, q, over, accepted, i, k);
    CutClassed(q.maps, i, k);
    hide Ok, Classed;
  }

  lemma SoundCancelWaiting(max: nat, q: Queue, over: multiset<Task>, accepted: multiset<Task>, clock: Time, k: nat)
    requires Sound(max, q, over, accepted, clock) && k < |q.waiting|
    ensures Sound(max, q.(waiting := q.waiting[..k] + q.waiting[k + 1..]), over + multiset{q.waiting[k]}, accepted,
            clock)
  {
    CancelWaitingOk(max, q, over, accepted, k);
    CutOnTime(q, k, clock);
    hide Ok, OnTime;
  }

  lemma SoundEmptied(max: nat, q: Queue, over: multiset<Task>, accepted: multiset<Task>, clock: Time)
    requires Sound(max, q, over, accepted, clock) && q.concurrency == 0
    ensures accepted == over + multiset(q.waiting) && Prioritised(q.waiting)
    ensures forall i :: 0 <= i < |q.waiting| && q.waiting[i].delay == 0 ==> q.waiting[i].uptime <= clock
    ensures Sound(max, q.(waitingAll := false, waiting := []), over, over, clock)
  {
    Emptied(max, q, over, accepted);
    hide Ok;
  }

  class ConcurrentQueue {
    const maxConcurrency: nat
    var concurrency: nat
    var whenMapVec: seq<WhenMap>
    var waitingMap: WhenMap
    var waitingAll: bool
    /** Submitters who have been counted in and have yet to hand their task to the scheduler. */
    var starting: seq<Option<Task>>
    var runners: seq<Runner>

    ghost var accepted: multiset<Task>
    ghost var ran: multiset<Task>
    ghost var cancelled: multiset<Task>
    /** What had been accepted when the wait for everything began. */
    ghost var before: multiset<Task>
    /** The latest time at which anybody looked at the clock. */
    ghost var clock: Time

    ghost function Value(): Queue
      reads this
    {
      Queue(concurrency, whenMapVec, waitingAll, waitingMap, starting, runners)
    }

    ghost predicate Valid()
      reads this
    {
      && Sound(maxConcurrency, Value(), ran + cancelled, accepted, clock)
      && (waitingAll ==> before + multiset(waitingMap) <= accepted)
    }

    constructor (max: int)
      ensures Valid() && maxConcurrency == (if max <= 0 then 1 else max) && accepted == ran == cancelled == multiset{}
      ensures Value() == Queue(0, [[], [], [], []], false, [], [], [])
    {
      maxConcurrency := if max <= 0 then 1 else max;
      concurrency, whenMapVec, waitingMap, waitingAll, starting, runners := 0, [[], [], [], []], [], false, [], [];
      accepted, ran, cancelled, before, clock := multiset{}, multiset{}, multiset{}, multiset{}, 0;
      new;
      EmptyMaps();
    }

    method InsertTask(task: Task)
      requires |whenMapVec| == PRIORITY_IDLE + 1 && task.prio <= PRIORITY_IDLE
      modifies `whenMapVec
      ensures whenMapVec == Inserted(old(whenMapVec), task)
    {
      var m := whenMapVec[task.prio];
      var k := 0;
      while k < |m| && m[k].uptime <= task.uptime
        invariant 0 <= k <= |m| && forall i :: 0 <= i < k ==> m[i].uptime <= task.uptime
      {
        k := k + 1;
      }
      PositionIs(m, task.uptime, k);
      whenMapVec := whenMapVec[task.prio := m[..k] + [task] + m[k..]];
    }

    /** `PushAndCalConcurrency`: below the limit the task gets a runner of its own. */
    method PushAndCalConcurrency(task: Task) returns (concurrent: bool)
      requires Valid() && task.prio <= PRIORITY_IDLE && (task.delay == 0 ==> task.uptime <= clock)
      modifies `concurrency, `whenMapVec, `starting, `accepted
      ensures Valid() && accepted == old(accepted) + multiset{task}
      ensures Value() == PushedTo(old(Value()), maxConcurrency, task)
              && concurrent == (old(concurrency) < maxConcurrency)
      ensures starting == old(starting) + if !concurrent then [] else if task.delay == 0 then [Some(task)] else [None]
      ensures concurrent && task.delay == 0 ==> whenMapVec == old(whenMapVec)
    {
      hide Sound, Inserted;
      SoundPush(maxConcurrency, Value(), ran + cancelled, accepted, clock, task);
      concurrent := concurrency < maxConcurrency;
      if concurrent {
        concurrency := concurrency + 1;
        if task.delay > 0 {
          InsertTask(task);
        }
        starting := starting + [if task.delay > 0 then None else Some(task)];
      } else {
        InsertTask(task);
      }
      accepted := accepted + multiset{task};
      assert Value() == PushedTo(old(Value()), maxConcurrency, task);
    }

    method Push(task: Task, ghost now: Time) returns (concurrent: bool)
      requires Valid() && clock <= now && task.uptime == now + task.delay
      modifies this
      ensures Valid() && ran == old(ran) && cancelled == old(cancelled) && waitingAll == old(waitingAll)
              && before == old(before) && clock == now
      ensures accepted == old(accepted) + multiset{Clamped(task)}
              && concurrent == (!waitingAll && old(concurrency) < maxConcurrency)
      ensures Value() == if waitingAll then old(Value()).(waiting := Insert(old(waitingMap), Clamped(task)))
                         else PushedTo(old(Value()), maxConcurrency, Clamped(task))
      ensures starting == old(starting) + if !concurrent then [] else if task.delay == 0 then [Some(Clamped(task))]
                                          else [None]
    {
      hide Sound, Insert;
      var t := Clamped(task);
      SoundLater(maxConcurrency, Value(), ran + cancelled, accepted, clock, now);
      clock := now;
      if waitingAll {
        SoundDefer(maxConcurrency, Value(), ran + cancelled, accepted, clock, t);
        InsertMultiset(waitingMap, t);
        waitingMap := Insert(waitingMap, t);
        accepted := accepted + multiset{t};
        concurrent := false;
      } else {
        concurrent := PushAndCalConcurrency(t);
      }
    }

    /** A counted submitter hands its task, or an empty one, to the scheduler. */
    method Start(i: nat)
      requires Valid() && i < |starting|
      modifies `starting, `runners
      ensures Valid() && Value() == Started(old(Value()), i)
    {
      hide Sound;
      SoundStart(maxConcurrency, Value(), ran + cancelled, accepted, clock, i);
      runners := runners + [Executing(starting[i])];
      starting := starting[..i] + starting[i + 1..];
    }

    /** A task runs to its end; its runner goes to fetch the next one. */
    method Finish(r: nat)
      requires Valid() && r < |runners| && runners[r].Executing?
      modifies `runners, `ran
      ensures Valid() && Value() == old(Value()).(runners := old(runners)[r := Pulling])
      ensures ran == old(ran) + (if old(runners)[r].task.Some? then multiset{old(runners)[r].task.value}
              else multiset{})
    {
      hide Sound;
      SoundFinish(maxConcurrency, Value(), ran + cancelled, accepted, clock, r);
      ghost var x := if runners[r].task.Some? then multiset{runners[r].task.value} else multiset{};
      assert (ran + x) + cancelled == (ran + cancelled) + x;
      ran := ran + x;
      runners := runners[r := Pulling];
    }

    method GetWhenMapVecStats() returns (minTime: Time, isEmpty: bool)
      requires |whenMapVec| == PRIORITY_IDLE + 1
      ensures minTime == MinTime(whenMapVec) && isEmpty == (minTime == MAX_TIME)
    {
      minTime := MAX_TIME;
      for idx := 0 to |whenMapVec|
        invariant minTime <= MAX_TIME
                  && forall i :: 0 <= i < idx && whenMapVec[i] != [] ==> minTime <= whenMapVec[i][0].uptime
        invariant minTime == MAX_TIME
                  || exists i :: 0 <= i < idx && whenMapVec[i] != [] && whenMapVec[i][0].uptime == minTime
      {
        if whenMapVec[idx] != [] && whenMapVec[idx][0].uptime < minTime {
          minTime := whenMapVec[idx][0].uptime;
        }
      }
      MinTimeIs(whenMapVec, minTime);
      isEmpty := minTime == MAX_TIME;
    }

    /** `DequeSingleByPriority`: the first class with a due head. */
    method DequeByPriority(now: Time) returns (task: Task, iterIndex: nat)
      requires |whenMapVec| == PRIORITY_IDLE + 1
               && exists i :: 0 <= i < |whenMapVec| && whenMapVec[i] != [] && whenMapVec[i][0].uptime <= now
      modifies `whenMapVec
      ensures iterIndex < |old(whenMapVec)| && FirstDue(old(whenMapVec), now, iterIndex)
              && task == old(whenMapVec)[iterIndex][0]
      ensures whenMapVec == old(whenMapVec)[iterIndex := old(whenMapVec)[iterIndex][1..]]
    {
      iterIndex := PRIORITY_IDLE;
      for idx := 0 to |whenMapVec|
        invariant whenMapVec == old(whenMapVec) && iterIndex == PRIORITY_IDLE
        invariant forall i :: 0 <= i < idx && whenMapVec[i] != [] ==> whenMapVec[i][0].uptime > now
      {
        if whenMapVec[idx] != [] && whenMapVec[idx][0].uptime <= now {
          iterIndex := idx;
          break;
        }
      }
      task := whenMapVec[iterIndex][0];
      whenMapVec := whenMapVec[iterIndex := whenMapVec[iterIndex][1..]];
    }

    /** `Pull`: with nothing to fetch the runner is over; with nothing due it waits; otherwise it gets the
        head of the first class that is due. */
    method Pull(r: nat, now: Time)
      requires Valid() && r < |runners| && runners[r].Pulling? && clock <= now
      modifies `concurrency, `whenMapVec, `runners, `clock
      ensures Valid() && clock == now
      ensures MinTime(old(whenMapVec)) == MAX_TIME ==>
                Value() == old(Value()).(concurrency := old(concurrency) - 1,
                  runners := old(runners)[..r] + old(runners)[r + 1..])
      ensures now < MinTime(old(whenMapVec)) < MAX_TIME ==> Value() == old(Value())
      ensures MinTime(old(whenMapVec)) < MAX_TIME && MinTime(old(whenMapVec)) <= now ==>
                exists i :: 0 <= i < |old(whenMapVec)| && FirstDue(old(whenMapVec), now, i)
                  && Value() == old(Value()).(maps := old(whenMapVec)[i := old(whenMapVec)[i][1..]],
                                             runners := old(runners)[r := Executing(Some(old(whenMapVec)[i][0]))])
    {
      hide Sound, MinTime;
      MinTimeMeans(whenMapVec);
      SoundLater(maxConcurrency, Value(), ran + cancelled, accepted, clock, now);
      clock := now;
      var minTime, isEmpty := GetWhenMapVecStats();
      if isEmpty {
        SoundLeave(maxConcurrency, Value(), ran + cancelled, accepted, clock, r);
        concurrency := concurrency - 1;
        runners := runners[..r] + runners[r + 1..];
      } else if now >= minTime {
        ghost var q := Value();
        var task, iterIndex := DequeByPriority(now);
        SoundTake(maxConcurrency, q, ran + cancelled, accepted, clock, r, iterIndex);
        runners := runners[r := Executing(Some(task))];
      }
    }

    method Find(m: WhenMap, task: Task) returns (k: nat)
      ensures k <= |m| && (k < |m| ==> m[k] == task) && (k == |m| <==> task !in m)
    {
      k := 0;
      while k < |m| && m[k] != task
        invariant k <= |m| && task !in m[..k]
      {
        k := k + 1;
      }
      assert m[..|m|] == m;
    }

    /** `Remove` of one task. */
    method Cancel(task: Task) returns (ok: bool)
      requires Valid()
      modifies `whenMapVec, `waitingMap, `cancelled
      ensures Valid() && ok == (task in old(waitingMap)
              || exists i :: 0 <= i < |old(whenMapVec)| && task in old(whenMapVec)[i])
      ensures cancelled == if ok then old(cancelled) + multiset{task} else old(cancelled)
      ensures multiset(waitingMap) <= multiset(old(waitingMap))
    {
      hide Sound;
      ok := CancelStored(task);
      if !ok {
        ok := CancelDeferred(task);
      }
    }

    method CancelStored(task: Task) returns (ok: bool)
      requires Valid()
      modifies `whenMapVec, `cancelled
      ensures Valid() && ok == exists i :: 0 <= i < |old(whenMapVec)| && task in old(whenMapVec)[i]
      ensures cancelled == if ok then old(cancelled) + multiset{task} else old(cancelled)
    {
      hide Sound;
      for i := 0 to |whenMapVec|
        invariant whenMapVec == old(whenMapVec) && cancelled == old(cancelled)
        invariant forall j :: 0 <= j < i ==> task !in whenMapVec[j]
      {
        var m := whenMapVec[i];
        var k := Find(m, task);
        if k < |m| {
          SoundCancel(maxConcurrency, Value(), ran + cancelled, accepted, clock, i, k);
          whenMapVec := whenMapVec[i := m[..k] + m[k + 1..]];
          assert ran + (cancelled + multiset{task}) == (ran + cancelled) + multiset{task};
          cancelled := cancelled + multiset{task};
          assert task in old(whenMapVec)[i];
          return true;
        }
      }
      return false;
    }

    method CancelDeferred(task: Task) returns (ok: bool)
      requires Valid()
      modifies `waitingMap, `cancelled
      ensures Valid() && ok == (task in old(waitingMap))
      ensures cancelled == if ok then old(cancelled) + multiset{task} else old(cancelled)
      ensures multiset(waitingMap) <= multiset(old(waitingMap))
    {
      hide Sound;
      var k := Find(waitingMap, task);
      ok := k < |waitingMap|;
      if ok {
        SoundCancelWaiting(maxConcurrency, Value(), ran + cancelled, accepted, clock, k);
        CutMultiset(waitingMap, k);
        assert ran + (cancelled + multiset{task}) == (ran + cancelled) + multiset{task};
        waitingMap := waitingMap[..k] + waitingMap[k + 1..];
        cancelled := cancelled + multiset{task};
      }
    }

    /** There are as many runners as counted and never too many, and while something is stored there is one. */
    lemma RunnersCounted()
      requires Valid()
      ensures concurrency == |starting| + |runners| <= maxConcurrency
      ensures concurrency == 0 ==> forall i :: 0 <= i < |whenMapVec| ==> whenMapVec[i] == []
    {
      hide Accounted;
    }

    /** No task is handed to the scheduler before its time, and every stored task is in the class of its priority. */
    lemma NeverEarly()
      requires Valid()
      ensures forall i :: 0 <= i < |starting| && starting[i].Some? ==> starting[i].value.uptime <= clock
      ensures forall r :: 0 <= r < |runners| && runners[r].Executing? && runners[r].task.Some?
                ==> runners[r].task.value.uptime <= clock
      ensures forall i, t :: 0 <= i < |whenMapVec| && t in whenMapVec[i] ==> t.prio == i
    {
      hide Ok;
      assert forall r :: 0 <= r < |runners| && runners[r].Executing? && runners[r].task.Some?
               ==> Hand(runners[r]) == runners[r].task;
    }

    // ----- waiting for everything

    method BeginWaitAll() returns (again: bool)
      requires Valid()
      modifies `waitingAll, `before
      ensures Valid() && again == old(waitingAll) && waitingAll
      ensures if again then before == old(before) else before == accepted && waitingMap == []
    {
      hide AllSorted, MinTime;
      again := waitingAll;
      before := if again then before else accepted;
      waitingAll := true;
      forall t ensures Pending(Value(), t) == old(Pending(Value(), t)) {
      }
    }

    method Resubmit(tasks: WhenMap)
      requires Valid() && Prioritised(tasks)
               && (forall i :: 0 <= i < |tasks| && tasks[i].delay == 0 ==> tasks[i].uptime <= clock)
      modifies `concurrency, `whenMapVec, `starting, `accepted
      ensures Valid() && accepted == old(accepted) + multiset(tasks)
      ensures concurrency == if old(concurrency) + |tasks| <= maxConcurrency then old(concurrency) + |tasks|
                             else maxConcurrency
    {
      hide Sound;
      RunnersCounted();
      for i := 0 to |tasks|
        invariant Valid() && accepted == old(accepted) + multiset(tasks[..i])
        invariant concurrency == if old(concurrency) + i <= maxConcurrency then old(concurrency) + i
                                 else maxConcurrency
      {
        var concurrent := PushAndCalConcurrency(tasks[i]);
        assert tasks[..i + 1] == tasks[..i] + [tasks[i]];
      }
      assert tasks[..|tasks|] == tasks;
    }

    /** The end of `WaitAll`, once no runner is left: every task accepted before the wait began has run or
        been cancelled. The deferred ones are submitted, and none of them is lost. */
    method EndWaitAll()
      requires Valid() && waitingAll && concurrency == 0
      modifies this
      ensures Valid() && !waitingAll && accepted == old(accepted) && ran == old(ran) && cancelled == old(cancelled)
      ensures old(before) <= ran + cancelled && accepted == ran + cancelled + multiset(old(waitingMap))
      ensures runners == [] && waitingMap == [] && concurrency == |starting|
      ensures |starting| == if |old(waitingMap)| <= maxConcurrency then |old(waitingMap)| else maxConcurrency
    {
      hide Sound;
      SoundEmptied(maxConcurrency, Value(), ran + cancelled, accepted, clock);
      forall t ensures before[t] <= (ran + cancelled)[t] {
        assert (before + multiset(waitingMap))[t] <= accepted[t];
      }
      var tasks := waitingMap;
      accepted := ran + cancelled;
      waitingMap := [];
      waitingAll := false;
      RunnersCounted();
      Resubmit(tasks);
      RunnersCounted();
    }
  }

  lemma EmptyMaps()
    ensures NoneIn([[], [], [], []]) && AllSorted([[], [], [], []])
    ensures forall t :: InMaps([[], [], [], []], t) == 0 && Held(InHand([]), t) == 0
  {
    forall t ensures InMaps([[], [], [], []], t) == 0 && Held(InHand([]), t) == 0 {
      InMapsMember([[], [], [], []], t);
    }
  }

  lemma {:induction false} PositionIs(m: WhenMap, key: Time, k: nat)
    requires k <= |m| && (forall i :: 0 <= i < k ==> m[i].uptime <= key) && (k < |m| ==> m[k].uptime > key)
    ensures Position(m, key) == k
  {
    if k > 0 {
      PositionIs(m[1..], key, k - 1);
    }
  }
}
