/** The serial queue: a token that is passed from the submitter who activates the queue to the runner
    of a batch and on to the next batch. Every method is one critical section or one step outside of
    one; any order of calls is a run. */
module SerialQueue {
  type Time = nat

  /** `id` counts the accepted tasks; `uptime` is the time of submission plus `delay`. */
  datatype Task = Task(id: nat, uptime: Time, delay: Time, insertHead: bool, qos: nat)

  datatype Item = Item(key: Time, task: Task)

  datatype Runner = Executing(chain: seq<Task>) | Delivering

  function Tasks(m: seq<Item>): (r: seq<Task>)
    ensures |r| == |m| && forall i :: 0 <= i < |m| ==> r[i] == m[i].task
  {
    seq(|m|, i requires 0 <= i < |m| => m[i].task)
  }

  // ----- the time-ordered map

  ghost predicate Sorted(m: seq<Item>) {
    forall i, j :: 0 <= i < j < |m| ==> m[i].key <= m[j].key
  }

  /** A multimap inserts behind the entries with the same key. */
  function Position(m: seq<Item>, key: Time): (k: nat)
    ensures k <= |m| && (k < |m| ==> m[k].key > key) && forall i :: 0 <= i < k ==> m[i].key <= key
  {
    if m == [] || m[0].key > key then 0 else 1 + Position(m[1..], key)
  }

  function Insert(m: seq<Item>, x: Item): seq<Item> {
    var k := Position(m, x.key);
    m[..k] + [x] + m[k..]
  }

  lemma InsertSorted(m: seq<Item>, x: Item)
    requires Sorted(m)
    ensures Sorted(Insert(m, x))
  {
    hide Position;
    var k, r := Position(m, x.key), Insert(m, x);
    forall i, j | 0 <= i < j < |r| ensures r[i].key <= r[j].key {
      InsertedAt(m, k, x, i);
      InsertedAt(m, k, x, j);
    }
  }

  lemma InsertedAt(m: seq<Item>, k: nat, x: Item, i: nat)
    requires k <= |m| && i <= |m|
    ensures (m[..k] + [x] + m[k..])[i] == if i < k then m[i] else if i == k then x else m[i - 1]
  {
  }

  /** The key under which a task is stored. */
  function KeyOf(m: seq<Item>, t: Task): Time {
    if t.insertHead && m != [] then
      var headTime := if m[0].key > 0 then m[0].key - 1 else 0;
      if headTime < t.uptime then headTime else t.uptime
    else t.uptime
  }

  // ----- the order in which tasks run

  /** Submitted without delay, and not to the head of the queue. */
  predicate Plain(t: Task) {
    t.delay == 0 && !t.insertHead
  }

  /** No plain task stands behind one that was submitted after it, unless it is due later. */
  ghost predicate InOrder(p: seq<Task>) {
    forall i, j :: 0 <= i < j < |p| && Plain(p[i]) && Plain(p[j]) && p[j].id < p[i].id ==> p[j].uptime > p[i].uptime
  }

  /** Tasks that are not inserted at the head are stored under their own time. */
  ghost predicate PlainKeys(m: seq<Item>) {
    forall i :: 0 <= i < |m| && !m[i].task.insertHead ==> m[i].key == m[i].task.uptime
  }

  lemma TasksInsert(m: seq<Item>, x: Item)
    ensures Tasks(Insert(m, x)) == Tasks(m[..Position(m, x.key)]) + [x.task] + Tasks(m[Position(m, x.key)..])
    ensures Tasks(m) == Tasks(m[..Position(m, x.key)]) + Tasks(m[Position(m, x.key)..])
  {
    hide Position;
  }

  /** A task may be put between `a` and `b` if it is newer than `a` and due before the plain ones of `b`. */
  lemma Between(a: seq<Task>, x: Task, b: seq<Task>)
    requires InOrder(a + b) && (Plain(x) ==> forall t :: t in a ==> t.id < x.id)
    requires forall i :: 0 <= i < |b| && Plain(x) && Plain(b[i]) ==> b[i].uptime > x.uptime
    ensures InOrder(a + [x] + b)
  {
    var r := a + [x] + b;
    forall i, j | 0 <= i < j < |r| && Plain(r[i]) && Plain(r[j]) && r[j].id < r[i].id
        ensures r[j].uptime > r[i].uptime {
      BetweenAt(a, x, b, i, j);
    }
  }

  lemma BetweenAt(a: seq<Task>, x: Task, b: seq<Task>, i: nat, j: nat)
    requires InOrder(a + b) && (Plain(x) ==> forall t :: t in a ==> t.id < x.id)
    requires forall i :: 0 <= i < |b| && Plain(x) && Plain(b[i]) ==> b[i].uptime > x.uptime
    requires i < j < |a| + 1 + |b|
    ensures var r := a + [x] + b;
            Plain(r[i]) && Plain(r[j]) && r[j].id < r[i].id ==> r[j].uptime > r[i].uptime
  {
    var p, r, n := a + b, a + [x] + b, |a|;
    if i == n {
      assert r[i] == x && r[j] == b[j - n - 1];
    } else if j == n {
      assert r[j] == x && r[i] == a[i] && a[i] in a;
    } else {
      assert r[i] == p[if i < n then i else i - 1] && r[j] == p[if j < n then j else j - 1];
    }
  }

  lemma Dropped(a: seq<Task>, x: Task, b: seq<Task>)
    requires InOrder(a + [x] + b)
    ensures InOrder(a + b)
  {
    var p, r, n := a + [x] + b, a + b, |a|;
    assert forall i :: 0 <= i < |r| ==> r[i] == p[if i < n then i else i + 1];
  }

  lemma Regroup(p: seq<Task>, a: seq<Task>, x: Task, b: seq<Task>)
    ensures p + (a + [x] + b) == (p + a) + [x] + b && p + (a + b) == (p + a) + b
  {
  }

  /** The same with something more in front. */
  lemma BetweenBehind(p: seq<Task>, a: seq<Task>, x: Task, b: seq<Task>, n: nat)
    requires InOrder(p + (a + b)) && (forall t :: t in p || t in a + b ==> t.id < n) && (Plain(x) ==> n <= x.id)
    requires forall i :: 0 <= i < |b| && Plain(x) && Plain(b[i]) ==> b[i].uptime > x.uptime
    ensures InOrder(p + (a + [x] + b))
  {
    hide InOrder;
    Regroup(p, a, x, b);
    forall t | t in p + a ensures t.id < n {
      assert t in a ==> t in a + b;
    }
    Between(p + a, x, b);
  }

  lemma DroppedBehind(p: seq<Task>, a: seq<Task>, x: Task, b: seq<Task>)
    requires InOrder(p + (a + [x] + b))
    ensures InOrder(p + (a + b))
  {
    hide InOrder;
    Regroup(p, a, x, b);
    Dropped(p + a, x, b);
  }

  lemma InsertPlainKeys(m: seq<Item>, x: Item)
    requires PlainKeys(m) && (!x.task.insertHead ==> x.key == x.task.uptime)
    ensures PlainKeys(Insert(m, x))
  {
    var k, r := Position(m, x.key), Insert(m, x);
    assert forall i :: 0 <= i < |r| && i != k ==> r[i] == m[if i < k then i else i - 1];
    assert r[k] == x;
  }

  /** Everything behind the place of insertion is due later. */
  lemma Behind(m: seq<Item>, x: Item)
    requires Sorted(m) && PlainKeys(m) && (Plain(x.task) ==> x.key == x.task.uptime)
    ensures var b := Tasks(m[Position(m, x.key)..]);
            forall i :: 0 <= i < |b| && Plain(x.task) && Plain(b[i]) ==> b[i].uptime > x.task.uptime
  {
    var k := Position(m, x.key);
    var b := Tasks(m[k..]);
    forall i | 0 <= i < |b| && Plain(x.task) && Plain(b[i]) ensures b[i].uptime > x.task.uptime {
      assert b[i] == m[k + i].task;
      assert m[k].key <= m[k + i].key;
    }
  }

  // ----- the queue as a whole

  /** `ahead` is what has run, is at work or is about to be started; `outside` a delayed task not in the
      map yet. Nothing is lost or doubled, and plain tasks are in order. */
  ghost predicate Ok(m: seq<Item>, ahead: seq<Task>, outside: seq<Task>, cancelled: seq<Task>, accepted: seq<Task>) {
    && Sorted(m) && PlainKeys(m)
    && multiset(ahead) + multiset(Tasks(m)) + multiset(outside) + multiset(cancelled) == multiset(accepted)
    && (forall i :: 0 <= i < |accepted| ==> accepted[i].id == i)
    && InOrder(ahead + Tasks(m))
  }

  lemma NothingOk()
    ensures Ok([], [], [], [], [])
  {
  }

  lemma KnownIds(m: seq<Item>, ahead: seq<Task>, outside: seq<Task>, cancelled: seq<Task>, accepted: seq<Task>)
    requires Ok(m, ahead, outside, cancelled, accepted)
    ensures forall t :: t in ahead || t in Tasks(m) ==> t.id < |accepted|
  {
    forall t | t in ahead || t in Tasks(m) ensures t.id < |accepted| {
      assert t in multiset(ahead) || t in multiset(Tasks(m));
      assert t in multiset(accepted);
      assert t in accepted;
    }
  }

  lemma {:induction false} InsertMultiset(m: seq<Item>, x: Item)
    ensures multiset(Tasks(Insert(m, x))) == multiset(Tasks(m)) + multiset{x.task}
  {
    TasksInsert(m, x);
  }

  lemma InsertInOrder(m: seq<Item>, ahead: seq<Task>, x: Item, n: nat)
    requires Sorted(m) && PlainKeys(m) && InOrder(ahead + Tasks(m)) && (Plain(x.task) ==> x.key == x.task.uptime)
    requires (forall t :: t in ahead || t in Tasks(m) ==> t.id < n) && (Plain(x.task) ==> n <= x.task.id)
    ensures InOrder(ahead + Tasks(Insert(m, x)))
  {
    hide InOrder, Insert, Sorted, PlainKeys, Position;
    TasksInsert(m, x);
    Behind(m, x);
    var k := Position(m, x.key);
    BetweenBehind(ahead, Tasks(m[..k]), x.task, Tasks(m[k..]), n);
  }

  /** A new task is put in the map. */
  lemma NewInserted(m: seq<Item>, ahead: seq<Task>, outside: seq<Task>, cancelled: seq<Task>, accepted: seq<Task>,
      x: Item)
    requires Ok(m, ahead, outside, cancelled, accepted) && x.task.id == |accepted|
             && (!x.task.insertHead ==> x.key == x.task.uptime)
    ensures Ok(Insert(m, x), ahead, outside, cancelled, accepted + [x.task])
  {
    KnownIds(m, ahead, outside, cancelled, accepted);
    InsertSorted(m, x);
    InsertPlainKeys(m, x);
    InsertMultiset(m, x);
    InsertInOrder(m, ahead, x, |accepted|);
    hide InOrder, Sorted, PlainKeys, Insert, Tasks;
  }

  /** The delayed task that activated the queue is put in the map. */
  lemma DelayedInserted(m: seq<Item>, ahead: seq<Task>, cancelled: seq<Task>, accepted: seq<Task>, x: Item)
    requires Ok(m, ahead, [x.task], cancelled, accepted) && !Plain(x.task)
             && (!x.task.insertHead ==> x.key == x.task.uptime)
    ensures Ok(Insert(m, x), ahead, [], cancelled, accepted)
  {
    KnownIds(m, ahead, [x.task], cancelled, accepted);
    InsertSorted(m, x);
    InsertPlainKeys(m, x);
    InsertMultiset(m, x);
    InsertInOrder(m, ahead, x, |accepted|);
    hide InOrder, Sorted, PlainKeys, Insert, Tasks;
  }

  /** A task activates an inactive queue. */
  lemma Activated(ahead: seq<Task>, cancelled: seq<Task>, accepted: seq<Task>, t: Task)
    requires Ok([], ahead, [], cancelled, accepted) && t.id == |accepted|
    ensures if t.delay == 0 then Ok([], ahead + [t], [], cancelled, accepted + [t])
            else Ok([], ahead, [t], cancelled, accepted + [t])
  {
    KnownIds([], ahead, [], cancelled, accepted);
    assert ahead + Tasks([]) == ahead && ahead + [t] + Tasks([]) == ahead + [t] + [];
    if t.delay == 0 {
      assert ahead + [] == ahead;
      Between(ahead, t, []);
    }
    hide InOrder;
  }

  /** A task is taken out of the map. */
  lemma Removed(m: seq<Item>, ahead: seq<Task>, outside: seq<Task>, cancelled: seq<Task>, accepted: seq<Task>, k: nat)
    requires Ok(m, ahead, outside, cancelled, accepted) && k < |m|
    ensures Ok(m[..k] + m[k + 1..], ahead, outside, cancelled + [m[k].task], accepted)
  {
    hide InOrder;
    SortedWithout(m, k);
    TasksWithout(m, k);
    hide Sorted, PlainKeys;
    DroppedBehind(ahead, Tasks(m[..k]), m[k].task, Tasks(m[k + 1..]));
    hide Tasks;
  }

  lemma SortedWithout(m: seq<Item>, k: nat)
    requires Sorted(m) && PlainKeys(m) && k < |m|
    ensures Sorted(m[..k] + m[k + 1..]) && PlainKeys(m[..k] + m[k + 1..])
  {
    var m' := m[..k] + m[k + 1..];
    assert forall i :: 0 <= i < |m'| ==> m'[i] == m[if i < k then i else i + 1];
  }

  lemma TasksWithout(m: seq<Item>, k: nat)
    requires k < |m|
    ensures Tasks(m) == Tasks(m[..k]) + [m[k].task] + Tasks(m[k + 1..])
    ensures Tasks(m[..k] + m[k + 1..]) == Tasks(m[..k]) + Tasks(m[k + 1..])
  {
  }

  lemma TasksSplit(m: seq<Item>, n: nat)
    requires n <= |m|
    ensures Tasks(m) == Tasks(m[..n]) + Tasks(m[n..])
  {
  }

  /** The first `n` tasks of the map become the batch at work. */
  lemma Taken(m: seq<Item>, ahead: seq<Task>, outside: seq<Task>, cancelled: seq<Task>, accepted: seq<Task>, n: nat)
    requires Ok(m, ahead, outside, cancelled, accepted) && n <= |m|
    ensures Ok(m[n..], ahead + Tasks(m[..n]), outside, cancelled, accepted)
  {
    hide InOrder, Tasks;
    TasksSplit(m, n);
    assert ahead + (Tasks(m[..n]) + Tasks(m[n..])) == (ahead + Tasks(m[..n])) + Tasks(m[n..]);
  }

  /** Everything in the map is cancelled. */
  lemma Cleared(m: seq<Item>, ahead: seq<Task>, outside: seq<Task>, cancelled: seq<Task>, accepted: seq<Task>)
    requires Ok(m, ahead, outside, cancelled, accepted)
    ensures Ok([], ahead, outside, cancelled + Tasks(m), accepted)
  {
    var p := ahead + Tasks(m);
    assert forall i :: 0 <= i < |ahead| ==> p[i] == ahead[i];
    assert ahead + Tasks([]) == ahead;
  }

  // ----- batches

  /** How many tasks a dequeue takes: the first, and those behind it that are due and of the same QoS. */
  function BatchLength(m: seq<Item>, now: Time): (n: nat)
    requires m != []
    ensures 0 < n <= |m| && forall i :: 0 < i < n ==> m[i].key < now && m[i].task.qos == m[0].task.qos
    ensures n < |m| ==> m[n].key >= now || m[n].task.qos != m[0].task.qos
  {
    1 + Followers(m[1..], now, m[0].task.qos)
  }

  function Followers(m: seq<Item>, now: Time, qos: nat): (n: nat)
    ensures n <= |m| && forall i :: 0 <= i < n ==> m[i].key < now && m[i].task.qos == qos
    ensures n < |m| ==> m[n].key >= now || m[n].task.qos != qos
  {
    if m == [] || m[0].key >= now || m[0].task.qos != qos then 0 else 1 + Followers(m[1..], now, qos)
  }

  lemma {:induction false} FollowersAre(m: seq<Item>, now: Time, qos: nat, n: nat)
    requires n <= |m| && (forall i :: 0 <= i < n ==> m[i].key < now && m[i].task.qos == qos)
    requires n < |m| ==> m[n].key >= now || m[n].task.qos != qos
    ensures n == Followers(m, now, qos)
  {
    if n > 0 {
      FollowersAre(m[1..], now, qos, n - 1);
    }
  }

  // ----- time

  /** None of the tasks is due after `now`, except that one inserted at the head may be. */
  ghost predicate NotEarly(p: seq<Task>, now: Time) {
    forall i :: 0 <= i < |p| && !p[i].insertHead ==> p[i].uptime <= now
  }

  lemma LaterNotEarly(p: seq<Task>, now: Time, now': Time)
    requires NotEarly(p, now) && now <= now'
    ensures NotEarly(p, now')
  {
  }

  /** Only a task inserted at the head is stored under a time other than its own, and never under a later one. */
  lemma OwnKey(m: seq<Item>, t: Task)
    ensures KeyOf(m, t) <= t.uptime && (!t.insertHead ==> KeyOf(m, t) == t.uptime)
  {
  }

  /** A batch is made of tasks that are due. */
  lemma BatchNotEarly(m: seq<Item>, ahead: seq<Task>, outside: seq<Task>, cancelled: seq<Task>, accepted: seq<Task>,
      now: Time)
    requires Ok(m, ahead, outside, cancelled, accepted) && NotEarly(ahead, now) && m != [] && m[0].key <= now
    ensures NotEarly(ahead + Tasks(m[..BatchLength(m, now)]), now)
  {
    hide InOrder, BatchLength, Sorted;
    var n := BatchLength(m, now);
    var p := ahead + Tasks(m[..n]);
    forall i | 0 <= i < |p| && !p[i].insertHead ensures p[i].uptime <= now {
      if i >= |ahead| {
        assert p[i] == m[i - |ahead|].task;
      } else {
        assert p[i] == ahead[i];
      }
    }
  }

  /** A task for the head of a queue that is not empty becomes the first, unless the first is stored under the earliest
      time there is. */
  lemma HeadFirst(m: seq<Item>, t: Task)
    requires Sorted(m) && m != [] && t.insertHead
    ensures Insert(m, Item(KeyOf(m, t), t))[0].task == t <==> m[0].key > 0 || m[0].task == t
  {
  }

  class SerialQueue {
    var isActiveState: bool
    var whenMap: seq<Item>
    /** Submitters who found the queue inactive and have yet to start it. */
    var starting: seq<Task>
    /** Batches that have been handed to the scheduler. */
    var runners: seq<Runner>

    ghost var accepted: seq<Task>
    ghost var ran: seq<Task>
    ghost var cancelled: seq<Task>
    /** The latest time at which anybody looked at the clock. */
    ghost var clock: Time

    /** What is ahead of the map: what has run, the batch at work, and a task about to be started. */
    ghost function Ahead(): seq<Task>
      reads this
    {
      ran + (if |runners| == 1 && runners[0].Executing? then runners[0].chain else [])
          + (if |starting| == 1 && starting[0].delay == 0 then starting else [])
    }

    /** A delayed task that has found the queue inactive and is not in the map yet. */
    ghost function Outside(): seq<Task>
      reads this
    {
      if |starting| == 1 && starting[0].delay > 0 then starting else []
    }

    /** One token exactly when the queue is active; nothing lost, nothing doubled, plain tasks in order. */
    ghost predicate Valid()
      reads this
    {
      && |starting| + |runners| == (if isActiveState then 1 else 0)
      && (!isActiveState ==> whenMap == [])
      && Ok(whenMap, Ahead(), Outside(), cancelled, accepted)
      && NotEarly(Ahead(), clock)
    }

    constructor ()
      ensures Valid() && accepted == [] && ran == [] && cancelled == [] && clock == 0
    {
      hide Ok;
      clock := 0;
      isActiveState, whenMap, starting, runners := false, [], [], [];
      accepted, ran, cancelled := [], [], [];
      new;
      NothingOk();
      assert Ahead() == [] && Outside() == [];
    }

    /** `SerialQueue::Push` on an active queue. */
    method InsertTask(task: Task)
      modifies `whenMap
      ensures whenMap == Insert(old(whenMap), Item(KeyOf(old(whenMap), task), task))
    {
      var key := task.uptime;
      if task.insertHead && whenMap != [] {
        var headTime := if whenMap[0].key > 0 then whenMap[0].key - 1 else 0;
        key := if headTime < task.uptime then headTime else task.uptime;
      }
      var k := 0;
      while k < |whenMap| && whenMap[k].key <= key
        invariant 0 <= k <= |whenMap| && forall i :: 0 <= i < k ==> whenMap[i].key <= key
      {
        k := k + 1;
      }
      PositionIs(whenMap, key, k);
      whenMap := whenMap[..k] + [Item(key, task)] + whenMap[k..];
    }

    /** Submission, up to the point where an inactive queue is marked active. */
    method Push(task: Task, ghost now: Time) returns (inactive: bool)
      requires Valid() && task.id == |accepted| && clock <= now && task.uptime == now + task.delay
      modifies this
      ensures Valid() && accepted == old(accepted) + [task] && ran == old(ran) && cancelled == old(cancelled)
      ensures inactive == !old(isActiveState) && isActiveState && clock == now
      ensures if inactive then whenMap == old(whenMap) && starting == [task]
              else whenMap == Insert(old(whenMap), Item(KeyOf(old(whenMap), task), task)) && starting == old(starting)
    {
      hide Ok, Insert, KeyOf;
      ghost var ahead := Ahead();
      LaterNotEarly(ahead, clock, now);
      OwnKey(whenMap, task);
      clock := now;
      inactive := !isActiveState;
      if inactive {
        assert Ahead() == ran;
        Activated(ran, cancelled, accepted, task);
        isActiveState := true;
        starting := starting + [task];
        assert starting == [task];
        assert Ahead() == if task.delay == 0 then ran + [task] else ran;
        assert ahead == ran;
      } else {
        NewInserted(whenMap, Ahead(), Outside(), cancelled, accepted, Item(KeyOf(whenMap, task), task));
        InsertTask(task);
      }
      accepted := accepted + [task];
    }

    /** An activating submitter hands the token over: to its task, or, if that is delayed, to an empty
        first batch after putting the task in the map. */
    method Start(i: nat)
      requires Valid() && i < |starting|
      modifies this
      ensures Valid() && accepted == old(accepted) && ran == old(ran) && cancelled == old(cancelled)
      ensures var task := old(starting)[i];
              && runners == [Executing(if task.delay == 0 then [task] else [])]
              && whenMap == if task.delay == 0 then old(whenMap)
                            else Insert(old(whenMap), Item(KeyOf(old(whenMap), task), task))
      ensures starting == [] && clock == old(clock)
    {
      hide Ok, Insert, KeyOf;
      var task := starting[i];
      assert starting == [task] && runners == [];
      ghost var ahead := Ahead();
      if task.delay == 0 {
        runners := runners + [Executing([task])];
      } else {
        OwnKey(whenMap, task);
        DelayedInserted(whenMap, ahead, cancelled, accepted, Item(KeyOf(whenMap, task), task));
        InsertTask(task);
        runners := runners + [Executing([])];
      }
      starting := starting[..i] + starting[i + 1..];
      assert Ahead() == ahead;
    }

    /** One turn of `Dispatch`: the next task of the batch runs; after the last one the runner goes to
        fetch the next batch. */
    method RunNext(r: nat, ghost now: Time)
      requires Valid() && r < |runners| && runners[r].Executing? && clock <= now
      modifies this
      ensures Valid() && accepted == old(accepted) && cancelled == old(cancelled) && clock == now
      ensures var chain := old(runners)[r].chain; chain != [] && !chain[0].insertHead ==> chain[0].uptime <= now
      ensures runners == [if |old(runners)[r].chain| <= 1 then Delivering else Executing(old(runners)[r].chain[1..])]
      ensures ran == old(ran) + if old(runners)[r].chain == [] then [] else [old(runners)[r].chain[0]]
    {
      hide Ok;
      ghost var ahead := Ahead();
      assert runners == [runners[r]];
      assert forall i :: 0 <= i < |runners[r].chain| ==> ahead[|ran| + i] == runners[r].chain[i];
      LaterNotEarly(ahead, clock, now);
      clock := now;
      var chain := runners[r].chain;
      if chain != [] {
        ran := ran + [chain[0]];
        chain := chain[1..];
      }
      runners := runners[r := if chain == [] then Delivering else Executing(chain)];
      assert Ahead() == ahead;
    }

    /** `DequeBatch`. */
    method DequeBatch(now: Time) returns (chain: seq<Task>)
      requires whenMap != []
      modifies `whenMap
      ensures var n := BatchLength(old(whenMap), now);
              chain == Tasks(old(whenMap)[..n]) && whenMap == old(whenMap)[n..]
    {
      ghost var m := whenMap;
      var head := whenMap[0].task;
      whenMap := whenMap[1..];
      chain := [head];
      ghost var n := 1;
      assert Tasks(m[..1]) == [head];
      while whenMap != [] && whenMap[0].key < now
        invariant 1 <= n <= |m| && whenMap == m[n..] && chain == Tasks(m[..n])
        invariant forall i :: 1 <= i < n ==> m[i].key < now && m[i].task.qos == head.qos
        decreases |whenMap|
      {
        var next := whenMap[0].task;
        if next.qos != head.qos {
          break;
        }
        chain := chain + [next];
        whenMap := whenMap[1..];
        assert m[..n + 1] == m[..n] + [m[n]];
        n := n + 1;
      }
      assert forall i :: 0 <= i < n - 1 ==> m[1..][i] == m[i + 1];
      FollowersAre(m[1..], now, head.qos, n - 1);
    }

    /** `Pull` by a runner: no task left makes the queue inactive; a head that is not due makes the
        runner wait; otherwise the next batch gets the token. */
    method Deliver(r: nat, now: Time)
      requires Valid() && r < |runners| && runners[r].Delivering? && clock <= now
      modifies this
      ensures Valid() && accepted == old(accepted) && ran == old(ran) && cancelled == old(cancelled) && clock == now
      ensures isActiveState <==> old(whenMap) != []
      ensures old(whenMap) != [] && now < old(whenMap)[0].key ==> whenMap == old(whenMap) && runners == old(runners)
      ensures old(whenMap) != [] && now >= old(whenMap)[0].key ==>
                var n := BatchLength(old(whenMap), now);
                runners == [Executing(Tasks(old(whenMap)[..n]))] && whenMap == old(whenMap)[n..]
    {
      hide Ok;
      ghost var ahead := Ahead();
      LaterNotEarly(ahead, clock, now);
      clock := now;
      if whenMap == [] {
        isActiveState := false;
        runners := runners[..r] + runners[r + 1..];
        assert Ahead() == ahead;
      } else if now >= whenMap[0].key {
        Taken(whenMap, ahead, Outside(), cancelled, accepted, BatchLength(whenMap, now));
        BatchNotEarly(whenMap, ahead, Outside(), cancelled, accepted, now);
        var chain := DequeBatch(now);
        runners := runners[..r] + runners[r + 1..] + [Executing(chain)];
        assert Ahead() == ahead + chain;
      }
    }

    /** `Remove` of one task, looked up under its own time. */
    method Cancel(task: Task) returns (ok: bool)
      requires Valid()
      modifies `whenMap, `cancelled
      ensures Valid() && (ok <==> Item(task.uptime, task) in old(whenMap))
      ensures !ok ==> whenMap == old(whenMap) && cancelled == old(cancelled)
      ensures ok ==> cancelled == old(cancelled) + [task]
      ensures ok ==> exists k :: 0 <= k < |old(whenMap)| && old(whenMap)[k] == Item(task.uptime, task)
                                 && whenMap == old(whenMap)[..k] + old(whenMap)[k + 1..]
    {
      hide Ok;
      var k := 0;
      while k < |whenMap|
        invariant 0 <= k <= |whenMap| && Item(task.uptime, task) !in whenMap[..k]
      {
        if whenMap[k] == Item(task.uptime, task) {
          Removed(whenMap, Ahead(), Outside(), cancelled, accepted, k);
          whenMap := whenMap[..k] + whenMap[k + 1..];
          cancelled := cancelled + [task];
          return true;
        }
        k := k + 1;
      }
      return false;
    }

    /** `Remove` of everything that has not been dequeued. */
    method CancelAll() returns (count: nat)
      requires Valid()
      modifies `whenMap, `cancelled
      ensures Valid() && whenMap == [] && count == |old(whenMap)| && cancelled == old(cancelled) + Tasks(old(whenMap))
    {
      hide Ok;
      Cleared(whenMap, Ahead(), Outside(), cancelled, accepted);
      count := |whenMap|;
      cancelled := cancelled + Tasks(whenMap);
      whenMap := [];
    }

    /** Tasks never overlap: there is at most one batch at work, and none while the queue is inactive. */
    lemma OneToken()
      requires Valid()
      ensures |runners| <= 1 && (runners != [] || starting != [] <==> isActiveState)
    {
      assert |runners| + |starting| > 0 <==> runners != [] || starting != [];
    }

    /** An idle queue has run or cancelled every task it accepted, exactly once. */
    lemma AllAccountedFor()
      requires Valid() && !isActiveState
      ensures multiset(ran) + multiset(cancelled) == multiset(accepted)
    {
      assert Ahead() == ran;
    }

    /** Of two plain tasks with times in submission order, the earlier one runs first. */
    lemma RunsInOrder(i: nat, j: nat)
      requires Valid() && i < |ran| && j < |ran| && Plain(ran[i]) && Plain(ran[j])
      requires ran[i].id < ran[j].id && ran[i].uptime <= ran[j].uptime
      ensures i < j
    {
      var p := Ahead() + Tasks(whenMap);
      assert p[i] == ran[i] && p[j] == ran[j];
    }
  }

  lemma {:induction false} PositionIs(m: seq<Item>, key: Time, k: nat)
    requires k <= |m| && (forall i :: 0 <= i < k ==> m[i].key <= key) && (k < |m| ==> m[k].key > key)
    ensures Position(m, key) == k
  {
    if k > 0 {
      PositionIs(m[1..], key, k - 1);
    }
  }
}
