/** The single-producer, multi-consumer ring. Loads, stores and compare-exchanges are separate steps,
    so a consumer may act on values that are long out of date. The counters are unbounded. */
module SpmcQueue {
  import opened Wrappers

  // ----- one slot is not another

  /** Two positions less than a lap apart are in different slots. */
  lemma DifferentSlots(i: nat, j: nat, cap: nat)
    requires i < j < i + cap
    ensures i % cap != j % cap
  {
    if i % cap == j % cap {
      var a, b := i / cap, j / cap;
      assert j - i == (b - a) * cap;
      if b - a >= 1 {
        AtLeastOne(b - a, cap);
      } else {
        AtMostZero(b - a, cap);
      }
    }
  }

  lemma AtLeastOne(k: int, c: nat)
    requires k >= 1
    ensures k * c >= c
  {
    assert (k - 1) * c >= 0;
    assert k * c == (k - 1) * c + c;
  }

  lemma AtMostZero(k: int, c: nat)
    requires k <= 0
    ensures k * c <= 0
  {
  }

  // ----- the parties

  datatype ProducerPC<T> =
    | ProducerIdle
    | LoadedHead(item: T, head: nat)
    | LoadedTail(item: T, head: nat, tail: nat)
    | Stored(item: T, tail: nat)             // item in its slot, `tail_` not advanced yet

  datatype ConsumerPC<T> =
    | ConsumerIdle
    | SawHead(head: nat)
    | SawTail(head: nat, tail: nat)
    | ReadSlot(head: nat, res: T)              // about to compare and exchange

  /** `pushed` and `popped` record the elements that went in and came out, in order. */
  datatype State<T> = State(
    buf: seq<T>, head: nat, tail: nat, producer: ProducerPC<T>, consumers: seq<ConsumerPC<T>>,
    pushed: seq<T>, popped: seq<T>)

  datatype Move<T> = ProducerMove(item: T) | ConsumerMove(consumer: nat, spurious: bool)

  predicate Enabled<T>(s: State<T>, m: Move<T>) {
    s.buf != [] && (m.ConsumerMove? ==> m.consumer < |s.consumers|)
  }

  /** The next step of the producer, which pushes `item` when it is idle. */
  function Produce<T>(s: State<T>, item: T): State<T>
    requires s.buf != []
  {
    match s.producer
    case ProducerIdle => s.(producer := LoadedHead(item, s.head))
    case LoadedHead(x, h) => s.(producer := LoadedTail(x, h, s.tail))
    case LoadedTail(x, h, t) =>
      if t - h < |s.buf| then s.(buf := s.buf[t % |s.buf| := x], producer := Stored(x, t))
      else s.(producer := ProducerIdle)
    case Stored(x, t) => s.(tail := t + 1, producer := ProducerIdle, pushed := s.pushed + [x])
  }

  /** The next step of consumer `c`; its compare-exchange may fail without reason. */
  function Consume<T>(s: State<T>, c: nat, spurious: bool): State<T>
    requires s.buf != [] && c < |s.consumers|
  {
    match s.consumers[c]
    case ConsumerIdle => s.(consumers := s.consumers[c := SawHead(s.head)])
    case SawHead(h) => s.(consumers := s.consumers[c := SawTail(h, s.tail)])
    case SawTail(h, t) =>
      if t == h then s.(consumers := s.consumers[c := ConsumerIdle])
      else s.(consumers := s.consumers[c := ReadSlot(h, s.buf[h % |s.buf|])])
    case ReadSlot(h, x) =>
      if h == s.head && !spurious then
        s.(head := h + 1, consumers := s.consumers[c := ConsumerIdle], popped := s.popped + [x])
      else s.(consumers := s.consumers[c := ConsumerIdle])
  }

  function Step<T>(s: State<T>, m: Move<T>): State<T>
    requires Enabled(s, m)
  {
    match m
    case ProducerMove(x) => Produce(s, x)
    case ConsumerMove(c, spurious) => Consume(s, c, spurious)
  }

  function Initial<T>(buf: seq<T>, consumers: nat): State<T> {
    State(buf, 0, 0, ProducerIdle, seq(consumers, _ => ConsumerIdle), [], [])
  }

  // ----- what every step keeps

  /** The unread elements are in their slots, and what came out is what went in first. */
  ghost predicate Contents<T>(s: State<T>) {
    && s.buf != [] && s.head <= s.tail <= s.head + |s.buf|
    && |s.pushed| == s.tail && s.popped == s.pushed[..s.head]
    && forall i :: s.head <= i < s.tail ==> s.buf[i % |s.buf|] == s.pushed[i]
  }

  ghost predicate ProducerOk<T>(s: State<T>) {
    s.buf != [] &&
    match s.producer
    case ProducerIdle => true
    case LoadedHead(_, h) => h <= s.head
    case LoadedTail(_, h, t) => h <= s.head && t == s.tail
    case Stored(x, t) => t == s.tail && s.tail < s.head + |s.buf| && s.buf[t % |s.buf|] == x
  }

  /** A consumer's idea of the head may be old; if it is not, its element is the right one. */
  ghost predicate ConsumerOk<T>(s: State<T>, c: nat)
    requires c < |s.consumers|
  {
    match s.consumers[c]
    case ConsumerIdle => true
    case SawHead(h) => h <= s.head
    case SawTail(h, t) => h <= s.head && h <= t <= s.tail
    case ReadSlot(h, x) => h <= s.head && h < s.tail && (h == s.head ==> h < |s.pushed| && x == s.pushed[h])
  }

  ghost predicate Inv<T>(s: State<T>) {
    Contents(s) && ProducerOk(s) && forall c :: 0 <= c < |s.consumers| ==> ConsumerOk(s, c)
  }

  lemma ProduceInv<T>(s: State<T>, x: T)
    requires Inv(s)
    ensures Inv(Produce(s, x))
  {
    var s', n := Produce(s, x), |s.buf|;
    if s.producer.LoadedTail? && s.producer.tail - s.producer.head < n {
      forall i | s.head <= i < s.tail ensures i % n != s.tail % n {
        DifferentSlots(i, s.tail, n);
      }
      forall i | s.head <= i < s.tail ensures s'.buf[i % n] == s'.pushed[i] {
        assert s.buf[i % n] == s.pushed[i];
      }
    } else if s.producer.Stored? {
      forall i | s'.head <= i < s'.tail ensures s'.buf[i % n] == s'.pushed[i] {
        assert i < s.tail ==> s.buf[i % n] == s.pushed[i];
      }
      assert s'.pushed[..s.head] == s.pushed[..s.head];
    }
    forall c | 0 <= c < |s'.consumers| ensures ConsumerOk(s', c) {
      assert ConsumerOk(s, c);
    }
  }

  lemma ConsumeInv<T>(s: State<T>, c: nat, spurious: bool)
    requires Inv(s) && c < |s.consumers|
    ensures Inv(Consume(s, c, spurious))
  {
    var s' := Consume(s, c, spurious);
    assert ConsumerOk(s, c);
    if s.consumers[c].ReadSlot? && s.consumers[c].head == s.head && !spurious {
      assert s.pushed[..s.head + 1] == s.pushed[..s.head] + [s.pushed[s.head]];
    }
    forall d | 0 <= d < |s'.consumers| ensures ConsumerOk(s', d) {
      assert ConsumerOk(s, d);
    }
  }

  // ----- every run

  ghost predicate Run<T>(buf: seq<T>, consumers: nat, run: seq<State<T>>, moves: seq<Move<T>>) {
    && buf != [] && |run| == |moves| + 1 && run[0] == Initial(buf, consumers)
    && forall i :: 0 <= i < |moves| ==> Enabled(run[i], moves[i]) && run[i + 1] == Step(run[i], moves[i])
  }

  lemma {:induction false} RunInv<T>(buf: seq<T>, consumers: nat, run: seq<State<T>>, moves: seq<Move<T>>, i: nat)
    requires Run(buf, consumers, run, moves) && i < |run|
    ensures Inv(run[i])
  {
    if i > 0 {
      RunInv(buf, consumers, run, moves, i - 1);
      hide Inv, Produce, Consume;
      assert Enabled(run[i - 1], moves[i - 1]);
      match moves[i - 1] {
        case ProducerMove(x) => ProduceInv(run[i - 1], x);
        case ConsumerMove(c, spurious) => ConsumeInv(run[i - 1], c, spurious);
      }
    }
  }

  /** In every run the elements come out in the order in which they went in, none twice, and the
      others are still there. */
  lemma NothingLost<T>(buf: seq<T>, consumers: nat, run: seq<State<T>>, moves: seq<Move<T>>, i: nat)
    requires Run(buf, consumers, run, moves) && i < |run|
    ensures var s := run[i];
            && s.buf != [] && s.head <= s.tail == |s.pushed|
            && s.pushed == s.popped + seq(s.tail - s.head, j
              requires 0 <= j < s.tail - s.head => s.buf[(s.head + j) % |s.buf|])
  {
    RunInv(buf, consumers, run, moves, i);
    var s := run[i];
    hide Run;
    var rest := seq(s.tail - s.head, j requires 0 <= j < s.tail - s.head => s.buf[(s.head + j) % |s.buf|]);
    forall j | 0 <= j < |rest| ensures rest[j] == s.pushed[s.head + j] {
      assert s.buf[(s.head + j) % |s.buf|] == s.pushed[s.head + j];
    }
    assert s.pushed == s.pushed[..s.head] + rest;
  }

  /** Every consumer that has seen a tail saw it at some moment, when it had the head it compares it with. */
  lemma {:induction false} WhenSeen<T>(buf: seq<T>, consumers: nat, run: seq<State<T>>, moves: seq<Move<T>>, i: nat,
      c: nat) returns (j: nat)
    requires Run(buf, consumers, run, moves) && i < |run| && c < |run[i].consumers| && run[i].consumers[c].SawTail?
    ensures j < i && c < |run[j].consumers| && run[j].consumers[c] == SawHead(run[i].consumers[c].head)
    ensures run[j].tail == run[i].consumers[c].tail
  {
    assert Enabled(run[i - 1], moves[i - 1]);
    if moves[i - 1].ConsumerMove? && moves[i - 1].consumer == c {
      j := i - 1;
    } else {
      j := WhenSeen(buf, consumers, run, moves, i - 1, c);
    }
  }

  /** A consumer that has compared the counters, and goes back to the start without an element, has answered that
      the ring is empty. It was, at the moment at which the consumer looked at the tail. */
  lemma EmptyWhenSeen<T>(buf: seq<T>, consumers: nat, run: seq<State<T>>, moves: seq<Move<T>>, i: nat, c: nat)
      returns (j: nat)
    requires Run(buf, consumers, run, moves) && i < |moves| && moves[i].ConsumerMove? && moves[i].consumer == c
    requires run[i].consumers[c].SawTail? && run[i + 1].consumers[c].ConsumerIdle?
    ensures j < i && run[j].head == run[j].tail
  {
    j := WhenSeen(buf, consumers, run, moves, i, c);
    RunInv(buf, consumers, run, moves, j);
    assert ConsumerOk(run[j], c);
  }

  /** The head a producer has loaded was the head at some moment, and the tail is as it was then. */
  lemma {:induction false} WhenLoaded<T>(buf: seq<T>, consumers: nat, run: seq<State<T>>, moves: seq<Move<T>>, i: nat)
      returns (j: nat)
    requires Run(buf, consumers, run, moves) && i < |run|
    requires run[i].producer.LoadedHead? || run[i].producer.LoadedTail?
    ensures j < i && run[j].head == run[i].producer.head && run[j].tail == run[i].tail && run[j].producer.ProducerIdle?
  {
    assert Enabled(run[i - 1], moves[i - 1]);
    if run[i - 1].producer.ProducerIdle? {
      j := i - 1;
    } else {
      j := WhenLoaded(buf, consumers, run, moves, i - 1);
    }
  }

  /** A producer that has compared the counters, and goes back to the start, has answered that the ring is full. It
      was, at the moment at which the producer looked at the head. */
  lemma FullWhenSeen<T>(buf: seq<T>, consumers: nat, run: seq<State<T>>, moves: seq<Move<T>>, i: nat) returns (j: nat)
    requires Run(buf, consumers, run, moves) && i < |moves| && moves[i].ProducerMove?
    requires run[i].producer.LoadedTail? && run[i + 1].producer.ProducerIdle?
    ensures j < i && run[j].tail == run[j].head + |buf|
  {
    j := WhenLoaded(buf, consumers, run, moves, i);
    RunInv(buf, consumers, run, moves, i);
    RunInv(buf, consumers, run, moves, j);
    SameBuffer(buf, consumers, run, moves, i);
    SameBuffer(buf, consumers, run, moves, j);
  }

  lemma {:induction false} SameBuffer<T>(buf: seq<T>, consumers: nat, run: seq<State<T>>, moves: seq<Move<T>>, i: nat)
    requires Run(buf, consumers, run, moves) && i < |run|
    ensures |run[i].buf| == |buf|
  {
    if i > 0 {
      SameBuffer(buf, consumers, run, moves, i - 1);
      assert Enabled(run[i - 1], moves[i - 1]);
    }
  }

  /** A producer by itself gets its element in unless the ring is full, in four steps; a consumer by itself gets the
      oldest unless the ring is empty. */
  lemma AloneServed<T>(s: State<T>, x: T, c: nat)
    requires Inv(s)
    ensures s.producer.ProducerIdle? ==>
              var s' := Produce(Produce(Produce(s, x), x), x);
              if s.tail < s.head + |s.buf| then Produce(s', x).pushed == s.pushed + [x]
              else s'.producer.ProducerIdle? && s'.pushed == s.pushed
    ensures c < |s.consumers| && s.consumers[c].ConsumerIdle? ==>
              var s' := Consume(Consume(Consume(s, c, false), c, false), c, false);
              if s.head < s.tail then Consume(s', c, false).popped == s.popped + [s.pushed[s.head]]
              else s'.consumers[c].ConsumerIdle? && s'.popped == s.popped
  {
    if c < |s.consumers| && s.consumers[c].ConsumerIdle? && s.head < s.tail {
      assert s.buf[s.head % |s.buf|] == s.pushed[s.head];
    }
  }

  // ----- moving elements from one ring to another

  ghost predicate Increasing(p: seq<nat>, lo: nat, hi: nat) {
    && (forall i :: 0 <= i < |p| ==> lo <= p[i] < hi)
    && (forall i, j :: 0 <= i < j < |p| ==> p[i] < p[j])
  }

  ghost function Picked<T>(s: seq<T>, p: seq<nat>): seq<T>
    requires Increasing(p, 0, |s|)
  {
    seq(|p|, i requires 0 <= i < |p| => s[p[i]])
  }

  function Least(a: int, b: int, c: int): int {
    if a <= b && a <= c then a else if b <= c then b else c
  }

  /** The counters of a ring and its capacity. */
  datatype Ends = Ends(head: nat, tail: nat, capacity: nat)

  /** From `a` to `b` only pushes and pops have happened. */
  predicate Later(a: Ends, b: Ends) {
    a.head <= b.head && a.tail <= b.tail && a.capacity == b.capacity
  }

  /** A moment between `a` and `b` at which this ring was empty, or between `da` and `db` at which the destination
      was full. */
  predicate Excused(stop: Ends, a: Ends, b: Ends, da: Ends, db: Ends) {
    || (Later(a, stop) && Later(stop, b) && stop.head == stop.tail)
    || (Later(da, stop) && Later(stop, db) && stop.tail - stop.head == stop.capacity)
  }

  lemma ExcusedLonger(stop: Ends, a: Ends, a': Ends, b: Ends, b': Ends, da: Ends, da': Ends, db: Ends, db': Ends)
    requires Excused(stop, a', b, da', db) && Later(a, a') && Later(b, b') && Later(da, da') && Later(db, db')
    ensures Excused(stop, a, b', da, db')
  {
  }

  /** A ring between the steps of its users; `pushed` is everything ever pushed, `head` how much of it
      has been popped. */
  class Ring<T(0)> {
    const buf: array<T>
    var head: nat
    var tail: nat
    ghost var pushed: seq<T>

    ghost predicate Valid()
      reads this, buf
    {
      && head <= tail <= head + buf.Length && |pushed| == tail
      && forall i :: head <= i < tail ==> buf[i % buf.Length] == pushed[i]
    }

    ghost function Counters(): Ends
      reads this
    {
      Ends(head, tail, buf.Length)
    }

    constructor (capacity: nat)
      ensures Valid() && pushed == [] && buf.Length == capacity && fresh(buf)
    {
      buf := new T[capacity];
      head, tail, pushed := 0, 0, [];
    }

    /** Other consumers may take any number of elements at any time. */
    method OthersPop()
      requires Valid()
      modifies `head
      ensures Valid() && old(head) <= head
    {
      var k :| 0 <= k <= tail - head;
      head := head + k;
    }

    method PopHead() returns (r: Option<T>)
      requires Valid()
      modifies `head
      ensures Valid()
      ensures r.None? <==> old(head) == tail
      ensures r.Some? ==> r.value == pushed[old(head)] && head == old(head) + 1
      ensures r.None? ==> head == old(head)
    {
      if buf.Length == 0 || tail == head {
        return None;
      }
      r := Some(buf[head % buf.Length]);
      head := head + 1;
    }

    method PushTail(item: T) returns (ok: bool)
      requires Valid()
      modifies `tail, `pushed, buf
      ensures Valid() && ok == (old(tail) - head < buf.Length)
      ensures pushed == if ok then old(pushed) + [item] else old(pushed)
    {
      if buf.Length == 0 {
        return false;
      }
      ok := tail - head < buf.Length;
      if ok {
        forall i: nat | head <= i < tail ensures i % buf.Length != tail % buf.Length {
          DifferentSlots(i, tail, buf.Length);
        }
        buf[tail % buf.Length] := item;
        tail, pushed := tail + 1, pushed + [item];
      }
    }

    /** The producer of this ring and its other consumers may push and pop whatever they like, in any order. */
    method OthersAct()
      requires Valid()
      modifies `head, `tail, `pushed, buf
      ensures Valid() && old(head) <= head && old(pushed) <= pushed
    {
      var rounds: nat :| true;
      for i := 0 to rounds
        invariant Valid() && old(head) <= head && old(pushed) <= pushed
      {
        var item: T := *;
        var ok := PushTail(item);
        OthersPop();
      }
    }

    /** If `others` holds, the others act: the producer and the other consumers of this ring, and the other
        consumers of `dst`. */
    method Interfere(dst: Ring<T>, others: bool)
      requires Valid() && dst.Valid() && dst != this && dst.buf != buf
      modifies `head, `tail, `pushed, buf, dst`head
      ensures Valid() && dst.Valid() && old(head) <= head <= |pushed| && old(pushed) <= pushed
              && old(dst.head) <= dst.head
      ensures !others ==> head == old(head) && pushed == old(pushed) && dst.head == old(dst.head)
    {
      if others {
        OthersAct();
        dst.OthersPop();
      }
    }

    /** Move one element, unless there is no room in `dst` or nothing left here. The push cannot fail: there was
        room before, and the other consumers of `dst` only make more. */
    method MoveOne(dst: Ring<T>, others: bool) returns (moved: bool, ghost stop: Ends)
      requires Valid() && dst.Valid() && dst != this && dst.buf != buf
      modifies `head, `tail, `pushed, buf, dst`head, dst`tail, dst`pushed, dst.buf
      ensures Valid() && dst.Valid() && old(head) <= head <= |pushed| && old(pushed) <= pushed
              && old(dst.head) <= dst.head
      ensures moved ==> old(head) < head && dst.pushed == old(dst.pushed) + [pushed[head - 1]]
      ensures !moved ==> dst.pushed == old(dst.pushed)
      ensures !moved ==> Excused(stop, old(Counters()), Counters(), old(dst.Counters()), dst.Counters())
      ensures !others ==> moved == (old(head) < old(tail) && old(dst.tail) - old(dst.head) < dst.buf.Length)
      ensures !others ==> pushed == old(pushed) && dst.head == old(dst.head)
                          && head == old(head) + if moved then 1 else 0
    {
      Interfere(dst, others);
      moved, stop := false, Counters();
      if dst.tail - dst.head >= dst.buf.Length {
        stop := dst.Counters();
      } else {
        var element := PopHead();
        if element.None? {
          stop := Counters();
        } else {
          if others {
            dst.OthersPop();
          }
          moved := dst.PushTail(element.value);
        }
      }
    }

    /** `PopHeadToAnotherQueue`; if `others` holds, with the other consumers of both rings and the producer of
        this one at work. What this call takes from here it pushes to `dst`, all of it and in order; no element
        is ever left to the fallback. It stops with the wanted number of elements, or when it has seen `dst`
        full or this ring empty. */
    method PopHeadToAnotherQueue(dst: Ring<T>, elementNum: nat, others: bool)
        returns (pushCount: nat, ghost taken: seq<nat>, ghost stop: Ends)
      requires Valid() && dst.Valid() && dst != this && dst.buf != buf
      modifies `head, `tail, `pushed, buf, dst`head, dst`tail, dst`pushed, dst.buf
      ensures Valid() && dst.Valid() && pushCount == |taken| <= elementNum
      ensures Increasing(taken, old(head), head) && head <= |pushed| && old(pushed) <= pushed
      ensures dst.pushed == old(dst.pushed) + Picked(pushed, taken)
      ensures pushCount < elementNum ==> Excused(stop, old(Counters()), Counters(), old(dst.Counters()), dst.Counters())
      ensures !others ==> pushCount == Least(elementNum, old(tail - head),
                            dst.buf.Length - (old(dst.tail) - old(dst.head)))
      ensures !others ==> head == old(head) + pushCount && pushed == old(pushed) && dst.head == old(dst.head)
    {
      hide Increasing, Picked, Excused;
      pushCount, taken, stop := MoveMany(dst, elementNum, others);
      ghost var from, before, c, dc := head, pushed, Counters(), dst.Counters();
      Interfere(dst, others);
      PickedGrown(before, pushed, taken, old(head), from, head);
      if pushCount < elementNum {
        ExcusedLonger(stop, old(Counters()), old(Counters()), c, Counters(),
          old(dst.Counters()), old(dst.Counters()), dc, dst.Counters());
      }
    }

    /** The loop of it. */
    method MoveMany(dst: Ring<T>, elementNum: nat, others: bool)
        returns (pushCount: nat, ghost taken: seq<nat>, ghost stop: Ends)
      requires Valid() && dst.Valid() && dst != this && dst.buf != buf
      modifies `head, `tail, `pushed, buf, dst`head, dst`tail, dst`pushed, dst.buf
      ensures Valid() && dst.Valid() && pushCount == |taken| <= elementNum && old(head) <= head <= |pushed|
      ensures Increasing(taken, old(head), head) && Increasing(taken, 0, |pushed|) && old(pushed) <= pushed
      ensures dst.pushed == old(dst.pushed) + Picked(pushed, taken) && old(dst.head) <= dst.head
      ensures pushCount < elementNum ==> Excused(stop, old(Counters()), Counters(), old(dst.Counters()), dst.Counters())
      ensures !others ==> pushCount == Least(elementNum, old(tail - head),
                            dst.buf.Length - (old(dst.tail) - old(dst.head)))
      ensures !others ==> head == old(head) + pushCount && pushed == old(pushed) && dst.head == old(dst.head)
    {
      hide Increasing, Picked, Excused;
      pushCount, taken, stop := 0, [], Counters();
      NonePicked(pushed, head);
      var go := true;
      while pushCount < elementNum && go
        invariant Valid() && dst.Valid() && pushCount == |taken| <= elementNum && old(head) <= head <= |pushed|
        invariant Increasing(taken, old(head), head) && Increasing(taken, 0, |pushed|)
        invariant old(pushed) <= pushed && old(dst.head) <= dst.head && |dst.pushed| == old(|dst.pushed|) + pushCount
        invariant dst.pushed == old(dst.pushed) + Picked(pushed, taken)
        invariant !go ==> Excused(stop, old(Counters()), Counters(), old(dst.Counters()), dst.Counters())
        invariant !others ==> head == old(head) + pushCount && pushed == old(pushed) && dst.head == old(dst.head)
        invariant !others && !go ==> head == tail || dst.tail - dst.head == dst.buf.Length
        decreases elementNum - pushCount, go
      {
        ghost var from, before, c, dc := head, pushed, Counters(), dst.Counters();
        go, stop := MoveOne(dst, others);
        PickedGrown(before, pushed, taken, old(head), from, head);
        if !go {
          ExcusedLonger(stop, old(Counters()), c, Counters(), Counters(), old(dst.Counters()), dc, dst.Counters(),
            dst.Counters());
        } else {
          PickedMore(pushed, taken, old(head), from, head - 1);
          taken := taken + [head - 1];
          pushCount := pushCount + 1;
        }
      }
    }
  }

  lemma NonePicked<T>(s: seq<T>, k: nat)
    ensures Increasing([], k, k) && Increasing([], 0, |s|) && Picked(s, []) == []
  {
  }

  lemma PickedGrown<T>(s: seq<T>, s': seq<T>, p: seq<nat>, lo: nat, hi: nat, hi': nat)
    requires Increasing(p, lo, hi) && lo <= hi <= |s| && s <= s' && hi <= hi'
    ensures Increasing(p, lo, hi') && Increasing(p, 0, |s|) && Increasing(p, 0, |s'|) && Picked(s', p) == Picked(s, p)
  {
  }

  lemma PickedMore<T>(s: seq<T>, p: seq<nat>, lo: nat, hi: nat, k: nat)
    requires Increasing(p, lo, hi) && lo <= hi <= k < |s|
    ensures Increasing(p, 0, |s|) && Increasing(p + [k], lo, k + 1) && Increasing(p + [k], 0, |s|)
    ensures Picked(s, p + [k]) == Picked(s, p) + [s[k]]
  {
  }
}
