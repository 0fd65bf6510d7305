/** The two-gate reader/writer lock. Everything between two waits happens under `mut`, so a method
    call is one atomic step and any order of calls by any threads is a run. */
module SharedMutex {
  type Thread = nat

  datatype WaitType = READ | WRITE

  datatype PC =
    | Outside
    | Reading
    | Writing
    | FirstGate(wants: WaitType)   // asleep in `wList1`
    | SecondGate                   // has entered as the writer, asleep in `wList2` until the readers leave
    | Called(wants: WaitType)      // woken from `wList1`, has yet to look again
    | CalledIn                     // woken from `wList2`, has yet to look again

  const WRITE_ENTERED: nat := 0x8000_0000
  const READERS_MAX: nat := 0x7fff_ffff

  function Count(pcs: seq<PC>): nat {
    if pcs == [] then 0 else Count(pcs[..|pcs| - 1]) + if pcs[|pcs| - 1].Reading? then 1 else 0
  }

  lemma {:induction false} CountUpdate(pcs: seq<PC>, t: Thread, pc: PC)
    requires t < |pcs|
    ensures Count(pcs[t := pc]) + (if pcs[t].Reading? then 1 else 0) == Count(pcs) + (if pc.Reading? then 1 else 0)
  {
    var n := |pcs| - 1;
    if t < n {
      CountUpdate(pcs[..n], t, pc);
      assert pcs[t := pc][..n] == pcs[..n][t := pc];
    } else {
      assert pcs[t := pc][..n] == pcs[..n];
    }
  }

  lemma {:induction false} CountZero(pcs: seq<PC>)
    ensures Count(pcs) == 0 <==> forall t :: 0 <= t < |pcs| ==> !pcs[t].Reading?
  {
    if pcs != [] {
      CountZero(pcs[..|pcs| - 1]);
      assert forall t :: 0 <= t < |pcs| - 1 ==> pcs[..|pcs| - 1][t] == pcs[t];
      if Count(pcs) == 0 {
        forall t | 0 <= t < |pcs| ensures !pcs[t].Reading? {
          assert t < |pcs| - 1 ==> !pcs[..|pcs| - 1][t].Reading?;
        }
      }
    }
  }

  /** The thread that has taken the writer's place: it writes, waits for the readers, or is called in. */
  predicate Entered(pc: PC) {
    pc.Writing? || pc.SecondGate? || pc.CalledIn?
  }

  /** How many waiters `NotifyAll` lets through: one writer, or all readers before the first writer. */
  function Through(q: seq<(Thread, WaitType)>): (k: nat)
    ensures k <= |q| && (q != [] ==> k > 0)
  {
    if q == [] then 0
    else if q[0].1.WRITE? then 1
    else 1 + LeadingReads(q[1..])
  }

  function LeadingReads(q: seq<(Thread, WaitType)>): (k: nat)
    ensures k <= |q|
  {
    if q == [] || q[0].1.WRITE? then 0 else 1 + LeadingReads(q[1..])
  }

  /** What `NotifyAll` lets through is a single writer, or readers only, and then nothing but a writer
      is next. */
  lemma {:induction false} ThroughMeans(q: seq<(Thread, WaitType)>)
    requires q != []
    ensures var k := Through(q);
            if q[0].1.WRITE? then k == 1
            else (forall i :: 0 <= i < k ==> q[i].1.READ?) && (k == |q| || q[k].1.WRITE?)
  {
    if q[0].1.READ? {
      LeadingMeans(q[1..]);
      var k := LeadingReads(q[1..]);
      assert forall i :: 1 <= i < k + 1 ==> q[i] == q[1..][i - 1];
    }
  }

  lemma {:induction false} LeadingMeans(q: seq<(Thread, WaitType)>)
    ensures var k := LeadingReads(q); (forall i :: 0 <= i < k ==> q[i].1.READ?) && (k == |q| || q[k].1.WRITE?)
  {
    if q != [] && q[0].1.READ? {
      LeadingMeans(q[1..]);
      var k := LeadingReads(q[1..]);
      assert forall i :: 1 <= i < k + 1 ==> q[i] == q[1..][i - 1];
    }
  }

  ghost predicate EnteredBy(pcs: seq<PC>, t: Thread) {
    t < |pcs| && Entered(pcs[t])
  }

  ghost predicate CalledBy(pcs: seq<PC>, t: Thread) {
    t < |pcs| && pcs[t].Called?
  }

  /** The threads of `q` are called, in order. */
  function CallAll(pcs: seq<PC>, q: seq<(Thread, WaitType)>): (r: seq<PC>)
    ensures |r| == |pcs|
  {
    if q == [] then pcs
    else
      var rest, we := CallAll(pcs, q[..|q| - 1]), q[|q| - 1];
      if we.0 < |pcs| then rest[we.0 := Called(we.1)] else rest
  }

  lemma {:induction false} CallAllAt(pcs: seq<PC>, q: seq<(Thread, WaitType)>, t: Thread)
    requires (forall i :: 0 <= i < |q| ==> q[i].0 < |pcs|) && t < |pcs|
    requires forall i, j :: 0 <= i < j < |q| ==> q[i].0 != q[j].0
    ensures forall i :: 0 <= i < |q| && q[i].0 == t ==> CallAll(pcs, q)[t] == Called(q[i].1)
    ensures (forall i :: 0 <= i < |q| ==> q[i].0 != t) ==> CallAll(pcs, q)[t] == pcs[t]
  {
    if q != [] {
      var n := |q| - 1;
      CallAllAt(pcs, q[..n], t);
      assert forall i :: 0 <= i < n ==> q[..n][i] == q[i];
    }
  }

  /** The first `i` are readers. */
  ghost predicate Readers(q: seq<(Thread, WaitType)>, i: nat) {
    i <= |q| && forall j :: 0 <= j < i ==> q[j].1.READ?
  }

  lemma ReadersNone(q: seq<(Thread, WaitType)>)
    ensures Readers(q, 0)
  {
  }

  lemma ReadersMore(q: seq<(Thread, WaitType)>, i: nat)
    requires Readers(q, i) && i < |q| && q[i].1.READ?
    ensures Readers(q, i + 1)
  {
  }

  lemma {:induction false} ThroughIs(q: seq<(Thread, WaitType)>, i: nat)
    requires i <= |q| && (i < |q| ==> i > 0)
    requires i > 0 ==> Readers(q, i - 1)
    requires i > 0 && q[i - 1].1.WRITE? ==> i == 1
    requires i > 0 && q[i - 1].1.READ? && i < |q| ==> q[i].1.WRITE?
    ensures i == Through(q)
  {
    if i > 0 && q[0].1.READ? {
      LeadingIs(q[1..], i - 1);
    }
  }

  lemma {:induction false} LeadingIs(q: seq<(Thread, WaitType)>, i: nat)
    requires i <= |q| && (forall j :: 0 <= j < i ==> q[j].1.READ?) && (i < |q| ==> q[i].1.WRITE?)
    ensures i == LeadingReads(q)
  {
    if i > 0 {
      LeadingIs(q[1..], i - 1);
    }
  }

  /** One thread moves: the number of readers, and who has entered, follow. */
  lemma Moved(pcs: seq<PC>, pcs': seq<PC>, t: Thread)
    requires t < |pcs| == |pcs'| && pcs' == pcs[t := pcs'[t]]
    ensures Count(pcs') + (if pcs[t].Reading? then 1 else 0) == Count(pcs) + (if pcs'[t].Reading? then 1 else 0)
    ensures forall u: Thread :: u != t
              ==> (EnteredBy(pcs', u) <==> EnteredBy(pcs, u)) && (CalledBy(pcs', u) <==> CalledBy(pcs, u))
  {
    CountUpdate(pcs, t, pcs'[t]);
    forall u: Thread | u != t ensures (EnteredBy(pcs', u) <==> EnteredBy(pcs, u))
        && (CalledBy(pcs', u) <==> CalledBy(pcs, u)) {
      assert u < |pcs| ==> pcs'[u] == pcs[u];
    }
  }

  /** `state` encodes the true holders. */
  ghost predicate Encodes(state: nat, pcs: seq<PC>) {
    && Count(pcs) <= READERS_MAX
    && state == Count(pcs) + (if exists t :: EnteredBy(pcs, t) then WRITE_ENTERED else 0)
    && (forall t: Thread, u: Thread :: EnteredBy(pcs, t) && EnteredBy(pcs, u) ==> t == u)
    && (forall t: Thread :: EnteredBy(pcs, t) ==> if pcs[t].SecondGate? then Count(pcs) > 0 else Count(pcs) == 0)
  }

  /** Waiters at the first gate have a holder, a writer that has entered, or a called thread ahead. */
  ghost predicate Attended(state: nat, q: seq<(Thread, WaitType)>, pcs: seq<PC>) {
    q != [] ==> state != 0 || exists t :: CalledBy(pcs, t)
  }

  ghost predicate Ok(state: nat, q: seq<(Thread, WaitType)>, w: seq<Thread>, pcs: seq<PC>) {
    Encodes(state, pcs) && GoodLists(pcs, q, w) && Attended(state, q, pcs)
  }

  /** A thread that must wait goes to sleep at the first gate. */
  lemma SleepFirst(state: nat, q: seq<(Thread, WaitType)>, w: seq<Thread>, pcs: seq<PC>, t: Thread, wants: WaitType)
    requires Ok(state, q, w, pcs) && t < |pcs| && (pcs[t].Outside? || pcs[t] == Called(wants)) && state != 0
    ensures Ok(state, q + [(t, wants)], w, pcs[t := FirstGate(wants)])
  {
    var pcs', q' := pcs[t := FirstGate(wants)], q + [(t, wants)];
    Moved(pcs, pcs', t);
    hide Count;
    assert forall u: Thread :: EnteredBy(pcs', u) <==> EnteredBy(pcs, u);
    assert q'[|q|] == (t, wants);
  }

  lemma NobodyEntered(state: nat, q: seq<(Thread, WaitType)>, w: seq<Thread>, pcs: seq<PC>)
    requires Ok(state, q, w, pcs) && state < WRITE_ENTERED
    ensures (forall u: Thread :: !EnteredBy(pcs, u)) && w == [] && state == Count(pcs)
  {
    hide Count;
    SomeMember(w);
    assert forall u: Thread :: u in w ==> EnteredBy(pcs, u);
  }

  lemma SomeMember(w: seq<Thread>)
    ensures w == [] || exists u :: u in w
  {
    if w != [] {
      assert w[0] in w;
    }
  }

  /** A writer enters: it writes at once if there are no readers. */
  lemma WriterEnters(q: seq<(Thread, WaitType)>, w: seq<Thread>, pcs: seq<PC>, t: Thread)
    requires Ok(0, q, w, pcs) && t < |pcs| && (pcs[t].Outside? || pcs[t] == Called(WRITE))
    ensures Ok(WRITE_ENTERED, q, w, pcs[t := Writing])
  {
    NobodyEntered(0, q, w, pcs);
    var pcs' := pcs[t := Writing];
    Moved(pcs, pcs', t);
    hide Count;
    assert EnteredBy(pcs', t);
  }

  /** A writer enters while readers are inside: it waits for them at the second gate. */
  lemma WriterWaits(state: nat, q: seq<(Thread, WaitType)>, w: seq<Thread>, pcs: seq<PC>, t: Thread)
    requires Ok(state, q, w, pcs) && t < |pcs| && (pcs[t].Outside? || pcs[t] == Called(WRITE))
             && 0 < state < WRITE_ENTERED
    ensures Ok(state + WRITE_ENTERED, q, w + [t], pcs[t := SecondGate])
  {
    NobodyEntered(state, q, w, pcs);
    var pcs' := pcs[t := SecondGate];
    Moved(pcs, pcs', t);
    hide Count;
    assert EnteredBy(pcs', t);
    assert forall u: Thread :: u < |pcs| ==> (pcs[u].SecondGate? ==> EnteredBy(pcs, u));
  }

  lemma ReaderEnters(state: nat, q: seq<(Thread, WaitType)>, w: seq<Thread>, pcs: seq<PC>, t: Thread)
    requires Ok(state, q, w, pcs) && t < |pcs| && (pcs[t].Outside? || pcs[t] == Called(READ)) && state < READERS_MAX
    ensures Ok(state + 1, q, w, pcs[t := Reading])
  {
    NobodyEntered(state, q, w, pcs);
    var pcs' := pcs[t := Reading];
    Moved(pcs, pcs', t);
    hide Count;
    assert !EnteredBy(pcs', t);
    assert forall u: Thread :: !EnteredBy(pcs', u);
  }

  /** A writer called in from the second gate finds the readers gone. */
  lemma WriterCalledIn(state: nat, q: seq<(Thread, WaitType)>, w: seq<Thread>, pcs: seq<PC>, t: Thread)
    requires Ok(state, q, w, pcs) && t < |pcs| && pcs[t].CalledIn?
    ensures Ok(state, q, w, pcs[t := Writing]) && state == WRITE_ENTERED
  {
    assert EnteredBy(pcs, t);
    var pcs' := pcs[t := Writing];
    Moved(pcs, pcs', t);
    hide Count;
    assert EnteredBy(pcs', t);
    assert forall u: Thread :: EnteredBy(pcs', u) <==> EnteredBy(pcs, u);
  }

  ghost predicate GoodLists(pcs: seq<PC>, q: seq<(Thread, WaitType)>, w: seq<Thread>) {
    && (forall i, j :: 0 <= i < j < |q| ==> q[i].0 != q[j].0)
    && (forall i :: 0 <= i < |q| ==> q[i].0 < |pcs| && pcs[q[i].0] == FirstGate(q[i].1))
    && (forall t :: 0 <= t < |pcs| && pcs[t].FirstGate? ==> (t, pcs[t].wants) in q)
    && (forall t :: t in w ==> t < |pcs| && pcs[t].SecondGate?)
    && (forall t :: 0 <= t < |pcs| && pcs[t].SecondGate? ==> w == [t])
    && |w| <= 1
  }

  /** What calling the first `k` waiters does to the threads. */
  lemma CalledEffect(pcs: seq<PC>, q: seq<(Thread, WaitType)>, k: nat, w: seq<Thread>)
    requires GoodLists(pcs, q, w) && k <= |q|
    ensures var r := CallAll(pcs, q[..k]);
            && (forall i :: 0 <= i < k ==> r[q[i].0].Called?)
            && (forall t :: 0 <= t < |pcs| ==> r[t] == pcs[t] || (pcs[t].FirstGate? && r[t] == Called(pcs[t].wants)))
            && (forall i :: k <= i < |q| ==> r[q[i].0] == pcs[q[i].0])
  {
    var a, r := q[..k], CallAll(pcs, q[..k]);
    assert forall i :: 0 <= i < k ==> a[i] == q[i];
    hide CallAll;
    forall t | 0 <= t < |pcs|
      ensures r[t] == pcs[t] || (pcs[t].FirstGate? && r[t] == Called(pcs[t].wants))
      ensures forall i :: 0 <= i < k && q[i].0 == t ==> r[t].Called?
      ensures forall i :: k <= i < |q| && q[i].0 == t ==> r[t] == pcs[t]
    {
      CallAllAt(pcs, a, t);
    }
  }

  lemma CalledLists(pcs: seq<PC>, q: seq<(Thread, WaitType)>, k: nat, w: seq<Thread>)
    requires GoodLists(pcs, q, w) && k <= |q|
    ensures GoodLists(CallAll(pcs, q[..k]), q[k..], w)
  {
    hide CallAll;
    CalledEffect(pcs, q, k, w);
    var r := CallAll(pcs, q[..k]);
    forall t | 0 <= t < |r| && r[t].FirstGate? ensures (t, r[t].wants) in q[k..] {
      var i :| 0 <= i < |q| && q[i] == (t, pcs[t].wants);
      assert q[k..][i - k] == q[i];
    }
  }

  lemma NoneCalled(pcs: seq<PC>, q: seq<(Thread, WaitType)>)
    ensures CallAll(pcs, q[..0]) == pcs && q[0..] == q
  {
  }

  ghost predicate Threads(q: seq<(Thread, WaitType)>, n: nat) {
    forall j :: 0 <= j < |q| ==> q[j].0 < n
  }

  lemma CallOne(pcs: seq<PC>, q: seq<(Thread, WaitType)>, i: nat)
    requires i < |q| && Threads(q, |pcs|)
    ensures q[i].0 < |pcs| == |CallAll(pcs, q[..i])| && q[i..][0] == q[i] && q[i..][1..] == q[i + 1..]
    ensures CallAll(pcs, q[..i + 1]) == CallAll(pcs, q[..i])[q[i].0 := Called(q[i].1)]
  {
    assert q[..i + 1][..i] == q[..i];
  }

  /** Everything but the attention to the first gate. */
  ghost predicate Loose(state: nat, q: seq<(Thread, WaitType)>, w: seq<Thread>, pcs: seq<PC>) {
    Encodes(state, pcs) && GoodLists(pcs, q, w)
  }

  /** The word tells a leaving writer from a leaving reader. */
  lemma WhoLeaves(state: nat, q: seq<(Thread, WaitType)>, w: seq<Thread>, pcs: seq<PC>, t: Thread)
    requires Ok(state, q, w, pcs) && t < |pcs| && (pcs[t].Writing? || pcs[t].Reading?)
    ensures pcs[t].Writing? <==> state == WRITE_ENTERED
    ensures state > 0
  {
    if pcs[t].Writing? {
      assert EnteredBy(pcs, t);
    } else {
      CountPositive(pcs, t);
    }
  }

  lemma WriterLeaves(state: nat, q: seq<(Thread, WaitType)>, w: seq<Thread>, pcs: seq<PC>, t: Thread)
    requires Ok(state, q, w, pcs) && t < |pcs| && pcs[t].Writing?
    ensures Loose(0, q, w, pcs[t := Outside])
  {
    var pcs' := pcs[t := Outside];
    Moved(pcs, pcs', t);
    hide Count;
    assert EnteredBy(pcs, t) && !EnteredBy(pcs', t);
    assert forall u: Thread :: !EnteredBy(pcs', u);
  }

  lemma ReaderLeaves(state: nat, q: seq<(Thread, WaitType)>, w: seq<Thread>, pcs: seq<PC>, t: Thread)
    requires Ok(state, q, w, pcs) && t < |pcs| && pcs[t].Reading? && state > 0 && state - 1 != WRITE_ENTERED
    ensures Loose(state - 1, q, w, pcs[t := Outside]) && GoodLists(pcs[t := Outside], q, w)
    ensures state - 1 > WRITE_ENTERED || q == [] ==> Ok(state - 1, q, w, pcs[t := Outside])
  {
    var pcs' := pcs[t := Outside];
    CountPositive(pcs, t);
    Moved(pcs, pcs', t);
    hide Count;
    assert !EnteredBy(pcs, t) && !EnteredBy(pcs', t);
    assert forall u: Thread :: EnteredBy(pcs', u) <==> EnteredBy(pcs, u);
  }

  /** The last reader leaves and calls the waiting writer in. */
  lemma LastReaderLeaves(state: nat, q: seq<(Thread, WaitType)>, w: seq<Thread>, pcs: seq<PC>, t: Thread)
    requires Ok(state, q, w, pcs) && t < |pcs| && pcs[t].Reading? && state - 1 == WRITE_ENTERED
    ensures w != [] && w[0] < |pcs| && w[0] != t && Ok(state - 1, q, w[1..], pcs[t := Outside][w[0] := CalledIn])
  {
    var pcs' := pcs[t := Outside];
    CountPositive(pcs, t);
    Moved(pcs, pcs', t);
    var u: Thread :| EnteredBy(pcs, u);
    assert pcs[u].SecondGate? && w == [u];
    var pcs'' := pcs'[u := CalledIn];
    Moved(pcs', pcs'', u);
    hide Count;
    assert !EnteredBy(pcs, t) && !EnteredBy(pcs', t) && EnteredBy(pcs'', u);
    assert forall v: Thread :: EnteredBy(pcs'', v) <==> EnteredBy(pcs, v);
  }

  lemma CountPositive(pcs: seq<PC>, t: Thread)
    requires t < |pcs| && pcs[t].Reading?
    ensures Count(pcs) > 0
  {
    CountZero(pcs);
  }

  lemma {:induction false} CallAllCount(pcs: seq<PC>, q: seq<(Thread, WaitType)>)
    requires forall i :: 0 <= i < |q| ==> q[i].0 < |pcs| && pcs[q[i].0].FirstGate?
    requires forall i, j :: 0 <= i < j < |q| ==> q[i].0 != q[j].0
    ensures Count(CallAll(pcs, q)) == Count(pcs)
    ensures forall u: Thread :: EnteredBy(CallAll(pcs, q), u) <==> EnteredBy(pcs, u)
    ensures forall u: Thread :: EnteredBy(pcs, u) ==> CallAll(pcs, q)[u] == pcs[u]
  {
    if q != [] {
      var n := |q| - 1;
      CallAllCount(pcs, q[..n]);
      CallAllAt(pcs, q[..n], q[n].0);
      Moved(CallAll(pcs, q[..n]), CallAll(pcs, q), q[n].0);
    }
  }

  /** Calling a non-empty front part of the first gate leaves its waiters attended. */
  lemma FrontCalled(state: nat, q: seq<(Thread, WaitType)>, w: seq<Thread>, pcs: seq<PC>, k: nat)
    requires Loose(state, q, w, pcs) && k <= |q| && (q != [] ==> k > 0)
    ensures Ok(state, q[k..], w, CallAll(pcs, q[..k]))
  {
    CalledLists(pcs, q, k, w);
    CallAllCount(pcs, q[..k]);
    var r := CallAll(pcs, q[..k]);
    assert Encodes(state, r) by {
      hide Count, CallAll;
    }
    if q != [] {
      CallAllAt(pcs, q[..k], q[0].0);
      assert q[..k][0] == q[0];
      assert CalledBy(r, q[0].0);
    }
  }

  /** Threads that are not asleep are not called. */
  lemma NotCalled(q: seq<(Thread, WaitType)>, w: seq<Thread>, pcs: seq<PC>, k: nat, t: Thread)
    requires GoodLists(pcs, q, w) && k <= |q| && t < |pcs| && !pcs[t].FirstGate?
    ensures CallAll(pcs, q[..k])[t] == pcs[t]
  {
    assert forall i :: 0 <= i < k ==> q[..k][i] == q[i];
    CallAllAt(pcs, q[..k], t);
  }

  lemma AllCalled(state: nat, q: seq<(Thread, WaitType)>, w: seq<Thread>, pcs: seq<PC>, t: Thread)
    requires Loose(state, q, w, pcs) && t < |pcs| && pcs[t].Outside?
    ensures Ok(state, q[Through(q)..], w, CallAll(pcs, q[..Through(q)]))
    ensures CallAll(pcs, q[..Through(q)])[t].Outside?
  {
    hide Ok, GoodLists;
    FrontCalled(state, q, w, pcs, Through(q));
    NotCalled(q, w, pcs, Through(q), t);
  }

  lemma FirstCalled(state: nat, q: seq<(Thread, WaitType)>, w: seq<Thread>, pcs: seq<PC>, t: Thread)
    requires Loose(state, q, w, pcs) && t < |pcs| && pcs[t].Outside?
    ensures var k := if q == [] then 0 else 1;
            Ok(state, q[k..], w, CallAll(pcs, q[..k])) && CallAll(pcs, q[..k])[t].Outside?
  {
    hide Ok, GoodLists;
    var k := if q == [] then 0 else 1;
    FrontCalled(state, q, w, pcs, k);
    NotCalled(q, w, pcs, k, t);
  }

  /** Nobody but `t` moves, except that sleepers are called. */
  ghost predicate OthersCalled(pcs: seq<PC>, pcs': seq<PC>, t: Thread) {
    |pcs'| == |pcs| && forall u :: 0 <= u < |pcs| && u != t ==>
      || pcs'[u] == pcs[u]
      || (pcs[u].FirstGate? && pcs'[u] == Called(pcs[u].wants))
      || (pcs[u].SecondGate? && pcs'[u].CalledIn?)
  }

  lemma CallOthers(pcs: seq<PC>, q: seq<(Thread, WaitType)>, w: seq<Thread>, k: nat, t: Thread)
    requires t < |pcs| && GoodLists(pcs[t := Outside], q, w) && k <= |q|
    ensures OthersCalled(pcs, CallAll(pcs[t := Outside], q[..k]), t)
  {
    hide GoodLists, CallAll;
    CalledEffect(pcs[t := Outside], q, k, w);
  }

  lemma WriterCalled(state: nat, q: seq<(Thread, WaitType)>, w: seq<Thread>, pcs: seq<PC>, t: Thread)
    requires Ok(state, q, w, pcs) && t < |pcs| && w != []
    ensures w[0] < |pcs| && OthersCalled(pcs, pcs[t := Outside][w[0] := CalledIn], t)
  {
    assert w[0] in w;
  }

  // ----- the lock as its users see it

  /** Whoever goes to sleep at the first gate does so behind those who sleep there. */
  predicate Queued(q: seq<(Thread, WaitType)>, q': seq<(Thread, WaitType)>, t: Thread, pc: PC) {
    q' == if pc.FirstGate? then q + [(t, pc.wants)] else q
  }

  /** What thread `t`, a reader that leaves, does to the others: the writer at the second gate is called in by the
      last reader; if there is no such writer, the first sleeper is called if the lock was full, and otherwise
      one writer or all readers in front of the first writer. */
  ghost predicate ReaderLeft(pcs: seq<PC>, q: seq<(Thread, WaitType)>, pcs': seq<PC>, q': seq<(Thread, WaitType)>,
      t: Thread)
    requires t < |pcs|
  {
    if WriterIn(pcs) then
      && q' == q && |pcs'| == |pcs| && pcs'[t].Outside?
      && forall u :: 0 <= u < |pcs| && u != t ==>
           pcs'[u] == if pcs[u].SecondGate? && ReadersIn(pcs) == {t} then CalledIn else pcs[u]
    else
      var k := if q == [] then 0 else if |ReadersIn(pcs)| == READERS_MAX then 1 else Through(q);
      q' == q[k..] && pcs' == CallAll(pcs[t := Outside], q[..k])
  }

  ghost function ReadersIn(pcs: seq<PC>): set<Thread> {
    set t | 0 <= t < |pcs| && pcs[t].Reading?
  }

  /** Some thread writes, or has claimed the lock as the next writer. */
  ghost predicate WriterIn(pcs: seq<PC>) {
    exists t :: 0 <= t < |pcs| && (pcs[t].Writing? || pcs[t].SecondGate? || pcs[t].CalledIn?)
  }

  ghost predicate Free(pcs: seq<PC>) {
    !WriterIn(pcs) && ReadersIn(pcs) == {}
  }

  ghost predicate OpenToReaders(pcs: seq<PC>) {
    !WriterIn(pcs) && |ReadersIn(pcs)| < READERS_MAX
  }

  lemma {:induction false} CountIsReaders(pcs: seq<PC>)
    ensures Count(pcs) == |ReadersIn(pcs)|
  {
    if pcs != [] {
      var n := |pcs| - 1;
      CountIsReaders(pcs[..n]);
      assert forall t :: 0 <= t < n ==> pcs[..n][t] == pcs[t];
      assert ReadersIn(pcs) == ReadersIn(pcs[..n]) + if pcs[n].Reading? then {n} else {};
    } else {
      assert ReadersIn(pcs) == {};
    }
  }

  lemma OnlyReader(pcs: seq<PC>, t: Thread)
    requires t < |pcs| && pcs[t].Reading?
    ensures |ReadersIn(pcs)| == 1 <==> ReadersIn(pcs) == {t}
  {
    assert t in ReadersIn(pcs);
    if |ReadersIn(pcs)| == 1 {
      assert |ReadersIn(pcs) - {t}| == 0;
    }
  }

  lemma GateTwo(state: nat, q: seq<(Thread, WaitType)>, w: seq<Thread>, pcs: seq<PC>)
    requires Ok(state, q, w, pcs)
    ensures forall u :: 0 <= u < |pcs| ==> (pcs[u].SecondGate? <==> w == [u])
  {
    if |w| == 1 {
      assert w[0] in w && w == [w[0]];
    }
  }

  /** What the lock word says, in terms of the threads. */
  lemma WordMeans(state: nat, q: seq<(Thread, WaitType)>, w: seq<Thread>, pcs: seq<PC>)
    requires Ok(state, q, w, pcs)
    ensures state == 0 <==> Free(pcs)
    ensures state >= WRITE_ENTERED <==> WriterIn(pcs)
    ensures state < READERS_MAX <==> OpenToReaders(pcs)
    ensures state == |ReadersIn(pcs)| + if WriterIn(pcs) then WRITE_ENTERED else 0
  {
    hide GoodLists, Attended, Count;
    CountIsReaders(pcs);
    if WriterIn(pcs) {
      var t :| 0 <= t < |pcs| && (pcs[t].Writing? || pcs[t].SecondGate? || pcs[t].CalledIn?);
      assert EnteredBy(pcs, t);
    } else {
      assert forall t: Thread :: !EnteredBy(pcs, t);
    }
  }

  lemma LooseLists(state: nat, q: seq<(Thread, WaitType)>, w: seq<Thread>, pcs: seq<PC>, t: Thread)
    requires Ok(state, q, w, pcs) && t < |pcs| && (pcs[t].Writing? || pcs[t].Reading?)
    ensures GoodLists(pcs[t := Outside], q, w)
  {
  }

  /** A writer excludes readers and other writers. */
  lemma WriterExcludes(state: nat, q: seq<(Thread, WaitType)>, w: seq<Thread>, pcs: seq<PC>, t: Thread, u: Thread)
    requires Ok(state, q, w, pcs) && t < |pcs| && u < |pcs| && t != u && pcs[t].Writing?
    ensures !pcs[u].Writing? && !pcs[u].Reading?
  {
    assert EnteredBy(pcs, t);
    assert EnteredBy(pcs, u) ==> t == u;
    CountZero(pcs);
  }

  /** No wakeup is lost: when all threads are outside or asleep, none is asleep. */
  lemma NobodyStranded(state: nat, q: seq<(Thread, WaitType)>, w: seq<Thread>, pcs: seq<PC>, t: Thread)
    requires Ok(state, q, w, pcs) && t < |pcs|
    requires forall u :: 0 <= u < |pcs| ==> pcs[u].Outside? || pcs[u].FirstGate? || pcs[u].SecondGate?
    ensures pcs[t].Outside?
  {
    CountZero(pcs);
    hide Count;
    assert forall u: Thread :: EnteredBy(pcs, u) ==> pcs[u].SecondGate?;
    assert forall u: Thread :: !CalledBy(pcs, u);
    assert pcs[t].SecondGate? ==> EnteredBy(pcs, t);
  }

  class SharedMutexPrivate {
    var state: nat
    var wList1: seq<(Thread, WaitType)>
    var wList2: seq<Thread>
    var pcs: seq<PC>

    ghost predicate Valid()
      reads this
    {
      Ok(state, wList1, wList2, pcs)
    }

    constructor (threads: nat)
      ensures Valid() && |pcs| == threads && state == 0
    {
      state, wList1, wList2, pcs := 0, [], [], seq(threads, _ => Outside);
      new;
      CountZero(pcs);
    }

    // ----- notification

    /** Wake the first waiter of the first gate. */
    method NotifyOneFirst()
      requires GoodLists(pcs, wList1, wList2)
      modifies `wList1, `pcs
      ensures wList1 == if old(wList1) == [] then [] else old(wList1)[1..]
      ensures pcs == CallAll(old(pcs), old(wList1)[..|old(wList1)| - |wList1|])
      ensures GoodLists(pcs, wList1, wList2)
    {
      if wList1 != [] {
        var we := wList1[0];
        wList1 := wList1[1..];
        pcs := pcs[we.0 := Called(we.1)];
        assert old(wList1)[..1] == [we] && [we][..0] == [];
        CalledLists(old(pcs), old(wList1), 1, wList2);
      }
    }

    /** Wake one writer, or all readers in front of the first writer. */
    method NotifyAllFirst()
      requires GoodLists(pcs, wList1, wList2)
      modifies `wList1, `pcs
      ensures wList1 == old(wList1)[Through(old(wList1))..]
      ensures pcs == CallAll(old(pcs), old(wList1)[..Through(old(wList1))])
      ensures GoodLists(pcs, wList1, wList2)
    {
      hide CallAll, Through, Readers;
      ghost var q := wList1;
      assert Threads(q, |pcs|);
      CalledLists(pcs, q, Through(q), wList2);
      hide GoodLists, Threads;
      ReadersNone(q);
      ghost var i := 0;
      NoneCalled(pcs, q);
      while wList1 != []
        invariant 0 <= i <= |q| && wList1 == q[i..] && Readers(q, i)
                  && (i > 0 ==> Readers(q, i - 1) && q[i - 1].1.READ?)
        invariant i > 0 && i < |q| ==> q[i].1.READ?
        invariant pcs == CallAll(old(pcs), q[..i])
        decreases |wList1|
      {
        var we := wList1[0];
        CallOne(old(pcs), q, i);
        wList1 := wList1[1..];
        i := i + 1;
        pcs := pcs[we.0 := Called(we.1)];
        if we.1.WRITE? || (wList1 != [] && wList1[0].1.WRITE?) {
          break;
        }
        ReadersMore(q, i - 1);
      }
      ThroughIs(q, i);
    }

    // ----- entering

    /** The loops of `Lock`, for a thread that is not asleep. */
    method EnterAsWriter(t: Thread)
      requires Valid() && t < |pcs| && (pcs[t].Outside? || pcs[t] == Called(WRITE))
      modifies this
      ensures Valid()
      ensures pcs == old(pcs)[t := if Free(old(pcs)) then Writing else if WriterIn(old(pcs)) then FirstGate(WRITE)
                                   else SecondGate]
      ensures Queued(old(wList1), wList1, t, pcs[t])
    {
      hide Ok, Free, WriterIn;
      WordMeans(state, wList1, wList2, pcs);
      if state >= WRITE_ENTERED {
        SleepFirst(state, wList1, wList2, pcs, t, WRITE);
        wList1 := wList1 + [(t, WRITE)];
        pcs := pcs[t := FirstGate(WRITE)];
      } else {
        ghost var before := state;
        state := state + WRITE_ENTERED;
        if state % WRITE_ENTERED != 0 {
          WriterWaits(before, wList1, wList2, pcs, t);
          wList2 := wList2 + [t];
          pcs := pcs[t := SecondGate];
        } else {
          WriterEnters(wList1, wList2, pcs, t);
          pcs := pcs[t := Writing];
        }
      }
    }

    /** The loop of `LockShared`, for a thread that is not asleep. */
    method EnterAsReader(t: Thread)
      requires Valid() && t < |pcs| && (pcs[t].Outside? || pcs[t] == Called(READ))
      modifies this
      ensures Valid() && pcs == old(pcs)[t := if OpenToReaders(old(pcs)) then Reading else FirstGate(READ)]
      ensures Queued(old(wList1), wList1, t, pcs[t])
    {
      hide Ok, OpenToReaders;
      WordMeans(state, wList1, wList2, pcs);
      if state >= READERS_MAX {
        SleepFirst(state, wList1, wList2, pcs, t, READ);
        wList1 := wList1 + [(t, READ)];
        pcs := pcs[t := FirstGate(READ)];
      } else {
        ReaderEnters(state, wList1, wList2, pcs, t);
        state := state + 1;
        pcs := pcs[t := Reading];
      }
    }

    method Lock(t: Thread)
      requires Valid() && t < |pcs| && pcs[t].Outside?
      modifies this
      ensures Valid()
      ensures pcs == old(pcs)[t := if Free(old(pcs)) then Writing else if WriterIn(old(pcs)) then FirstGate(WRITE)
                                   else SecondGate]
      ensures Queued(old(wList1), wList1, t, pcs[t])
    {
      EnterAsWriter(t);
    }

    method LockShared(t: Thread)
      requires Valid() && t < |pcs| && pcs[t].Outside?
      modifies this
      ensures Valid() && pcs == old(pcs)[t := if OpenToReaders(old(pcs)) then Reading else FirstGate(READ)]
      ensures Queued(old(wList1), wList1, t, pcs[t])
    {
      EnterAsReader(t);
    }

    method TryLock(t: Thread) returns (ok: bool)
      requires Valid() && t < |pcs| && pcs[t].Outside?
      modifies this
      ensures Valid() && ok == Free(old(pcs)) && pcs == if ok then old(pcs)[t := Writing] else old(pcs)
      ensures wList1 == old(wList1)
    {
      hide Ok, Free;
      WordMeans(state, wList1, wList2, pcs);
      ok := state == 0;
      if ok {
        WriterEnters(wList1, wList2, pcs, t);
        state := WRITE_ENTERED;
        pcs := pcs[t := Writing];
      }
    }

    method TryLockShared(t: Thread) returns (ok: bool)
      requires Valid() && t < |pcs| && pcs[t].Outside?
      modifies this
      ensures Valid() && ok == OpenToReaders(old(pcs)) && pcs == if ok then old(pcs)[t := Reading] else old(pcs)
      ensures wList1 == old(wList1)
    {
      hide Ok, OpenToReaders;
      WordMeans(state, wList1, wList2, pcs);
      ok := state < READERS_MAX;
      if ok {
        ReaderEnters(state, wList1, wList2, pcs, t);
        state := state + 1;
        pcs := pcs[t := Reading];
      }
    }

    /** A woken thread looks again. */
    method Resume(t: Thread)
      requires Valid() && t < |pcs| && (pcs[t].Called? || pcs[t].CalledIn?)
      modifies this
      ensures Valid() && |pcs| == old(|pcs|)
      ensures old(pcs)[t].CalledIn? ==> pcs == old(pcs)[t := Writing]
      ensures old(pcs)[t] == Called(READ)
              ==> pcs == old(pcs)[t := if OpenToReaders(old(pcs)) then Reading else FirstGate(READ)]
      ensures old(pcs)[t] == Called(WRITE)
              ==> pcs == old(pcs)[t := if Free(old(pcs)) then Writing else if WriterIn(old(pcs)) then FirstGate(WRITE)
                                       else SecondGate]
      ensures Queued(old(wList1), wList1, t, pcs[t])
    {
      hide Ok, Free, WriterIn, OpenToReaders;
      if pcs[t].Called? && pcs[t].wants.READ? {
        EnterAsReader(t);
      } else if pcs[t].Called? {
        EnterAsWriter(t);
      } else {
        WriterCalledIn(state, wList1, wList2, pcs, t);
        pcs := pcs[t := Writing];
      }
    }

    // ----- leaving

    /** `Unlock`, by a writer or by a reader. The lock word tells the two apart. */
    method Unlock(t: Thread)
      requires Valid() && t < |pcs| && (pcs[t].Writing? || pcs[t].Reading?)
      modifies this
      ensures Valid() && OthersCalled(old(pcs), pcs, t) && pcs[t].Outside?
      ensures old(pcs)[t].Writing?
              ==> && state == 0 && pcs == CallAll(old(pcs)[t := Outside], old(wList1)[..Through(old(wList1))])
                  && wList1 == old(wList1)[Through(old(wList1))..]
      ensures old(pcs)[t].Reading? ==> state == old(state) - 1 && ReaderLeft(old(pcs), old(wList1), pcs, wList1, t)
    {
      hide Ok, GoodLists, CallAll, Loose, Through, WriterIn, ReadersIn;
      WordMeans(state, wList1, wList2, pcs);
      WhoLeaves(state, wList1, wList2, pcs, t);
      LooseLists(state, wList1, wList2, pcs, t);
      if state == WRITE_ENTERED {
        WriterLeaves(state, wList1, wList2, pcs, t);
        pcs := pcs[t := Outside];
        state := 0;
        ghost var before := pcs;
        NotifyAllFirst();
        AllCalled(0, old(wList1), wList2, before, t);
        CallOthers(old(pcs), old(wList1), wList2, Through(old(wList1)), t);
      } else if state > 0 {
        state := state - 1;
        if state >= WRITE_ENTERED {
          if state == WRITE_ENTERED {
            OnlyReader(pcs, t);
            GateTwo(state + 1, wList1, wList2, pcs);
            LastReaderLeaves(old(state), wList1, wList2, pcs, t);
            WriterCalled(old(state), wList1, wList2, pcs, t);
            var u := wList2[0];
            wList2 := wList2[1..];
            pcs := pcs[t := Outside][u := CalledIn];
          } else {
            OnlyReader(pcs, t);
            ReaderLeaves(old(state), wList1, wList2, pcs, t);
            pcs := pcs[t := Outside];
          }
        } else {
          ReaderLeaves(old(state), wList1, wList2, pcs, t);
          pcs := pcs[t := Outside];
          ghost var before := pcs;
          if state == READERS_MAX - 1 {
            NotifyOneFirst();
            FirstCalled(state, old(wList1), wList2, before, t);
            CallOthers(old(pcs), old(wList1), wList2, if old(wList1) == [] then 0 else 1, t);
          } else if wList1 != [] {
            NotifyAllFirst();
            AllCalled(state, old(wList1), wList2, before, t);
            CallOthers(old(pcs), old(wList1), wList2, Through(old(wList1)), t);
          } else {
            NoneCalled(pcs, []);
          }
        }
      }
    }
  }
}
