/** Whole calls of `onSubmit` and `onTaskDone`, put together from the steps on single versions. */
module DependenceRun {
  import opened Wrappers
  import opened AccessOrder
  import opened VersionList
  import opened Dependence
  import opened DependenceInv
  import opened DependenceCounts
  import opened DependenceSteps
  import opened DependenceFinish
  import opened DependenceOrder

  /** A task that has not been made ready has something to wait for. */
  ghost predicate Settled(s: State) {
    forall u :: 0 <= u < |s.tasks| && u !in s.released ==> s.tasks[u].submitDep > 0
  }

  /** A task that carries references nobody will give back is never made ready. */
  ghost predicate Stranded(s: State, h: Shadow) {
    forall u :: u in s.released ==> u < |h.surplus| && h.surplus[u] == 0
  }

  /** The state between critical sections. */
  ghost predicate Quiet(s: State, h: Shadow) {
    && Core(s, h, {}, {})
    && s.versionTrashcan == [] && h.dead == map[]
    && (forall d :: d in h.lists ==> h.lists[d] != [])
    && Settled(s) && Stranded(s, h)
    && h.done <= s.released
  }

  // ----- submission

  /** The order of datum `d` after task `t` has registered `ins` and `outs`. */
  function Spread(p: seq<Access>, parent: Option<Task>, t: Task, d: Signature, ins: seq<Signature>,
      outs: seq<Signature>): seq<Access> {
    if d in outs then Place(p, parent, Access(t, true))
    else if d in ins then Place(p, parent, Access(t, false))
    else p
  }

  /** How often a signature of `ins` that stands before, and is in `waits`, comes again. */
  function Repeats(ins: seq<Signature>, waits: set<Signature>): nat {
    if ins == [] then 0
    else
      var d := ins[|ins| - 1];
      Repeats(ins[..|ins| - 1], waits) + One(d in ins[..|ins| - 1] && d in waits)
  }

  lemma {:induction false} RepeatsSame(ins: seq<Signature>, w: set<Signature>, w': set<Signature>)
    requires forall d :: d in ins ==> (d in w <==> d in w')
    ensures Repeats(ins, w) == Repeats(ins, w')
  {
    if ins != [] {
      assert ins[|ins| - 1] in ins;
      assert forall d :: d in ins[..|ins| - 1] ==> d in ins;
      RepeatsSame(ins[..|ins| - 1], w, w');
    }
  }

  /** Nothing is counted twice exactly when no repeated signature has to be waited for. */
  lemma {:induction false} RepeatsZero(ins: seq<Signature>, w: set<Signature>)
    ensures Repeats(ins, w) == 0 <==> forall d :: d in w ==> multiset(ins)[d] <= 1
  {
    if ins != [] {
      var n, d := |ins| - 1, ins[|ins| - 1];
      RepeatsZero(ins[..n], w);
      assert ins == ins[..n] + [d];
      assert forall e :: multiset(ins)[e] == multiset(ins[..n])[e] + One(e == d);
      assert d in ins[..n] <==> multiset(ins[..n])[d] > 0;
      if Repeats(ins, w) == 0 {
        forall e | e in w ensures multiset(ins)[e] <= 1 {
          assert multiset(ins[..n])[e] <= 1;
        }
      }
      if forall e :: e in w ==> multiset(ins)[e] <= 1 {
        assert d in w ==> multiset(ins)[d] <= 1;
        assert forall e :: e in w ==> multiset(ins[..n])[e] <= multiset(ins)[e];
      }
    }
  }

  lemma ParentKnown(s: State, h: Shadow, parent: Option<Task>)
    requires Core(s, h, {}, {}) && Running(s, h, parent)
    ensures parent.Some? ==> forall a :: a in s.tasks[parent.value].ins || a in s.tasks[parent.value].outs
                               ==> a in s.versions
  {
    if parent.Some? {
      assert s.tasks[parent.value].ins == InsOf(s, parent.value)
        && s.tasks[parent.value].outs == OutsOf(s, parent.value);
    }
  }

  /** Some prefix of the registrations of `t` has been made. `h0` is the shadow when `t` was created. */
  ghost predicate Submitting(s: State, h0: Shadow, h: Shadow, parent: Option<Task>, t: Task, ins: seq<Signature>,
      outs: seq<Signature>) {
    && Core(s, h, {}, {}) && h.dead == map[] && Running(s, h, parent)
    && t < |s.tasks| && |h0.surplus| == |s.tasks| && h0.surplus[t] == 0 && t !in s.released && t !in h.done
    && parent != Some(t)
    && h == h0.(lists := h.lists, pend := h.pend, surplus := h0.surplus[t := Repeats(ins, DepSet(h.pend, t))])
    && SpreadOver(h0, h, parent, t, ins, outs)
    && (forall d :: !Occurs(Pending(h0, d), t))
    && Unlisted(h0, h, ins, outs)
  }

  ghost predicate SpreadOver(h0: Shadow, h: Shadow, parent: Option<Task>, t: Task, ins: seq<Signature>,
      outs: seq<Signature>) {
    forall d :: Pending(h, d) == Spread(Pending(h0, d), parent, t, d, ins, outs)
  }

  /** Only data still to be registered have no versions. */
  ghost predicate Unlisted(h0: Shadow, h: Shadow, ins: seq<Signature>, outs: seq<Signature>) {
    && h.lists.Keys == h0.lists.Keys
    && (forall d :: d in h.lists && h.lists[d] == [] ==> d !in ins && d !in outs && h0.lists[d] == [])
  }

  lemma SpreadStep(h0: Shadow, h: Shadow, h': Shadow, parent: Option<Task>, t: Task, ins: seq<Signature>,
      outs: seq<Signature>, d: Signature, write: bool)
    requires SpreadOver(h0, h, parent, t, ins, outs) && d !in ins && d !in outs
    requires h'.pend == h.pend[d := Place(Pending(h, d), parent, Access(t, write))]
    ensures SpreadOver(h0, h', parent, t, if write then ins else ins + [d], if write then outs + [d] else outs)
  {
    hide Place;
    forall e
      ensures Pending(h', e) == Spread(Pending(h0, e), parent, t, e, if write then ins else ins + [d], if write
              then outs + [d] else outs)
    {
      assert Pending(h, e) == Spread(Pending(h0, e), parent, t, e, ins, outs);
    }
  }

  lemma RepeatsStep(h: Shadow, p: map<Signature, seq<Access>>, t: Task, ins: seq<Signature>, d: Signature)
    requires p.Keys >= h.pend.Keys && forall e :: e in p && e != d ==> e in h.pend && p[e] == h.pend[e]
    requires d !in ins
    ensures Repeats(ins, DepSet(p, t)) == Repeats(ins, DepSet(h.pend, t))
  {
    forall e | e in ins ensures e in DepSet(p, t) <==> e in DepSet(h.pend, t) {
    }
    RepeatsSame(ins, DepSet(p, t), DepSet(h.pend, t));
  }

  lemma WaitsIff(s: State, h: Shadow, d: Signature, t: Task)
    requires Accesses(s, h) && d in h.pend
    ensures d in DepSet(h.pend, t) <==> Blocked(h.pend[d], t)
  {
    hide Versions, Blocked, Free;
    BlockedIff(h.pend[d], t);
  }

  lemma ListedStep(h0: Shadow, h: Shadow, h': Shadow, ins: seq<Signature>, outs: seq<Signature>, d: Signature,
      write: bool)
    requires Unlisted(h0, h, ins, outs)
    requires h'.lists.Keys == h.lists.Keys && (forall e :: e in h.lists && e != d ==> h'.lists[e] == h.lists[e])
    requires d in h'.lists && h'.lists[d] != []
    ensures Unlisted(h0, h', if write then ins else ins + [d], if write then outs + [d] else outs)
  {
  }

  /** One more datum is registered. */
  lemma SubmitStep(s: State, s': State, h0: Shadow, h: Shadow, h': Shadow, parent: Option<Task>, t: Task,
                   ins: seq<Signature>, outs: seq<Signature>, d: Signature, write: bool)
    requires Submitting(s, h0, h, parent, t, ins, outs) && d !in ins && d !in outs && (outs != [] ==> write)
    requires Core(s', h', {}, {}) && Grown(s, s', t)
    requires h' == h.(lists := h'.lists, pend := h.pend[d := Place(Pending(h, d), parent, Access(t, write))])
    requires h'.lists.Keys == h.lists.Keys && (forall e :: e in h.lists && e != d ==> h'.lists[e] == h.lists[e])
    requires d in h'.lists && h'.lists[d] != []
    ensures Submitting(s', h0, h', parent, t, if write then ins else ins + [d], if write then outs + [d] else outs)
  {
    hide Core, DepSet, Occurs, Place, SpreadOver, Unlisted;
    SpreadStep(h0, h, h', parent, t, ins, outs, d, write);
    ListedStep(h0, h, h', ins, outs, d, write);
    assert (ins + [d])[..|ins|] == ins;
    RepeatsStep(h, h'.pend, t, ins, d);
  }

  lemma SubmitFirst(s: State, h0: Shadow, h: Shadow, parent: Option<Task>, t: Task, ins: seq<Signature>,
                    d: Signature, v: Address, nest: NestType, block: Address) returns (h': Shadow)
    requires Submitting(s, h0, h, parent, t, ins, []) && Mapped(s, parent, d, v, nest, true) && block !in s.versions
    requires d !in ins
    ensures Known(s.versions, v)
    ensures Submitting(AddConsumer(s, v, t, nest, block), h0, h', parent, t, ins + [d], [])
    ensures Grown(s, AddConsumer(s, v, t, nest, block), t)
  {
    hide Core, DepSet, Versions, Blocked, Occurs, Place, Mapped, AddConsumer, Grown;
    h' := RegisterRead(s, h, parent, d, v, nest, t, block);
    ConsumerGrown(s, v, t, nest, block);
    SubmitStep(s, AddConsumer(s, v, t, nest, block), h0, h, h', parent, t, ins, [], d, false);
  }

  lemma SpreadAgain(h0: Shadow, h: Shadow, parent: Option<Task>, t: Task, ins: seq<Signature>, d: Signature)
    requires SpreadOver(h0, h, parent, t, ins, []) && d in ins
    ensures d in h.pend && h.pend[d] == Place(Pending(h0, d), parent, Access(t, false))
    ensures forall h': Shadow :: h'.pend == h.pend ==> SpreadOver(h0, h', parent, t, ins + [d], [])
  {
    hide Place;
    OccursPlace(Pending(h0, d), parent, Access(t, false), t);
    assert Pending(h, d) == Spread(Pending(h0, d), parent, t, d, ins, []);
    EmptyOccurs(h, d, t);
    forall h': Shadow | h'.pend == h.pend ensures SpreadOver(h0, h', parent, t, ins + [d], []) {
      forall e ensures Pending(h', e) == Spread(Pending(h0, e), parent, t, e, ins + [d], []) {
        assert Pending(h, e) == Spread(Pending(h0, e), parent, t, e, ins, []);
      }
    }
  }

  lemma SubmitAgain(s: State, h0: Shadow, h: Shadow, parent: Option<Task>, t: Task, ins: seq<Signature>,
                    d: Signature, v: Address, nest: NestType, block: Address) returns (h': Shadow)
    requires Submitting(s, h0, h, parent, t, ins, []) && Mapped(s, parent, d, v, nest, true) && block !in s.versions
    requires d in ins
    ensures Known(s.versions, v)
    ensures Submitting(AddConsumer(s, v, t, nest, block), h0, h', parent, t, ins + [d], [])
    ensures Grown(s, AddConsumer(s, v, t, nest, block), t)
  {
    hide Core, DepSet, Versions, Blocked, Occurs, Place, Mapped, AddConsumer, Running, Grown, SpreadOver;
    SpreadAgain(h0, h, parent, t, ins, d);
    assert (ins + [d])[..|ins|] == ins;
    RegisterRepeat(s, h, parent, d, v, nest, t, block, Pending(h0, d));
    h' := h.(surplus := h.surplus[t := h.surplus[t] + One(Blocked(h.pend[d], t))]);
    CoreAccesses(s, h);
    WaitsIff(s, h, d, t);
    ConsumerGrown(s, v, t, nest, block);
    RunningGrown(s, AddConsumer(s, v, t, nest, block), h, h', t, parent);
  }

  lemma RunningGrown(s: State, s': State, h: Shadow, h': Shadow, t: Task, parent: Option<Task>)
    requires Running(s, h, parent) && Grown(s, s', t) && h'.done == h.done
    ensures Running(s', h', parent) && |s'.tasks| == |s.tasks| && s'.released == s.released
  {
  }

  lemma EmptyOccurs(h: Shadow, d: Signature, t: Task)
    requires Occurs(Pending(h, d), t)
    ensures d in h.pend
  {
  }

  lemma CoreAccesses(s: State, h: Shadow)
    requires Core(s, h, {}, {})
    ensures Accesses(s, h) && |h.surplus| == |s.tasks|
  {
  }

  lemma ConsumerGrown(s: State, v: Address, t: Task, nest: NestType, block: Address)
    requires Known(s.versions, v) && t < |s.tasks| && block !in s.versions
    ensures Grown(s, AddConsumer(s, v, t, nest, block), t)
  {
  }

  lemma ProducerGrown(s: State, v: Address, t: Task, block: Address)
    requires Known(s.versions, v) && t < |s.tasks| && block !in s.versions && s.versions[v].last != Some(v)
    ensures Grown(s, AddProducer(s, v, t, block), t)
  {
  }

  lemma SubmitWrite(s: State, h0: Shadow, h: Shadow, parent: Option<Task>, t: Task, ins: seq<Signature>,
      outs: seq<Signature>, d: Signature, v: Address, nest: NestType, block: Address) returns (h': Shadow)
    requires Submitting(s, h0, h, parent, t, ins, outs) && Mapped(s, parent, d, v, nest, false) && block !in s.versions
    requires d !in ins && d !in outs
    ensures Known(s.versions, v) && s.versions[v].last != Some(v)
    ensures Submitting(AddProducer(s, v, t, block), h0, h', parent, t, ins, outs + [d])
    ensures Grown(s, AddProducer(s, v, t, block), t)
  {
    hide Core, DepSet, Versions, Blocked, Occurs, Place, Mapped, AddProducer, Grown;
    h' := RegisterWrite(s, h, parent, d, v, nest, t, block);
    ProducerGrown(s, v, t, block);
    SubmitStep(s, AddProducer(s, v, t, block), h0, h, h', parent, t, ins, outs, d, true);
  }

  // ----- completion

  /** A version held by `t` stands for an access of `t` in the order of its datum. */
  lemma HeldOccurs(s: State, h: Shadow, v: Address, t: Task)
    requires Core(s, h, {}, {t}) && (v in InsOf(s, t) || v in OutsOf(s, t))
    ensures var d := s.versions[v].signature; d in h.pend && Occurs(h.pend[d], t)
  {
    hide Versions, Counts, Holdings, Linked, Matches, Accesses;
    var d := s.versions[v].signature;
    NotRoot(s, h, v, t);
    var i := Whereabouts(s, h, v);
    VersionsMembers(Pending(h, d), t);
    assert InVersions(Versions(Pending(h, d)), t);
  }

  lemma SettledNotify(s: State, us: set<Task>)
    requires Settled(s) && Owed(s, us)
    ensures Settled(DecDepRefs(s, us))
  {
  }

  lemma SettledProduced(s: State, v: Address)
    requires Settled(s) && CanProduce(s, v)
             && (Merges(s.versions, v) ==> s.versions[s.versions[v].last.value].status.IDLE?)
    ensures Settled(OnProduced(s, v))
  {
    hide DecDepRefs;
    if Merges(s.versions, v) {
    } else if s.versions[v].consumers == {} {
      SettledNotify(Retired(s, v), Next(s.versions[v]));
    } else {
      SettledNotify(Readied(s, v), s.versions[v].consumers);
    }
  }

  lemma SettledConsumed(s: State, v: Address, t: Task)
    requires Settled(s) && v in s.versions && Owed(s, Next(s.versions[v]))
    ensures Settled(OnConsumed(s, v, t))
  {
    hide DecDepRefs;
    var s1 := Unread(s, v, t);
    if s1.versions[v].consumers == {} {
      SettledNotify(Retired(s1, v), Next(s1.versions[v]));
    }
  }

  /** Taking an access away blocks nobody. */
  lemma WithoutBlocked(p: seq<Access>, t: Task, u: Task)
    requires NoDup(p) && Blocked(Without(p, t), u)
    ensures Blocked(p, u)
  {
    hide Without, NoDup;
    var q := Without(p, t);
    var i, j :| 0 <= i < j < |q| && q[j].task == u && Conflict(q[i], q[j]);
    var i' := WithoutAt(p, t, i);
    var j' := WithoutAt(p, t, j);
  }

  lemma WithoutAt(p: seq<Access>, t: Task, i: nat) returns (i': nat)
    requires i < |Without(p, t)|
    ensures i' == (if i < IndexOf(p, t) then i else i + 1) && i' < |p| && Without(p, t)[i] == p[i']
  {
    i' := if i < IndexOf(p, t) then i else i + 1;
  }

  lemma WithoutNoDup(p: seq<Access>, t: Task)
    requires NoDup(p)
    ensures NoDup(Without(p, t))
  {
    var k, q := IndexOf(p, t), Without(p, t);
    assert forall j :: 0 <= j < |q| ==> q[j] == p[if j < k then j else j + 1];
  }

  lemma DepSetShrinks(s: State, h: Shadow, h': Shadow, d: Signature, t: Task, u: Task)
    requires Accesses(s, h) && d in h.pend && h'.pend == h.pend[d := Without(h.pend[d], t)]
    ensures DepSet(h'.pend, u) <= DepSet(h.pend, u)
  {
    hide Versions, Blocked, Free;
    var p := h.pend[d];
    WithoutNoDup(p, t);
    BlockedIff(Without(p, t), u);
    BlockedIff(p, u);
    if Blocked(Without(p, t), u) {
      WithoutBlocked(p, t, u);
    }
  }

  /** `t` is giving up its accesses; `h0` is the shadow when it began to, `s0` the state. */
  ghost predicate Finishing(s0: State, h0: Shadow, s: State, h: Shadow, t: Task) {
    && Core(s, h, {}, {t}) && t < |s.tasks| && t in s.released && t !in h.done
    && h == h0.(pend := h.pend, dead := h.dead) && h.pend.Keys == h0.pend.Keys
    && (forall d :: d in h.pend ==> h.pend[d] == h0.pend[d] || h.pend[d] == Without(h0.pend[d], t))
    && (forall d :: d in h.dead ==> !Occurs(Pending(h, d), t))
    && (forall d :: d in h0.pend ==> NoDup(h0.pend[d]))
    && |s.tasks| == |s0.tasks| && s0.released <= s.released && s.vaMap == s0.vaMap
    && Settled(s) && Unblocked(s0, s, h)
    && s.tasks[t].ins == s0.tasks[t].ins && s.tasks[t].outs == s0.tasks[t].outs
  }

  lemma FinishingStep(s0: State, h0: Shadow, s: State, h: Shadow, s': State, h': Shadow, d: Signature, t: Task)
    requires Finishing(s0, h0, s, h, t) && d in h.pend && Occurs(h.pend[d], t)
    requires FinishedIn(s, h, s', h', d, t) && Unblocked(s, s', h') && Settled(s')
    ensures Finishing(s0, h0, s', h', t)
  {
    hide Versions, Core, DepSet, Occurs, NoDup, Without;
    assert h.pend[d] == h0.pend[d] by {
      if h.pend[d] == Without(h0.pend[d], t) {
        OccursWithout(h0.pend[d], t, t);
      }
    }
    OccursWithout(h.pend[d], t, t);
    forall u | u in s'.released && u !in s0.released
      ensures u < |h'.surplus| && DepSet(h'.pend, u) == {} && h'.surplus[u] == 0
    {
      if u in s.released {
        DepShrinks(s, h, h', d, t, u);
      }
    }
  }

  lemma DepShrinks(s: State, h: Shadow, h': Shadow, d: Signature, t: Task, u: Task)
    requires Core(s, h, {}, {t}) && d in h.pend && h'.pend == h.pend[d := Without(h.pend[d], t)]
    ensures DepSet(h'.pend, u) <= DepSet(h.pend, u)
  {
    hide DepSet, Versions;
    DepSetShrinks(s, h, h', d, t, u);
  }

  lemma FinishOut(s0: State, h0: Shadow, s: State, h: Shadow, t: Task, v: Address) returns (h': Shadow)
    requires Finishing(s0, h0, s, h, t) && v in OutsOf(s, t)
    requires forall d :: d in h0.pend ==> Mergeable(h0.pend[d], t)
    ensures CanProduce(s, v) && Finishing(s0, h0, OnProduced(s, v), h', t)
    ensures InsOf(OnProduced(s, v), t) == InsOf(s, t) && OutsOf(OnProduced(s, v), t) == OutsOf(s, t) - {v}
    ensures var d := s.versions[v].signature;
            d !in h.dead && Mergeable(Pending(h, d), t) && FinishedIn(s, h, OnProduced(s, v), h', d, t)
              && Unblocked(s, OnProduced(s, v), h')
  {
    hide Versions, Core, DepSet, Occurs, NoDup, Without, Mergeable, FinishedIn, Unblocked, OnProduced, CanProduce,
      InsOf, Settled;
    HeldOccurs(s, h, v, t);
    var d := s.versions[v].signature;
    hide OutsOf;
    if h.pend[d] == Without(h0.pend[d], t) {
      OccursWithout(h0.pend[d], t, t);
    }
    h' := FinishWrite(s, h, d, t, v);
    FinishMergesIdle(s, h, t, v);
    SettledProduced(s, v);
    FinishingStep(s0, h0, s, h, OnProduced(s, v), h', d, t);
  }

  lemma FinishMergesIdle(s: State, h: Shadow, t: Task, v: Address)
    requires Core(s, h, {}, {t}) && v in OutsOf(s, t) && t in s.released && t < |s.tasks| && CanProduce(s, v)
    requires var d := s.versions[v].signature; d !in h.dead && Mergeable(Pending(h, d), t)
    ensures Merges(s.versions, v) ==> s.versions[s.versions[v].last.value].status.IDLE?
  {
    hide Versions, Counts, Accesses, Holdings, Trash, Mergeable, InsOf, CanProduce, Linked, Matches, Structure, NoDup;
    var d := s.versions[v].signature;
    hide OutsOf;
    FinishReady(s, h, d, t, v);
    var p, k := h.pend[d], IndexOf(h.pend[d], t);
    ProducingNode(s, h, d, p[..k], t, p[k + 1..], v);
    if k != 0 {
      MergingNode(s, h, d, p[..k], t, p[k + 1..], v);
    }
  }

  lemma FinishIn(s0: State, h0: Shadow, s: State, h: Shadow, t: Task, v: Address) returns (h': Shadow)
    requires Finishing(s0, h0, s, h, t) && v in InsOf(s, t)
    ensures v in s.versions && Owed(s, Next(s.versions[v])) && Finishing(s0, h0, OnConsumed(s, v, t), h', t)
    ensures InsOf(OnConsumed(s, v, t), t) == InsOf(s, t) - {v} && OutsOf(OnConsumed(s, v, t), t) == OutsOf(s, t) - {v}
    ensures FinishedIn(s, h, OnConsumed(s, v, t), h', s.versions[v].signature, t)
            && Unblocked(s, OnConsumed(s, v, t), h')
    ensures !s.versions[v].status.IDLE?
  {
    hide Versions, Core, DepSet, Occurs, NoDup, Without, FinishedIn, Unblocked, OnConsumed, OutsOf, Settled;
    HeldOccurs(s, h, v, t);
    var d := s.versions[v].signature;
    hide InsOf;
    h' := FinishRead(s, h, d, t, v);
    SettledConsumed(s, v, t);
    FinishingStep(s0, h0, s, h, OnConsumed(s, v, t), h', d, t);
  }

  /** All accesses of `t` are gone: it is done. */
  lemma FinishDone(s0: State, h0: Shadow, s: State, h: Shadow, t: Task)
    requires Finishing(s0, h0, s, h, t) && InsOf(s, t) == {} && OutsOf(s, t) == {}
    ensures Core(s, h.(done := h.done + {t}), {}, {})
    ensures forall d :: d in h.pend ==> h.pend[d] == Without(h0.pend[d], t)
  {
    hide Versions, InsOf, OutsOf, DepSet, NoDup, Free, Structure, Counts, Holdings, Trash, Without;
    forall d | d in h.pend ensures !Occurs(h.pend[d], t) && h.pend[d] == Without(h0.pend[d], t) {
      NothingHeld(s, h, d, t);
      WithoutNone(h.pend[d], t);
    }
    var h' := h.(done := h.done + {t});
    StructureSame(s, h, s, h');
    CountsDone(s, h, h');
    TrashSame(s, h, s, h');
    HoldingsDone(s, h, t);
  }

  lemma HoldingsDone(s: State, h: Shadow, t: Task)
    requires Holdings(s, h, {t})
    ensures Holdings(s, h.(done := h.done + {t}), {})
  {
    hide InsOf, OutsOf;
  }

  lemma WithoutNone(p: seq<Access>, t: Task)
    requires !Occurs(p, t)
    ensures Without(p, t) == p
  {
    IndexAbsent(p, t);
  }

  lemma CountsDone(s: State, h: Shadow, h': Shadow)
    requires Counts(s, h, {}) && h'.pend == h.pend && h'.surplus == h.surplus
    ensures Counts(s, h', {})
  {
    hide DepSet;
  }

  lemma NothingHeld(s: State, h: Shadow, d: Signature, t: Task)
    requires Structure(s, h) && Trash(s, h) && InsOf(s, t) == {} && OutsOf(s, t) == {} && d in h.pend
    ensures !Occurs(h.pend[d], t)
  {
    hide Structure, Trash, Occurs, InsOf, OutsOf;
    if Occurs(h.pend[d], t) {
      HeldVersion(s, h, d, t);
    }
  }

  /** Recycling has begun: what is pending stays as it was when the task was done. */
  ghost predicate Sweeping(s0: State, h0: Shadow, s: State, h: Shadow) {
    && Core(s, h, {}, {})
    && s.tasks == s0.tasks && s.released == s0.released
    && h.surplus == h0.surplus && h.done == h0.done
    && (forall d :: Pending(h, d) == Pending(h0, d))
    && (forall d :: d in h.lists ==> h.lists[d] != [])
  }

  lemma Sweep(s0: State, h0: Shadow, s: State, h: Shadow) returns (h': Shadow)
    requires Sweeping(s0, h0, s, h) && s.versionTrashcan != []
    ensures CanRecycle(s, s.versionTrashcan[0])
    ensures Sweeping(s0, h0, Swept(s), h')
  {
    hide Core, Unlink;
    var d := SweptCore(s, h, {});
    h' := SweptShadow(h, d);
  }

  lemma DeadEmpty(s: State, h: Shadow)
    requires Core(s, h, {}, {}) && s.versionTrashcan == []
    ensures h.dead == map[]
  {
    hide Structure, Counts, Accesses, Holdings;
    assert forall d :: d !in h.dead;
  }
}
