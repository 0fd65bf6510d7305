/** Where an access goes in the order of its datum, and how the versions a task holds reveal the
    places of its accesses. */
module DependenceOrder {
  import opened Wrappers
  import opened AccessOrder
  import opened VersionList
  import opened Dependence
  import opened DependenceInv
  import opened DependenceCounts
  import opened DependenceSteps
  import opened DependenceFinish

  function IndexOf(p: seq<Access>, t: Task): (k: nat)
    ensures k <= |p|
    ensures forall j :: 0 <= j < k ==> p[j].task != t
    ensures k < |p| ==> p[k].task == t
  {
    if p == [] || p[0].task == t then 0 else 1 + IndexOf(p[1..], t)
  }

  predicate Does(p: seq<Access>, t: Task, write: bool) {
    IndexOf(p, t) < |p| && p[IndexOf(p, t)].write == write
  }

  function Insert(p: seq<Access>, k: nat, x: Access): seq<Access>
    requires k <= |p|
  {
    p[..k] + [x] + p[k..]
  }

  /** The order after a new access. A child's access goes in front of its parent's write, or next
      to its parent's read if it only reads; everything else goes to the end. */
  function Place(p: seq<Access>, parent: Option<Task>, x: Access): seq<Access> {
    if parent.Some? && Does(p, parent.value, true) then Insert(p, IndexOf(p, parent.value), x)
    else if parent.Some? && !x.write && Does(p, parent.value, false) then Insert(p, IndexOf(p, parent.value) + 1, x)
    else p + [x]
  }

  function Without(p: seq<Access>, t: Task): seq<Access> {
    var k := IndexOf(p, t);
    if k < |p| then p[..k] + p[k + 1..] else p
  }

  lemma IndexUnique(p: seq<Access>, k: nat)
    requires NoDup(p) && k < |p|
    ensures IndexOf(p, p[k].task) == k
  {
  }

  lemma IndexAbsent(p: seq<Access>, t: Task)
    ensures IndexOf(p, t) == |p| <==> !Occurs(p, t)
  {
  }

  lemma OccursInsert(p: seq<Access>, k: nat, x: Access, u: Task)
    requires k <= |p|
    ensures Occurs(Insert(p, k, x), u) <==> Occurs(p, u) || u == x.task
  {
    var q := Insert(p, k, x);
    if Occurs(p, u) {
      var j :| 0 <= j < |p| && p[j].task == u;
      assert q[if j < k then j else j + 1].task == u;
    }
    if u == x.task {
      assert q[k].task == u;
    }
    if Occurs(q, u) {
      var j :| 0 <= j < |q| && q[j].task == u;
      if j != k {
        assert p[if j < k then j else j - 1].task == u;
      }
    }
  }

  lemma OccursPlace(p: seq<Access>, parent: Option<Task>, x: Access, u: Task)
    ensures Occurs(Place(p, parent, x), u) <==> Occurs(p, u) || u == x.task
  {
    assert p + [x] == Insert(p, |p|, x);
    OccursInsert(p, |p|, x, u);
    if parent.Some? && IndexOf(p, parent.value) < |p| {
      OccursInsert(p, IndexOf(p, parent.value), x, u);
      OccursInsert(p, IndexOf(p, parent.value) + 1, x, u);
    }
  }

  lemma OccursWithout(p: seq<Access>, t: Task, u: Task)
    requires NoDup(p)
    ensures Occurs(Without(p, t), u) <==> Occurs(p, u) && u != t
  {
    var k, q := IndexOf(p, t), Without(p, t);
    IndexAbsent(p, t);
    if k < |p| {
      assert forall j :: 0 <= j < |q| ==> q[j] == p[if j < k then j else j + 1];
      if Occurs(p, u) && u != t {
        var j :| 0 <= j < |p| && p[j].task == u;
        assert q[if j < k then j else j - 1].task == u;
      }
    }
  }

  /** A version with producer `t` sits where the write of `t` is in the order. */
  lemma {:induction false} WriterPlace(p: seq<Access>, i: nat, t: Task) returns (k: nat)
    requires i < |Versions(p)| && Versions(p)[i].writer == Some(t)
    ensures k < |p| && p[k] == Access(t, true) && |Versions(p[..k])| == i
  {
    var q, x := p[..|p| - 1], p[|p| - 1];
    if i < |Versions(q)| {
      k := WriterPlace(q, i, t);
      assert q[..k] == p[..k];
    } else {
      k := |p| - 1;
    }
  }

  /** A reader of the produced oldest version has only reads before it. */
  lemma {:induction false} ReaderPlace(p: seq<Access>, t: Task) returns (k: nat)
    requires Versions(p) != [] && Versions(p)[0].writer == None && t in Versions(p)[0].readers
    ensures k < |p| && p[k] == Access(t, false) && AllReads(p[..k])
  {
    var q, x := p[..|p| - 1], p[|p| - 1];
    VersionsShape(q);
    if q != [] && Versions(q)[0].writer == None && t in Versions(q)[0].readers {
      k := ReaderPlace(q, t);
      assert q[..k] == p[..k];
    } else {
      k := |p| - 1;
      if q != [] {
        NewestUnproduced(q);
      }
    }
  }

  /** An access of `t` in the order is a version that `t` holds. */
  lemma HeldVersion(s: State, h: Shadow, d: Signature, t: Task)
    requires Structure(s, h) && Trash(s, h) && d in h.pend && Occurs(h.pend[d], t)
    ensures exists a :: (a in InsOf(s, t) || a in OutsOf(s, t)) && s.versions[a].signature == d
  {
    hide Versions, Linked;
    VersionsMembers(h.pend[d], t);
    assert DatumOk(s, h, d);
    hide Structure;
    var g, ns := Versions(h.pend[d]), LiveNodes(h, d);
    var i :| 0 <= i < |g| && (t in g[i].readers || g[i].writer == Some(t));
    assert CellMatch(s.versions[ns[i]], g, i, s.released);
    LiveNode(s, h, d, i);
    assert ns[i] in InsOf(s, t) || ns[i] in OutsOf(s, t);
  }

  lemma LiveNode(s: State, h: Shadow, d: Signature, i: nat)
    requires DatumOk(s, h, d) && Trash(s, h) && i < |LiveNodes(h, d)|
    ensures LiveNodes(h, d)[i] in s.versions && s.versions[LiveNodes(h, d)[i]].signature == d
    ensures LiveNodes(h, d)[i] !in s.versionTrashcan
  {
    hide Matches;
    var full, a := h.lists[d], LiveNodes(h, d)[i];
    var k := if d in h.dead && i >= h.dead[d] then i + 1 else i;
    assert full[k] == a;
    assert NodeOk(s.versions, d, s.vaMap[d], full, k);
  }

  /** The version of a running parent's output marks the slot in front of the parent's write. */
  lemma OutputSlot(s: State, h: Shadow, d: Signature, parent: Task, v: Address)
    requires Structure(s, h) && Accesses(s, h) && Trash(s, h) && d !in h.dead
    requires v in OutsOf(s, parent) && s.versions[v].signature == d && parent in s.released
    ensures d in s.vaMap && d in h.lists && d in h.pend && Does(h.pend[d], parent, true)
    ensures var p := h.pend[d]; var k := IndexOf(p, parent); Slot(s, h, d, p[..k], p[k..], v)
  {
    hide Versions, Counts, Holdings, Linked, Matches, Free, Does;
    assert Placed(s, h, v);
    assert DatumOk(s, h, d);
    NotRoot(s, h, v, parent);
    var i := Whereabouts(s, h, v);
    hide Structure, Trash;
    VersionsShape([]);
    assert d in h.pend;
    var p := h.pend[d];
    var k := WriterPlace(p, i, parent);
    assert NoDup(p);
    IndexUnique(p, k);
    assert p[..k] + p[k..] == p;
    DoesAt(p, parent);
  }

  lemma DoesAt(p: seq<Access>, t: Task)
    requires IndexOf(p, t) < |p|
    ensures Does(p, t, p[IndexOf(p, t)].write)
  {
  }

  lemma NotRoot(s: State, h: Shadow, v: Address, t: Task)
    requires Structure(s, h) && v in s.versions && (t in s.versions[v].consumers || s.versions[v].myProducer == Some(t))
    ensures s.versions[v].signature in s.vaMap && v != s.vaMap[s.versions[v].signature]
  {
    hide Matches, Versions;
    assert Placed(s, h, v);
    assert DatumOk(s, h, s.versions[v].signature);
  }

  /** The version of a running parent's input is the produced oldest one. */
  lemma InputSlot(s: State, h: Shadow, d: Signature, parent: Task, v: Address)
    requires Structure(s, h) && Accesses(s, h) && Trash(s, h) && d !in h.dead
    requires v in InsOf(s, parent) && s.versions[v].signature == d && parent in s.released
    ensures d in s.vaMap && d in h.lists && d in h.pend && Does(h.pend[d], parent, false)
    ensures h.lists[d] != [] && v == h.lists[d][0]
    ensures AllReads(h.pend[d][..IndexOf(h.pend[d], parent) + 1])
  {
    hide Versions, Counts, Holdings, Linked, Matches, Does;
    assert Placed(s, h, v);
    assert DatumOk(s, h, d);
    NotRoot(s, h, v, parent);
    var i := Whereabouts(s, h, v);
    hide Structure, Trash;
    VersionsShape([]);
    assert d in h.pend;
    var p := h.pend[d];
    VersionsShape(p);
    assert Free(Versions(p), s.released);
    assert Versions(p)[i].writer.None?;
    var k := ReaderPlace(p, parent);
    assert NoDup(p);
    IndexUnique(p, k);
    DoesAt(p, parent);
    assert p[..k + 1] == p[..k] + [p[k]];
  }

  /** Without a parent involved the slot is the end of the order. */
  lemma EndSlot(s: State, h: Shadow, d: Signature)
    requires Structure(s, h) && h.dead == map[] && d in s.vaMap
    ensures d in h.lists && Slot(s, h, d, Pending(h, d), [], s.vaMap[d])
  {
    hide Versions, Linked;
    assert DatumOk(s, h, d);
    assert Pending(h, d) + [] == Pending(h, d);
  }

  /** What a pending write or read looks like among the versions its task holds. */
  lemma HeldOutput(s: State, h: Shadow, d: Signature, t: Task)
    requires Structure(s, h) && Trash(s, h) && d in h.pend && Does(h.pend[d], t, true)
    ensures exists a :: a in OutsOf(s, t) && s.versions[a].signature == d
  {
    hide Versions, Linked;
    var p := h.pend[d];
    var k := IndexOf(p, t);
    assert p == p[..k] + [Access(t, true)] + p[k + 1..];
    WriteAt(p[..k], t, p[k + 1..]);
    assert DatumOk(s, h, d);
    hide Structure;
    var g, ns, i := Versions(p), LiveNodes(h, d), |Versions(p[..k])|;
    assert CellMatch(s.versions[ns[i]], g, i, s.released);
    LiveNode(s, h, d, i);
    assert ns[i] in OutsOf(s, t);
  }

  lemma HeldInput(s: State, h: Shadow, d: Signature, t: Task)
    requires Structure(s, h) && Trash(s, h) && d in h.pend && NoDup(h.pend[d]) && Does(h.pend[d], t, false)
    ensures exists a :: a in InsOf(s, t) && s.versions[a].signature == d
  {
    hide Versions, Linked;
    var p := h.pend[d];
    assert Occurs(p, t);
    VersionsMembers(p, t);
    assert DatumOk(s, h, d);
    hide Structure;
    var g, ns := Versions(p), LiveNodes(h, d);
    var i :| 0 <= i < |g| && (t in g[i].readers || g[i].writer == Some(t));
    if g[i].writer == Some(t) {
      var k := WriterPlace(p, i, t);
      IndexUnique(p, k);
      assert false;
    }
    assert CellMatch(s.versions[ns[i]], g, i, s.released);
    LiveNode(s, h, d, i);
    assert ns[i] in InsOf(s, t);
  }

  /** What `MapSignature2Deps` finds for a signature: the parent's output version, else, for an
      input, the parent's input version, else the root of the datum. */
  ghost predicate Mapped(s: State, parent: Option<Task>, d: Signature, v: Address, nest: NestType, input: bool) {
    && (parent.Some? ==> parent.value < |s.tasks|)
    && v in s.versions && s.versions[v].signature == d
    && match nest {
         case PARENTOUT => parent.Some? && v in s.tasks[parent.value].outs
         case PARENTIN => input && parent.Some? && v in s.tasks[parent.value].ins
           && NoneOf(s, s.tasks[parent.value].outs, d)
         case DEFAULT =>
           && d in s.vaMap && v == s.vaMap[d]
           && (parent.Some? ==> NoneOf(s, s.tasks[parent.value].outs, d))
           && (parent.Some? && input ==> NoneOf(s, s.tasks[parent.value].ins, d))
       }
  }

  ghost predicate NoneOf(s: State, vs: set<Address>, d: Signature) {
    forall a :: a in vs && a in s.versions ==> s.versions[a].signature != d
  }

  /** `s'` has everything `s` has; only task `t` may hold more. */
  ghost predicate Grown(s: State, s': State, t: Task) {
    && |s'.tasks| == |s.tasks| && s'.released == s.released && s'.versionTrashcan == s.versionTrashcan
    && (forall u :: 0 <= u < |s.tasks| && u != t ==> s'.tasks[u] == s.tasks[u])
    && (forall d :: d in s.vaMap ==> d in s'.vaMap && s'.vaMap[d] == s.vaMap[d])
    && (forall a :: a in s.versions ==> a in s'.versions && s'.versions[a].signature == s.versions[a].signature)
  }

  lemma MappedGrown(s: State, s': State, t: Task, parent: Option<Task>, d: Signature, v: Address, nest: NestType,
      input: bool)
    requires Mapped(s, parent, d, v, nest, input) && Grown(s, s', t) && parent != Some(t)
    requires parent.Some? ==> forall a :: a in s.tasks[parent.value].ins || a in s.tasks[parent.value].outs
                                ==> a in s.versions
    ensures Mapped(s', parent, d, v, nest, input)
  {
  }

  ghost predicate Running(s: State, h: Shadow, parent: Option<Task>) {
    parent.Some? ==> parent.value < |s.tasks| && parent.value in s.released && parent.value !in h.done
  }

  /** The parent's part in the order of `d`, read off the versions it holds. */
  lemma MappedPlace(s: State, h: Shadow, parent: Option<Task>, d: Signature, v: Address, nest: NestType, input: bool)
    requires Core(s, h, {}, {}) && h.dead == map[] && Running(s, h, parent) && Mapped(s, parent, d, v, nest, input)
    ensures d in s.vaMap && d in h.lists
    ensures var p := Pending(h, d);
            match nest {
              case PARENTOUT => Does(p, parent.value, true)
                && Slot(s, h, d, p[..IndexOf(p, parent.value)], p[IndexOf(p, parent.value)..], v)
              case PARENTIN =>
                && Does(p, parent.value, false) && d in h.pend && h.lists[d] != [] && v == h.lists[d][0]
                && AllReads(p[..IndexOf(p, parent.value) + 1])
              case DEFAULT =>
                && Slot(s, h, d, p, [], v)
                && (parent.Some? ==> !Does(p, parent.value, true) && (input ==> !Does(p, parent.value, false)))
            }
  {
    hide Versions, Counts, Does, Slot, AllReads, Structure, Accesses, Trash;
    if parent.Some? {
      assert s.tasks[parent.value].ins == InsOf(s, parent.value)
        && s.tasks[parent.value].outs == OutsOf(s, parent.value);
    }
    match nest {
      case PARENTOUT =>
        OutputSlot(s, h, d, parent.value, v);
      case PARENTIN =>
        InputSlot(s, h, d, parent.value, v);
      case DEFAULT =>
        hide InsOf, OutsOf;
        EndSlot(s, h, d);
        if parent.Some? {
          DoesNot(s, h, d, parent.value);
        }
    }
  }

  lemma DoesNot(s: State, h: Shadow, d: Signature, t: Task)
    requires Structure(s, h) && Trash(s, h) && Accesses(s, h)
    ensures NoneOf(s, OutsOf(s, t), d) ==> !Does(Pending(h, d), t, true)
    ensures NoneOf(s, InsOf(s, t), d) ==> !Does(Pending(h, d), t, false)
  {
    if d in h.pend {
      assert NoDup(h.pend[d]);
      hide Structure, Accesses, Trash, Versions, Free;
      if Does(h.pend[d], t, true) {
        HeldOutput(s, h, d, t);
      }
      if Does(h.pend[d], t, false) {
        HeldInput(s, h, d, t);
      }
    }
  }

  /** One call of `AddProducer` by `onSubmit`. */
  lemma RegisterWrite(s: State, h: Shadow, parent: Option<Task>, d: Signature, v: Address, nest: NestType, t: Task,
      block: Address)
    returns (h': Shadow)
    requires Core(s, h, {}, {}) && h.dead == map[] && Running(s, h, parent) && Mapped(s, parent, d, v, nest, false)
    requires t < |s.tasks| && t !in s.released && t !in h.done && !Occurs(Pending(h, d), t) && block !in s.versions
    ensures Known(s.versions, v) && s.versions[v].last != Some(v)
    ensures Core(AddProducer(s, v, t, block), h', {}, {})
    ensures d in h.lists && h' == h.(lists := h'.lists,
            pend := h.pend[d := Place(Pending(h, d), parent, Access(t, true))])
    ensures h'.lists.Keys == h.lists.Keys && (forall e :: e in h.lists && e != d ==> h'.lists[e] == h.lists[e])
    ensures d in h'.lists && h'.lists[d] != []
  {
    hide Versions, Core, Does, AllReads, Occurs, Core;
    MappedPlace(s, h, parent, d, v, nest, false);
    var p := Pending(h, d);
    var a, b := p, [];
    if nest.PARENTOUT? {
      a, b := p[..IndexOf(p, parent.value)], p[IndexOf(p, parent.value)..];
    }
    assert a + b == p;
    assert a + [Access(t, true)] + b == Place(p, parent, Access(t, true));
    ProducerCore(s, h, d, a, b, v, t, block);
    h' := Updated(h, d, InsertAt(h.lists[d], |Versions(a)|, block), a + [Access(t, true)] + b);
  }

  lemma ConsumerRoots(s: State, v: Address, t: Task, nest: NestType, block: Address)
    requires Known(s.versions, v) && t < |s.tasks| && block !in s.versions
    ensures AddConsumer(s, v, t, nest, block).vaMap == s.vaMap
  {
  }

  /** One call of `AddConsumer` by `onSubmit` on a signature not seen before. */
  lemma RegisterRead(s: State, h: Shadow, parent: Option<Task>, d: Signature, v: Address, nest: NestType, t: Task,
      block: Address)
    returns (h': Shadow)
    requires Core(s, h, {}, {}) && h.dead == map[] && Running(s, h, parent) && Mapped(s, parent, d, v, nest, true)
    requires t < |s.tasks| && t !in s.released && t !in h.done && !Occurs(Pending(h, d), t) && block !in s.versions
    ensures Known(s.versions, v)
    ensures Core(AddConsumer(s, v, t, nest, block), h', {}, {})
    ensures d in h.lists && h' == h.(lists := h'.lists,
            pend := h.pend[d := Place(Pending(h, d), parent, Access(t, false))])
    ensures h'.lists.Keys == h.lists.Keys && (forall e :: e in h.lists && e != d ==> h'.lists[e] == h.lists[e])
    ensures d in h'.lists && h'.lists[d] != []
  {
    hide Versions, Core, Does, AllReads, Occurs, AddConsumer, Running;
    MappedPlace(s, h, parent, d, v, nest, true);
    var p := Pending(h, d);
    if nest.PARENTIN? {
      var k := IndexOf(p, parent.value) + 1;
      DoesRange(p, parent.value, false);
      assert p[..k] + p[k..] == p;
      DoesOnly(p, parent.value);
      assert p[..k] + [Access(t, false)] + p[k..] == Place(p, parent, Access(t, false));
      ParentInCore(s, h, d, p[..k], p[k..], t, block);
      h' := ReadAdded(h, d, p[..k], p[k..], t, block);
    } else {
      var a, b := p, [];
      if nest.PARENTOUT? {
        a, b := p[..IndexOf(p, parent.value)], p[IndexOf(p, parent.value)..];
      }
      assert a + b == p;
      assert a + [Access(t, false)] + b == Place(p, parent, Access(t, false));
      ConsumerCore(s, h, d, a, b, v, t, nest, block);
      h' := ReadAdded(h, d, a, b, t, block);
      ConsumerRoots(s, v, t, nest, block);
      ListFilled(AddConsumer(s, v, t, nest, block), h', d);
    }
  }

  lemma DoesRange(p: seq<Access>, t: Task, w: bool)
    requires Does(p, t, w)
    ensures IndexOf(p, t) < |p|
  {
  }

  lemma DoesOnly(p: seq<Access>, t: Task)
    ensures !(Does(p, t, true) && Does(p, t, false))
  {
  }

  /** A datum with a pending access has a version to show for it. */
  lemma ListFilled(s: State, h: Shadow, d: Signature)
    requires Core(s, h, {}, {}) && d in s.vaMap && d in h.lists && Pending(h, d) != []
    ensures h.lists[d] != []
  {
    hide Versions, Linked;
    assert DatumOk(s, h, d);
    VersionsShape(Pending(h, d));
  }

  lemma IndexInsert(p: seq<Access>, k: nat, x: Access, t: Task)
    requires k <= |p| && x.task != t
    ensures IndexOf(Insert(p, k, x), t) == if IndexOf(p, t) < k then IndexOf(p, t) else IndexOf(p, t) + 1
    ensures IndexOf(p, t) < |p| ==> Insert(p, k, x)[IndexOf(Insert(p, k, x), t)] == p[IndexOf(p, t)]
  {
    var q, i := Insert(p, k, x), IndexOf(p, t);
    var i' := if i < k then i else i + 1;
    assert forall j :: 0 <= j < |q| && j != k ==> q[j] == p[if j < k then j else j - 1];
    assert q[k] == x;
    assert forall j :: 0 <= j < i' ==> q[j].task != t;
    assert i < |p| ==> q[i'] == p[i];
    assert i == |p| ==> i' == |q|;
  }

  /** Where a placed read stands relative to its parent. */
  lemma PlaceIndex(p: seq<Access>, parent: Option<Task>, t: Task)
    requires parent != Some(t)
    ensures var q := Place(p, parent, Access(t, false));
            && (parent.Some? && Does(q, parent.value, true) ==>
                  IndexOf(q, parent.value) > 0 && q[IndexOf(q, parent.value) - 1] == Access(t, false))
            && (parent.Some? && Does(q, parent.value, false) ==>
                  IndexOf(q, parent.value) + 1 < |q| && q[IndexOf(q, parent.value) + 1] == Access(t, false))
            && (parent.None? || (!Does(q, parent.value, true) && !Does(q, parent.value, false)) ==>
                  q == p + [Access(t, false)])
  {
    hide IndexOf;
    var x := Access(t, false);
    if parent.Some? {
      var k := IndexOf(p, parent.value);
      if Does(p, parent.value, true) {
        IndexInsert(p, k, x, parent.value);
      } else if Does(p, parent.value, false) {
        IndexInsert(p, k + 1, x, parent.value);
      } else {
        assert p + [x] == Insert(p, |p|, x);
        IndexInsert(p, |p|, x, parent.value);
      }
    }
  }

  lemma SlotReader(s: State, h: Shadow, d: Signature, a: seq<Access>, t: Task, b: seq<Access>, v: Address)
    requires Structure(s, h) && d in s.vaMap && d in h.lists && Slot(s, h, d, a + [Access(t, false)], b, v)
    ensures Known(s.versions, v) && s.versions[v].last.Some?
    ensures t in s.versions[s.versions[v].last.value].consumers && s.versions[s.versions[v].last.value].signature == d
  {
    hide Versions, Structure;
    var a' := a + [Access(t, false)];
    LastReader(a, t, b);
    NodeAtSlot(s, h, d, |Versions(a')|);
  }

  lemma LastReader(a: seq<Access>, t: Task, b: seq<Access>)
    requires b == [] || b[0].write
    ensures var a' := a + [Access(t, false)];
            && 0 < |Versions(a')| <= |Versions(a' + b)|
            && t in Versions(a' + b)[|Versions(a')| - 1].readers
  {
    VersionsOfAppend(a, Access(t, false));
    VersionsSplit(a + [Access(t, false)], b);
  }

  lemma NodeAtSlot(s: State, h: Shadow, d: Signature, i: nat)
    requires Structure(s, h) && d in s.vaMap && d in h.lists && d !in h.dead && 0 < i <= |h.lists[d]|
    ensures |h.lists[d]| == |Versions(Pending(h, d))|
    ensures var v := Owner(h.lists[d], s.vaMap[d], i);
            && Known(s.versions, v) && s.versions[v].last == Some(h.lists[d][i - 1])
            && s.versions[h.lists[d][i - 1]].signature == d
            && CellMatch(s.versions[h.lists[d][i - 1]], Versions(Pending(h, d)), i - 1, s.released)
  {
    hide Versions;
    assert DatumOk(s, h, d);
    hide Structure;
    OwnerLinks(s.versions, d, s.vaMap[d], h.lists[d], i);
    assert NodeOk(s.versions, d, s.vaMap[d], h.lists[d], i - 1);
  }

  lemma OldestReader(s: State, h: Shadow, d: Signature, a: seq<Access>, t: Task, b: seq<Access>)
    requires Structure(s, h) && d in s.vaMap && d in h.lists && d !in h.dead
             && Pending(h, d) == a + [Access(t, false)] + b
    requires AllReads(a) && NoDup(Pending(h, d)) && h.lists[d] != []
    ensures h.lists[d][0] in s.versions && t in s.versions[h.lists[d][0]].consumers
  {
    ConsumeIsRemoval(a, t, b);
    hide Versions, Linked;
    assert DatumOk(s, h, d);
    assert CellMatch(s.versions[h.lists[d][0]], Versions(Pending(h, d)), 0, s.released);
  }

  lemma RepeatOldest(s: State, h: Shadow, d: Signature, k: nat, v: Address, t: Task, block: Address)
    requires Core(s, h, {}, {}) && h.dead == map[] && d in s.vaMap && d in h.lists && d in h.pend
    requires t < |s.tasks| && t !in s.released && t !in h.done && block !in s.versions
    requires h.lists[d] != [] && v == h.lists[d][0]
    requires 0 < k < |h.pend[d]| && AllReads(h.pend[d][..k]) && h.pend[d][k] == Access(t, false)
    ensures Known(s.versions, v) && |h.surplus| == |s.tasks|
    ensures Core(AddConsumer(s, v, t, PARENTIN, block),
                 h.(surplus := h.surplus[t := h.surplus[t] + One(Blocked(h.pend[d], t))]), {}, {})
  {
    hide Versions, Counts, Holdings, Trash, AllReads, Blocked, NoDup, Accesses, Structure;
    var q := h.pend[d];
    AccessesNoDup(s, h, d);
    assert q == q[..k] + [Access(t, false)] + q[k + 1..];
    assert q[..k] + q[k..] == q;
    OldestReader(s, h, d, q[..k], t, q[k + 1..]);
    ParentInTarget(s, h, d, q[..k], q[k..]);
    NotTrash(s, h, v);
    FrontNotBlocked(q[..k], t, q[k + 1..]);
    hide Core;
    RepeatCore(s, h, v, t, PARENTIN, block);
  }

  lemma RepeatNewest(s: State, h: Shadow, d: Signature, k: nat, v: Address, t: Task, nest: NestType, block: Address)
    requires Core(s, h, {}, {}) && h.dead == map[] && d in s.vaMap && d in h.lists && d in h.pend && !nest.PARENTIN?
    requires t < |s.tasks| && t !in s.released && t !in h.done && block !in s.versions
    requires 0 < k <= |h.pend[d]| && h.pend[d][k - 1] == Access(t, false)
    requires Slot(s, h, d, h.pend[d][..k], h.pend[d][k..], v)
    ensures Known(s.versions, v) && |h.surplus| == |s.tasks|
    ensures Core(AddConsumer(s, v, t, nest, block),
                 h.(surplus := h.surplus[t := h.surplus[t] + One(Blocked(h.pend[d], t))]), {}, {})
  {
    hide Versions, Counts, Holdings, Trash, AllReads, Blocked, NoDup, Accesses, Structure;
    var q := h.pend[d];
    AccessesNoDup(s, h, d);
    assert q[..k] == q[..k - 1] + [Access(t, false)];
    SlotReader(s, h, d, q[..k - 1], t, q[k..], v);
    SlotLast(s, h, d, q[..k], q[k..], v);
    NotTrash(s, h, s.versions[v].last.value);
    SlotBlocked(q, k, t);
    hide Core, Slot;
    RepeatCore(s, h, v, t, nest, block);
  }

  /** One call of `AddConsumer` by `onSubmit` on a signature that was already registered: the count
      goes up once more exactly when the task is waiting for that datum. */
  lemma RegisterRepeat(s: State, h: Shadow, parent: Option<Task>, d: Signature, v: Address, nest: NestType, t: Task,
                       block: Address, p: seq<Access>)
    requires Core(s, h, {}, {}) && h.dead == map[] && Running(s, h, parent) && Mapped(s, parent, d, v, nest, true)
    requires t < |s.tasks| && t !in s.released && t !in h.done && block !in s.versions && parent != Some(t)
    requires d in h.pend && h.pend[d] == Place(p, parent, Access(t, false))
    ensures Known(s.versions, v) && |h.surplus| == |s.tasks|
    ensures Core(AddConsumer(s, v, t, nest, block),
                 h.(surplus := h.surplus[t := h.surplus[t] + One(Blocked(h.pend[d], t))]), {}, {})
  {
    hide Versions, AllReads, Occurs, Blocked, Does, Core, Slot;
    var q := h.pend[d];
    MappedPlace(s, h, parent, d, v, nest, true);
    PlaceIndex(p, parent, t);
    if nest.PARENTIN? {
      RepeatOldest(s, h, d, IndexOf(q, parent.value) + 1, v, t, block);
    } else {
      var k := if nest.PARENTOUT? then IndexOf(q, parent.value) else |q|;
      if !nest.PARENTOUT? {
        assert q == p + [Access(t, false)];
        assert q[|q| - 1] == Access(t, false);
        assert q[..k] == q && q[k..] == [];
      }
      RepeatNewest(s, h, d, k, v, t, nest, block);
    }
  }

  lemma FrontNotBlocked(a: seq<Access>, t: Task, b: seq<Access>)
    requires AllReads(a) && NoDup(a + [Access(t, false)] + b)
    ensures !Blocked(a + [Access(t, false)] + b, t)
  {
    var p := a + [Access(t, false)] + b;
    assert p[|a|].task == t;
    forall j, k | 0 <= j < k < |p| && p[k].task == t ensures !Conflict(p[j], p[k]) {
      assert k == |a|;
      assert p[j] == a[j];
    }
  }

  lemma SlotBlocked(q: seq<Access>, k: nat, t: Task)
    requires 0 < k <= |q| && q[k - 1] == Access(t, false) && NoDup(q)
    ensures Blocked(q, t) <==> !AllReads(q[..k])
  {
    if !AllReads(q[..k]) {
      var j :| 0 <= j < k && q[..k][j].write;
      assert q[j].write && Conflict(q[j], q[k - 1]);
    }
    if Blocked(q, t) {
      var j, i :| 0 <= j < i < |q| && q[i].task == t && Conflict(q[j], q[i]);
      assert i == k - 1;
      assert q[..k][j].write;
    }
  }

  // ----- finishing

  /** The child versions a finishing parent leaves behind can be merged: the newest one in front of
      its own version, if any, is still unproduced. */
  ghost predicate Mergeable(p: seq<Access>, t: Task) {
    Does(p, t, true) ==> IndexOf(p, t) == 0 || !AllReads(p[..IndexOf(p, t)])
  }

  ghost predicate FinishedIn(s: State, h: Shadow, s': State, h': Shadow, d: Signature, t: Task)
    requires t < |s.tasks|
  {
    && d in h.pend && h' == h.(pend := h.pend[d := Without(h.pend[d], t)], dead := h'.dead)
    && h'.dead.Keys <= h.dead.Keys + {d}
    && Core(s', h', {}, {t})
    && s.released <= s'.released && |s'.tasks| == |s.tasks|
    && s'.tasks[t].ins == s.tasks[t].ins && s'.tasks[t].outs == s.tasks[t].outs
    && s'.vaMap == s.vaMap
  }

  /** A version of a finishing producer: everything `onProduced` may touch is there. */
  lemma FinishReady(s: State, h: Shadow, d: Signature, t: Task, v: Address)
    requires Core(s, h, {}, {t}) && d !in h.dead && v in OutsOf(s, t) && s.versions[v].signature == d && t in s.released
    requires t < |s.tasks|
    ensures d in h.pend && Does(h.pend[d], t, true) && d in s.vaMap && d in h.lists
    ensures var k := IndexOf(h.pend[d], t);
            Mergeable(h.pend[d], t) ==> Producing(s, h, d, h.pend[d][..k], t, h.pend[d][k + 1..], v)
  {
    hide Versions, Counts, Holdings, Structure, Trash, Accesses, InsOf;
    OutputSlot(s, h, d, t, v);
    var p, k := h.pend[d], IndexOf(h.pend[d], t);
    assert p == p[..k] + [Access(t, true)] + p[k + 1..];
    OutputListed(s, h, v, t);
  }

  lemma OutputListed(s: State, h: Shadow, v: Address, t: Task)
    requires Structure(s, h) && v in s.versions && s.versions[v].myProducer == Some(t)
    ensures var d := s.versions[v].signature; d in s.vaMap && v != s.vaMap[d]
  {
    NotRoot(s, h, v, t);
  }

  lemma FinishUnread(s: State, h: Shadow, d: Signature, t: Task, b: seq<Access>, v: Address) returns (h': Shadow)
    requires Core(s, h, {}, {t}) && t < |s.tasks| && Producing(s, h, d, [], t, b, v) && v in s.versions
             && s.versions[v].consumers == {}
    ensures CanProduce(s, v) && !Merges(s.versions, v)
    ensures FinishedIn(s, h, OnProduced(s, v), h', d, t)
    ensures InsOf(OnProduced(s, v), t) == InsOf(s, t) && OutsOf(OnProduced(s, v), t) == OutsOf(s, t) - {v}
    ensures Unblocked(s, OnProduced(s, v), h')
  {
    hide Versions, Core, InsOf, OutsOf, DepSet;
    FinishUnreadUse(s, h, d, t, b, v);
    RetiredCore(s, h, d, [], Access(t, true), b, v);
    var s1 := Retired(Unread(s, v, t), v);
    assert s.versions[v].consumers - {t} == s.versions[v].consumers;
    assert Unread(s, v, t) == s;
    h' := Buried(h, d, 0, [] + b);
    NotifyCore(s1, h', Next(s.versions[v]), {t});
    var s2 := Retire(s, v);
    WaitCore(s2, NotifyDataWaitTask(s2, v), h', v, d, {t});
    SameHoldings(s1, s2, t);
    assert InsOf(s, t) - {v} == InsOf(s, t) by {
      NotAReader(s, v, t);
    }
  }

  lemma NotAReader(s: State, v: Address, t: Task)
    requires v in s.versions ==> t !in s.versions[v].consumers
    ensures v !in InsOf(s, t)
  {
  }

  lemma SameHoldings(s: State, s': State, t: Task)
    requires s'.versions == s.versions && s'.versionTrashcan == s.versionTrashcan
    ensures InsOf(s', t) == InsOf(s, t) && OutsOf(s', t) == OutsOf(s, t)
  {
  }

  /** Whoever became ready in this step waits for nothing. */
  ghost predicate Unblocked(s: State, s': State, h': Shadow) {
    forall u :: u in s'.released && u !in s.released ==>
      u < |h'.surplus| && DepSet(h'.pend, u) == {} && h'.surplus[u] == 0
  }

  lemma FinishUnreadUse(s: State, h: Shadow, d: Signature, t: Task, b: seq<Access>, v: Address)
    requires Core(s, h, {}, {t}) && t < |s.tasks| && Producing(s, h, d, [], t, b, v) && v in s.versions
             && s.versions[v].consumers == {}
    ensures LastUse(s, h, d, [], Access(t, true), b, v)
    ensures Known(s.versions, v) && s.versions[v].last == None && s.versions[v].signature == d && v != s.vaMap[d]
    ensures Without(h.pend[d], t) == [] + b && d in h.pend
  {
    hide Versions, Structure, Counts, Accesses, Holdings, Trash;
    ProducingNode(s, h, d, [], t, b, v);
    ProduceIsRemoval([], t, b);
    VersionsShape([]);
    var p := h.pend[d];
    assert p[0] == Access(t, true) && IndexOf(p, t) == 0;
    assert p[..0] + p[1..] == [] + b;
  }

  lemma FinishReadied(s: State, h: Shadow, d: Signature, t: Task, b: seq<Access>, v: Address) returns (h': Shadow)
    requires Core(s, h, {}, {t}) && t < |s.tasks| && Producing(s, h, d, [], t, b, v) && v in s.versions
             && s.versions[v].consumers != {}
    ensures Known(s.versions, v) && !Merges(s.versions, v) && Owed(s, s.versions[v].consumers)
    ensures var s' := NotifyDataWaitTask(MakeReady(s, v), v);
            && FinishedIn(s, h, s', h', d, t)
            && InsOf(s', t) == InsOf(s, t) && OutsOf(s', t) == OutsOf(s, t) - {v}
            && Unblocked(s, s', h')
  {
    hide Versions, Core, InsOf, OutsOf, DepSet;
    FinishReadiedUse(s, h, d, t, b, v);
    ReadiedCore(s, h, d, t, b, v);
    h' := h.(pend := h.pend[d := b]);
    var s1 := Readied(s, v);
    NotifyCore(s1, h', s.versions[v].consumers, {t});
    var s2 := MakeReady(s, v);
    WaitCore(s2, NotifyDataWaitTask(s2, v), h', v, d, {t});
    SameHoldings(s1, s2, t);
    ReadiedSets(s, v, t);
  }

  lemma ReadiedSets(s: State, v: Address, t: Task)
    requires v in s.versions
    ensures InsOf(Readied(s, v), t) == InsOf(s, t) && OutsOf(Readied(s, v), t) == OutsOf(s, t) - {v}
  {
  }

  lemma FinishReadiedUse(s: State, h: Shadow, d: Signature, t: Task, b: seq<Access>, v: Address)
    requires Core(s, h, {}, {t}) && t < |s.tasks| && Producing(s, h, d, [], t, b, v)
    ensures Known(s.versions, v) && s.versions[v].last == None && s.versions[v].signature == d && v != s.vaMap[d]
    ensures Without(h.pend[d], t) == b && d in h.pend
  {
    hide Versions, Structure, Counts, Accesses, Holdings, Trash;
    ProducingNode(s, h, d, [], t, b, v);
    VersionsShape([]);
    var p := h.pend[d];
    assert p[0] == Access(t, true) && IndexOf(p, t) == 0;
    assert p[..0] + p[1..] == b;
  }

  /** A task that waits for a datum has a reference that the step in progress can take back. */
  lemma BlockedOwed(s: State, h: Shadow, d: Signature, u: Task)
    requires Counts(s, h, {}) && d in h.pend && CellBlocked(Versions(h.pend[d]), u) && u < |s.tasks| && u !in s.released
    ensures s.tasks[u].submitDep > 0
  {
    hide Versions;
    assert d in DepSet(h.pend, u);
  }

  lemma ProducingCan(s: State, h: Shadow, d: Signature, a: seq<Access>, t: Task, b: seq<Access>, v: Address)
    requires Core(s, h, {}, {t}) && Producing(s, h, d, a, t, b, v)
    ensures CanProduce(s, v)
  {
    hide Versions, Structure, Counts, Holdings, Trash, Linked, NoDup;
    ProducingNode(s, h, d, a, t, b, v);
    var g, i, p := Versions(h.pend[d]), |Versions(a)|, h.pend[d];
    assert Free(g, s.released);
    forall u | u in g[i].readers || u in Next(s.versions[v]) ensures u < |s.tasks| && s.tasks[u].submitDep > 0 {
      assert u in g[i].readers ==> u !in s.released && CellBlocked(g, u);
      assert u !in g[i].readers ==> g[i + 1].writer == Some(u) && u !in s.released && CellBlocked(g, u);
      VersionsMembers(p, u);
      assert InVersions(g, u);
      BlockedOwed(s, h, d, u);
    }
    hide Free;
    if a != [] {
      MergingNode(s, h, d, a, t, b, v);
    }
  }

  lemma FinishMerged(s: State, h: Shadow, d: Signature, a: seq<Access>, t: Task, b: seq<Access>, v: Address)
      returns (h': Shadow)
    requires Core(s, h, {}, {t}) && t < |s.tasks| && Producing(s, h, d, a, t, b, v) && a != []
    requires CanProduce(s, v) && Without(h.pend[d], t) == a + b
    ensures FinishedIn(s, h, OnProduced(s, v), h', d, t)
    ensures InsOf(OnProduced(s, v), t) == InsOf(s, t) && OutsOf(OnProduced(s, v), t) == OutsOf(s, t) - {v}
    ensures Unblocked(s, OnProduced(s, v), h')
  {
    hide Versions, Core, InsOf, OutsOf, DepSet;
    MergedCore(s, h, d, a, t, b, v);
    var c := h.lists[d][|Versions(a)| - 1];
    MergedSelf(s, h, d, a, t, b, v);
    MergedTasks(s, v, c);
    h' := Buried(h, d, |Versions(a)| - 1, a + b);
  }

  lemma MergedSelf(s: State, h: Shadow, d: Signature, a: seq<Access>, t: Task, b: seq<Access>, v: Address)
    requires Core(s, h, {}, {t}) && t < |s.tasks| && Producing(s, h, d, a, t, b, v) && a != []
    ensures var i := |Versions(a)|;
            && i > 0 && v in s.versions && h.lists[d][i - 1] in s.versions
            && s.versions[h.lists[d][i - 1]].myProducer.Some?
            && s.versions[h.lists[d][i - 1]].myProducer.value < |s.tasks|
            && var s' := MergeIdle(s, v, h.lists[d][i - 1]);
               && |s'.tasks| == |s.tasks|
               && s'.tasks[t].ins == s.tasks[t].ins && s'.tasks[t].outs == s.tasks[t].outs
  {
    hide Versions, Structure, Counts, Holdings, Trash, Linked, Matches, Accesses, MergeIdle, NoDup;
    ProducingNode(s, h, d, a, t, b, v);
    MergingNode(s, h, d, a, t, b, v);
    MergeSpares(s, v, h.lists[d][|Versions(a)| - 1], t);
  }

  lemma MergeSpares(s: State, v: Address, c: Address, t: Task)
    requires v in s.versions && c in s.versions && t < |s.tasks|
    requires s.versions[c].myProducer.Some? && s.versions[c].myProducer.value < |s.tasks|
    requires s.versions[c].myProducer != Some(t) && t !in s.versions[c].consumers
    ensures |MergeIdle(s, v, c).tasks| == |s.tasks| && MergeIdle(s, v, c).tasks[t] == s.tasks[t]
  {
  }

  /** `onProduced` of a finishing task: exactly its write leaves the order of the datum, exactly the
      tasks left without anything to wait for become ready. */
  lemma FinishWrite(s: State, h: Shadow, d: Signature, t: Task, v: Address) returns (h': Shadow)
    requires Core(s, h, {}, {t}) && d !in h.dead && v in OutsOf(s, t) && s.versions[v].signature == d && t in s.released
    requires t < |s.tasks| && Mergeable(Pending(h, d), t)
    ensures CanProduce(s, v)
    ensures FinishedIn(s, h, OnProduced(s, v), h', d, t)
    ensures InsOf(OnProduced(s, v), t) == InsOf(s, t) && OutsOf(OnProduced(s, v), t) == OutsOf(s, t) - {v}
    ensures Unblocked(s, OnProduced(s, v), h')
  {
    hide Versions, Core, Mergeable, DepSet;
    FinishReady(s, h, d, t, v);
    var p, k := h.pend[d], IndexOf(h.pend[d], t);
    var a, b := p[..k], p[k + 1..];
    assert v in s.versions;
    hide OutsOf, InsOf;
    ProducingCan(s, h, d, a, t, b, v);
    if a == [] {
      if s.versions[v].consumers == {} {
        h' := FinishUnread(s, h, d, t, b, v);
      } else {
        h' := FinishReadied(s, h, d, t, b, v);
      }
    } else {
      h' := FinishMerged(s, h, d, a, t, b, v);
    }
  }

  /** `onConsumed` of a finishing task: exactly its read leaves the order of the datum. */
  lemma FinishRead(s: State, h: Shadow, d: Signature, t: Task, v: Address) returns (h': Shadow)
    requires Core(s, h, {}, {t}) && d !in h.dead && v in InsOf(s, t) && s.versions[v].signature == d && t in s.released
    requires t < |s.tasks|
    ensures v in s.versions && Owed(s, Next(s.versions[v])) && !s.versions[v].status.IDLE?
    ensures FinishedIn(s, h, OnConsumed(s, v, t), h', d, t)
    ensures InsOf(OnConsumed(s, v, t), t) == InsOf(s, t) - {v} && OutsOf(OnConsumed(s, v, t), t) == OutsOf(s, t) - {v}
    ensures Unblocked(s, OnConsumed(s, v, t), h')
  {
    hide Versions, Core, DepSet, AllReads;
    assert v in s.versions;
    FinishReadUse(s, h, d, t, v);
    hide InsOf, OutsOf;
    var p, k := h.pend[d], IndexOf(h.pend[d], t);
    var a, b := p[..k], p[k + 1..];
    if s.versions[v].consumers - {t} == {} {
      RetiredCore(s, h, d, a, Access(t, false), b, v);
      h' := Buried(h, d, 0, a + b);
      var s1 := Retired(Unread(s, v, t), v);
      NotifyCore(s1, h', Next(s.versions[v]), {t});
      SameHoldings(s1, DecDepRefs(s1, Next(s.versions[v])), t);
    } else {
      assert s.versions[v].consumers != {t};
      UnreadCore(s, h, d, a, t, b, v);
      h' := h.(pend := h.pend[d := a + b]);
      NotAProducer(s, v, t);
    }
  }

  lemma NotAProducer(s: State, v: Address, t: Task)
    requires v in s.versions && !s.versions[v].status.IDLE?
    ensures OutsOf(s, t) - {v} == OutsOf(s, t)
  {
  }

  lemma FinishReadUse(s: State, h: Shadow, d: Signature, t: Task, v: Address)
    requires Core(s, h, {}, {t}) && d !in h.dead && v in InsOf(s, t) && s.versions[v].signature == d && t in s.released
    requires t < |s.tasks|
    ensures d in s.vaMap && d in h.lists && d in h.pend && h.lists[d] != [] && v == h.lists[d][0]
    ensures var p, k := h.pend[d], IndexOf(h.pend[d], t);
            && k < |p| && p == p[..k] + [Access(t, false)] + p[k + 1..] && AllReads(p[..k])
            && Without(p, t) == p[..k] + p[k + 1..]
            && (s.versions[v].consumers - {t} == {} ==> LastUse(s, h, d, p[..k], Access(t, false), p[k + 1..], v))
    ensures Owed(s, Next(s.versions[v])) && !s.versions[v].status.IDLE?
  {
    hide Versions, Structure, Counts, Holdings, Trash;
    InputSlot(s, h, d, t, v);
    hide InsOf;
    var p, k := h.pend[d], IndexOf(h.pend[d], t);
    DoesRange(p, t, false);
    assert p[k] == Access(t, false);
    assert p == p[..k] + [Access(t, false)] + p[k + 1..];
    assert forall j :: 0 <= j < k ==> p[..k][j] == p[..k + 1][j];
    assert NoDup(p);
    hide Accesses;
    OldestNode(s, h, d);
    ConsumeIsRemoval(p[..k], t, p[k + 1..]);
    NextOwed(s, h, d, v);
  }

  lemma NextOwed(s: State, h: Shadow, d: Signature, v: Address)
    requires Core(s, h, {}, {}) || exists t :: Core(s, h, {}, {t})
    requires d in h.pend && v in s.versions && Versions(h.pend[d]) != []
    requires CellMatch(s.versions[v], Versions(h.pend[d]), 0, s.released)
    ensures Owed(s, Next(s.versions[v]))
  {
    hide Versions, Structure, Holdings, Trash, Free;
    var g := Versions(h.pend[d]);
    forall u | u in Next(s.versions[v]) ensures u < |s.tasks| && s.tasks[u].submitDep > 0 {
      assert g[1].writer == Some(u) && u !in s.released && CellBlocked(g, u);
      VersionsMembers(h.pend[d], u);
      assert InVersions(g, u);
      BlockedOwed(s, h, d, u);
    }
  }
}
