/** The doubly linked list of versions that the dependence manager keeps for every datum.

    Memory is a map from addresses to version records, so using a record requires proof that it
    is allocated. The list of a datum runs from its oldest version to its root record; the
    versions made by the children of a task stand directly in front of that task's own version:
    v1 - v2.1 - v2.2 - v2 - v3 - root. */
module VersionList {
  import opened Wrappers
  import opened AccessOrder

  type Address = nat
  type Signature = nat

  datatype Status = IDLE | READY | CONSUMED

  datatype Version = Version(
    signature: Signature,
    next: Option<Address>,
    last: Option<Address>,
    consumers: set<Task>,
    myProducer: Option<Task>,
    nextProducer: Option<Task>,
    status: Status,
    dataWaitTaskByThis: seq<Task>)

  type Memory = map<Address, Version>

  function NewVersion(sig: Signature, next: Option<Address>, last: Option<Address>, status: Status): Version {
    Version(sig, next, last, {}, None, None, status, [])
  }

  /** `VersionCtx::CreateChildVersion`: a new newest child of `v`, directly in front of it. */
  function CreateChild(m: Memory, v: Address, child: Address, status: Status): Memory
    requires v in m && child !in m && (m[v].last.Some? ==> m[v].last.value in m)
  {
    var prev := m[v].last;
    var m1 := m[v := m[v].(last := Some(child))];
    var m2 := if prev.Some? then m1[prev.value := m1[prev.value].(next := Some(child))] else m1;
    m2[child := NewVersion(m[v].signature, Some(v), prev, status)]
  }

  /** The unlinking done by `Entity::RecycleVersion`, ending with the release of `c`. */
  function Unlink(m: Memory, c: Address): Memory
    requires c in m && m[c].next.Some? && m[c].next.value in m
    requires m[c].last.Some? ==> m[c].last.value in m
  {
    var n := m[c].next.value;
    var m1 := m[n := m[n].(last := m[c].last)];
    var m2 := if m[c].last.Some? then m1[m[c].last.value := m1[m[c].last.value].(next := Some(n))] else m1;
    m2 - {c}
  }

  ghost predicate Distinct(s: seq<Address>) {
    forall i, j :: 0 <= i < j < |s| ==> s[i] != s[j]
  }

  function Succ(full: seq<Address>, root: Address, i: nat): Address
    requires i < |full|
  {
    if i + 1 < |full| then full[i + 1] else root
  }

  function Pred(full: seq<Address>, i: nat): Option<Address>
    requires i <= |full|
  {
    if i == 0 then None else Some(full[i - 1])
  }

  ghost predicate NodeOk(m: Memory, sig: Signature, root: Address, full: seq<Address>, i: nat)
    requires i < |full|
  {
    && full[i] in m
    && full[i] != root
    && m[full[i]].signature == sig
    && m[full[i]].next == Some(Succ(full, root, i))
    && m[full[i]].last == Pred(full, i)
  }

  ghost predicate Linked(m: Memory, sig: Signature, root: Address, full: seq<Address>) {
    && root in m
    && m[root] == NewVersion(sig, None, Pred(full, |full|), IDLE)
    && Distinct(full)
    && forall i :: 0 <= i < |full| ==> NodeOk(m, sig, root, full, i)
  }

  /** Only the links and the signature of the listed records matter. */
  ghost predicate SameLinks(m: Memory, m': Memory, full: seq<Address>) {
    forall i :: 0 <= i < |full| && full[i] in m ==>
      && full[i] in m'
      && m'[full[i]].signature == m[full[i]].signature
      && m'[full[i]].next == m[full[i]].next
      && m'[full[i]].last == m[full[i]].last
  }

  lemma LinkedFrame(m: Memory, m': Memory, sig: Signature, root: Address, full: seq<Address>)
    requires Linked(m, sig, root, full)
    requires SameLinks(m, m', full)
    requires root in m' && m'[root] == m[root]
    ensures Linked(m', sig, root, full)
  {
    forall i | 0 <= i < |full| ensures NodeOk(m', sig, root, full, i) {
      assert NodeOk(m, sig, root, full, i);
    }
  }

  function InsertAt(full: seq<Address>, i: nat, a: Address): seq<Address>
    requires i <= |full|
  {
    full[..i] + [a] + full[i..]
  }

  function RemoveAt<T>(full: seq<T>, i: nat): seq<T>
    requires i < |full|
  {
    full[..i] + full[i + 1..]
  }

  function Owner(full: seq<Address>, root: Address, i: nat): Address
    requires i <= |full|
  {
    if i < |full| then full[i] else root
  }

  /** A child of the version at position `i` (the root has position `|full|`) lands at position `i`. */
  lemma InsertLinked(m: Memory, sig: Signature, root: Address, full: seq<Address>, i: nat, a: Address, st: Status)
    requires Linked(m, sig, root, full) && i <= |full| && a !in m
    ensures Owner(full, root, i) in m && m[Owner(full, root, i)].last == Pred(full, i)
    ensures i > 0 ==> full[i - 1] in m
    ensures Linked(CreateChild(m, Owner(full, root, i), a, st), sig, root, InsertAt(full, i, a))
  {
    var v := Owner(full, root, i);
    assert i < |full| ==> NodeOk(m, sig, root, full, i);
    assert i > 0 ==> NodeOk(m, sig, root, full, i - 1);
    var m' := CreateChild(m, v, a, st);
    var full' := InsertAt(full, i, a);
    InsertedThere(m, sig, root, full, i, a, st);
    forall k | 0 <= k < |full'| ensures NodeOk(m', sig, root, full', k) {
      hide NodeOk, Linked;
      if k < i {
        InsertedBefore(m, sig, root, full, i, a, st, k);
      } else if k > i {
        InsertedBehind(m, sig, root, full, i, a, st, k - 1);
      }
    }
    forall k | 0 <= k < |full| ensures full[k] in m {
      assert NodeOk(m, sig, root, full, k);
    }
    InsertDistinct(m, full, i, a);
    hide InsertAt, Distinct, NodeOk;
  }

  lemma InsertedThere(m: Memory, sig: Signature, root: Address, full: seq<Address>, i: nat, a: Address, st: Status)
    requires Linked(m, sig, root, full) && i <= |full| && a !in m
    requires var v := Owner(full, root, i); v in m && m[v].last == Pred(full, i) && (i > 0 ==> full[i - 1] in m)
    ensures NodeOk(CreateChild(m, Owner(full, root, i), a, st), sig, root, InsertAt(full, i, a), i)
    ensures var m' := CreateChild(m, Owner(full, root, i), a, st);
            root in m' && m'[root] == NewVersion(sig, None, Pred(InsertAt(full, i, a), |full| + 1), IDLE)
  {
    assert i < |full| ==> NodeOk(m, sig, root, full, i);
    assert i > 0 ==> NodeOk(m, sig, root, full, i - 1);
    assert |full| > 0 ==> NodeOk(m, sig, root, full, |full| - 1);
    var full' := InsertAt(full, i, a);
    assert full'[i] == a && (i > 0 ==> full'[i - 1] == full[i - 1]) && (i < |full| ==> full'[i + 1] == full[i]);
    assert i < |full| ==> full'[|full|] == full[|full| - 1];
    hide InsertAt, Linked;
  }

  lemma InsertDistinct(m: Memory, full: seq<Address>, i: nat, a: Address)
    requires Distinct(full) && i <= |full| && a !in m && forall k :: 0 <= k < |full| ==> full[k] in m
    ensures Distinct(InsertAt(full, i, a))
  {
    var full' := InsertAt(full, i, a);
    assert forall k :: 0 <= k < |full'| && k != i ==> full'[k] == full[if k < i then k else k - 1];
  }

  lemma InsertedBefore(m: Memory, sig: Signature, root: Address, full: seq<Address>, i: nat, a: Address, st: Status,
      k: nat)
    requires Linked(m, sig, root, full) && k < i <= |full| && a !in m
    requires var v := Owner(full, root, i); v in m && m[v].last == Pred(full, i) && full[i - 1] in m
    ensures NodeOk(CreateChild(m, Owner(full, root, i), a, st), sig, root, InsertAt(full, i, a), k)
  {
    assert NodeOk(m, sig, root, full, k);
    assert InsertAt(full, i, a)[k] == full[k];
    assert k > 0 ==> InsertAt(full, i, a)[k - 1] == full[k - 1];
    assert k + 1 < i ==> InsertAt(full, i, a)[k + 1] == full[k + 1];
    hide Linked, InsertAt;
  }

  lemma InsertedBehind(m: Memory, sig: Signature, root: Address, full: seq<Address>, i: nat, a: Address, st: Status,
      k: nat)
    requires Linked(m, sig, root, full) && i <= k < |full| && a !in m
    requires var v := Owner(full, root, i); v in m && m[v].last == Pred(full, i) && (i > 0 ==> full[i - 1] in m)
    ensures NodeOk(CreateChild(m, Owner(full, root, i), a, st), sig, root, InsertAt(full, i, a), k + 1)
  {
    assert NodeOk(m, sig, root, full, k);
    assert InsertAt(full, i, a)[k + 1] == full[k];
    assert k > i ==> InsertAt(full, i, a)[k] == full[k - 1];
    assert k + 1 < |full| ==> InsertAt(full, i, a)[k + 2] == full[k + 1];
    assert Distinct(full);
    hide Linked, InsertAt;
  }

  /** Unlinking any listed version leaves the list without it. */
  lemma UnlinkLinked(m: Memory, sig: Signature, root: Address, full: seq<Address>, i: nat)
    requires Linked(m, sig, root, full) && i < |full|
    ensures full[i] in m && m[full[i]].next == Some(Succ(full, root, i)) && Succ(full, root, i) in m
    ensures Succ(full, root, i) != full[i]
    ensures m[full[i]].last == Pred(full, i) && (i > 0 ==> full[i - 1] in m)
    ensures Linked(Unlink(m, full[i]), sig, root, RemoveAt(full, i))
  {
    assert forall k :: 0 <= k < |full| ==> NodeOk(m, sig, root, full, k);
    assert NodeOk(m, sig, root, full, i);
    assert i + 1 < |full| ==> NodeOk(m, sig, root, full, i + 1);
    assert i > 0 ==> NodeOk(m, sig, root, full, i - 1);
    var m' := Unlink(m, full[i]);
    var full' := RemoveAt(full, i);
    assert forall k :: 0 <= k < i ==> full'[k] == full[k];
    assert forall k :: i <= k < |full'| ==> full'[k] == full[k + 1];
    forall k | 0 <= k < |full'| ensures NodeOk(m', sig, root, full', k) {
      if k < i {
        assert NodeOk(m, sig, root, full, k);
      } else {
        assert NodeOk(m, sig, root, full, k + 1);
      }
    }
  }
}
