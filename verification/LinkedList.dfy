/** The intrusive circular list that run queues and waiter lists are made of. A list is a ring of nodes that
    starts with its head node; what is in the list are the other nodes. */
module LinkedList {
  function Next(i: nat, n: nat): nat
    requires i < n
  {
    if i + 1 < n then i + 1 else 0
  }

  function Prev(i: nat, n: nat): nat
    requires i < n
  {
    if i > 0 then i - 1 else n - 1
  }

  ghost predicate Distinct(r: seq<LinkedList>) {
    forall i, j :: 0 <= i < j < |r| ==> r[i] != r[j]
  }

  ghost predicate Ring(r: seq<LinkedList>)
    reads r
  {
    |r| > 0 && Distinct(r) && forall i :: 0 <= i < |r| ==> Linked(r, i)
  }

  ghost predicate Linked(r: seq<LinkedList>, i: nat)
    requires i < |r|
    reads r
  {
    r[i].next == r[Next(i, |r|)] && r[i].prev == r[Prev(i, |r|)]
  }

  /** `c` is linked from its first to its last node; the links at its ends do not matter. */
  ghost predicate Chain(c: seq<LinkedList>)
    reads c
  {
    |c| > 0 && Distinct(c) && forall i :: 0 < i < |c| ==> c[i - 1].next == c[i] && c[i].prev == c[i - 1]
  }

  /** The ring with `c` in front of its node number `i`; in front of the head is the end. */
  function Inserted(r: seq<LinkedList>, i: nat, c: seq<LinkedList>): seq<LinkedList>
    requires i < |r|
  {
    if i == 0 then r + c else r[..i] + c + r[i..]
  }

  function Removed(r: seq<LinkedList>, i: nat): seq<LinkedList>
    requires 0 < i < |r|
  {
    r[..i] + r[i + 1..]
  }

  class LinkedList {
    var prev: LinkedList?
    var next: LinkedList?

    constructor ()
      ensures Ring([this])
    {
      prev, next := this, this;
    }

    static method InsertBefore(cur: LinkedList, node: LinkedList, ghost r: seq<LinkedList>, ghost i: nat)
      requires Ring(r) && i < |r| && r[i] == cur && node !in r
      modifies r, node
      ensures Ring(Inserted(r, i, [node]))
    {
      Links(r);
      node.next := cur;
      node.prev := cur.prev;
      cur.prev.next := node;
      cur.prev := node;
      Spliced(r, i, [node]);
    }

    static method InsertAfter(cur: LinkedList, node: LinkedList, ghost r: seq<LinkedList>, ghost i: nat)
      requires Ring(r) && i < |r| && r[i] == cur && node !in r
      modifies r, node
      ensures Ring(Inserted(r, Next(i, |r|), [node]))
    {
      Links(r);
      node.next := cur.next;
      node.prev := cur;
      cur.next.prev := node;
      cur.next := node;
      Spliced(r, Next(i, |r|), [node]);
    }

    /** Unlink one node; it is left as an empty list. */
    static method Delete(node: LinkedList, ghost r: seq<LinkedList>, ghost i: nat)
      requires Ring(r) && 0 < i < |r| && r[i] == node
      modifies r
      ensures Ring(Removed(r, i)) && Ring([node])
    {
      Bypass(node, r, i);
      node.next := node;
      node.prev := node;
      hide Bypassed;
      Unlinked(r, i);
    }

    /** The neighbours of a node are linked to each other. */
    static method Bypass(node: LinkedList, ghost r: seq<LinkedList>, ghost i: nat)
      requires Ring(r) && 0 < i < |r| && r[i] == node
      modifies r
      ensures Bypassed(r, i)
    {
      Links(r);
      node.prev.next := node.next;
      node.next.prev := node.prev;
    }

    predicate Empty()
      reads this
    {
      next == this
    }

    /** The first node of the list leaves it; the others stay in order. */
    method PopFront(ghost r: seq<LinkedList>) returns (node: LinkedList?)
      requires Ring(r) && r[0] == this
      modifies r
      ensures |r| == 1 ==> node == null && Ring(r)
      ensures |r| > 1 ==> node == r[1] && Ring([this] + r[2..]) && Ring([node])
    {
      assert Linked(r, 0);
      if Empty() {
        return null;
      }
      node := next;
      Delete(node, r, 1);
      assert Removed(r, 1) == [this] + r[2..];
    }

    method PopBack(ghost r: seq<LinkedList>) returns (node: LinkedList?)
      requires Ring(r) && r[0] == this
      modifies r
      ensures |r| == 1 ==> node == null && Ring(r)
      ensures |r| > 1 ==> node == r[|r| - 1] && Ring(r[..|r| - 1]) && Ring([node])
    {
      assert Linked(r, 0);
      if Empty() {
        return null;
      }
      node := prev;
      Delete(node, r, |r| - 1);
      assert Removed(r, |r| - 1) == r[..|r| - 1];
    }

    method PushBack(node: LinkedList, ghost r: seq<LinkedList>)
      requires Ring(r) && r[0] == this && node !in r
      modifies r, node
      ensures Ring(r + [node])
    {
      InsertBefore(this, node, r, 0);
    }

    method PushFront(node: LinkedList, ghost r: seq<LinkedList>)
      requires Ring(r) && r[0] == this && node !in r
      modifies r, node
      ensures Ring([this, node] + r[1..])
    {
      InsertAfter(this, node, r, 0);
      assert Inserted(r, Next(0, |r|), [node]) == [this, node] + r[1..];
    }

    /** A whole chain joins the end of the list. */
    method PushBackAll(first: LinkedList, last: LinkedList, ghost r: seq<LinkedList>, ghost c: seq<LinkedList>)
      requires Ring(r) && r[0] == this && Chain(c) && c[0] == first && c[|c| - 1] == last
      requires forall x :: x in c ==> x !in r
      modifies r, c
      ensures Ring(r + c)
    {
      Links(r);
      assert first in c && last in c;
      assert r[Prev(0, |r|)] == prev && r[0] in r;
      last.next := this;
      first.prev := this.prev;
      this.prev.next := first;
      this.prev := last;
      Spliced(r, 0, c);
    }
  }

  /** The run queue: first in, first out, with a count that needs no repair. */
  class FIFOQueue {
    const list: LinkedList
    var size: int
    ghost var contents: seq<LinkedList>

    ghost predicate Valid()
      reads this, list, contents
    {
      Ring([list] + contents) && size == |contents|
    }

    constructor ()
      ensures Valid() && contents == [] && fresh(list)
    {
      list := new LinkedList();
      size, contents := 0, [];
      new;
      assert [list] + contents == [list];
    }

    method EnQueueAndRetSize(task: LinkedList) returns (oldSize: int)
      requires Valid() && task != list && task !in contents
      modifies this, list, contents, task
      ensures Valid() && contents == old(contents) + [task] && oldSize == |old(contents)|
    {
      list.PushBack(task, [list] + contents);
      assert [list] + (contents + [task]) == [list] + contents + [task];
      oldSize := size;
      contents := contents + [task];
      size := size + 1;
    }

    method EnQueueBatch(first: LinkedList, last: LinkedList, cnt: nat, ghost batch: seq<LinkedList>)
      requires Valid() && Chain(batch) && batch[0] == first && batch[|batch| - 1] == last && cnt == |batch|
      requires forall x :: x in batch ==> x != list && x !in contents
      modifies this, list, contents, batch
      ensures Valid() && contents == old(contents) + batch
    {
      list.PushBackAll(first, last, [list] + contents, batch);
      assert [list] + (contents + batch) == [list] + contents + batch;
      contents := contents + batch;
      size := size + cnt;
    }

    method DeQueue() returns (task: LinkedList?)
      requires Valid()
      modifies this, list, contents
      ensures Valid() && (task == null <==> old(contents) == [])
      ensures contents == if task == null then [] else old(contents)[1..]
      ensures task != null ==> task == old(contents)[0] && Ring([task])
    {
      ghost var r := [list] + contents;
      assert Linked(r, 0);
      if list.Empty() {
        assert size == 0;
        return null;
      }
      task := list.PopFront(r);
      assert [list] + contents[1..] == [r[0]] + r[2..];
      contents := contents[1..];
      size := size - 1;
    }
  }

  lemma Links(r: seq<LinkedList>)
    requires Ring(r)
    ensures forall k :: 0 <= k < |r| ==> r[k].next == r[Next(k, |r|)] && r[k].prev == r[Prev(k, |r|)]
  {
    forall k | 0 <= k < |r| ensures r[k].next == r[Next(k, |r|)] && r[k].prev == r[Prev(k, |r|)] {
      assert Linked(r, k);
    }
  }

  /** Where everything is after an insertion. */
  lemma InsertedAt(r: seq<LinkedList>, i: nat, c: seq<LinkedList>)
    requires i < |r|
    ensures var s, j := Inserted(r, i, c), if i == 0 then |r| else i;
            && |s| == |r| + |c|
            && (forall k :: 0 <= k < j ==> s[k] == r[k])
            && (forall k :: j <= k < j + |c| ==> s[k] == c[k - j])
            && (forall k :: j + |c| <= k < |s| ==> s[k] == r[k - |c|])
  {
  }

  lemma InsertedDistinct(r: seq<LinkedList>, i: nat, c: seq<LinkedList>)
    requires i < |r| && Distinct(r) && Distinct(c) && forall x :: x in c ==> x !in r
    ensures Distinct(Inserted(r, i, c))
  {
    InsertedAt(r, i, c);
    var s, j := Inserted(r, i, c), if i == 0 then |r| else i;
    assert forall k :: j <= k < j + |c| ==> s[k] in c;
    hide Inserted;
    forall k, l | 0 <= k < l < |s| ensures s[k] != s[l] {
    }
  }

  /** The four links that put the chain `c` in front of node number `i`. */
  ghost predicate Joined(r: seq<LinkedList>, i: nat, c: seq<LinkedList>)
    requires i < |r|
    reads r, c
  {
    && Chain(c) && r[Prev(i, |r|)].next == c[0] && c[0].prev == r[Prev(i, |r|)]
    && c[|c| - 1].next == r[i] && r[i].prev == c[|c| - 1]
  }

  /** All links but those in front of node number `i` are those of a ring. */
  ghost predicate Open(r: seq<LinkedList>, i: nat)
    requires i < |r|
    reads r
  {
    && Distinct(r)
    && forall k :: 0 <= k < |r| ==>
         (k != Prev(i, |r|) ==> r[k].next == r[Next(k, |r|)]) && (k != i ==> r[k].prev == r[Prev(k, |r|)])
  }

  lemma Spliced(r: seq<LinkedList>, i: nat, c: seq<LinkedList>)
    requires i < |r| && Open(r, i) && Joined(r, i, c) && forall x :: x in c ==> x !in r
    ensures Ring(Inserted(r, i, c))
  {
    InsertedAt(r, i, c);
    InsertedDistinct(r, i, c);
    var s := Inserted(r, i, c);
    forall k | 0 <= k < |s| ensures Linked(s, k) {
      SplicedNext(r, i, c, k);
      SplicedPrev(r, i, c, k);
    }
  }

  lemma SplicedNext(r: seq<LinkedList>, i: nat, c: seq<LinkedList>, k: nat)
    requires i < |r| && Open(r, i) && Joined(r, i, c) && k < |r| + |c|
    ensures var s := Inserted(r, i, c); |s| == |r| + |c| && s[k].next == s[Next(k, |s|)]
  {
    InsertedAt(r, i, c);
    var s, j := Inserted(r, i, c), if i == 0 then |r| else i;
    hide Inserted, Distinct;
    if k < j {
      assert r[k] == s[k];
    } else if k < j + |c| {
      assert k + 1 < j + |c| ==> c[k - j].next == c[k - j + 1];
    } else {
      assert r[k - |c|] == s[k];
    }
  }

  lemma SplicedPrev(r: seq<LinkedList>, i: nat, c: seq<LinkedList>, k: nat)
    requires i < |r| && Open(r, i) && Joined(r, i, c) && k < |r| + |c|
    ensures var s := Inserted(r, i, c); |s| == |r| + |c| && s[k].prev == s[Prev(k, |s|)]
  {
    InsertedAt(r, i, c);
    var s, j := Inserted(r, i, c), if i == 0 then |r| else i;
    hide Inserted, Distinct;
    if k < j {
      assert r[k] == s[k];
    } else if k < j + |c| {
      assert k > j ==> c[k - j].prev == c[k - j - 1];
    } else {
      assert r[k - |c|] == s[k];
    }
  }

  lemma RemovedAt(r: seq<LinkedList>, i: nat)
    requires 0 < i < |r| && Distinct(r)
    ensures Distinct(Removed(r, i)) && |Removed(r, i)| == |r| - 1
    ensures forall k :: 0 <= k < |r| - 1 ==> Removed(r, i)[k] == r[if k < i then k else k + 1]
  {
  }

  /** The two links that leave node number `i` out. */
  ghost predicate Bypassed(r: seq<LinkedList>, i: nat)
    requires 0 < i < |r|
    reads r
  {
    && r[i - 1].next == r[Next(i, |r|)] && r[Next(i, |r|)].prev == r[i - 1]
    && forall k :: 0 <= k < |r| && k != i ==>
         (k != i - 1 ==> r[k].next == r[Next(k, |r|)]) && (k != Next(i, |r|) ==> r[k].prev == r[Prev(k, |r|)])
  }

  lemma Unlinked(r: seq<LinkedList>, i: nat)
    requires 0 < i < |r| && Distinct(r) && Bypassed(r, i)
    ensures Ring(Removed(r, i))
  {
    RemovedAt(r, i);
    var s := Removed(r, i);
    hide Removed, Distinct;
    forall k | 0 <= k < |s| ensures Linked(s, k) {
      assert s[k] == r[if k < i then k else k + 1];
    }
  }
}
