/** The slab allocator: one slab cut into blocks, handed out from a free list, and single blocks from the
    system when the slab is used up. Addresses are numbers; what `calloc` returns is a parameter. */
module Slab {
  import opened Wrappers

  type Address = nat

  ghost predicate NoDup(s: seq<Address>) {
    forall i, j :: 0 <= i < j < |s| ==> s[i] != s[j]
  }

  ghost function Elements(s: seq<Address>): set<Address> {
    set x | x in s
  }

  lemma {:induction false} NoDupSize(s: seq<Address>)
    requires NoDup(s)
    ensures |Elements(s)| == |s|
  {
    if s != [] {
      var n := |s| - 1;
      NoDupSize(s[..n]);
      assert Elements(s) == Elements(s[..n]) + {s[n]};
    }
  }

  lemma SubsetSize(a: set<Address>, b: set<Address>)
    requires a <= b
    ensures |b - a| == |b| - |a|
  {
    assert b == a + (b - a);
  }

  // ----- the blocks of the slab

  lemma Spaced(k: nat, j: nat, size: nat)
    requires k < j
    ensures k * size + size <= j * size
  {
    assert j * size == (k + 1) * size + (j - k - 1) * size;
    assert (j - k - 1) * size >= 0;
  }

  lemma Fits(k: nat, size: nat, total: nat)
    requires size > 0 && k * size <= total < k * size + size
    ensures k == total / size
  {
    var q, r := total / size, total % size;
    assert total == q * size + r;
    if k < q {
      Spaced(k, q, size);
    } else if q < k {
      Spaced(q, k, size);
    }
  }

  function Slots(base: Address, size: nat, n: nat): (s: seq<Address>)
    ensures |s| == n && forall k :: 0 <= k < n ==> s[k] == base + k * size
  {
    seq(n, k requires 0 <= k < n => base + k * size)
  }

  lemma SlotsApart(base: Address, size: nat, n: nat)
    requires size > 0
    ensures NoDup(Slots(base, size, n)) && Apart(Elements(Slots(base, size, n)), size)
  {
    var s := Slots(base, size, n);
    forall i, j | 0 <= i < j < n ensures s[i] + size <= s[j] {
      Spaced(i, j, size);
    }
  }

  lemma SlotsInside(base: Address, size: nat, n: nat, total: nat)
    requires n * size <= total && size > 0
    ensures forall a :: a in Slots(base, size, n) ==> base <= a && a + size <= base + total
  {
    forall k | 0 <= k < n ensures base + k * size + size <= base + total {
      Spaced(k, n, size);
    }
  }

  predicate Disjoint(a: Address, n: nat, b: Address, m: nat) {
    a + n <= b || b + m <= a
  }

  /** Blocks of one size that do not overlap. */
  ghost predicate Apart(s: set<Address>, size: nat) {
    forall a, b :: a in s && b in s && a != b ==> Disjoint(a, size, b, size)
  }

  class SimpleAllocator {
    const tSize: nat
    const mmapSz: nat
    var primaryCache: seq<Address>
    var secondaryCache: set<Address>
    var basePtr: Option<Address>
    var count: nat

    /** The blocks that have been handed out and not been freed. */
    ghost var live: set<Address>

    ghost function AllSlots(): seq<Address>
      requires basePtr.Some? && tSize > 0
      reads this
    {
      Slots(basePtr.value, tSize, mmapSz / tSize)
    }

    ghost predicate Valid()
      reads this
    {
      && 0 < tSize <= mmapSz
      && count == |primaryCache|
      && (basePtr.None? ==> primaryCache == [] && secondaryCache == {} && live == {})
      && (basePtr.Some? ==>
            && NoDup(primaryCache) && Elements(primaryCache) <= Elements(AllSlots())
            && Outside(secondaryCache, basePtr.value, mmapSz, tSize) && Apart(secondaryCache, tSize)
            && live == (Elements(AllSlots()) - Elements(primaryCache)) + secondaryCache)
    }

    predicate InSlab(t: Address)
      reads this
    {
      basePtr.Some? && basePtr.value <= t < basePtr.value + mmapSz
    }

    constructor (size: nat, total: nat)
      requires 0 < size <= total
      ensures Valid() && live == {} && tSize == size && mmapSz == total
    {
      tSize, mmapSz := size, total;
      primaryCache, secondaryCache, basePtr, count, live := [], {}, None, 0, {};
    }

    /** Cut the slab at `p` into blocks. */
    method Init(p: Address)
      requires Valid() && basePtr.None?
      modifies this
      ensures Valid() && live == {} && basePtr == Some(p) && count == mmapSz / tSize > 0
    {
      count := mmapSz / tSize;
      var i := 0;
      ghost var k := 0;
      while i + tSize <= mmapSz
        invariant i == k * tSize <= mmapSz && primaryCache == Slots(p, tSize, k)
        invariant basePtr.None? && secondaryCache == {} && live == {} && count == mmapSz / tSize
      {
        primaryCache := primaryCache + [p + i];
        i, k := i + tSize, k + 1;
      }
      Fits(k, tSize, mmapSz);
      AtLeastOne(tSize, mmapSz);
      basePtr := Some(p);
      SlotsApart(p, tSize, k);
    }

    /** What `calloc` promises: memory that overlaps nothing in use. */
    ghost predicate Fresh(p: Address)
      reads this
    {
      basePtr.Some? ==>
        && Disjoint(p, tSize, basePtr.value, mmapSz)
        && forall a :: a in secondaryCache ==> Disjoint(p, tSize, a, tSize)
    }

    method Alloc(p: Address) returns (t: Address)
      requires Valid() && Fresh(p)
      modifies this
      ensures Valid() && t !in old(live) && live == old(live) + {t}
      ensures forall a :: a in old(live) ==> Disjoint(t, tSize, a, tSize)
      ensures basePtr == if old(basePtr.None?) then Some(p) else old(basePtr)
      ensures t !in AllSlots() <==> forall a :: a in AllSlots() ==> a in old(live)
      ensures t !in AllSlots() ==> t == p && primaryCache == old(primaryCache)
      ensures old(primaryCache) != [] ==> old(primaryCache) == primaryCache + [t]
    {
      if count == 0 {
        if basePtr.Some? {
          t := p;
          Beside(t);
          secondaryCache := secondaryCache + {t};
          live := live + {t};
          return;
        }
        Init(p);
      }
      t := PopFree();
      LiveApart();
      hide Fresh;
    }

    /** The last block of the free list. */
    method PopFree() returns (t: Address)
      requires Valid() && count > 0
      modifies `primaryCache, `count, `live
      ensures Valid() && t !in old(live) && live == old(live) + {t}
      ensures t in AllSlots() && old(primaryCache) == primaryCache + [t]
    {
      hide Apart, Outside;
      ghost var slots := AllSlots();
      t := primaryCache[|primaryCache| - 1];
      Popped(primaryCache);
      assert Elements(slots) - (Elements(primaryCache) - {t}) == (Elements(slots) - Elements(primaryCache)) + {t};
      assert t in Elements(slots) && t !in secondaryCache by { SlotsOutside(); }
      primaryCache := primaryCache[..|primaryCache| - 1];
      count := count - 1;
      live := live + {t};
    }

    lemma SlotsOutside()
      requires Valid() && basePtr.Some?
      ensures Elements(AllSlots()) !! secondaryCache
    {
      FloorFits(tSize, mmapSz);
      SlotsInside(basePtr.value, tSize, mmapSz / tSize, mmapSz);
    }

    /** A block from the system overlaps nothing that is live. */
    lemma Beside(t: Address)
      requires Valid() && basePtr.Some? && Fresh(t)
      ensures t !in live && t !in secondaryCache && forall a :: a in live ==> Disjoint(t, tSize, a, tSize)
    {
      FloorFits(tSize, mmapSz);
      SlotsInside(basePtr.value, tSize, mmapSz / tSize, mmapSz);
    }

    /** Live blocks never overlap. */
    lemma LiveApart()
      requires Valid()
      ensures Apart(live, tSize)
    {
      if basePtr.Some? {
        FloorFits(tSize, mmapSz);
        SlotsInside(basePtr.value, tSize, mmapSz / tSize, mmapSz);
        SlotsApart(basePtr.value, tSize, mmapSz / tSize);
      }
    }

    method Free(t: Address)
      requires Valid() && t in live
      modifies this
      ensures Valid() && live == old(live) - {t} && basePtr == old(basePtr)
      ensures primaryCache == if t in AllSlots() then old(primaryCache) + [t] else old(primaryCache)
    {
      FloorFits(tSize, mmapSz);
      SlotsInside(basePtr.value, tSize, mmapSz / tSize, mmapSz);
      if InSlab(t) {
        assert Elements(primaryCache + [t]) == Elements(primaryCache) + {t};
        primaryCache := primaryCache + [t];
        count := count + 1;
      } else {
        secondaryCache := secondaryCache - {t};
      }
      live := live - {t};
    }

    /** The report of what has not been freed is exactly the live blocks, each of them once. */
    method GetUnfreed() returns (ret: seq<Address>)
      requires Valid()
      ensures NoDup(ret) && Elements(ret) == live
    {
      ret := [];
      var i := 0;
      ghost var k := 0;
      while i + tSize <= mmapSz
        invariant i == k * tSize <= mmapSz && NoDup(ret)
        invariant basePtr.None? ==> ret == []
        invariant basePtr.Some? ==> Elements(ret) == Elements(Slots(basePtr.value, tSize, k)) - Elements(primaryCache)
      {
        if basePtr.Some? {
          SlotsStep(basePtr.value, tSize, k);
          if basePtr.value + i !in primaryCache {
            assert Elements(ret + [basePtr.value + i]) == Elements(ret) + {basePtr.value + i};
            ret := ret + [basePtr.value + i];
          }
        }
        i, k := i + tSize, k + 1;
      }
      Fits(k, tSize, mmapSz);
      ret := WithSecondary(ret);
    }

    method WithSecondary(slab: seq<Address>) returns (ret: seq<Address>)
      requires Valid() && NoDup(slab) && (basePtr.None? ==> slab == [])
      requires basePtr.Some? ==> Elements(slab) == Elements(AllSlots()) - Elements(primaryCache)
      ensures NoDup(ret) && Elements(ret) == live
    {
      if basePtr.Some? {
        FloorFits(tSize, mmapSz);
        SlotsInside(basePtr.value, tSize, mmapSz / tSize, mmapSz);
      }
      ret := slab;
      var rest := secondaryCache;
      while rest != {}
        invariant rest <= secondaryCache && NoDup(ret) && Elements(ret) == Elements(slab) + (secondaryCache - rest)
        invariant Elements(slab) !! secondaryCache
      {
        var x :| x in rest;
        assert x !in Elements(ret);
        assert Elements(ret + [x]) == Elements(ret) + {x};
        ret, rest := ret + [x], rest - {x};
      }
    }

    method GetUnfreedSize() returns (ret: nat)
      requires Valid()
      ensures ret == |live|
    {
      ret := 0;
      if basePtr.Some? {
        FloorFits(tSize, mmapSz);
        SlotsInside(basePtr.value, tSize, mmapSz / tSize, mmapSz);
        SlotsApart(basePtr.value, tSize, mmapSz / tSize);
        NoDupSize(AllSlots());
        NoDupSize(primaryCache);
        SubsetSize(Elements(primaryCache), Elements(AllSlots()));
        ret := ret + mmapSz / tSize - |primaryCache|;
        assert Elements(AllSlots()) !! secondaryCache;
      }
      ret := ret + |secondaryCache|;
    }

    /** Whether a block has been freed is told rightly for everything but addresses inside the slab that are
        not the start of a block. */
    method BeenFreed(t: Address) returns (freed: bool)
      requires Valid()
      ensures (freed <==> t !in live) <==> (InSlab(t) ==> t in AllSlots())
    {
      if basePtr.Some? {
        FloorFits(tSize, mmapSz);
        SlotsInside(basePtr.value, tSize, mmapSz / tSize, mmapSz);
      }
      if InSlab(t) {
        freed := t in primaryCache;
      } else {
        freed := t !in secondaryCache;
      }
    }
  }

  ghost predicate Outside(s: set<Address>, base: Address, total: nat, size: nat) {
    forall a :: a in s ==> Disjoint(a, size, base, total)
  }

  lemma AtLeastOne(size: nat, total: nat)
    requires 0 < size <= total
    ensures total / size > 0
  {
  }

  lemma FloorFits(size: nat, total: nat)
    requires size > 0
    ensures total / size * size <= total
  {
  }

  lemma Popped(s: seq<Address>)
    requires NoDup(s) && s != []
    ensures Elements(s[..|s| - 1]) == Elements(s) - {s[|s| - 1]} && NoDup(s[..|s| - 1])
  {
    var n := |s| - 1;
    forall x ensures x in Elements(s[..n]) <==> x in Elements(s) - {s[n]} {
      if x in s && x != s[n] {
        var i :| 0 <= i < |s| && s[i] == x;
        assert s[..n][i] == x;
      }
    }
  }

  lemma SlotsStep(base: Address, size: nat, k: nat)
    requires size > 0
    ensures Elements(Slots(base, size, k + 1)) == Elements(Slots(base, size, k)) + {base + k * size}
    ensures base + k * size !in Elements(Slots(base, size, k))
  {
    SlotsApart(base, size, k + 1);
    var s := Slots(base, size, k + 1);
    assert s[..k] == Slots(base, size, k);
    assert s == s[..k] + [s[k]];
  }
}
