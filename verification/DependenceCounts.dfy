/** The dependence count of every task, and the sets of versions a task holds, tied to the
    pending accesses. */
module DependenceCounts {
  import opened Wrappers
  import opened AccessOrder
  import opened VersionList
  import opened Dependence
  import opened DependenceInv

  /** The data on which `u` still waits for an earlier conflicting access. */
  ghost function DepSet(pend: map<Signature, seq<Access>>, u: Task): set<Signature> {
    set d | d in pend && CellBlocked(Versions(pend[d]), u)
  }

  function One(b: bool): nat {
    if b then 1 else 0
  }

  /** Every unreleased task counts the data it waits for. `owed` are the tasks that the step in
      progress has unblocked but not yet notified. */
  ghost predicate Counts(s: State, h: Shadow, owed: set<Task>) {
    && |h.surplus| == |s.tasks|
    && (forall u :: u in s.released || u in owed ==> u < |s.tasks|)
    && (forall u :: u in owed ==> u !in s.released)
    && (forall u :: 0 <= u < |s.tasks| && u in s.released ==> s.tasks[u].submitDep == 0)
    && (forall u :: 0 <= u < |s.tasks| && u !in s.released ==>
          s.tasks[u].submitDep == |DepSet(h.pend, u)| + h.surplus[u] + One(u in owed))
  }

  lemma DepSetUpdate(pend: map<Signature, seq<Access>>, d: Signature, p: seq<Access>, u: Task)
    ensures var was := d in pend && CellBlocked(Versions(pend[d]), u);
            |DepSet(pend[d := p], u)| + One(was) == |DepSet(pend, u)| + One(CellBlocked(Versions(p), u))
  {
    hide Versions, CellBlocked;
    var now, was := CellBlocked(Versions(p), u), d in pend && CellBlocked(Versions(pend[d]), u);
    var after, before := DepSet(pend[d := p], u), DepSet(pend, u);
    if now == was {
      assert after == before;
    } else if now {
      assert after == before + {d};
    } else {
      assert after == before - {d};
    }
  }

  /** The order of datum `d` becomes `p` and the counts follow. */
  lemma CountsUpdate(s: State, h: Shadow, s': State, h': Shadow, d: Signature, p: seq<Access>, owed: set<Task>)
    requires Counts(s, h, {})
    requires |s'.tasks| == |s.tasks| && s'.released == s.released
    requires h'.pend == h.pend[d := p] && |h'.surplus| == |h.surplus|
    requires forall u :: u in owed ==> u < |s.tasks| && u !in s.released
    requires forall u :: 0 <= u < |s.tasks| && u in s.released ==> s'.tasks[u].submitDep == s.tasks[u].submitDep
    requires forall u :: 0 <= u < |s.tasks| && u !in s.released ==>
               s'.tasks[u].submitDep - h'.surplus[u] + One(CellBlocked(Versions(Pending(h, d)), u))
               == s.tasks[u].submitDep - h.surplus[u] + One(CellBlocked(Versions(p), u)) + One(u in owed)
    ensures Counts(s', h', owed)
  {
    forall u | 0 <= u < |s.tasks| && u !in s.released
      ensures s'.tasks[u].submitDep == |DepSet(h'.pend, u)| + h'.surplus[u] + One(u in owed)
    {
      DepSetUpdate(h.pend, d, p, u);
      assert d !in h.pend ==> !CellBlocked(Versions(Pending(h, d)), u);
    }
  }

  /** Notifying the owed tasks settles the counts; exactly the tasks left with nothing to wait for
      are released. */
  lemma Notified(s: State, h: Shadow, owed: set<Task>)
    requires Counts(s, h, owed)
    ensures Owed(s, owed)
    ensures Counts(DecDepRefs(s, owed), h, {})
    ensures forall u :: u in DecDepRefs(s, owed).released && u !in s.released ==>
              u in owed && DepSet(h.pend, u) == {} && h.surplus[u] == 0
  {
  }

  /** Released tasks never read an unproduced version. */
  ghost predicate Free(g: seq<Cell>, rel: set<Task>) {
    forall i :: 0 <= i < |g| && g[i].writer.Some? ==> g[i].readers !! rel
  }

  ghost predicate Accesses(s: State, h: Shadow) {
    forall d :: d in h.pend ==>
      && NoDup(h.pend[d])
      && Free(Versions(h.pend[d]), s.released)
      && forall k :: 0 <= k < |h.pend[d]| ==> h.pend[d][k].task < |s.tasks| && h.pend[d][k].task !in h.done
  }

  /** Releasing tasks that wait for nothing disturbs neither the versions nor the readers. */
  lemma ReleaseStructure(s: State, h: Shadow, s': State)
    requires Structure(s, h)
    requires s'.versions == s.versions && s'.vaMap == s.vaMap && s.released <= s'.released
    requires forall u :: u in s'.released && u !in s.released ==> DepSet(h.pend, u) == {}
    ensures Structure(s', h)
  {
    hide Linked, Versions;
    forall d | d in s.vaMap ensures DatumOk(s', h, d) {
      assert DatumOk(s, h, d);
      var g, ns := Versions(Pending(h, d)), LiveNodes(h, d);
      forall u | u in s'.released && u !in s.released ensures !CellBlocked(g, u) {
        VersionsShape([]);
        assert d !in DepSet(h.pend, u);
      }
      forall i | 0 <= i < |ns| ensures CellMatch(s.versions[ns[i]], g, i, s'.released) {
        assert CellMatch(s.versions[ns[i]], g, i, s.released);
      }
    }
    forall a | a in s.versions ensures Placed(s', h, a) {
      assert Placed(s, h, a);
    }
  }

  lemma ReleaseAccesses(s: State, h: Shadow, s': State)
    requires Accesses(s, h)
    requires |s'.tasks| == |s.tasks| && s.released <= s'.released
    requires forall u :: u in s'.released && u !in s.released ==> DepSet(h.pend, u) == {}
    ensures Accesses(s', h)
  {
    hide Versions, NoDup;
    forall d | d in h.pend ensures Free(Versions(h.pend[d]), s'.released) {
      var g := Versions(h.pend[d]);
      assert Free(g, s.released);
      forall i, u | 0 <= i < |g| && g[i].writer.Some? && u in g[i].readers ensures u !in s'.released {
        assert CellBlocked(g, u);
        assert d in DepSet(h.pend, u);
      }
    }
  }

  /** The versions that `u` reads, or is to produce. */
  ghost function InsOf(s: State, u: Task): set<Address> {
    set a | a in s.versions && a !in s.versionTrashcan && u in s.versions[a].consumers
  }

  ghost function OutsOf(s: State, u: Task): set<Address> {
    set a | a in s.versions && a !in s.versionTrashcan && s.versions[a].status.IDLE?
      && s.versions[a].myProducer == Some(u)
  }

  ghost predicate Holdings(s: State, h: Shadow, except: set<Task>) {
    forall u :: 0 <= u < |s.tasks| && u !in h.done && u !in except ==>
      s.tasks[u].ins == InsOf(s, u) && s.tasks[u].outs == OutsOf(s, u)
  }

  /** The version of `d` that waits to be recycled. */
  function Grave(h: Shadow, d: Signature): Option<Address> {
    if d in h.dead && d in h.lists && h.dead[d] < |h.lists[d]| then Some(h.lists[d][h.dead[d]]) else None
  }

  /** The newest version of a datum is never waiting to be recycled unless it is the only one. */
  ghost predicate NotNewest(h: Shadow, d: Signature) {
    d in h.dead && d in h.lists && (h.dead[d] + 1 < |h.lists[d]| || |h.lists[d]| == 1)
  }

  /** The recycling list holds exactly the versions marked dead. */
  ghost predicate Trash(s: State, h: Shadow) {
    && Distinct(s.versionTrashcan)
    && (forall a :: a in s.versionTrashcan ==> a in s.versions && Grave(h, s.versions[a].signature) == Some(a))
    && (forall d :: d in h.dead ==>
          && NotNewest(h, d) && Grave(h, d).Some?
          && Grave(h, d).value in s.versionTrashcan && Grave(h, d).value in s.versions
          && s.versions[Grave(h, d).value].signature == d)
  }
}
