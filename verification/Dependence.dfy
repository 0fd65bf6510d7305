/** The state that `criticalMutex_` protects, and the operations of one version on it. */
module Dependence {
  import opened Wrappers
  import opened AccessOrder
  import opened VersionList

  datatype NestType = DEFAULT | PARENTOUT | PARENTIN

  datatype TaskCtx = TaskCtx(ins: set<Address>, outs: set<Address>, submitDep: nat, waitDep: int)

  /** `released` holds the tasks on which `Ready` has been called. */
  datatype State = State(
    versions: Memory,
    vaMap: map<Signature, Address>,
    versionTrashcan: seq<Address>,
    tasks: seq<TaskCtx>,
    released: set<Task>)

  function IncDepRef(s: State, t: Task): State
    requires t < |s.tasks|
  {
    s.(tasks := s.tasks[t := s.tasks[t].(submitDep := s.tasks[t].submitDep + 1)])
  }

  ghost predicate Owed(s: State, us: set<Task>) {
    forall u :: u in us ==> u < |s.tasks| && s.tasks[u].submitDep > 0
  }

  /** `DecDepRef` on every member of `us`: a count that reaches zero makes its task ready. */
  function DecDepRefs(s: State, us: set<Task>): State
    requires Owed(s, us)
  {
    s.(tasks := seq(|s.tasks|, u requires 0 <= u < |s.tasks| =>
                      if u in us then s.tasks[u].(submitDep := s.tasks[u].submitDep - 1) else s.tasks[u]),
       released := s.released + set u | u in us && s.tasks[u].submitDep == 1)
  }

  function Known(m: Memory, v: Address): bool {
    v in m && (m[v].last.Some? ==> m[v].last.value in m)
  }

  /** `BuildConsumeRelationship`, as far as the version is concerned. */
  function Consumed(m: Memory, c: Address, t: Task): Memory
    requires c in m
  {
    m[c := m[c].(consumers := m[c].consumers + {t}, status := if m[c].status.CONSUMED? then READY else m[c].status)]
  }

  function Join(s: State, c: Address, t: Task): State
    requires c in s.versions && t < |s.tasks|
  {
    var s1 := if s.versions[c].status.IDLE? then IncDepRef(s, t) else s;
    s1.(versions := Consumed(s.versions, c, t),
        tasks := s1.tasks[t := s1.tasks[t].(ins := s1.tasks[t].ins + {c})])
  }

  function AddConsumer(s: State, v: Address, t: Task, nest: NestType, block: Address): State
    requires Known(s.versions, v) && t < |s.tasks| && block !in s.versions
  {
    if nest.PARENTIN? then Join(s, v, t)
    else if s.versions[v].last.None? then Join(s.(versions := CreateChild(s.versions, v, block, READY)), block, t)
    else Join(s, s.versions[v].last.value, t)
  }

  /** `BuildProducerProducerRelationship`, as far as the version is concerned. */
  function Preceded(m: Memory, v: Address, t: Task): Memory
    requires Known(m, v)
  {
    var p := m[v].last;
    if p.Some? && !m[p.value].status.CONSUMED? then m[p.value := m[p.value].(nextProducer := Some(t))] else m
  }

  function Produced(m: Memory, v: Address, t: Task, block: Address): Memory
    requires Known(m, v) && block !in m && m[v].last != Some(v)
  {
    var m1 := CreateChild(Preceded(m, v, t), v, block, IDLE);
    m1[block := m1[block].(myProducer := Some(t))]
  }

  function AddProducer(s: State, v: Address, t: Task, block: Address): State
    requires Known(s.versions, v) && t < |s.tasks| && block !in s.versions
    requires s.versions[v].last != Some(v)
  {
    var p := s.versions[v].last;
    var s1 := if p.Some? && !s.versions[p.value].status.CONSUMED? then IncDepRef(s, t) else s;
    s1.(versions := Produced(s.versions, v, t, block),
        tasks := s1.tasks[t := s1.tasks[t].(outs := s1.tasks[t].outs + {block})])
  }

  function Waits(us: seq<Task>, t: Task): nat {
    multiset(us)[t]
  }

  /** `DecWaitDataRef` once for every entry of `us`. */
  function DecWaitRefs(s: State, us: seq<Task>): State {
    s.(tasks := seq(|s.tasks|, u requires 0 <= u < |s.tasks| =>
                      s.tasks[u].(waitDep := s.tasks[u].waitDep - Waits(us, u))))
  }

  /** `AddDataWaitTaskByThis`: enter `t` in the newest child of `v` if that is unproduced. */
  function AddDataWait(s: State, v: Address, t: Task): State
    requires Known(s.versions, v) && t < |s.tasks|
  {
    var c := s.versions[v].last;
    if c.Some? && s.versions[c.value].status.IDLE? then
      var newest := s.versions[c.value];
      s.(versions := s.versions[c.value := newest.(dataWaitTaskByThis := newest.dataWaitTaskByThis + [t])],
         tasks := s.tasks[t := s.tasks[t].(waitDep := s.tasks[t].waitDep + 1)])
    else s
  }

  function Next(v: Version): set<Task> {
    if v.nextProducer.Some? then {v.nextProducer.value} else {}
  }

  function Retired(s: State, v: Address): State
    requires v in s.versions
  {
    s.(versions := s.versions[v := s.versions[v].(status := CONSUMED, nextProducer := None)],
       versionTrashcan := s.versionTrashcan + [v])
  }

  /** The version is used up: release the next producer and put the version up for recycling. */
  function Retire(s: State, v: Address): State
    requires v in s.versions && Owed(s, Next(s.versions[v]))
  {
    DecDepRefs(Retired(s, v), Next(s.versions[v]))
  }

  function Readied(s: State, v: Address): State
    requires v in s.versions
  {
    s.(versions := s.versions[v := s.versions[v].(status := READY)])
  }

  function MakeReady(s: State, v: Address): State
    requires v in s.versions && Owed(s, s.versions[v].consumers)
  {
    DecDepRefs(Readied(s, v), s.versions[v].consumers)
  }

  function NotifyDataWaitTask(s: State, v: Address): State
    requires v in s.versions
  {
    DecWaitRefs(s, s.versions[v].dataWaitTaskByThis)
      .(versions := s.versions[v := s.versions[v].(dataWaitTaskByThis := [])])
  }

  function MergeConsumerInDep(s: State, v: Address, c: Address): State
    requires c in s.versions
  {
    s.(tasks := seq(|s.tasks|, u requires 0 <= u < |s.tasks| =>
                      if u in s.versions[c].consumers
                      then s.tasks[u].(ins := s.tasks[u].ins + {v} - {c}) else s.tasks[u]))
  }

  /** Fold the newest child `c` of `v` into `v`, child unproduced. */
  function MergeIdle(s: State, v: Address, c: Address): State
    requires v in s.versions && c in s.versions
    requires s.versions[c].myProducer.Some? && s.versions[c].myProducer.value < |s.tasks|
  {
    var s1 := MergeConsumerInDep(s, v, c);
    var p := s.versions[c].myProducer.value;
    s1.(versions := s.versions[v := s.versions[v].(status := IDLE,
                                                   consumers := s.versions[v].consumers + s.versions[c].consumers,
                                                   myProducer := Some(p))],
        tasks := s1.tasks[p := s1.tasks[p].(outs := s1.tasks[p].outs + {v} - {c})],
        versionTrashcan := s.versionTrashcan + [c])
  }

  /** Fold the newest child `c` of `v` into `v`, child already produced. The readers of the child
      are redirected to `v` but do not become consumers of `v`. */
  function MergeReady(s: State, v: Address, c: Address): State
    requires v in s.versions && c in s.versions
    requires Owed(s, s.versions[v].consumers)
  {
    var s1 := NotifyDataWaitTask(MakeReady(s, v), v);
    MergeConsumerInDep(s1, v, c).(versionTrashcan := s1.versionTrashcan + [c])
  }

  predicate Merges(m: Memory, v: Address)
    requires Known(m, v)
  {
    m[v].last.Some? && !m[m[v].last.value].status.CONSUMED?
  }

  ghost predicate CanProduce(s: State, v: Address) {
    && Known(s.versions, v)
    && Owed(s, s.versions[v].consumers)
    && Owed(s, Next(s.versions[v]))
    && (Merges(s.versions, v) && s.versions[s.versions[v].last.value].status.IDLE? ==>
          var p := s.versions[s.versions[v].last.value].myProducer; p.Some? && p.value < |s.tasks|)
  }

  /** `VersionCtx::onProduced`. */
  function OnProduced(s: State, v: Address): State
    requires CanProduce(s, v)
  {
    if Merges(s.versions, v) then
      var c := s.versions[v].last.value;
      if s.versions[c].status.IDLE? then MergeIdle(s, v, c) else MergeReady(s, v, c)
    else
      NotifyDataWaitTask(if s.versions[v].consumers == {} then Retire(s, v) else MakeReady(s, v), v)
  }

  function Unread(s: State, v: Address, t: Task): State
    requires v in s.versions
  {
    s.(versions := s.versions[v := s.versions[v].(consumers := s.versions[v].consumers - {t})])
  }

  /** `VersionCtx::onConsumed`. */
  function OnConsumed(s: State, v: Address, t: Task): State
    requires v in s.versions && Owed(s, Next(s.versions[v]))
  {
    var s1 := Unread(s, v, t);
    if s1.versions[v].consumers == {} then Retire(s1, v) else s1
  }

  ghost predicate CanRecycle(s: State, c: Address) {
    && Known(s.versions, c)
    && s.versions[c].next.Some? && s.versions[c].next.value in s.versions
    && s.versions[c].next.value != c
  }

  /** One turn of the loop of `Entity::RecycleVersion`. */
  function Recycle(s: State, c: Address): State
    requires CanRecycle(s, c)
  {
    var n := s.versions[c].next.value;
    var s1 := s.(versions := Unlink(s.versions, c));
    if s.versions[n].next.None? then
      s1.(vaMap := s1.vaMap - {s.versions[n].signature}, versions := s1.versions - {n})
    else s1
  }
}
