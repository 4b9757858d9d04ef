/** One round of updateStatefulSet as a deterministic machine: a program counter over its loops,
    the slots, the counters, the API server and the log of calls made so far
    (controllers/stateful_set_control.go:269-655). */
module RoundSpec {
  import opened Pods

  datatype IntOrPercent = IntVal(v: int) | Percent(v: int) | Malformed

  datatype UpdatePolicy = ReCreate | InPlaceIfPossible | InPlaceOnly

  datatype RollingUpdate = RollingUpdate(
    partition: nat, maxUnavailable: Option<IntOrPercent>, policy: UpdatePolicy, paused: bool)

  datatype StrategyType = RollingType | OnDelete | OtherType

  /** The part of the spec and status a round reads. */
  datatype StatefulSet = StatefulSet(
    replicas: nat, parallel: bool, deleting: bool, strategy: StrategyType,
    rolling: Option<RollingUpdate>, currentReplicas: int)

  datatype Counters = Counters(replicas: int, ready: int, current: int, updated: int)

  /** Everything that stays fixed during a round. `plan` maps an old revision name to the images of
      the in-place patch, if one is possible; `gate` tells whether a revision's template lists the
      readiness gate; `oracle` is the outcome of the n-th call; `first` is the index of the first
      unhealthy pod when that pod is condemned. */
  datatype Job = Job(
    sts: StatefulSet, cur: string, upd: string,
    plan: string -> Option<map<string, string>>, gate: string -> bool,
    oracle: nat -> Outcome, satisfied: bool,
    condemned: seq<Pod>, first: Option<nat>)

  datatype PC = AtSlot(i: nat) | AtScale(left: nat) | AtGate | AtRoll(left: nat, unavailable: nat) | Done(ok: bool)

  datatype Machine = Machine(pc: PC, replicas: seq<Pod>, store: Store, log: seq<Call>, status: Counters)

  // ---------- snapshot ----------

  /** The last listed pod with this ordinal: a later one overwrites the slot. */
  function SlotPod(pods: seq<Pod>, i: int): Option<Pod> {
    if pods == [] then None
    else if pods[|pods| - 1].key.ordinal == i then Some(pods[|pods| - 1])
    else SlotPod(pods[..|pods| - 1], i)
  }

  function Beyond(pods: seq<Pod>, n: int): seq<Pod> {
    if pods == [] then []
    else Beyond(pods[..|pods| - 1], n) + (if pods[|pods| - 1].key.ordinal >= n then [pods[|pods| - 1]] else [])
  }

  function Tally(pods: seq<Pod>, cur: string, upd: string): Counters {
    if pods == [] then Counters(0, 0, 0, 0)
    else Listed(Tally(pods[..|pods| - 1], cur, upd), pods[|pods| - 1], cur, upd)
  }

  function Listed(c: Counters, p: Pod, cur: string, upd: string): Counters {
    Counters(
      c.replicas + 1,
      c.ready + (if RunningAndReady(p) then 1 else 0),
      c.current + (if Live(p) && p.revision == cur then 1 else 0),
      c.updated + (if Live(p) && p.revision == upd then 1 else 0))
  }

  /** newVersionedStatefulSetPod: the strategy type only guards the case without a RollingUpdate block. */
  predicate BelowPartition(sts: StatefulSet, ord: int) {
    || (sts.strategy.RollingType? && sts.rolling.None? && ord < sts.currentReplicas)
    || (sts.rolling.Some? && ord < sts.rolling.value.partition)
  }

  function NewPod(job: Job, ord: int): Pod {
    var rev := if BelowPartition(job.sts, ord) then job.cur else job.upd;
    Pod(Slot(ord), rev, Unset, false, false, job.gate(rev), Absent, NoState, [], true)
  }

  function Slots(job: Job, pods: seq<Pod>): seq<Pod> {
    seq(job.sts.replicas, i requires 0 <= i < job.sts.replicas =>
      match SlotPod(pods, i) case Some(p) => p case None => NewPod(job, i))
  }

  predicate SortedByOrdinal(pods: seq<Pod>) {
    forall i, j | 0 <= i < j < |pods| :: pods[i].key.ordinal <= pods[j].key.ordinal
  }

  /** Index of the first unhealthy pod of a list, or its length. */
  function FirstSick(pods: seq<Pod>): (k: nat)
    ensures k <= |pods|
    ensures forall j | 0 <= j < k :: Healthy(pods[j])
    ensures k < |pods| ==> !Healthy(pods[k])
  {
    if pods == [] || !Healthy(pods[0]) then 0 else 1 + FirstSick(pods[1..])
  }

  /** The first unhealthy pod, as an index into the condemned list when it is one of those. */
  function FirstUnhealthy(replicas: seq<Pod>, condemned: seq<Pod>): Option<nat> {
    if FirstSick(replicas) < |replicas| || FirstSick(condemned) == |condemned| then None
    else Some(FirstSick(condemned))
  }

  /** There are unhealthy pods, but the scan for the first of them names none: it starts below int32's
      maximum, and only pods of that ordinal are unhealthy. */
  predicate NamesNoUnhealthy(replicas: seq<Pod>, condemned: seq<Pod>) {
    && FirstSick(replicas) == |replicas| && FirstSick(condemned) < |condemned|
    && condemned[FirstSick(condemned)].key.ordinal == MAX_INT32
  }

  /** The job's condemned list is some sorting of the listed pods beyond the replica count. */
  ghost predicate FromListing(job: Job, pods: seq<Pod>) {
    && multiset(job.condemned) == multiset(Beyond(pods, job.sts.replicas))
    && SortedByOrdinal(job.condemned)
    && job.first == FirstUnhealthy(Slots(job, pods), job.condemned)
  }

  function Start(job: Job, pods: seq<Pod>, store: Store): Machine {
    Machine(if job.sts.deleting then Done(true) else AtSlot(0),
            Slots(job, pods), store, [], Tally(pods, job.cur, job.upd))
  }

  // ---------- rolling parameters ----------

  function UpdateMin(sts: StatefulSet): nat {
    if sts.rolling.Some? then sts.rolling.value.partition else 0
  }

  /** Percentages round up; None is a malformed string. */
  function MaxUnavailable(sts: StatefulSet): Option<int> {
    if sts.rolling.None? || sts.rolling.value.maxUnavailable.None? then Some(1)
    else match sts.rolling.value.maxUnavailable.value
      case IntVal(v) => Some(v)
      case Percent(v) => Some((v * sts.replicas + 99) / 100)
      case Malformed => None
  }

  predicate IsInPlaceOnly(sts: StatefulSet) {
    sts.rolling.Some? && sts.rolling.value.policy.InPlaceOnly?
  }

  /** shouldDoInPlaceUpdate, the policy test included. */
  function InPlacePlan(job: Job, revision: string): Option<map<string, string>> {
    if job.sts.rolling.None? || job.sts.rolling.value.policy.ReCreate? then None else job.plan(revision)
  }

  /** What the rolling loop counts against maxUnavailable. */
  predicate Unavailable(job: Job, p: Pod) {
    p.revision != job.upd || !Healthy(p) || !Completed(p)
  }

  // ---------- steps ----------

  function Do(job: Job, m: Machine, a: Action): Machine {
    var call := Call(a, job.oracle(|m.log|));
    m.(log := m.log + [call], store := Apply(m.store, call))
  }

  predicate NextOk(job: Job, m: Machine) {
    job.oracle(|m.log|).Ok?
  }

  function Uncount(job: Job, c: Counters, p: Pod): Counters {
    c.(current := c.current - (if p.revision == job.cur then 1 else 0),
       updated := c.updated - (if p.revision == job.upd then 1 else 0))
  }

  function RecreateFailed(job: Job, m: Machine, i: nat): Machine
    requires i < |m.replicas|
  {
    var p := m.replicas[i];
    if !p.phase.Failed? then m
    else
      var m1 := Do(job, m, Delete(p));
      if !NextOk(job, m) then m1.(pc := Done(false))
      else
        var c := Uncount(job, m1.status, p);
        m1.(status := c.(replicas := c.replicas - 1), replicas := m1.replicas[i := NewPod(job, i)])
  }

  function CreateSlot(job: Job, m: Machine, i: nat): Machine
    requires i < |m.replicas|
  {
    var p := m.replicas[i];
    var m1 := Do(job, m, Create(p));
    if !NextOk(job, m) then m1.(pc := Done(false))
    else
      var c := m1.status;
      m1.(pc := if job.sts.parallel then AtSlot(i + 1) else Done(true),
          replicas := m1.replicas[i := p.(phase := Pending)],
          status := Counters(c.replicas + 1, c.ready,
                             c.current + (if p.revision == job.cur then 1 else 0),
                             c.updated + (if p.revision == job.upd then 1 else 0)))
  }

  function MarkReady(job: Job, m: Machine, i: nat): Machine
    requires i < |m.replicas|
  {
    var p := m.replicas[i];
    if !ShouldMarkReady(p) then m
    else
      var m1 := Do(job, m, SetCondition(p, IsTrue));
      if !NextOk(job, m) then m1.(pc := Done(false)) else m1
  }

  function RepairSlot(job: Job, m: Machine, i: nat): Machine
    requires i < |m.replicas|
  {
    var p := m.replicas[i];
    if p.conforms then m.(pc := AtSlot(i + 1))
    else
      var m1 := Do(job, m, Repair(p));
      m1.(pc := if NextOk(job, m) then AtSlot(i + 1) else Done(false))
  }

  /** A created, non-failed pod in slot i. */
  function KeepSlot(job: Job, m: Machine, i: nat): Machine
    requires i < |m.replicas|
  {
    var p := m.replicas[i];
    if p.terminating && !job.sts.parallel then m.(pc := Done(true))
    else
      var m1 := MarkReady(job, m, i);
      if m1.pc.Done? then m1
      else if !RunningAndReady(p) && !job.sts.parallel then m1.(pc := Done(true))
      else RepairSlot(job, m1, i)
  }

  function SlotStep(job: Job, m: Machine, i: nat): (m': Machine)
    requires i < |m.replicas|
    ensures |m'.replicas| == |m.replicas|
    ensures m.pc == AtSlot(i) ==> m'.pc == AtSlot(i + 1) || m'.pc.Done?
  {
    var m1 := RecreateFailed(job, m, i);
    if m1.pc.Done? then m1
    else if !Created(m1.replicas[i]) then CreateSlot(job, m1, i)
    else KeepSlot(job, m1, i)
  }

  function ScaleStep(job: Job, m: Machine, t: nat): Machine
    requires t < |job.condemned|
  {
    var p := job.condemned[t];
    if p.terminating then m.(pc := if job.sts.parallel then AtScale(t) else Done(true))
    else if !RunningAndReady(p) && !job.sts.parallel && job.first != Some(t) then m.(pc := Done(true))
    else
      var m1 := Do(job, m, Delete(p));
      if !NextOk(job, m) then m1.(pc := Done(false))
      else m1.(status := Uncount(job, m1.status, p),
               pc := if job.sts.parallel then AtScale(t) else Done(true))
  }

  function GateStep(job: Job, m: Machine): Machine {
    if job.sts.strategy.OnDelete? || !job.satisfied then m.(pc := Done(true))
    else if MaxUnavailable(job.sts).None? then m.(pc := Done(false))
    else if job.sts.rolling.Some? && job.sts.rolling.value.paused then m.(pc := Done(true))
    else m.(pc := AtRoll(|m.replicas|, 0))
  }

  /** The stale pod has been handled: it no longer counts as current. */
  function Dropped(job: Job, m: Machine, p: Pod): Machine {
    m.(status := m.status.(current := m.status.current - (if p.revision == job.cur then 1 else 0)))
  }

  function DeleteStale(job: Job, m: Machine, p: Pod): Machine {
    var m1 := Do(job, m, Delete(p));
    if !NextOk(job, m) then m1.(pc := Done(false)) else Dropped(job, m1, p)
  }

  /** After an in-place attempt with outcome r: success, a conflict and InPlaceOnly keep the pod. */
  function Settle(job: Job, m: Machine, p: Pod, r: Outcome): Machine {
    if r.Error? && !IsInPlaceOnly(job.sts) then DeleteStale(job, m, p) else Dropped(job, m, p)
  }

  /** inPlaceUpdatePod: condition False first, the patch only after that write succeeded. */
  function PatchStale(job: Job, m: Machine, p: Pod, images: map<string, string>): Machine {
    var r1 := job.oracle(|m.log|);
    var m1 := Do(job, m, SetCondition(p, IsFalse));
    if !r1.Ok? then Settle(job, m1, p, r1)
    else Settle(job, Do(job, m1, Patch(p, job.upd, images)), p, job.oracle(|m1.log|))
  }

  function Replace(job: Job, m: Machine, p: Pod): (m': Machine)
    ensures m'.replicas == m.replicas && (m'.pc == m.pc || m'.pc.Done?)
  {
    match InPlacePlan(job, p.revision)
    case None => DeleteStale(job, m, p)
    case Some(images) => if Completed(p) then PatchStale(job, m, p, images) else m
  }

  predicate Stale(job: Job, p: Pod) {
    p.revision != job.upd && !p.terminating
  }

  function RollStep(job: Job, m: Machine, t: nat, u: nat): (m': Machine)
    requires t < |m.replicas|
    ensures |m'.replicas| == |m.replicas|
    ensures !m.pc.Done? ==> m'.pc.Done? || (m'.pc.AtRoll? && m'.pc.left == t)
  {
    var p := m.replicas[t];
    var m1 := if Stale(job, p) then Replace(job, m, p) else m;
    if m1.pc.Done? then m1
    else
      var u' := u + (if Unavailable(job, p) then 1 else 0);
      if MaxUnavailable(job.sts).None? || u' >= MaxUnavailable(job.sts).value then m1.(pc := Done(true))
      else m1.(pc := AtRoll(t, u'))
  }

  /** The counters of the loops stay in range. */
  predicate InRange(job: Job, m: Machine) {
    && |m.replicas| == job.sts.replicas
    && match m.pc
       case AtSlot(i) => i <= |m.replicas|
       case AtScale(left) => left <= |job.condemned|
       case AtRoll(left, _) => left <= |m.replicas|
       case _ => true
  }

  function Step(job: Job, m: Machine): (m': Machine)
    requires InRange(job, m) && !m.pc.Done?
    ensures InRange(job, m')
    ensures Rank(m'.pc) < Rank(m.pc) || (Rank(m'.pc) == Rank(m.pc) && Left(job, m'.pc) < Left(job, m.pc))
  {
    match m.pc
    case AtSlot(i) => if i == |m.replicas| then m.(pc := AtScale(|job.condemned|)) else SlotStep(job, m, i)
    case AtScale(left) => if left == 0 then m.(pc := AtGate) else ScaleStep(job, m, left - 1)
    case AtGate => GateStep(job, m)
    case AtRoll(left, u) =>
      if left <= UpdateMin(job.sts) then m.(pc := Done(true)) else RollStep(job, m, left - 1, u)
  }

  function Rank(pc: PC): nat {
    match pc case AtSlot(_) => 4 case AtScale(_) => 3 case AtGate => 2 case AtRoll(_, _) => 1 case Done(_) => 0
  }

  function Left(job: Job, pc: PC): int {
    match pc
    case AtSlot(i) => job.sts.replicas - i
    case AtScale(left) => left
    case AtRoll(left, _) => left
    case _ => 0
  }

  function Run(job: Job, m: Machine): Machine
    requires InRange(job, m)
    decreases Rank(m.pc), Left(job, m.pc)
  {
    if m.pc.Done? then m else Run(job, Step(job, m))
  }

  /** A whole round on a listing. */
  function Round(job: Job, pods: seq<Pod>, store: Store): Machine {
    Run(job, Start(job, pods, store))
  }
}
