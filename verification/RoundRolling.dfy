/** Bounds of the rolling phase (controllers/stateful_set_control.go:543-624). */
module RoundRolling {
  import opened Pods
  import opened RoundSpec
  import opened RoundOrder

  /** A bound of zero or less still lets the loop look at the top pod. */
  function Limit(sts: StatefulSet): nat {
    if MaxUnavailable(sts).Some? && MaxUnavailable(sts).value > 1 then MaxUnavailable(sts).value else 1
  }

  /** Unavailable pods among the slots t, t+1, ... */
  function CountUnavailable(job: Job, slots: seq<Pod>, t: nat): nat
    decreases |slots| - t
  {
    if t >= |slots| then 0
    else (if Unavailable(job, slots[t]) then 1 else 0) + CountUnavailable(job, slots, t + 1)
  }

  predicate Touched(calls: seq<Call>, p: Pod) {
    exists c | c in calls :: c.action.pod == p
  }

  /** Pods among the slots t, t+1, ... that are unhealthy or acted on by `calls`. */
  function CountDisturbed(slots: seq<Pod>, calls: seq<Call>, t: nat): nat
    decreases |slots| - t
  {
    if t >= |slots| then 0
    else (if !Healthy(slots[t]) || Touched(calls, slots[t]) then 1 else 0) + CountDisturbed(slots, calls, t + 1)
  }

  function CountTouched(slots: seq<Pod>, calls: seq<Call>, t: nat): nat
    decreases |slots| - t
  {
    if t >= |slots| then 0
    else (if Touched(calls, slots[t]) then 1 else 0) + CountTouched(slots, calls, t + 1)
  }

  predicate Indexed(slots: seq<Pod>) {
    forall i | 0 <= i < |slots| :: slots[i].key.ordinal == i
  }

  /** Call about slot t made while fewer than Limit higher pods were unavailable. */
  predicate RollsWithin(job: Job, slots: seq<Pod>, t: nat, call: Call) {
    Rolls(job, slots, t, call) && CountUnavailable(job, slots, t + 1) < Limit(job.sts)
  }

  predicate RollsAbove(job: Job, slots: seq<Pod>, stop: nat, call: Call) {
    exists t: nat | stop <= t < |slots| :: RollsWithin(job, slots, t, call)
  }

  /** Every call from index g on concerns a slot not below `stop`. */
  ghost predicate Scanned(job: Job, slots: seq<Pod>, m: Machine, g: nat, stop: nat) {
    && g <= |m.log| && stop <= |slots|
    && CountUnavailable(job, slots, stop) <= Limit(job.sts)
    && (forall j | g <= j < |m.log| :: RollsAbove(job, slots, stop, m.log[j]))
    && match m.pc
       case AtRoll(left, u) =>
         && left == stop && m.replicas == slots && u == CountUnavailable(job, slots, left) && u < Limit(job.sts)
       case Done(_) => true
       case _ => false
  }

  lemma RollScans(job: Job, slots: seq<Pod>, m: Machine, m': Machine, g: nat, stop: nat)
    requires g <= |m.log| && m.log <= m'.log && stop + 1 <= |slots|
    requires CountUnavailable(job, slots, stop + 1) < Limit(job.sts)
    requires forall j | g <= j < |m.log| :: RollsAbove(job, slots, stop + 1, m.log[j])
    requires forall j | |m.log| <= j < |m'.log| :: Rolls(job, slots, stop, m'.log[j])
    ensures forall j | g <= j < |m'.log| :: RollsAbove(job, slots, stop, m'.log[j])
  {
    hide Rolls, CountUnavailable, Limit;
    forall j | g <= j < |m'.log|
      ensures RollsAbove(job, slots, stop, m'.log[j])
    {
      if j < |m.log| {
        assert m'.log[j] == m.log[j] && RollsAbove(job, slots, stop + 1, m.log[j]);
      } else {
        assert RollsWithin(job, slots, stop, m'.log[j]);
      }
    }
  }

  lemma StepScanned(job: Job, slots: seq<Pod>, m: Machine, g: nat, stop: nat) returns (stop': nat)
    requires InRange(job, m) && m.pc.AtRoll? && Scanned(job, slots, m, g, stop)
    ensures Scanned(job, slots, Step(job, m), g, stop')
  {
    hide RollStep, Unavailable, Rolls, MaxUnavailable, RollsAbove, SlotStep, ScaleStep, GateStep;
    stop' := stop;
    var left := m.pc.left;
    if left > UpdateMin(job.sts) {
      stop' := left - 1;
      RollAppends(job, m, left - 1, m.pc.unavailable);
      RollScans(job, slots, m, Step(job, m), g, stop');
    }
  }

  lemma {:induction false} RunScanned(job: Job, slots: seq<Pod>, m: Machine, g: nat, stop: nat) returns (stop': nat)
    requires InRange(job, m) && Scanned(job, slots, m, g, stop)
    ensures Scanned(job, slots, Run(job, m), g, stop')
    decreases Rank(m.pc), Left(job, m.pc)
  {
    stop' := stop;
    if m.pc.AtRoll? {
      stop' := StepScanned(job, slots, m, g, stop);
      stop' := RunScanned(job, slots, Step(job, m), g, stop');
    }
  }

  /** Each pod acted on was unavailable, so the calls disturb no more than the scan counted. */
  lemma {:induction false} DisturbedBound(job: Job, slots: seq<Pod>, calls: seq<Call>, stop: nat, t: nat)
    requires Indexed(slots)
    requires forall c | c in calls :: RollsAbove(job, slots, stop, c)
    ensures CountTouched(slots, calls, t) <= CountUnavailable(job, slots, if t < stop then stop else t)
    ensures (forall i | t <= i < |slots| :: Healthy(slots[i])) ==>
      CountDisturbed(slots, calls, t) == CountTouched(slots, calls, t)
    decreases |slots| - t
  {
    if t < |slots| {
      DisturbedBound(job, slots, calls, stop, t + 1);
      if Touched(calls, slots[t]) {
        var c :| c in calls && c.action.pod == slots[t];
        var k: nat :| stop <= k < |slots| && RollsWithin(job, slots, k, c);
        assert k == t;
      }
    }
  }

  // ---------- the rolling phase of a whole round ----------

  /** The machine when the rolling loop starts, or when the round ends without one. */
  function BeforeRoll(job: Job, m: Machine): (b: Machine)
    requires InRange(job, m)
    ensures InRange(job, b)
    ensures b.pc.Done? || b.pc.AtRoll?
    decreases Rank(m.pc), Left(job, m.pc)
  {
    if m.pc.Done? || m.pc.AtRoll? then m else BeforeRoll(job, Step(job, m))
  }

  lemma SlotKeepsIndex(job: Job, m: Machine, i: nat)
    requires InRange(job, m) && m.pc == AtSlot(i) && i < |m.replicas| && Indexed(m.replicas)
    ensures Indexed(SlotStep(job, m, i).replicas)
    ensures !SlotStep(job, m, i).pc.AtRoll?
  {
    hide Apply;
  }

  lemma {:induction false} BeforeRollFacts(job: Job, m: Machine)
    requires InRange(job, m) && (m.pc.AtRoll? ==> m.pc == AtRoll(|m.replicas|, 0))
    requires Indexed(m.replicas)
    ensures Run(job, m) == Run(job, BeforeRoll(job, m))
    ensures Indexed(BeforeRoll(job, m).replicas)
    ensures BeforeRoll(job, m).pc.AtRoll? ==> BeforeRoll(job, m).pc == AtRoll(|m.replicas|, 0)
    decreases Rank(m.pc), Left(job, m.pc)
  {
    if !m.pc.Done? && !m.pc.AtRoll? {
      if m.pc.AtSlot? && m.pc.i < |m.replicas| {
        hide SlotStep;
        SlotKeepsIndex(job, m, m.pc.i);
        BeforeRollFacts(job, Step(job, m));
      } else {
        BeforeRollFacts(job, Step(job, m));
      }
    }
  }

  lemma {:induction false} SlotPodHasOrdinal(pods: seq<Pod>, i: int)
    ensures SlotPod(pods, i).Some? ==> SlotPod(pods, i).value in pods && SlotPod(pods, i).value.key.ordinal == i
    ensures SlotPod(pods, i).None? ==> forall p | p in pods :: p.key.ordinal != i
  {
    if pods != [] {
      assert pods == pods[..|pods| - 1] + [pods[|pods| - 1]];
      SlotPodHasOrdinal(pods[..|pods| - 1], i);
    }
  }

  lemma SlotsIndexed(job: Job, pods: seq<Pod>)
    ensures Indexed(Slots(job, pods))
  {
    forall i | 0 <= i < job.sts.replicas
      ensures Slots(job, pods)[i].key.ordinal == i
    {
      SlotPodHasOrdinal(pods, i);
    }
  }

  predicate Permitted(job: Job) {
    && !job.sts.deleting && !job.sts.strategy.OnDelete? && job.satisfied
    && MaxUnavailable(job.sts).Some? && !(job.sts.rolling.Some? && job.sts.rolling.value.paused)
  }

  lemma {:induction false} BeforeRollPermitted(job: Job, m: Machine)
    requires InRange(job, m) && !m.pc.AtRoll? && (job.sts.deleting ==> m.pc.Done?)
    ensures BeforeRoll(job, m).pc.AtRoll? ==> Permitted(job)
    decreases Rank(m.pc), Left(job, m.pc)
  {
    hide SlotStep, Apply, MaxUnavailable;
    if !m.pc.Done? && !Step(job, m).pc.AtRoll? {
      BeforeRollPermitted(job, Step(job, m));
    } else if m.pc.AtSlot? && m.pc.i < |m.replicas| {
      SlotNeverRolls(job, m, m.pc.i);
    }
  }

  lemma SlotNeverRolls(job: Job, m: Machine, i: nat)
    requires m.pc == AtSlot(i) && i < |m.replicas|
    ensures !SlotStep(job, m, i).pc.AtRoll?
  {
    hide Apply;
  }

  /** Whatever the snapshot: a set that is being deleted, updates on delete only, is paused, has a
      malformed bound or awaits an earlier in-place update is not rolled. */
  lemma RollingNeedsPermission(job: Job, pods: seq<Pod>, store: Store)
    requires !Permitted(job)
    ensures Round(job, pods, store).log == BeforeRoll(job, Start(job, pods, store)).log
    ensures job.sts.deleting ==> Round(job, pods, store).log == []
  {
    var s := Start(job, pods, store);
    SlotsIndexed(job, pods);
    BeforeRollFacts(job, s);
    BeforeRollPermitted(job, s);
  }

  /** No pod below the partition is acted on; a pod is acted on only while fewer than Limit pods above
      it are stale, unhealthy or mid-update; at most Limit pods are acted on; and in OrderedReady mode
      at most Limit of all replicas are unhealthy or being updated afterwards. */
  lemma RollingIsBounded(job: Job, pods: seq<Pod>, store: Store)
    ensures BeforeRoll(job, Start(job, pods, store)).log <= Round(job, pods, store).log
    ensures
      var b := BeforeRoll(job, Start(job, pods, store));
      var calls := Round(job, pods, store).log[|b.log|..];
      && (forall c | c in calls :: RollsAbove(job, b.replicas, 0, c))
      && CountTouched(b.replicas, calls, 0) <= Limit(job.sts)
      && (!job.sts.parallel && b.pc.AtRoll? ==> CountDisturbed(b.replicas, calls, 0) <= Limit(job.sts))
  {
    var s := Start(job, pods, store);
    SlotsIndexed(job, pods);
    BeforeRollFacts(job, s);
    var b := BeforeRoll(job, s);
    RunGrows(job, b);
    var m := Run(job, b);
    var calls := m.log[|b.log|..];
    if b.pc.AtRoll? {
      var stop := RunScanned(job, b.replicas, b, |b.log|, |b.replicas|);
      assert forall c | c in calls :: RollsAbove(job, b.replicas, stop, c);
      DisturbedBound(job, b.replicas, calls, stop, 0);
      if !job.sts.parallel {
        SequentialReachesRollHealthy(job, Slots(job, pods), s, 0);
      }
    } else {
      assert calls == [];
      DisturbedBound(job, b.replicas, calls, |b.replicas|, 0);
    }
  }

  /** What the spec says about the rolling phase, read off its calls: the partition, the policy and an
      absolute bound (one if there is none) are respected, and only stale pods are touched. */
  lemma RollingRespectsTheSpec(job: Job, pods: seq<Pod>, store: Store, c: Call, j: nat)
    requires |BeforeRoll(job, Start(job, pods, store)).log| <= j < |Round(job, pods, store).log|
    requires c == Round(job, pods, store).log[j]
    ensures c.action.pod.revision != job.upd && !c.action.pod.terminating && !c.action.Create? && !c.action.Repair?
    ensures job.sts.rolling.Some? ==> job.sts.rolling.value.partition <= c.action.pod.key.ordinal < job.sts.replicas
    ensures c.action.Patch? ==>
      && job.sts.rolling.Some? && !job.sts.rolling.value.policy.ReCreate? && Completed(c.action.pod)
      && c.action.revision == job.upd && job.plan(c.action.pod.revision) == Some(c.action.images)
    ensures c.action.Delete? && job.sts.rolling.Some? && job.sts.rolling.value.policy.InPlaceOnly? ==>
      job.plan(c.action.pod.revision).None?
    ensures
      var b := BeforeRoll(job, Start(job, pods, store));
      var touched := CountTouched(b.replicas, Round(job, pods, store).log[|b.log|..], 0);
      && (job.sts.rolling.None? || job.sts.rolling.value.maxUnavailable.None? ==> touched <= 1)
      && (job.sts.rolling.Some? ==> forall v: nat | job.sts.rolling.value.maxUnavailable == Some(IntVal(v)) ::
            touched <= if v > 1 then v else 1)
  {
    hide CountTouched, CountDisturbed, Round, BeforeRoll;
    RollingIsBounded(job, pods, store);
    var b := BeforeRoll(job, Start(job, pods, store));
    RollSlotsIndexed(job, pods, store);
    assert c == Round(job, pods, store).log[|b.log|..][j - |b.log|];
    assert RollsAbove(job, b.replicas, 0, c);
  }

  lemma RollSlotsIndexed(job: Job, pods: seq<Pod>, store: Store)
    ensures var b := BeforeRoll(job, Start(job, pods, store)); Indexed(b.replicas) && |b.replicas| == job.sts.replicas
  {
    SlotsIndexed(job, pods);
    BeforeRollFacts(job, Start(job, pods, store));
  }

  lemma {:induction false} SequentialReachesRollHealthy(job: Job, slots: seq<Pod>, m: Machine, u: nat)
    requires InRange(job, m) && !job.sts.parallel && Ordered(job, slots, m, u)
    ensures
      var b := BeforeRoll(job, m);
      b.pc.AtRoll? ==> b.replicas == slots && HealthyBelow(slots, |slots|)
    decreases Rank(m.pc), Left(job, m.pc)
  {
    if !m.pc.Done? && !m.pc.AtRoll? {
      var v := StepOrdered(job, slots, m, u);
      SequentialReachesRollHealthy(job, slots, Step(job, m), v);
    }
  }

  /** A percentage between 1 and 100 of at least one replica gives a bound in 1..n: the exact quotient
      rounded up. */
  lemma PercentInRange(sts: StatefulSet)
    requires sts.rolling.Some? && sts.replicas >= 1
    requires exists v :: sts.rolling.value.maxUnavailable == Some(Percent(v)) && 1 <= v <= 100
    ensures MaxUnavailable(sts).Some? && 1 <= MaxUnavailable(sts).value <= sts.replicas
    ensures
      var exact := sts.rolling.value.maxUnavailable.value.v * sts.replicas;
      100 * (MaxUnavailable(sts).value - 1) < exact <= 100 * MaxUnavailable(sts).value
    ensures Limit(sts) == MaxUnavailable(sts).value
  {
    var v, n := sts.rolling.value.maxUnavailable.value.v, sts.replicas;
    assert 1 <= v * n <= 100 * n by {
      assert (100 - v) * n >= 0;
      assert (v - 1) * n >= 0;
    }
  }
}
