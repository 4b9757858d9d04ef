/** What the order of the loops guarantees: a sequential round is a prefix of the parallel one, and
    it makes at most one kind of change, in a fixed priority. */
module RoundOrder {
  import opened Pods
  import opened RoundSpec

  function Burst(job: Job): Job {
    job.(sts := job.sts.(parallel := true))
  }

  lemma ReplaceGrows(job: Job, m: Machine, p: Pod)
    ensures m.log <= Replace(job, m, p).log
  {
    hide Apply;
  }

  lemma StepGrows(job: Job, m: Machine)
    requires InRange(job, m) && !m.pc.Done?
    ensures m.log <= Step(job, m).log
  {
    hide Apply, ShouldMarkReady, Replace, Unavailable;
    if m.pc.AtRoll? && m.pc.left > UpdateMin(job.sts) {
      ReplaceGrows(job, m, m.replicas[m.pc.left - 1]);
    }
  }

  lemma {:induction false} RunGrows(job: Job, m: Machine)
    requires InRange(job, m)
    ensures m.log <= Run(job, m).log
    decreases Rank(m.pc), Left(job, m.pc)
  {
    if !m.pc.Done? {
      StepGrows(job, m);
      RunGrows(job, Step(job, m));
    }
  }

  lemma ReplaceIgnoresMode(job: Job, m: Machine, p: Pod)
    ensures Replace(job, m, p) == Replace(Burst(job), m, p)
  {
    hide Do, Completed;
    assert forall m: Machine, a: Action :: Do(job, m, a) == Do(Burst(job), m, a) by {
      DoIgnoresMode(job);
    }
    if InPlacePlan(job, p.revision).Some? {
      var images := InPlacePlan(job, p.revision).value;
      assert PatchStale(job, m, p, images) == PatchStale(Burst(job), m, p, images);
    }
  }

  lemma DoIgnoresMode(job: Job)
    ensures forall m: Machine, a: Action :: Do(job, m, a) == Do(Burst(job), m, a)
  {
  }

  /** The rolling loop does not look at the mode. */
  lemma RollIgnoresMode(job: Job, m: Machine, t: nat, u: nat)
    requires t < |m.replicas|
    ensures RollStep(job, m, t, u) == RollStep(Burst(job), m, t, u)
  {
    hide Replace;
    ReplaceIgnoresMode(job, m, m.replicas[t]);
  }

  lemma KeepPrefix(job: Job, m: Machine, i: nat)
    requires i < |m.replicas| && m.pc == AtSlot(i)
    ensures
      var seqStep, parStep := KeepSlot(job, m, i), KeepSlot(Burst(job), m, i);
      seqStep == parStep || (seqStep.pc.Done? && seqStep.log <= parStep.log)
  {
    hide Apply, ShouldMarkReady;
  }

  lemma SlotPrefix(job: Job, m: Machine, i: nat)
    requires InRange(job, m) && m.pc == AtSlot(i) && i < |m.replicas|
    ensures
      var seqStep, parStep := SlotStep(job, m, i), SlotStep(Burst(job), m, i);
      seqStep == parStep || (seqStep.pc.Done? && seqStep.log <= parStep.log)
  {
    hide Apply, KeepSlot;
    assert NewPod(job, i) == NewPod(Burst(job), i);
    if !RecreateFailed(job, m, i).pc.Done? {
      KeepPrefix(job, RecreateFailed(job, m, i), i);
    }
  }

  /** Either both modes take the same step, or the sequential one ends the round here. */
  lemma StepPrefix(job: Job, m: Machine)
    requires InRange(job, m) && !m.pc.Done?
    ensures
      var seqStep, parStep := Step(job, m), Step(Burst(job), m);
      seqStep == parStep || (seqStep.pc.Done? && seqStep.log <= parStep.log)
  {
    hide Apply, SlotStep, RollStep;
    match m.pc
    case AtSlot(i) => if i < |m.replicas| { SlotPrefix(job, m, i); }
    case AtScale(_) =>
    case AtGate =>
    case AtRoll(left, u) => if left > UpdateMin(job.sts) { RollIgnoresMode(job, m, left - 1, u); }
    case Done(_) =>
  }

  lemma {:induction false} RunPrefix(job: Job, m: Machine)
    requires InRange(job, m)
    ensures Run(job, m).log <= Run(Burst(job), m).log
    decreases Rank(m.pc), Left(job, m.pc)
  {
    if !m.pc.Done? {
      StepPrefix(job, m);
      var seqStep, parStep := Step(job, m), Step(Burst(job), m);
      RunGrows(Burst(job), parStep);
      if seqStep == parStep {
        RunPrefix(job, seqStep);
      }
    }
  }

  /** On one snapshot and one oracle, the calls of an OrderedReady round are the first calls of the
      Parallel round. */
  lemma SequentialIsPrefixOfParallel(job: Job, pods: seq<Pod>, store: Store)
    ensures Round(job, pods, store).log <= Round(Burst(job), pods, store).log
  {
    assert Slots(job, pods) == Slots(Burst(job), pods);
    RunPrefix(job, Start(job, pods, store));
  }

  // ---------- the shape of a sequential round ----------

  /** Calls that neither create, delete nor update a pod. */
  predicate Upkeep(call: Call) {
    call.action.Repair? || (call.action.SetCondition? && call.action.value.IsTrue?)
  }

  predicate HealthyBelow(slots: seq<Pod>, i: nat) {
    i <= |slots| && forall k | 0 <= k < i :: Healthy(slots[k])
  }

  /** Slot i is filled anew: a failed pod is deleted first, and only a successful delete is followed
      by the creation. */
  predicate FillsSlot(job: Job, p: Pod, i: nat, calls: seq<Call>) {
    if p.phase.Failed? then
      && calls != [] && calls[0].action == Delete(p)
      && if calls[0].outcome.Ok? then |calls| == 2 && calls[1].action == Create(NewPod(job, i)) else |calls| == 1
    else
      p.phase.Unset? && |calls| == 1 && calls[0].action == Create(p)
  }

  /** A call of the rolling loop about the pod in slot t. */
  predicate Rolls(job: Job, slots: seq<Pod>, t: nat, call: Call) {
    && UpdateMin(job.sts) <= t < |slots| && Stale(job, slots[t])
    && call.action.pod == slots[t]
    && match call.action
       case Delete(_) =>
         InPlacePlan(job, slots[t].revision).None? || (!IsInPlaceOnly(job.sts) && Completed(slots[t]))
       case SetCondition(_, value) => value.IsFalse?
       case Patch(_, revision, images) =>
         revision == job.upd && InPlacePlan(job, slots[t].revision) == Some(images) && Completed(slots[t])
       case _ => false
  }

  predicate RollsOnly(job: Job, slots: seq<Pod>, calls: seq<Call>) {
    forall c | c in calls :: exists t: nat | t < |slots| :: Rolls(job, slots, t, c)
  }

  /** At most one kind of change, in the priority: fill one slot, delete one condemned pod, roll. */
  predicate OneChange(job: Job, slots: seq<Pod>, calls: seq<Call>) {
    || calls == []
    || (exists i: nat | i < |slots| :: HealthyBelow(slots, i) && FillsSlot(job, slots[i], i, calls))
    || (&& HealthyBelow(slots, |slots|) && job.condemned != []
        && |calls| == 1 && calls[0].action == Delete(job.condemned[|job.condemned| - 1]))
    || (HealthyBelow(slots, |slots|) && job.condemned == [] && RollsOnly(job, slots, calls))
  }

  /** The log is `u` upkeep calls followed by one change. */
  ghost predicate Ordered(job: Job, slots: seq<Pod>, m: Machine, u: nat) {
    && u <= |m.log|
    && (forall j | 0 <= j < u :: Upkeep(m.log[j]))
    && match m.pc
       case AtSlot(i) => m.replicas == slots && u == |m.log| && HealthyBelow(slots, i)
       case AtScale(left) =>
         m.replicas == slots && u == |m.log| && HealthyBelow(slots, |slots|) && left == |job.condemned|
       case AtGate => m.replicas == slots && u == |m.log| && HealthyBelow(slots, |slots|) && job.condemned == []
       case AtRoll(_, _) =>
         m.replicas == slots && HealthyBelow(slots, |slots|) && job.condemned == [] && RollsOnly(job, slots, m.log[u..])
       case Done(_) => OneChange(job, slots, m.log[u..])
  }

  lemma KeepOrdered(job: Job, m: Machine, i: nat)
    requires i < |m.replicas| && m.pc == AtSlot(i) && !job.sts.parallel
    ensures
      var m' := KeepSlot(job, m, i);
      && m.log <= m'.log && m'.replicas == m.replicas
      && (m'.pc.Done? || (m'.pc == AtSlot(i + 1) && Healthy(m.replicas[i])))
      && forall j | |m.log| <= j < |m'.log| :: Upkeep(m'.log[j])
  {
    hide Apply, ShouldMarkReady;
  }

  lemma SlotOrdered(job: Job, slots: seq<Pod>, m: Machine, u: nat) returns (v: nat)
    requires InRange(job, m) && !job.sts.parallel && Ordered(job, slots, m, u)
    requires m.pc.AtSlot? && m.pc.i < |slots|
    ensures Ordered(job, slots, Step(job, m), v)
  {
    var i := m.pc.i;
    var p := m.replicas[i];
    var m' := Step(job, m);
    hide Apply, KeepSlot, ScaleStep, GateStep, RollStep;
    var calls := m'.log[u..];
    if p.phase.Failed? || p.phase.Unset? {
      v := u;
      assert FillsSlot(job, p, i, calls);
    } else {
      KeepOrdered(job, m, i);
      v := |m'.log|;
      assert m'.log[v..] == [];
    }
  }

  /** The loop goes on to the next lower slot because the bound is not reached yet. */
  predicate RollsOn(job: Job, m: Machine, m': Machine, t: nat, u: nat)
    requires t < |m.replicas|
  {
    var u' := u + (if Unavailable(job, m.replicas[t]) then 1 else 0);
    m'.pc == AtRoll(t, u') && MaxUnavailable(job.sts).Some? && u' < MaxUnavailable(job.sts).value
  }

  /** The rolling loop only appends calls about the pod it looks at. */
  lemma RollAppends(job: Job, m: Machine, t: nat, u: nat)
    requires UpdateMin(job.sts) <= t < |m.replicas| && !m.pc.Done?
    ensures
      var m' := RollStep(job, m, t, u);
      && m.log <= m'.log && m'.replicas == m.replicas
      && (m'.pc.Done? || RollsOn(job, m, m', t, u))
      && forall j | |m.log| <= j < |m'.log| :: Rolls(job, m.replicas, t, m'.log[j])
  {
    hide Apply, Unavailable, Completed, MaxUnavailable;
  }

  lemma RollOrdered(job: Job, slots: seq<Pod>, m: Machine, u: nat)
    requires InRange(job, m) && Ordered(job, slots, m, u)
    requires m.pc.AtRoll? && m.pc.left > UpdateMin(job.sts)
    ensures Ordered(job, slots, Step(job, m), u)
  {
    hide RollStep, Rolls;
    RollAppends(job, m, m.pc.left - 1, m.pc.unavailable);
    var m' := Step(job, m);
    forall c | c in m'.log[u..]
      ensures exists t: nat | t < |slots| :: Rolls(job, slots, t, c)
    {
      var j :| u <= j < |m'.log| && m'.log[j] == c;
      if j < |m.log| {
        assert c == m.log[j] && c in m.log[u..];
      }
    }
  }

  lemma StepOrdered(job: Job, slots: seq<Pod>, m: Machine, u: nat) returns (v: nat)
    requires InRange(job, m) && !job.sts.parallel && !m.pc.Done? && Ordered(job, slots, m, u)
    ensures Ordered(job, slots, Step(job, m), v)
  {
    v := u;
    match m.pc
    case AtSlot(i) => if i < |slots| { v := SlotOrdered(job, slots, m, u); }
    case AtScale(left) =>
    case AtGate =>
    case AtRoll(left, _) => if left > UpdateMin(job.sts) { RollOrdered(job, slots, m, u); }
    case Done(_) =>
  }

  lemma {:induction false} RunOrdered(job: Job, slots: seq<Pod>, m: Machine, u: nat) returns (v: nat)
    requires InRange(job, m) && !job.sts.parallel && Ordered(job, slots, m, u)
    ensures Ordered(job, slots, Run(job, m), v)
    decreases Rank(m.pc), Left(job, m.pc)
  {
    v := u;
    if !m.pc.Done? {
      v := StepOrdered(job, slots, m, u);
      v := RunOrdered(job, slots, Step(job, m), v);
    }
  }

  lemma {:induction false} RunEnds(job: Job, m: Machine)
    requires InRange(job, m)
    ensures Run(job, m).pc.Done?
    decreases Rank(m.pc), Left(job, m.pc)
  {
    if !m.pc.Done? {
      RunEnds(job, Step(job, m));
    }
  }

  /** An OrderedReady round: upkeep of healthy pods, then at most one change. A slot is filled only
      when all lower ones are healthy; a condemned pod goes only when every replica is healthy, and
      then it is the one with the greatest ordinal; pods are updated only when none is condemned. */
  lemma SequentialRoundMakesOneChange(job: Job, pods: seq<Pod>, store: Store) returns (u: nat)
    requires !job.sts.parallel
    ensures u <= |Round(job, pods, store).log|
    ensures forall j | 0 <= j < u :: Upkeep(Round(job, pods, store).log[j])
    ensures OneChange(job, Slots(job, pods), Round(job, pods, store).log[u..])
  {
    var m := Start(job, pods, store);
    u := RunOrdered(job, Slots(job, pods), m, 0);
    RunEnds(job, m);
  }
}
