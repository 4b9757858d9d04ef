/** Liveness: with working calls and an environment that settles between rounds, every round gets
    closer to the target state, in both modes, until it is reached
    (controllers/stateful_set_control.go:85-625). */
module Convergence {
  import opened Pods
  import opened RoundSpec
  import opened RoundOrder
  import opened RoundRolling
  import opened RoundBurst
  import opened RoundLedger
  import opened RoundExpectations
  import Expectations

  // ---------- distance to the target ----------

  /** A gated pod stays unready until the controller has written its condition True. */
  function Debt(p: Pod): nat {
    if p.gate && !p.cond.IsTrue? then 1 else 0
  }

  /** What slot i still needs: a pod (2, as a new one may have to be marked ready), a replacement of a
      failed pod (2), an update (3, as recreation leaves the slot empty for a while), a mark (1). */
  function SlotWork(min: nat, upd: string, store: Store, i: nat): nat {
    var k := Slot(i);
    if k !in store || store[k].terminating then 2
    else
      (if store[k].phase.Failed? then 2 else 0) +
      (if i >= min && store[k].revision != upd then 3 else 0) +
      Debt(store[k])
  }

  function SlotsWork(min: nat, upd: string, store: Store, i: nat): nat {
    if i == 0 then 0 else SlotsWork(min, upd, store, i - 1) + SlotWork(min, upd, store, i - 1)
  }

  function Surplus(n: nat, store: Store): set<Key> {
    set k | k in store && k.ordinal >= n && !store[k].terminating
  }

  /** Of n slots those from `min` on are to be at the update revision. */
  function Distance(n: nat, min: nat, upd: string, store: Store): nat {
    SlotsWork(min, upd, store, n) + |Surplus(n, store)|
  }

  function Work(sts: StatefulSet, upd: string, store: Store): nat {
    Distance(sts.replicas, UpdateMin(sts), upd, store)
  }

  lemma {:induction false} SlotsWorkOff(min: nat, upd: string, a: Store, b: Store, o: int, i: nat)
    requires AgreeOff(a, b, o)
    ensures SlotsWork(min, upd, b, i) - SlotsWork(min, upd, a, i) ==
      if 0 <= o < i then SlotWork(min, upd, b, o) - SlotWork(min, upd, a, o) else 0
  {
    if i > 0 {
      SlotsWorkOff(min, upd, a, b, o, i - 1);
      if o != i - 1 {
        assert Slot(i - 1).ordinal != o;
      }
    }
  }

  /** A change about slot o changes the distance by what it changes there. */
  lemma WorkOff(n: nat, min: nat, upd: string, a: Store, b: Store, o: nat)
    requires AgreeOff(a, b, o) && o < n
    ensures Distance(n, min, upd, b) - Distance(n, min, upd, a) == SlotWork(min, upd, b, o) - SlotWork(min, upd, a, o)
  {
    SlotsWorkOff(min, upd, a, b, o, n);
    assert Surplus(n, a) == Surplus(n, b);
  }

  /** Deleting a surplus pod brings the target one closer. */
  lemma SurplusDeleted(sts: StatefulSet, upd: string, store: Store, p: Pod)
    requires p.key in store && p.key.ordinal >= sts.replicas && !store[p.key].terminating
    ensures Work(sts, upd, Apply(store, Call(Delete(p), Ok))) == Work(sts, upd, store) - 1
  {
    var b := Apply(store, Call(Delete(p), Ok));
    SlotsWorkOff(UpdateMin(sts), upd, store, b, p.key.ordinal, sts.replicas);
    assert Surplus(sts.replicas, b) == Surplus(sts.replicas, store) - {p.key};
  }

  // ---------- a settled cluster ----------

  predicate Good(p: Pod) {
    Healthy(p) && Completed(p) && (p.gate ==> p.cond.IsTrue?)
  }

  /** Running and complete, but not ready before the controller marks it. */
  predicate Waiting(p: Pod) {
    p.phase.Running? && !p.ready && !p.terminating && ShouldMarkReady(p)
  }

  predicate Calm(p: Pod) {
    Good(p) || Waiting(p) || (p.phase.Failed? && !p.terminating)
  }

  predicate CanonicalKey(k: Key) {
    k.Slot? && 0 <= k.ordinal
  }

  predicate Canonical(store: Store) {
    forall k | k in store :: CanonicalKey(k) && store[k].key == k
  }

  predicate Settled(store: Store) {
    Canonical(store) && forall k | k in store :: Calm(store[k])
  }

  predicate Working(job: Job) {
    && !job.sts.deleting && !job.sts.strategy.OnDelete? && job.satisfied
    && (job.sts.rolling.Some? ==> !job.sts.rolling.value.paused)
    && MaxUnavailable(job.sts).Some? && MaxUnavailable(job.sts).value >= 1
  }

  /** An OrderedReady round can delete an unhealthy condemned pod only if it is the one unhealthy pod. */
  predicate OneSick(job: Job) {
    job.sts.parallel
    || forall i, j | 0 <= i < j < |job.condemned| :: Healthy(job.condemned[i]) || Healthy(job.condemned[j])
  }

  /** The slots of a settled listing. */
  predicate CalmSlots(job: Job, slots: seq<Pod>) {
    forall i | 0 <= i < |slots| :: slots[i].key == Slot(i) && (Calm(slots[i]) || slots[i] == NewPod(job, i))
  }

  /** A slot to be filled from `min` on gets the update revision. */
  predicate FreshFills(job: Job, min: nat, slots: seq<Pod>) {
    forall i | min <= i < |slots| && NeedsPod(slots[i]) :: NewPod(job, i).revision == job.upd
  }

  /** Slots and condemned pods of a settled listing. */
  predicate CalmSnapshot(job: Job, slots: seq<Pod>) {
    && CalmSlots(job, slots) && FreshFills(job, UpdateMin(job.sts), slots)
    && (forall p | p in job.condemned :: CanonicalKey(p.key) && Calm(p))
    && OneSick(job) && job.first == FirstUnhealthy(slots, job.condemned)
  }

  // ---------- one round makes progress ----------

  predicate AllGood(slots: seq<Pod>, i: nat) {
    i <= |slots| && forall j | 0 <= j < i :: Good(slots[j])
  }

  predicate UpdatedFrom(job: Job, slots: seq<Pod>, left: nat) {
    forall t | left <= t < |slots| && UpdateMin(job.sts) <= t :: slots[t].revision == job.upd
  }

  /** The round has found nothing to do so far. */
  predicate Idle(job: Job, slots: seq<Pod>, m: Machine) {
    match m.pc
    case AtSlot(i) => m.replicas == slots && AllGood(slots, i)
    case AtScale(left) => m.replicas == slots && AllGood(slots, |slots|) && left == |job.condemned|
    case AtGate => m.replicas == slots && AllGood(slots, |slots|) && job.condemned == []
    case AtRoll(left, u) =>
      m.replicas == slots && AllGood(slots, |slots|) && job.condemned == [] && u == 0 && UpdatedFrom(job, slots, left)
    case Done(_) => AllGood(slots, |slots|) && job.condemned == [] && UpdatedFrom(job, slots, 0)
  }

  /** The slots from i on are as the listing has them, here and on the API server. */
  predicate Untouched(slots: seq<Pod>, m: Machine, i: nat) {
    && |slots| == |m.replicas|
    && forall j | i <= j < |slots| ::
         && m.replicas[j] == slots[j]
         && (Created(slots[j]) ==> slots[j].key in m.store && m.store[slots[j].key] == slots[j])
  }

  /** Pods beyond the replica count are only ever deleted. */
  predicate SurplusKept(n: nat, a: Store, b: Store) {
    forall k | k in b && k.ordinal >= n && !b[k].terminating :: k in a && b[k] == a[k]
  }

  ghost predicate Advances(job: Job, slots: seq<Pod>, store: Store, m: Machine) {
    && Mirrors(job, m) && Canonical(m.store) && |slots| == |m.replicas|
    && (forall i | 0 <= i < |m.replicas| :: m.replicas[i].key == Slot(i))
    && (m.pc.AtSlot? ==> Untouched(slots, m, m.pc.i))
    && PatchedAreUpdated(job, m) && SurplusKept(job.sts.replicas, store, m.store)
    && Work(job.sts, job.upd, m.store) <= Work(job.sts, job.upd, store)
    && (Work(job.sts, job.upd, m.store) == Work(job.sts, job.upd, store) ==> Idle(job, slots, m))
  }

  lemma ApplyCanonical(store: Store, call: Call)
    requires Canonical(store) && CanonicalKey(call.action.pod.key)
    ensures Canonical(Apply(store, call))
  {
  }

  /** The pod a slot step leaves behind, and where it goes on. */
  lemma SlotResult(job: Job, m: Machine, i: nat)
    requires FaultFree(job) && InRange(job, m) && m.pc == AtSlot(i) && i < |m.replicas|
    ensures
      var p, m' := m.replicas[i], SlotStep(job, m, i);
      && m'.replicas == m.replicas[i := if NeedsPod(p) then PodFor(job, p, i).(phase := Pending) else p]
      && (!NeedsPod(p) && Healthy(p) ==> m'.pc == AtSlot(i + 1))
      && (m'.pc == AtSlot(i + 1) || m'.pc.Done?)
  {
    hide Apply, ShouldMarkReady;
  }

  lemma SlotCanonical(job: Job, m: Machine, i: nat)
    requires i < |m.replicas| && m.replicas[i].key == Slot(i) && Canonical(m.store)
    ensures Canonical(SlotStep(job, m, i).store)
  {
    hide Canonical, Apply, ShouldMarkReady;
    forall store: Store, call: Call | Canonical(store) && call.action.pod.key == Slot(i)
      ensures Canonical(Apply(store, call))
    {
      ApplyCanonical(store, call);
    }
  }

  /** A pod that stays is changed at most in its condition, which is True if it should be marked. */
  lemma SlotMarks(job: Job, m: Machine, i: nat)
    requires FaultFree(job) && m.pc == AtSlot(i) && i < |m.replicas|
    requires
      var p := m.replicas[i];
      !NeedsPod(p) && !p.terminating && p.key in m.store && m.store[p.key] == p
    ensures
      var p, store' := m.replicas[i], SlotStep(job, m, i).store;
      && p.key in store'
      && store'[p.key] == p.(cond := if ShouldMarkReady(p) then IsTrue else p.cond, conforms := store'[p.key].conforms)
  {
    hide ShouldMarkReady;
  }

  lemma UntouchedOff(slots: seq<Pod>, m: Machine, m': Machine, i: nat)
    requires i < |m.replicas| == |slots| && Untouched(slots, m, i)
    requires |m'.replicas| == |slots| && m'.replicas == m.replicas[i := m'.replicas[i]]
    requires AgreeOff(m.store, m'.store, i)
    requires forall j | 0 <= j < |slots| :: m.replicas[j].key == Slot(j)
    ensures Untouched(slots, m', i + 1)
  {
  }

  lemma SurplusOff(n: nat, a: Store, b: Store, c: Store, o: nat)
    requires SurplusKept(n, a, b) && AgreeOff(b, c, o) && o < n
    ensures SurplusKept(n, a, c)
  {
  }

  lemma SlotWorkFalls(job: Job, min: nat, slots: seq<Pod>, m: Machine)
    requires FaultFree(job) && InRange(job, m) && m.pc.AtSlot? && m.pc.i < |m.replicas|
    requires CalmSlots(job, slots) && FreshFills(job, min, slots) && Untouched(slots, m, m.pc.i) && Mirrors(job, m)
    ensures
      var i, m' := m.pc.i, SlotStep(job, m, m.pc.i);
      var before, after := SlotWork(min, job.upd, m.store, i), SlotWork(min, job.upd, m'.store, i);
      after < before || (after == before && Good(slots[i]))
  {
    hide SlotStep, PatchedKeys, FirstUnhealthy, Mirrors, Completed, Balanced;
    var i := m.pc.i;
    var p, m' := slots[i], SlotStep(job, m, i);
    MirrorsAtSlot(job, m);
    if NeedsPod(p) {
      SlotStepEffect(job, m, i);
      SlotResult(job, m, i);
      EffectFacts(job, m, m', i);
    } else {
      SlotMarks(job, m, i);
    }
  }

  /** A good pod stays in place, and the round goes on. */
  lemma GoodSlotStays(job: Job, m: Machine, i: nat)
    requires FaultFree(job) && InRange(job, m) && m.pc == AtSlot(i) && i < |m.replicas| && m.replicas[i].key == Slot(i)
    ensures
      var m' := SlotStep(job, m, i);
      && m'.replicas[i].key == Slot(i)
      && (Good(m.replicas[i]) ==> m'.pc == AtSlot(i + 1) && m'.replicas == m.replicas)
  {
    hide SlotStep, Completed;
    SlotResult(job, m, i);
  }

  lemma SlotAdvances(job: Job, slots: seq<Pod>, store: Store, m: Machine)
    requires FaultFree(job) && Working(job) && InRange(job, m) && m.pc.AtSlot? && m.pc.i < |m.replicas|
    requires Advances(job, slots, store, m) && CalmSnapshot(job, slots)
    requires Mirrors(job, SlotStep(job, m, m.pc.i))
    ensures Advances(job, slots, store, SlotStep(job, m, m.pc.i))
  {
    hide SlotStep, PatchedKeys, Canonical, Distance, SlotWork, OneSick, FreshFills, CalmSlots, FirstUnhealthy, Mirrors,
      Good, SlotMirrored, Balanced, Untouched, SurplusKept, NeedsPod, PodFor, Healthy, CanReplace;
    var i := m.pc.i;
    var m' := SlotStep(job, m, i);
    assert m.replicas[i] == slots[i] by { UntouchedAt(slots, m, i); }
    MirrorsAtSlot(job, m);
    SlotStepEffect(job, m, i);
    SlotNext(job, m, i);
    GoodSlotStays(job, m, i);
    SlotCanonical(job, m, i);
    WorkOff(job.sts.replicas, UpdateMin(job.sts), job.upd, m.store, m'.store, i);
    SlotWorkFalls(job, UpdateMin(job.sts), slots, m);
    UntouchedOff(slots, m, m', i);
    SurplusOff(job.sts.replicas, store, m.store, m'.store, i);
    EffectFacts(job, m, m', i);
  }

  lemma UntouchedAt(slots: seq<Pod>, m: Machine, i: nat)
    requires i < |m.replicas| && Untouched(slots, m, i)
    ensures m.replicas[i] == slots[i]
  {
  }

  lemma MirrorsAtSlot(job: Job, m: Machine)
    requires Mirrors(job, m) && m.pc.AtSlot? && m.pc.i < |m.replicas|
    ensures PatchedKeys(m.log) == {} && m.replicas[m.pc.i].key.ordinal == m.pc.i
    ensures SlotMirrored(m.store, m.replicas[m.pc.i]) && CanReplace(m.store, m.replicas[m.pc.i])
  {
  }

  lemma DeleteKeepsSurplus(n: nat, a: Store, b: Store, p: Pod)
    requires SurplusKept(n, a, b)
    ensures SurplusKept(n, a, Apply(b, Call(Delete(p), Ok)))
  {
  }

  lemma ScaleAdvances(job: Job, slots: seq<Pod>, store: Store, m: Machine)
    requires FaultFree(job) && Working(job) && InRange(job, m) && m.pc.AtScale? && m.pc.left > 0
    requires Advances(job, slots, store, m) && CalmSnapshot(job, slots)
    requires Mirrors(job, ScaleStep(job, m, m.pc.left - 1))
    ensures Advances(job, slots, store, ScaleStep(job, m, m.pc.left - 1))
  {
    hide PatchedKeys, Canonical, Work, Mirrors, Completed, Apply, Untouched, SurplusKept;
    var t := m.pc.left - 1;
    var p, m' := job.condemned[t], ScaleStep(job, m, t);
    assert PatchedKeys(m.log) == {} && Copied(m.store, p) && p.key.ordinal >= job.sts.replicas by {
      MirrorsAtScale(job, m);
    }
    var call := Call(Delete(p), job.oracle(|m.log|));
    PatchedAppend(m.log, call);
    ApplyCanonical(m.store, call);
    DeleteKeepsSurplus(job.sts.replicas, store, m.store, p);
    assert p in job.condemned && !p.terminating;
    SurplusDeleted(job.sts, job.upd, m.store, p);
    if Idle(job, slots, m) {
      LastCondemnedGoes(job, slots, m);
    }
  }

  lemma MirrorsAtScale(job: Job, m: Machine)
    requires Mirrors(job, m) && m.pc.AtScale? && m.pc.left > 0
    ensures PatchedKeys(m.log) == {} && m.pc.left <= |job.condemned|
    ensures Copied(m.store, job.condemned[m.pc.left - 1])
    ensures job.condemned[m.pc.left - 1].key.ordinal >= job.sts.replicas
  {
  }

  /** With all replicas healthy the top condemned pod is deleted in either mode. */
  lemma LastCondemnedGoes(job: Job, slots: seq<Pod>, m: Machine)
    requires CalmSnapshot(job, slots) && AllGood(slots, |slots|)
    requires m.pc.AtScale? && m.pc.left == |job.condemned| > 0
    ensures
      var p := job.condemned[m.pc.left - 1];
      RunningAndReady(p) || job.sts.parallel || job.first == Some(m.pc.left - 1)
  {
    var p := job.condemned[m.pc.left - 1];
    assert p in job.condemned;
    if !RunningAndReady(p) && !job.sts.parallel {
      assert FirstSick(slots) == |slots|;
      assert !Healthy(p);
      assert FirstSick(job.condemned) == m.pc.left - 1;
    }
  }

  /** A stale pod is deleted, or patched to the update revision, or left because its last in-place
      update is incomplete. */
  lemma ReplaceWorks(job: Job, m: Machine, p: Pod)
    requires FaultFree(job) && !m.pc.Done? && Stale(job, p) && Copied(m.store, p)
    requires Canonical(m.store) && CanonicalKey(p.key) && p.key !in PatchedKeys(m.log)
    ensures
      var m', k := Replace(job, m, p), p.key;
      && Canonical(m'.store)
      && (k in PatchedKeys(m'.log) ==>
            && k in m'.store && m'.store[k].revision == job.upd
            && m'.store[k].phase == p.phase && !m'.store[k].terminating)
      && (k in PatchedKeys(m'.log) || k !in m'.store || m'.store[k].terminating || (!Completed(p) && m' == m))
  {
    hide PatchedKeys, Recorded, Completed;
    match InPlacePlan(job, p.revision)
    case None =>
      PatchedAppend(m.log, Call(Delete(p), job.oracle(|m.log|)));
    case Some(images) =>
      var m1 := Do(job, m, SetCondition(p, IsFalse));
      PatchedAppend(m.log, Call(SetCondition(p, IsFalse), job.oracle(|m.log|)));
      PatchedAppend(m1.log, Call(Patch(p, job.upd, images), job.oracle(|m1.log|)));
  }

  ghost predicate PatchedAreUpdated(job: Job, m: Machine) {
    forall k | k in PatchedKeys(m.log) :: k in m.store && !m.store[k].terminating && m.store[k].revision == job.upd
  }

  lemma ReplaceDecreasesWork(job: Job, m: Machine, t: nat)
    requires FaultFree(job) && !m.pc.Done? && t < |m.replicas| == job.sts.replicas && UpdateMin(job.sts) <= t
    requires m.replicas[t].key == Slot(t) && Created(m.replicas[t]) && Stale(job, m.replicas[t])
    requires Copied(m.store, m.replicas[t]) && m.replicas[t].key !in PatchedKeys(m.log)
    requires Canonical(m.store) && PatchedAreUpdated(job, m)
    ensures
      var p := m.replicas[t];
      var m' := Replace(job, m, p);
      && Canonical(m'.store) && PatchedAreUpdated(job, m')
      && m'.replicas == m.replicas && m'.pc == m.pc && AgreeOff(m.store, m'.store, t)
      && (Work(job.sts, job.upd, m'.store) < Work(job.sts, job.upd, m.store) || (!Completed(p) && m' == m))
  {
    hide PatchedKeys, Canonical, Distance, Replace, Completed, Counted;
    var p := m.replicas[t];
    var m' := Replace(job, m, p);
    ReplaceEffect(job, m, p);
    ReplaceSucceeds(job, m, p);
    ReplaceWorks(job, m, p);
    assert AgreeOff(m.store, m'.store, t);
    WorkOff(job.sts.replicas, UpdateMin(job.sts), job.upd, m.store, m'.store, t);
  }

  lemma RollAdvances(job: Job, slots: seq<Pod>, store: Store, m: Machine)
    requires FaultFree(job) && Working(job) && InRange(job, m) && m.pc.AtRoll? && m.pc.left > UpdateMin(job.sts)
    requires Advances(job, slots, store, m) && CalmSnapshot(job, slots)
    requires Mirrors(job, RollStep(job, m, m.pc.left - 1, m.pc.unavailable))
    ensures Advances(job, slots, store, RollStep(job, m, m.pc.left - 1, m.pc.unavailable))
  {
    hide PatchedKeys, Canonical, Work, Mirrors, Replace, Completed, Untouched, SurplusKept;
    var t := m.pc.left - 1;
    var p := m.replicas[t];
    assert Created(p) && Copied(m.store, p) && p.key !in PatchedKeys(m.log) by { MirrorsAtRoll(job, m); }
    assert PatchedAreUpdated(job, m);
    if Stale(job, p) {
      ReplaceDecreasesWork(job, m, t);
      SurplusOff(job.sts.replicas, store, m.store, Replace(job, m, p).store, t);
    }
  }

  lemma MirrorsAtRoll(job: Job, m: Machine)
    requires Mirrors(job, m) && m.pc.AtRoll? && 0 < m.pc.left <= |m.replicas|
    ensures
      var p := m.replicas[m.pc.left - 1];
      Created(p) && Copied(m.store, p) && p.key !in PatchedKeys(m.log)
  {
  }

  lemma StepAdvances(job: Job, slots: seq<Pod>, n: nat, store: Store, m: Machine)
    requires FaultFree(job) && Working(job) && InRange(job, m) && !m.pc.Done?
    requires Advances(job, slots, store, m) && CalmSnapshot(job, slots) && Ledger(job, slots, n, m)
    ensures Advances(job, slots, store, Step(job, m))
    ensures Ledger(job, slots, n, Step(job, m)) && Step(job, m).pc != Done(false)
  {
    hide SlotStep, ScaleStep, RollStep, PatchedKeys, Mirrors, Ledger, Work, Canonical, FirstUnhealthy, Untouched,
      SurplusKept;
    StepLedger(job, slots, n, m);
    StepSucceeds(job, m);
    match m.pc
    case AtSlot(i) => if i < |m.replicas| { SlotAdvances(job, slots, store, m); }
    case AtScale(left) => if left > 0 { ScaleAdvances(job, slots, store, m); }
    case AtGate =>
    case AtRoll(left, u) => if left > UpdateMin(job.sts) { RollAdvances(job, slots, store, m); }
    case Done(_) =>
  }

  lemma ReplaceSucceeds(job: Job, m: Machine, p: Pod)
    requires FaultFree(job)
    ensures Replace(job, m, p).pc == m.pc
  {
    hide Apply;
  }

  lemma StepSucceeds(job: Job, m: Machine)
    requires FaultFree(job) && MaxUnavailable(job.sts).Some? && InRange(job, m) && !m.pc.Done?
    ensures Step(job, m).pc != Done(false)
  {
    hide Apply, Replace, ShouldMarkReady;
    if m.pc.AtRoll? && m.pc.left > UpdateMin(job.sts) {
      ReplaceSucceeds(job, m, m.replicas[m.pc.left - 1]);
    }
  }

  lemma {:induction false} RunAdvances(job: Job, slots: seq<Pod>, n: nat, store: Store, m: Machine)
    requires FaultFree(job) && Working(job) && InRange(job, m)
    requires Advances(job, slots, store, m) && CalmSnapshot(job, slots) && Ledger(job, slots, n, m)
    ensures Advances(job, slots, store, Run(job, m))
    ensures m.pc != Done(false) ==> Run(job, m).pc == Done(true)
    decreases Rank(m.pc), Left(job, m.pc)
  {
    if !m.pc.Done? {
      StepAdvances(job, slots, n, store, m);
      RunAdvances(job, slots, n, store, Step(job, m));
    }
  }

  // ---------- a round on a settled cluster ----------

  lemma CalmStart(job: Job, pods: seq<Pod>, store: Store)
    requires FromListing(job, pods) && Lists(pods, store) && Settled(store)
    ensures CalmSlots(job, Slots(job, pods)) && Countable(job, pods, store)
    ensures forall p | p in job.condemned :: CanonicalKey(p.key) && Calm(p)
  {
    CondemnedDistinct(job, pods, store);
    assert forall p | p in pods :: Calm(p) && CanonicalKey(p.key) by {
      assert forall p | p in pods :: p.key in store && store[p.key] == p;
    }
    forall i | 0 <= i < job.sts.replicas
      ensures var p := Slots(job, pods)[i]; p.key == Slot(i) && (Calm(p) || p == NewPod(job, i))
    {
      SlotPodHasOrdinal(pods, i);
    }
  }

  lemma SnapshotIsCalm(job: Job, pods: seq<Pod>, store: Store)
    requires FromListing(job, pods) && Lists(pods, store) && Settled(store) && OneSick(job)
    requires FreshFills(job, UpdateMin(job.sts), Slots(job, pods))
    ensures CalmSnapshot(job, Slots(job, pods)) && Countable(job, pods, store) && Accountable(job, pods, store)
  {
    hide Calm, Lists, Settled, OneSick, FirstUnhealthy, FreshFills, CalmSlots, Accountable;
    CalmStart(job, pods, store);
  }

  lemma {:induction false} NoWork(min: nat, upd: string, store: Store, i: nat)
    requires forall j: nat | j < i :: SlotWork(min, upd, store, j) == 0
    ensures SlotsWork(min, upd, store, i) == 0
  {
    if i > 0 {
      NoWork(min, upd, store, i - 1);
    }
  }

  /** A round that found nothing to do started at the target. */
  lemma IdleMeansDone(job: Job, pods: seq<Pod>, store: Store)
    requires FromListing(job, pods) && Lists(pods, store) && Settled(store)
    requires var slots := Slots(job, pods); AllGood(slots, |slots|) && UpdatedFrom(job, slots, 0)
    requires job.condemned == []
    ensures Work(job.sts, job.upd, store) == 0
  {
    var slots := Slots(job, pods);
    forall i: nat | i < job.sts.replicas
      ensures SlotWork(UpdateMin(job.sts), job.upd, store, i) == 0
    {
      SlotPodHasOrdinal(pods, i);
      assert Good(slots[i]);
    }
    NoWork(UpdateMin(job.sts), job.upd, store, job.sts.replicas);
    BeyondFacts(pods, job.sts.replicas);
    assert |multiset(Beyond(pods, job.sts.replicas))| == 0;
    assert Surplus(job.sts.replicas, store) == {} by {
      assert forall k | k in store :: store[k] in pods && store[k].key == k;
    }
  }

  lemma SlotsListed(job: Job, pods: seq<Pod>)
    ensures forall i | 0 <= i < job.sts.replicas && Created(Slots(job, pods)[i]) :: Slots(job, pods)[i] in pods
  {
    forall i | 0 <= i < job.sts.replicas && Created(Slots(job, pods)[i])
      ensures Slots(job, pods)[i] in pods
    {
      SlotPodHasOrdinal(pods, i);
    }
  }

  lemma StartAdvances(job: Job, pods: seq<Pod>, store: Store)
    requires FaultFree(job) && Working(job)
    requires FromListing(job, pods) && Settled(store)
    requires CalmSnapshot(job, Slots(job, pods)) && Countable(job, pods, store)
    ensures Advances(job, Slots(job, pods), store, Start(job, pods, store))
  {
    hide Work, Mirrors, FromListing, Calm, FirstUnhealthy, OneSick;
    SlotsListed(job, pods);
    StartMirrors(job, pods, store);
    assert PatchedKeys([]) == {};
  }

  lemma RoundDecreasesWork(job: Job, pods: seq<Pod>, store: Store)
    requires FaultFree(job) && Working(job) && OneSick(job)
    requires FromListing(job, pods) && Lists(pods, store) && Settled(store)
    requires FreshFills(job, UpdateMin(job.sts), Slots(job, pods))
    ensures
      var m := Round(job, pods, store);
      && m.pc == Done(true) && Canonical(m.store) && PatchedAreUpdated(job, m)
      && SurplusKept(job.sts.replicas, store, m.store)
      && (Work(job.sts, job.upd, m.store) < Work(job.sts, job.upd, store)
          || Work(job.sts, job.upd, m.store) == Work(job.sts, job.upd, store) == 0)
  {
    hide Work, Ledger, FreshFills, CalmSnapshot, Countable, Accountable, Settled, Lists, FromListing, OneSick,
      Distance, Mirrors, PatchedAreUpdated, SurplusKept, Untouched;
    var s, slots := Start(job, pods, store), Slots(job, pods);
    SnapshotIsCalm(job, pods, store);
    StartAdvances(job, pods, store);
    StartLedger(job, pods, store);
    RunAdvances(job, slots, |pods|, store, s);
    if Work(job.sts, job.upd, Run(job, s).store) == Work(job.sts, job.upd, store) {
      IdleMeansDone(job, pods, store);
    }
  }

  // ---------- whole runs ----------

  /** The environment between rounds: terminating pods vanish, every other pod runs and finishes its
      in-place update, except that a failed pod may stay failed. A gated pod becomes ready only if the
      controller has written its condition True, and only the controller writes it. */
  predicate Recovers(before: Store, after: Store) {
    && after.Keys == (set k | k in before && !before[k].terminating)
    && forall k | k in after ::
         && after[k].key == k && after[k].revision == before[k].revision
         && after[k].gate == before[k].gate && after[k].cond == before[k].cond
         && Calm(after[k]) && (after[k].phase.Failed? ==> before[k].phase.Failed?)
  }

  lemma {:induction false} RecoveryKeepsSlots(min: nat, upd: string, a: Store, b: Store, i: nat)
    requires Recovers(a, b)
    ensures SlotsWork(min, upd, b, i) <= SlotsWork(min, upd, a, i)
  {
    hide Completed, ShouldMarkReady;
    if i > 0 {
      RecoveryKeepsSlots(min, upd, a, b, i - 1);
    }
  }

  lemma RecoveryAddsNoWork(n: nat, min: nat, upd: string, a: Store, b: Store)
    requires Recovers(a, b) && Canonical(a)
    ensures Distance(n, min, upd, b) <= Distance(n, min, upd, a) && Settled(b)
  {
    RecoveryKeepsSlots(min, upd, a, b, n);
    assert Surplus(n, b) == Surplus(n, a) by {
      assert forall k | k in b :: !b[k].terminating;
    }
  }

  /** An OrderedReady run needs that of any two pods beyond the replica count one is healthy. */
  predicate OneSickSurplus(sts: StatefulSet, store: Store) {
    sts.parallel
    || forall k, l | k in Surplus(sts.replicas, store) && l in Surplus(sts.replicas, store) && k != l ::
         Healthy(store[k]) || Healthy(store[l])
  }

  /** Rounds only delete such pods, and no healthy one falls ill. */
  lemma RecoveryKeepsOneSick(sts: StatefulSet, a: Store, b: Store, c: Store)
    requires Settled(a) && SurplusKept(sts.replicas, a, b) && Recovers(b, c) && OneSickSurplus(sts, a)
    ensures OneSickSurplus(sts, c)
  {
    hide Completed;
    forall k | k in Surplus(sts.replicas, c)
      ensures k in Surplus(sts.replicas, a) && (Healthy(a[k]) ==> Healthy(c[k]))
    {
      assert k in b && b[k] == a[k] && Calm(a[k]);
    }
  }

  lemma SameSurplus(a: StatefulSet, b: StatefulSet, store: Store)
    requires SameSpec(a, b)
    ensures OneSickSurplus(a, store) <==> OneSickSurplus(b, store)
  {
  }

  lemma CondemnedOneSick(job: Job, pods: seq<Pod>, store: Store)
    requires FromListing(job, pods) && Lists(pods, store) && Settled(store)
    requires OneSickSurplus(job.sts, store)
    ensures OneSick(job)
  {
    CondemnedDistinct(job, pods, store);
    forall i, j | 0 <= i < j < |job.condemned| && !job.sts.parallel
      ensures Healthy(job.condemned[i]) || Healthy(job.condemned[j])
    {
      var p, q := job.condemned[i], job.condemned[j];
      assert p in pods && q in pods;
      assert p.key in Surplus(job.sts.replicas, store) && q.key in Surplus(job.sts.replicas, store) by {
        assert Calm(store[p.key]) && Calm(store[q.key]);
      }
    }
  }

  datatype World = World(store: Store, cache: Cache)

  /** The same spec; the status may record another count. */
  predicate SameSpec(a: StatefulSet, b: StatefulSet) {
    a == b.(currentReplicas := a.currentReplicas)
  }

  /** One reconcile on a fresh listing, then the environment settles. Job and listing may differ from
      round to round; the spec and the update revision stay. */
  ghost predicate Reconciles(
    sts: StatefulSet, upd: string, key: string, w: World, job: Job, pods: seq<Pod>, w': World)
  {
    && SameSpec(job.sts, sts) && job.upd == upd && FaultFree(job)
    && Lists(pods, w.store) && FromListing(job, pods)
    && job.satisfied == (Expectations.Pending(ObserveAll(w.cache, key, upd, pods), key, upd) == {})
    && w'.cache == ExpectAll(ObserveAll(w.cache, key, upd, pods), key, Round(job, pods, w.store).log)
    && Recovers(Round(job, pods, w.store).store, w'.store)
  }

  /** Settled, at most one unhealthy surplus pod, and every awaited pod is still listed with the label it
      is awaited for. */
  predicate Ready(sts: StatefulSet, upd: string, key: string, w: World) {
    Settled(w.store) && OneSickSurplus(sts, w.store) && StillListed(upd, key, w)
  }

  predicate StillListed(upd: string, key: string, w: World) {
    forall k | k in Expectations.Pending(w.cache, key, upd) :: k in w.store && w.store[k].revision == upd
  }

  /** Pods may be updated: not deleting, not OnDelete, not paused, some pod may be unavailable. */
  predicate MayRoll(sts: StatefulSet) {
    && !sts.deleting && !sts.strategy.OnDelete? && (sts.rolling.Some? ==> !sts.rolling.value.paused)
    && MaxUnavailable(sts).Some? && MaxUnavailable(sts).value >= 1
  }

  /** May roll, and fills slots by the partition. Without a RollingUpdate block, type RollingUpdate does not. */
  predicate Updating(sts: StatefulSet) {
    MayRoll(sts) && (sts.rolling.Some? || !sts.strategy.RollingType?)
  }

  lemma PartitionFills(job: Job, slots: seq<Pod>)
    requires job.sts.rolling.Some? || !job.sts.strategy.RollingType?
    ensures FreshFills(job, UpdateMin(job.sts), slots)
  {
  }

  lemma ReconcileDecreasesWork(
    sts: StatefulSet, upd: string, key: string, w: World, job: Job, pods: seq<Pod>, w': World)
    requires Updating(sts) && Ready(sts, upd, key, w) && Reconciles(sts, upd, key, w, job, pods, w')
    ensures Ready(sts, upd, key, w')
    ensures
      || Work(sts, upd, w'.store) < Work(sts, upd, w.store)
      || Work(sts, upd, w'.store) == Work(sts, upd, w.store) == 0
  {
    hide Work, Ready;
    PartitionFills(job, Slots(job, pods));
    FreshReconcileDecreasesWork(sts, upd, key, w, job, pods, w');
  }

  lemma AwaitedAreShown(sts: StatefulSet, upd: string, key: string, w: World, job: Job, pods: seq<Pod>, w': World)
    requires StillListed(upd, key, w) && Reconciles(sts, upd, key, w, job, pods, w')
    ensures Expectations.Pending(ObserveAll(w.cache, key, upd, pods), key, upd) == {} && job.satisfied
  {
    hide FromListing, Recovers, Round;
    ObservedAreCleared(w.cache, key, upd, pods);
    assert forall k | k in w.store :: w.store[k] in pods && w.store[k].key == k;
  }

  /** What a round has to keep for the next state to be ready again. */
  lemma ReadyAgain(sts: StatefulSet, upd: string, key: string, w: World, job: Job, pods: seq<Pod>, w': World)
    requires Ready(sts, upd, key, w) && Reconciles(sts, upd, key, w, job, pods, w')
    requires
      var m := Round(job, pods, w.store);
      Canonical(m.store) && PatchedAreUpdated(job, m) && SurplusKept(sts.replicas, w.store, m.store)
    ensures Ready(sts, upd, key, w')
  {
    hide OneSickSurplus, SurplusKept, FromListing, Lists, Round;
    var m, seen := Round(job, pods, w.store), ObserveAll(w.cache, key, upd, pods);
    AwaitedAreShown(sts, upd, key, w, job, pods, w');
    RecoveryAddsNoWork(sts.replicas, UpdateMin(sts), upd, m.store, w'.store);
    RecoveryKeepsOneSick(sts, w.store, m.store, w'.store);
    RoundPatchesTo(job, pods, w.store);
    OnlyPatchedAreExpected(seen, key, upd, m.log);
  }

  lemma FreshReconcileDecreasesWork(
    sts: StatefulSet, upd: string, key: string, w: World, job: Job, pods: seq<Pod>, w': World)
    requires MayRoll(sts) && Ready(sts, upd, key, w) && Reconciles(sts, upd, key, w, job, pods, w')
    requires FreshFills(job, UpdateMin(sts), Slots(job, pods))
    ensures Ready(sts, upd, key, w')
    ensures
      || Work(sts, upd, w'.store) < Work(sts, upd, w.store)
      || Work(sts, upd, w'.store) == Work(sts, upd, w.store) == 0
  {
    hide Distance, OneSickSurplus, SurplusKept, FromListing, FreshFills, Lists, Round, Settled, StillListed;
    var m := Round(job, pods, w.store);
    AwaitedAreShown(sts, upd, key, w, job, pods, w');
    SameSurplus(job.sts, sts, w.store);
    CondemnedOneSick(job, pods, w.store);
    RoundDecreasesWork(job, pods, w.store);
    RecoveryAddsNoWork(sts.replicas, UpdateMin(sts), upd, m.store, w'.store);
    ReadyAgain(sts, upd, key, w, job, pods, w');
  }

  /** Every slot holds a healthy pod, at the update revision from the partition on, and no pod is
      beyond the replica count. */
  predicate Target(sts: StatefulSet, upd: string, store: Store) {
    && (forall i | 0 <= i < sts.replicas ::
          Slot(i) in store && Healthy(store[Slot(i)]) && (i >= UpdateMin(sts) ==> store[Slot(i)].revision == upd))
    && forall k | k in store :: k.ordinal < sts.replicas
  }

  lemma {:induction false} NoSlotWork(min: nat, upd: string, store: Store, i: nat)
    requires SlotsWork(min, upd, store, i) == 0
    ensures forall j: nat | j < i :: SlotWork(min, upd, store, j) == 0
  {
    if i > 0 {
      NoSlotWork(min, upd, store, i - 1);
    }
  }

  /** On a settled cluster the distance is zero exactly at the target. */
  lemma NoWorkIffTarget(sts: StatefulSet, upd: string, store: Store)
    requires Settled(store)
    ensures Work(sts, upd, store) == 0 <==> Target(sts, upd, store)
  {
    if Work(sts, upd, store) == 0 {
      NoSlotWork(UpdateMin(sts), upd, store, sts.replicas);
      forall i | 0 <= i < sts.replicas
        ensures Slot(i) in store && Healthy(store[Slot(i)]) && (i >= UpdateMin(sts) ==> store[Slot(i)].revision == upd)
      {
        assert SlotWork(UpdateMin(sts), upd, store, i) == 0;
      }
      forall k | k in store
        ensures k.ordinal < sts.replicas
      {
        assert k !in Surplus(sts.replicas, store);
      }
    }
    if Target(sts, upd, store) {
      NoWork(UpdateMin(sts), upd, store, sts.replicas);
      assert Surplus(sts.replicas, store) == {};
    }
  }

  /** Convergence: along any run the distance falls every round until it is zero, and stays there; so
      after at most as many rounds as the initial distance the cluster is at the target for good. */
  lemma {:induction false} EveryRunConverges(
    sts: StatefulSet, upd: string, key: string, ws: seq<World>, rounds: seq<(Job, seq<Pod>)>, i: nat)
    requires Updating(sts) && |ws| == |rounds| + 1 && Ready(sts, upd, key, ws[0])
    requires forall r | 0 <= r < |rounds| :: Reconciles(sts, upd, key, ws[r], rounds[r].0, rounds[r].1, ws[r + 1])
    requires i <= |rounds|
    ensures Ready(sts, upd, key, ws[i])
    ensures i <= Work(sts, upd, ws[0].store) ==> Work(sts, upd, ws[i].store) <= Work(sts, upd, ws[0].store) - i
    ensures i >= Work(sts, upd, ws[0].store) ==> Target(sts, upd, ws[i].store)
  {
    hide Reconciles, Work, Target, Updating, Settled;
    if i > 0 {
      EveryRunConverges(sts, upd, key, ws, rounds, i - 1);
      ReconcileDecreasesWork(sts, upd, key, ws[i - 1], rounds[i - 1].0, rounds[i - 1].1, ws[i]);
      NoWorkIffTarget(sts, upd, ws[i - 1].store);
    }
    NoWorkIffTarget(sts, upd, ws[i].store);
  }

  /** Such runs exist: a set of one replica without pods creates it; if the template lists the gate, the
      pod runs unready until the next round, which only marks it; then the set is at its target. */
  lemma EmptySetFills(sts: StatefulSet, upd: string, key: string, job: Job)
    requires Updating(sts) && sts.replicas == 1 && !sts.parallel
    requires sts.rolling.Some? && sts.rolling.value.partition == 0
    requires job.sts == sts && job.upd == upd && FaultFree(job) && job.satisfied
    requires job.condemned == [] && job.first == None && job.gate(upd)
    ensures
      var p := NewPod(job, 0).(phase := Running);
      var q := p.(cond := IsTrue, ready := true);
      var a, b, c := World(map[], map[]), World(map[Slot(0) := p], map[]), World(map[Slot(0) := q], map[]);
      && Ready(sts, upd, key, a) && Reconciles(sts, upd, key, a, job, [], b)
      && Reconciles(sts, upd, key, b, job, [p], c) && Target(sts, upd, c.store)
      && Round(job, [p], b.store).log == [Call(SetCondition(p, IsTrue), Ok)]
  {
    hide Round, Run, Step, MaxUnavailable;
    var p := NewPod(job, 0).(phase := Running);
    EmptyRound(job);
    MarkingRound(job, p);
    assert [Call(Create(NewPod(job, 0)), Ok)][..0] == [];
    assert ExpectAll(map[], key, Round(job, [], map[]).log) == ExpectAll(map[], key, []);
    assert [Call(SetCondition(p, IsTrue), Ok)][..0] == [];
    assert ExpectAll(map[], key, [Call(SetCondition(p, IsTrue), Ok)]) == ExpectAll(map[], key, []);
    assert [p][..0] == [];
    assert ObserveAll(map[], key, upd, [p]) == map[];
    assert Slots(job, [p]) == [p];
  }

  lemma EmptyRound(job: Job)
    requires job.sts.replicas == 1 && !job.sts.parallel && !job.sts.deleting && job.oracle(0).Ok?
    ensures
      var p, m := NewPod(job, 0), Round(job, [], map[]);
      && p.key == Slot(0) && p == Pod(Slot(0), p.revision, Unset, false, false, p.gate, Absent, NoState, [], true)
      && (job.sts.rolling.Some? && job.sts.rolling.value.partition == 0 ==>
            p.revision == job.upd && p.gate == job.gate(job.upd))
      && Slots(job, []) == [p]
      && m.log == [Call(Create(p), Ok)] && m.store == map[Slot(0) := p.(phase := Pending)]
  {
    var s := Start(job, [], map[]);
    assert Step(job, s).pc == Done(true);
    assert Run(job, s) == Run(job, Step(job, s)) == Step(job, s);
  }

  lemma MarkingRound(job: Job, p: Pod)
    requires job.sts.replicas == 1 && !job.sts.parallel && !job.sts.deleting && job.oracle(0).Ok?
    requires p.key == Slot(0) && Waiting(p)
    ensures
      var m := Round(job, [p], map[Slot(0) := p]);
      && Slots(job, [p]) == [p]
      && m.log == [Call(SetCondition(p, IsTrue), Ok)] && m.store == map[Slot(0) := p.(cond := IsTrue)]
  {
    hide ShouldMarkReady;
    var s := Start(job, [p], map[Slot(0) := p]);
    SlotPodHasOrdinal([p], 0);
    assert s.replicas == [p];
    assert Step(job, s).pc == Done(true);
    assert Run(job, s) == Run(job, Step(job, s)) == Step(job, s);
  }

  /** When an OrderedReady scale-down stalls, on healthy replicas: if and only if the top condemned pod is
      already going, or is not ready while some other condemned pod is unhealthy too. */
  lemma ScaleDownStallsIff(job: Job, slots: seq<Pod>, m: Machine)
    requires !job.sts.parallel && job.condemned != [] && m.pc == AtScale(|job.condemned|) && InRange(job, m)
    requires HealthyBelow(slots, |slots|) && job.first == FirstUnhealthy(slots, job.condemned)
    ensures
      var n := |job.condemned| - 1;
      var top := job.condemned[n];
      Run(job, m).log == m.log <==>
        top.terminating || (!RunningAndReady(top) && exists j | 0 <= j < n :: !Healthy(job.condemned[j]))
    ensures
      var top := job.condemned[|job.condemned| - 1];
      Run(job, m).log == m.log || Run(job, m).log == m.log + [Call(Delete(top), job.oracle(|m.log|))]
  {
    assert Run(job, Step(job, m)) == Step(job, m);
  }
}
