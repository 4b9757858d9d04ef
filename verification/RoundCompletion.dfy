/** When completeRollingUpdate fires (controllers/stateful_set_utils.go:383-394): exactly when the
    listing already was the finished state, although it only looks at the counters. */
module RoundCompletion {
  import opened Pods
  import opened RoundSpec
  import opened RoundOrder
  import opened RoundRolling

  predicate Completes(sts: StatefulSet, c: Counters) {
    sts.strategy.RollingType? && c.updated == c.replicas && c.ready == c.replicas
  }

  predicate AllReady(pods: seq<Pod>) {
    forall p | p in pods :: RunningAndReady(p)
  }

  predicate AllAtUpdate(job: Job, pods: seq<Pod>) {
    forall p | p in pods :: Healthy(p) && p.revision == job.upd
  }

  /** Every ordinal below the replica count is taken and no listed pod is beyond it. */
  predicate AllTaken(pods: seq<Pod>, n: nat) {
    forall i | 0 <= i < n :: SlotPod(pods, i).Some?
  }

  predicate Exactly(job: Job, pods: seq<Pod>) {
    AllTaken(pods, job.sts.replicas) && job.condemned == []
  }

  // ---------- the tally of a listing ----------

  lemma {:induction false} TallyBounds(job: Job, pods: seq<Pod>)
    ensures
      var c := Tally(pods, job.cur, job.upd);
      && c.replicas == |pods| && c.ready <= |pods| && c.updated <= |pods|
      && (c.ready == |pods| <==> AllReady(pods))
      && (AllReady(pods) ==> (c.updated == |pods| <==> AllAtUpdate(job, pods)))
  {
    if pods != [] {
      var n := |pods| - 1;
      assert pods == pods[..n] + [pods[n]];
      TallyBounds(job, pods[..n]);
    }
  }

  lemma {:induction false} BeyondListed(pods: seq<Pod>, n: int)
    ensures forall p | p in Beyond(pods, n) :: p in pods
  {
    if pods != [] {
      assert pods == pods[..|pods| - 1] + [pods[|pods| - 1]];
      BeyondListed(pods[..|pods| - 1], n);
    }
  }

  lemma CondemnedListed(job: Job, pods: seq<Pod>)
    requires FromListing(job, pods)
    ensures forall p | p in job.condemned :: p in pods
  {
    BeyondListed(pods, job.sts.replicas);
    forall p | p in job.condemned
      ensures p in pods
    {
      assert p in multiset(job.condemned);
      assert p in multiset(Beyond(pods, job.sts.replicas));
    }
  }

  // ---------- the counters never fall below the listing ----------

  /** An error-free state counts every listed pod. */
  predicate CountsAll(n: nat, ready: int, m: Machine) {
    m.pc != Done(false) ==> m.status.replicas >= n && m.status.ready == ready
  }

  /** If no listed pod is failed, updated never overtakes replicas by more than at the start. */
  predicate Lags(n: nat, updated: int, m: Machine) {
    && m.status.updated - m.status.replicas <= updated - n
    && (m.pc.AtSlot? ==> forall j | m.pc.i <= j < |m.replicas| :: !m.replicas[j].phase.Failed?)
  }

  lemma SlotCounts(job: Job, m: Machine, n: nat, ready: int, updated: int)
    requires InRange(job, m) && m.pc.AtSlot? && m.pc.i < |m.replicas| && CountsAll(n, ready, m)
    ensures CountsAll(n, ready, SlotStep(job, m, m.pc.i))
    ensures Lags(n, updated, m) ==> Lags(n, updated, SlotStep(job, m, m.pc.i))
  {
    hide Apply;
  }

  lemma RollCounts(job: Job, m: Machine, t: nat, u: nat)
    requires t < |m.replicas| && !m.pc.Done?
    ensures
      var a, b := m.status, RollStep(job, m, t, u).status;
      a.replicas == b.replicas && a.ready == b.ready && a.updated == b.updated
    ensures !RollStep(job, m, t, u).pc.AtSlot?
    ensures !Stale(job, m.replicas[t]) ==> RollStep(job, m, t, u).log == m.log
  {
    hide Apply, Unavailable;
  }

  lemma StepCounts(job: Job, m: Machine, n: nat, ready: int, updated: int)
    requires InRange(job, m) && !m.pc.Done? && CountsAll(n, ready, m)
    ensures CountsAll(n, ready, Step(job, m))
    ensures Lags(n, updated, m) ==> Lags(n, updated, Step(job, m))
  {
    hide Apply, SlotStep, RollStep;
    match m.pc
    case AtSlot(i) => if i < |m.replicas| { SlotCounts(job, m, n, ready, updated); }
    case AtRoll(left, u) => if left > UpdateMin(job.sts) { RollCounts(job, m, left - 1, u); }
    case _ =>
  }

  lemma {:induction false} RunCounts(job: Job, m: Machine, n: nat, ready: int, updated: int)
    requires InRange(job, m) && CountsAll(n, ready, m)
    ensures CountsAll(n, ready, Run(job, m))
    ensures Lags(n, updated, m) ==> Lags(n, updated, Run(job, m))
    decreases Rank(m.pc), Left(job, m.pc)
  {
    if !m.pc.Done? {
      StepCounts(job, m, n, ready, updated);
      RunCounts(job, Step(job, m), n, ready, updated);
    }
  }

  // ---------- a round on pods that are all healthy and updated ----------

  /** Nothing was created, deleted or updated, and the counters are those of the listing. */
  predicate Untouched(slots: seq<Pod>, n: nat, m: Machine) {
    && m.status.replicas == n && m.status.updated == n
    && (forall c | c in m.log :: Upkeep(c))
  }

  predicate AllCreated(slots: seq<Pod>, i: nat) {
    i <= |slots| && forall j | 0 <= j < i :: Created(slots[j])
  }

  /** The round is on track to complete, or it has created or condemned something. */
  predicate OnTrack(job: Job, slots: seq<Pod>, n: nat, m: Machine) {
    match m.pc
    case AtSlot(i) =>
      (Untouched(slots, n, m) && m.replicas == slots && AllCreated(slots, i)) || Spoiled(job, slots, n, m)
    case AtScale(left) =>
      (Untouched(slots, n, m) && m.replicas == slots && AllCreated(slots, |slots|) && left == |job.condemned|)
      || Spoiled(job, slots, n, m)
    case Done(ok) => ok ==>
      (Untouched(slots, n, m) && AllCreated(slots, |slots|) && job.condemned == []) || Spoiled(job, slots, n, m)
    case _ =>
      (Untouched(slots, n, m) && m.replicas == slots && AllCreated(slots, |slots|) && job.condemned == [])
      || Spoiled(job, slots, n, m)
  }

  predicate Spoiled(job: Job, slots: seq<Pod>, n: nat, m: Machine) {
    && (m.status.replicas > n || m.status.updated < m.status.replicas)
    && !(AllCreated(slots, |slots|) && job.condemned == [])
    && m.status.replicas >= n && m.status.updated <= m.status.replicas
    && (m.pc.AtSlot? ==> forall j | m.pc.i <= j < |m.replicas| :: !m.replicas[j].phase.Failed?)
  }

  predicate GoodWorld(job: Job, slots: seq<Pod>) {
    && (forall j | 0 <= j < |slots| :: Created(slots[j]) ==> Healthy(slots[j]) && slots[j].revision == job.upd)
    && (forall p | p in job.condemned :: Healthy(p) && p.revision == job.upd)
  }

  lemma SlotOnTrack(job: Job, slots: seq<Pod>, n: nat, m: Machine)
    requires GoodWorld(job, slots) && InRange(job, m) && OnTrack(job, slots, n, m)
    requires m.pc.AtSlot? && m.pc.i < |slots| == |m.replicas|
    ensures OnTrack(job, slots, n, SlotStep(job, m, m.pc.i))
  {
    hide Apply;
    var i := m.pc.i;
    if Untouched(slots, n, m) && m.replicas == slots && AllCreated(slots, i) {
      assert Created(slots[i]) || !AllCreated(slots, |slots|);
    }
  }

  lemma StepOnTrack(job: Job, slots: seq<Pod>, n: nat, m: Machine)
    requires GoodWorld(job, slots) && InRange(job, m) && !m.pc.Done? && |slots| == |m.replicas|
    requires OnTrack(job, slots, n, m)
    ensures OnTrack(job, slots, n, Step(job, m))
  {
    hide Apply, SlotStep, RollStep;
    match m.pc
    case AtSlot(i) => if i < |slots| { SlotOnTrack(job, slots, n, m); }
    case AtRoll(left, u) =>
      if left > UpdateMin(job.sts) {
        RollCounts(job, m, left - 1, u);
        RollAppends(job, m, left - 1, u);
      }
    case _ =>
  }

  lemma {:induction false} RunOnTrack(job: Job, slots: seq<Pod>, n: nat, m: Machine)
    requires GoodWorld(job, slots) && InRange(job, m) && |slots| == |m.replicas|
    requires OnTrack(job, slots, n, m)
    ensures OnTrack(job, slots, n, Run(job, m))
    decreases Rank(m.pc), Left(job, m.pc)
  {
    if !m.pc.Done? {
      StepOnTrack(job, slots, n, m);
      RunOnTrack(job, slots, n, Step(job, m));
    }
  }

  // ---------- main result ----------

  lemma GoodListing(job: Job, pods: seq<Pod>)
    requires FromListing(job, pods) && AllAtUpdate(job, pods)
    ensures GoodWorld(job, Slots(job, pods))
    ensures AllCreated(Slots(job, pods), job.sts.replicas) <==> AllTaken(pods, job.sts.replicas)
  {
    CondemnedListed(job, pods);
    forall i | 0 <= i < job.sts.replicas
      ensures
        var p := Slots(job, pods)[i];
        && (Created(p) ==> Healthy(p) && p.revision == job.upd)
        && (Created(p) <==> SlotPod(pods, i).Some?)
    {
      SlotPodHasOrdinal(pods, i);
    }
    var slots := Slots(job, pods);
    assert forall i | 0 <= i < |slots| :: SlotPod(pods, i).Some? <==> Created(slots[i]);
  }

  lemma NoFailedSlots(job: Job, pods: seq<Pod>)
    requires AllReady(pods)
    ensures forall j | 0 <= j < job.sts.replicas :: !Slots(job, pods)[j].phase.Failed?
  {
    forall j | 0 <= j < job.sts.replicas
      ensures !Slots(job, pods)[j].phase.Failed?
    {
      SlotPodHasOrdinal(pods, j);
    }
  }

  /** An error-free round completes the rolling update if and only if every listed pod already was
      healthy and at the update revision, every slot was taken and none was condemned; such a round
      makes no call but upkeep. */
  lemma CompletionIsSound(job: Job, pods: seq<Pod>, store: Store)
    requires !job.sts.deleting && FromListing(job, pods)
    requires Round(job, pods, store).pc == Done(true)
    ensures
      Completes(job.sts, Round(job, pods, store).status) <==>
        job.sts.strategy.RollingType? && AllAtUpdate(job, pods) && Exactly(job, pods)
    ensures
      Completes(job.sts, Round(job, pods, store).status) ==>
        forall c | c in Round(job, pods, store).log :: Upkeep(c)
  {
    var s, slots := Start(job, pods, store), Slots(job, pods);
    var t := s.status;
    var m := Run(job, s);
    TallyBounds(job, pods);
    RunCounts(job, s, |pods|, t.ready, t.updated);
    if AllReady(pods) {
      NoFailedSlots(job, pods);
      assert Lags(|pods|, t.updated, s);
      if AllAtUpdate(job, pods) {
        GoodListing(job, pods);
        RunOnTrack(job, slots, |pods|, s);
      }
    }
  }
}
