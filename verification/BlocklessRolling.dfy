/** Liveness of a set without a RollingUpdate block: the recorded CurrentReplicas, not a partition, tells
    which revision fills an empty slot (controllers/stateful_set_utils.go:264-290, 383-394,
    controllers/stateful_set_control.go:387-625). */
module BlocklessRolling {
  import opened Pods
  import opened RoundSpec
  import opened RoundOrder
  import opened RoundRolling
  import opened RoundBurst
  import opened RoundLedger
  import RoundCompletion
  import opened RoundReplay
  import opened Convergence
  import ScaleDownStalls

  // ---------- slots in need ----------

  /** Slot i is to be filled, now or after the pod in it has gone. */
  predicate Needy(store: Store, i: nat) {
    Slot(i) !in store || store[Slot(i)].terminating || store[Slot(i)].phase.Failed?
  }

  predicate NoneNeedy(store: Store, n: nat) {
    forall i: nat | i < n :: !Needy(store, i)
  }

  /** At most one slot is in need, everything above it is updated, and no pod is left beyond the replicas. */
  predicate OneNeedyOnTop(store: Store, n: nat, upd: string, t: nat) {
    && t < n && Surplus(n, store) == {} && (Slot(t) !in store || store[Slot(t)].terminating)
    && forall i: nat | i < n && i != t :: !Needy(store, i) && (i > t ==> store[Slot(i)].revision == upd)
  }

  /** The pods of a revision that stay. */
  function Staying(store: Store, rev: string): set<Key> {
    set k | k in store && !store[k].terminating && store[k].revision == rev
  }

  predicate Accepted(store: Store) {
    forall k | k in store :: Created(store[k])
  }

  // ---------- the slot loop ----------

  /** What every state of a round keeps, without in-place plans. */
  ghost predicate Plain(job: Job, slots: seq<Pod>, store: Store, m: Machine) {
    && Mirrors(job, m) && Canonical(m.store) && PatchedKeys(m.log) == {}
    && |m.replicas| == |slots| == job.sts.replicas
    && (forall i | 0 <= i < |m.replicas| :: m.replicas[i].key == Slot(i))
    && (m.pc.AtSlot? ==> Untouched(slots, m, m.pc.i))
    && SurplusKept(job.sts.replicas, store, m.store)
  }

  /** What the slot loop leaves in a slot: a pod that stays, of the revision the slot asks for. */
  lemma SlotFilled(job: Job, slots: seq<Pod>, store: Store, m: Machine)
    requires FaultFree(job) && InRange(job, m) && m.pc.AtSlot? && m.pc.i < |m.replicas|
    requires CalmSlots(job, slots) && Plain(job, slots, store, m)
    ensures
      var i, m' := m.pc.i, SlotStep(job, m, m.pc.i);
      && !Needy(m'.store, i) && AgreeOff(m.store, m'.store, i)
      && m'.store[Slot(i)].revision == (if NeedsPod(slots[i]) then NewPod(job, i) else slots[i]).revision
      && (!NeedsPod(slots[i]) ==> !Needy(m.store, i) && m.store[Slot(i)].revision == slots[i].revision)
  {
    hide SlotStep, PatchedKeys, Mirrors, Calm, Canonical, SurplusKept, SlotMirrored, Balanced, Needy, CanReplace,
      PodFor, NewPod;
    var i, m' := m.pc.i, SlotStep(job, m, m.pc.i);
    assert m.replicas[i] == slots[i] by { UntouchedAt(slots, m, i); }
    MirrorsAtSlot(job, m);
    SlotStepEffect(job, m, i);
    SlotResult(job, m, i);
    EffectFacts(job, m, m', i);
    SlotKind(job, slots[i], i);
    MirroredStays(m.store, m.replicas[i], i);
    MirroredStays(m'.store, m'.replicas[i], i);
  }

  lemma SlotKind(job: Job, p: Pod, i: nat)
    requires p.key == Slot(i) && (Calm(p) || p == NewPod(job, i))
    ensures !p.terminating && (NeedsPod(p) ==> PodFor(job, p, i) == NewPod(job, i))
    ensures NewPod(job, i).key == Slot(i) && !NewPod(job, i).terminating
  {
    hide Completed;
  }

  lemma MirroredStays(store: Store, p: Pod, i: nat)
    requires SlotMirrored(store, p) && p.key == Slot(i) && !p.terminating
    ensures Needy(store, i) <==> NeedsPod(p)
    ensures !NeedsPod(p) ==> store[Slot(i)].revision == p.revision
  {
  }

  lemma SlotPlain(job: Job, slots: seq<Pod>, store: Store, m: Machine)
    requires FaultFree(job) && InRange(job, m) && m.pc.AtSlot? && m.pc.i < |m.replicas|
    requires CalmSlots(job, slots) && Plain(job, slots, store, m) && Mirrors(job, SlotStep(job, m, m.pc.i))
    ensures Plain(job, slots, store, SlotStep(job, m, m.pc.i))
  {
    hide SlotStep, PatchedKeys, Mirrors, Canonical, CalmSlots, Untouched, SurplusKept, SlotMirrored, Balanced,
      CanReplace;
    var i, m' := m.pc.i, SlotStep(job, m, m.pc.i);
    MirrorsAtSlot(job, m);
    SlotStepEffect(job, m, i);
    SlotNext(job, m, i);
    GoodSlotStays(job, m, i);
    SlotCanonical(job, m, i);
    UntouchedOff(slots, m, m', i);
    SurplusOff(job.sts.replicas, store, m.store, m'.store, i);
    EffectFacts(job, m, m', i);
  }

  /** Outside Parallel mode the loop ends at a slot whose pod is not good. */
  lemma LoopEndsAt(job: Job, m: Machine, i: nat)
    requires FaultFree(job) && !job.sts.parallel && m.pc == AtSlot(i) && i < |m.replicas|
    requires !Good(m.replicas[i]) && (Calm(m.replicas[i]) || m.replicas[i] == NewPod(job, i))
    ensures SlotStep(job, m, i).pc.Done?
  {
    hide Apply, Completed;
  }

  // ---------- an OrderedReady round with a slot in need ----------

  /** The update revision does not matter to this distance: it counts slots in need, marks and surplus pods. */
  function Missing(job: Job, store: Store): nat {
    Distance(job.sts.replicas, job.sts.replicas, job.upd, store)
  }

  /** Until the slot is reached nothing gets worse, and the round ends with something better. */
  ghost predicate Filling(job: Job, slots: seq<Pod>, store: Store, m: Machine) {
    && Plain(job, slots, store, m)
    && (forall j: nat | j < job.sts.replicas && Needy(m.store, j) :: Needy(store, j))
    && (job.cur != job.upd && FreshFills(job, 0, slots) ==> Staying(m.store, job.cur) <= Staying(store, job.cur))
    && match m.pc
       case AtSlot(i) =>
         Missing(job, m.store) <= Missing(job, store) && exists j :: i <= j < |slots| && NeedsPod(slots[j])
       case Done(_) => Missing(job, m.store) < Missing(job, store)
       case _ => false
  }

  lemma StayingOff(a: Store, b: Store, i: nat, rev: string)
    requires AgreeOff(a, b, i) && Canonical(b)
    requires Slot(i) in Staying(b, rev) ==> Slot(i) in Staying(a, rev)
    ensures Staying(b, rev) <= Staying(a, rev)
  {
    forall k | k in Staying(b, rev)
      ensures k in Staying(a, rev)
    {
      assert k.ordinal == i ==> k == Slot(i);
    }
  }

  lemma NeedyOff(a: Store, b: Store, o: int)
    requires AgreeOff(a, b, o)
    ensures forall j: nat | j != o :: Needy(b, j) == Needy(a, j)
    ensures forall j: nat | j != o && Slot(j) in a :: Slot(j) in b && b[Slot(j)] == a[Slot(j)]
  {
    assert forall j: nat :: Slot(j).ordinal == j;
  }

  lemma SlotLowersMissing(job: Job, slots: seq<Pod>, m: Machine)
    requires FaultFree(job) && InRange(job, m) && m.pc.AtSlot? && m.pc.i < |m.replicas|
    requires CalmSlots(job, slots) && Untouched(slots, m, m.pc.i) && Mirrors(job, m) && |slots| == job.sts.replicas
    ensures
      var i, m' := m.pc.i, SlotStep(job, m, m.pc.i);
      || Missing(job, m'.store) < Missing(job, m.store)
      || (Missing(job, m'.store) == Missing(job, m.store) && Good(slots[i]))
  {
    hide SlotStep, PatchedKeys, Mirrors, Good, Calm, Distance, SlotWork, Balanced, SlotMirrored;
    var i, m' := m.pc.i, SlotStep(job, m, m.pc.i);
    MirrorsAtSlot(job, m);
    SlotStepEffect(job, m, i);
    SlotWorkFalls(job, job.sts.replicas, slots, m);
    WorkOff(job.sts.replicas, job.sts.replicas, job.upd, m.store, m'.store, i);
  }

  lemma FillingStep(job: Job, slots: seq<Pod>, store: Store, m: Machine)
    requires FaultFree(job) && !job.sts.parallel && InRange(job, m) && m.pc.AtSlot? && CalmSlots(job, slots)
    requires Filling(job, slots, store, m) && Mirrors(job, Step(job, m))
    ensures Filling(job, slots, store, Step(job, m))
  {
    hide SlotStep, PatchedKeys, Mirrors, Good, Calm, Missing, Canonical, Needy, Staying, Untouched, SurplusKept, NewPod,
      SlotMirrored;
    var i, m' := m.pc.i, Step(job, m);
    assert m.replicas[i] == slots[i] by { UntouchedAt(slots, m, i); }
    SlotPlain(job, slots, store, m);
    SlotFilled(job, slots, store, m);
    SlotLowersMissing(job, slots, m);
    NeedyOff(m.store, m'.store, i);
    GoodSlotStays(job, m, i);
    GoodNeedsNone(slots[i]);
    if !Good(slots[i]) {
      LoopEndsAt(job, m, i);
    }
    if job.cur != job.upd && FreshFills(job, 0, slots) {
      StayingSlot(m.store, i, job.cur);
      StayingSlot(m'.store, i, job.cur);
      StayingOff(m.store, m'.store, i, job.cur);
    }
  }

  lemma GoodNeedsNone(p: Pod)
    ensures Good(p) ==> !NeedsPod(p)
  {
    hide Completed;
  }

  lemma StayingSlot(store: Store, i: nat, rev: string)
    ensures Slot(i) in Staying(store, rev) ==> Slot(i) in store && store[Slot(i)].revision == rev
    ensures !Needy(store, i) ==> (Slot(i) in Staying(store, rev) <==> store[Slot(i)].revision == rev)
  {
  }

  lemma {:induction false} FillingRun(job: Job, slots: seq<Pod>, n: nat, store: Store, m: Machine)
    requires FaultFree(job) && !job.sts.parallel && InRange(job, m) && CalmSlots(job, slots)
    requires Filling(job, slots, store, m) && Ledger(job, slots, n, m)
    ensures Filling(job, slots, store, Run(job, m))
    decreases Rank(m.pc), Left(job, m.pc)
  {
    hide Ledger, SlotStep, Needy, Missing, Mirrors, CalmSlots, Canonical, PatchedKeys, Untouched, SurplusKept, Staying,
      FreshFills;
    if !m.pc.Done? {
      StepLedger(job, slots, n, m);
      FillingStep(job, slots, store, m);
      FillingRun(job, slots, n, store, Step(job, m));
    }
  }

  // ---------- any other round ----------

  /** Every surplus pod that stays is one of the first `left` condemned ones. */
  predicate SurplusIn(job: Job, store: Store, left: nat) {
    forall k | k in Surplus(job.sts.replicas, store) ::
      exists j :: 0 <= j < left <= |job.condemned| && job.condemned[j].key == k
  }

  predicate UpdatedAbove(store: Store, left: nat, n: nat, upd: string) {
    forall j: nat | left <= j < n :: !Needy(store, j) && store[Slot(j)].revision == upd
  }

  predicate AtRest(store: Store, n: nat, upd: string) {
    NoneNeedy(store, n) || exists t | 0 <= t < n :: OneNeedyOnTop(store, n, upd, t)
  }

  /** The slot loop fills every slot, or found none in need; at most one slot is emptied afterwards, when all
      surplus pods are gone and everything above it is updated. */
  ghost predicate Clean(job: Job, slots: seq<Pod>, store: Store, m: Machine) {
    && Plain(job, slots, store, m)
    && match m.pc
       case AtSlot(i) =>
         && (forall j: nat | j < job.sts.replicas && (j < i || !job.sts.parallel) :: !Needy(m.store, j))
         && SurplusIn(job, m.store, |job.condemned|)
       case AtScale(left) => NoneNeedy(m.store, job.sts.replicas) && SurplusIn(job, m.store, left)
       case AtGate => NoneNeedy(m.store, job.sts.replicas) && SurplusIn(job, m.store, 0)
       case AtRoll(left, _) =>
         && NoneNeedy(m.store, job.sts.replicas) && SurplusIn(job, m.store, 0)
         && UpdatedAbove(m.store, left, job.sts.replicas, job.upd)
       case Done(_) => AtRest(m.store, job.sts.replicas, job.upd)
  }

  lemma ParallelGoesOn(job: Job, m: Machine, i: nat)
    requires FaultFree(job) && job.sts.parallel && m.pc == AtSlot(i) && i < |m.replicas|
    ensures SlotStep(job, m, i).pc == AtSlot(i + 1)
  {
    hide Apply, ShouldMarkReady;
  }

  lemma SurplusInOff(job: Job, a: Store, b: Store, o: int, left: nat)
    requires AgreeOff(a, b, o) && o < job.sts.replicas && SurplusIn(job, a, left)
    ensures SurplusIn(job, b, left)
  {
    forall k | k in Surplus(job.sts.replicas, b)
      ensures exists j :: 0 <= j < left <= |job.condemned| && job.condemned[j].key == k
    {
      assert k in Surplus(job.sts.replicas, a);
    }
  }

  lemma CleanSlot(job: Job, slots: seq<Pod>, store: Store, m: Machine)
    requires FaultFree(job) && InRange(job, m) && m.pc.AtSlot? && m.pc.i < |m.replicas| && CalmSlots(job, slots)
    requires Clean(job, slots, store, m) && Mirrors(job, Step(job, m))
    ensures Clean(job, slots, store, Step(job, m))
  {
    hide SlotStep, PatchedKeys, Mirrors, CalmSlots, Canonical, Needy, Untouched, SurplusKept, NewPod, SurplusIn;
    var i, m' := m.pc.i, Step(job, m);
    SlotPlain(job, slots, store, m);
    SlotFilled(job, slots, store, m);
    SlotNext(job, m, i);
    NeedyOff(m.store, m'.store, i);
    SurplusInOff(job, m.store, m'.store, i, |job.condemned|);
    if job.sts.parallel {
      ParallelGoesOn(job, m, i);
    } else {
      assert NoneNeedy(m'.store, job.sts.replicas);
    }
  }

  /** Deleting a pod leaves the slots of other ordinals and the rest of the surplus. */
  lemma DeletePlain(job: Job, slots: seq<Pod>, store: Store, m: Machine, p: Pod)
    requires FaultFree(job) && Plain(job, slots, store, m) && CanonicalKey(p.key)
    ensures
      var m' := Do(job, m, Delete(p));
      && Canonical(m'.store) && PatchedKeys(m'.log) == {} && SurplusKept(job.sts.replicas, store, m'.store)
      && AgreeOff(m.store, m'.store, p.key.ordinal) && (p.key !in m'.store || m'.store[p.key].terminating)
  {
    hide PatchedKeys, Mirrors, Canonical, Untouched, SurplusKept, Apply;
    var call := Call(Delete(p), job.oracle(|m.log|));
    PatchedAppend(m.log, call);
    ApplyCanonical(m.store, call);
    ApplyFrame(m.store, call);
    DeleteKeepsSurplus(job.sts.replicas, store, m.store, p);
    DeletedGoes(m.store, p);
  }

  lemma DeletedGoes(store: Store, p: Pod)
    ensures
      var store' := Apply(store, Call(Delete(p), Ok));
      p.key !in store' || store'[p.key].terminating
  {
  }

  lemma DeletedIsNoSurplus(job: Job, store: Store, p: Pod, left: nat)
    requires 0 < left <= |job.condemned| && job.condemned[left - 1] == p && SurplusIn(job, store, left)
    ensures p.terminating && Copied(store, p) ==> SurplusIn(job, store, left - 1)
    ensures SurplusIn(job, Apply(store, Call(Delete(p), Ok)), left - 1)
  {
    var store' := Apply(store, Call(Delete(p), Ok));
    assert forall k | k in Surplus(job.sts.replicas, store') :: k in Surplus(job.sts.replicas, store) && k != p.key;
  }

  lemma CleanScale(job: Job, slots: seq<Pod>, store: Store, m: Machine)
    requires FaultFree(job) && InRange(job, m) && m.pc.AtScale? && m.pc.left > 0
    requires forall p | p in job.condemned :: CanonicalKey(p.key)
    requires Clean(job, slots, store, m) && Mirrors(job, Step(job, m))
    ensures Clean(job, slots, store, Step(job, m))
  {
    hide PatchedKeys, Mirrors, Canonical, Needy, Untouched, SurplusKept, SurplusIn, Apply;
    var t, m' := m.pc.left - 1, Step(job, m);
    var p := job.condemned[t];
    MirrorsAtScale(job, m);
    assert p in job.condemned;
    DeletePlain(job, slots, store, m, p);
    var deleted := Do(job, m, Delete(p));
    NeedyOff(m.store, deleted.store, p.key.ordinal);
    assert NoneNeedy(deleted.store, job.sts.replicas);
    DeletedIsNoSurplus(job, m.store, p, t + 1);
  }

  /** Without a block the loop goes from the top down to the first stale pod, and deletes that. */
  lemma BlocklessRoll(job: Job, m: Machine, t: nat, u: nat)
    requires FaultFree(job) && job.sts.rolling.None? && m.pc.AtRoll? && t < |m.replicas|
    ensures
      var p, m' := m.replicas[t], RollStep(job, m, t, u);
      if Stale(job, p) then
        var deleted := Do(job, m, Delete(p));
        m'.pc == Done(true) && m'.store == deleted.store && m'.log == deleted.log && m'.replicas == m.replicas
      else
        m' == m.(pc := m'.pc) && (m'.pc == Done(true) || (m'.pc.AtRoll? && m'.pc.left == t))
  {
    hide Apply, Completed, Healthy;
  }

  lemma CleanRoll(job: Job, slots: seq<Pod>, store: Store, m: Machine)
    requires FaultFree(job) && InRange(job, m) && m.pc.AtRoll? && m.pc.left > 0 && job.sts.rolling.None?
    requires Clean(job, slots, store, m) && Mirrors(job, Step(job, m))
    ensures Clean(job, slots, store, Step(job, m))
  {
    hide RollStep, Stale, Do, PatchedKeys, Mirrors, Canonical, Needy, Untouched, SurplusKept, SurplusIn, OneNeedyOnTop;
    var t, m' := m.pc.left - 1, Step(job, m);
    BlocklessRoll(job, m, t, m.pc.unavailable);
    var p := m.replicas[t];
    MirrorsAtRoll(job, m);
    DeletePlain(job, slots, store, m, p);
    if Stale(job, p) {
      EmptiedIsOnTop(job, m.store, Do(job, m, Delete(p)).store, t);
    } else {
      NotStaleIsUpdated(job, m.store, p, t);
    }
  }

  lemma EmptiedIsOnTop(job: Job, a: Store, b: Store, t: nat)
    requires t < job.sts.replicas && AgreeOff(a, b, t) && (Slot(t) !in b || b[Slot(t)].terminating)
    requires NoneNeedy(a, job.sts.replicas) && SurplusIn(job, a, 0) && UpdatedAbove(a, t + 1, job.sts.replicas, job.upd)
    ensures OneNeedyOnTop(b, job.sts.replicas, job.upd, t)
  {
    hide Needy;
    NeedyOff(a, b, t);
    SurplusInOff(job, a, b, t, 0);
    assert forall j: nat | j < job.sts.replicas :: !Needy(a, j) ==> Slot(j) in a by { NeedyFacts(a); }
  }

  lemma NeedyFacts(store: Store)
    ensures forall j: nat | !Needy(store, j) :: Slot(j) in store
  {
  }

  lemma NotStaleIsUpdated(job: Job, store: Store, p: Pod, t: nat)
    requires p.key == Slot(t) && Copied(store, p) && !Stale(job, p) && !Needy(store, t)
    ensures store[Slot(t)].revision == job.upd
  {
  }

  lemma CleanStep(job: Job, slots: seq<Pod>, n: nat, store: Store, m: Machine)
    requires FaultFree(job) && InRange(job, m) && !m.pc.Done? && CalmSlots(job, slots) && job.sts.rolling.None?
    requires forall p | p in job.condemned :: CanonicalKey(p.key)
    requires Clean(job, slots, store, m) && Ledger(job, slots, n, m)
    ensures Clean(job, slots, store, Step(job, m)) && Ledger(job, slots, n, Step(job, m))
  {
    hide SlotStep, ScaleStep, RollStep, Ledger, Needy, Mirrors, CalmSlots, Canonical, PatchedKeys, Untouched,
      SurplusKept, SurplusIn;
    assert Mirrors(job, m);
    StepLedger(job, slots, n, m);
    match m.pc
    case AtSlot(i) => if i < |m.replicas| { CleanSlot(job, slots, store, m); }
    case AtScale(left) => if left > 0 { CleanScale(job, slots, store, m); }
    case AtGate =>
    case AtRoll(left, u) => if left > 0 { CleanRoll(job, slots, store, m); }
    case Done(_) =>
  }

  lemma {:induction false} CleanRun(job: Job, slots: seq<Pod>, n: nat, store: Store, m: Machine)
    requires FaultFree(job) && InRange(job, m) && CalmSlots(job, slots) && job.sts.rolling.None?
    requires forall p | p in job.condemned :: CanonicalKey(p.key)
    requires Clean(job, slots, store, m) && Ledger(job, slots, n, m)
    ensures Clean(job, slots, store, Run(job, m))
    decreases Rank(m.pc), Left(job, m.pc)
  {
    hide Ledger, Clean, CalmSlots;
    if !m.pc.Done? {
      CleanStep(job, slots, n, store, m);
      CleanRun(job, slots, n, store, Step(job, m));
    }
  }

  // ---------- one round on a settled cluster ----------

  /** A slot is in need on a fresh listing exactly if it is on the API server. */
  lemma ListedNeeds(job: Job, pods: seq<Pod>, store: Store)
    requires Lists(pods, store) && Settled(store)
    ensures forall i: nat | i < job.sts.replicas :: NeedsPod(Slots(job, pods)[i]) <==> Needy(store, i)
  {
    forall i: nat | i < job.sts.replicas
      ensures NeedsPod(Slots(job, pods)[i]) <==> Needy(store, i)
    {
      SlotPodHasOrdinal(pods, i);
      if Slot(i) in store {
        assert store[Slot(i)] in pods && store[Slot(i)].key == Slot(i);
        CalmIsAccepted(store[Slot(i)]);
      }
    }
  }

  lemma CalmIsAccepted(p: Pod)
    requires Calm(p)
    ensures Created(p) && !p.terminating
  {
    hide Completed;
  }

  lemma StartPlain(job: Job, pods: seq<Pod>, store: Store)
    requires FromListing(job, pods) && Lists(pods, store) && Settled(store)
    ensures Plain(job, Slots(job, pods), store, Start(job, pods, store))
    ensures Ledger(job, Slots(job, pods), |pods|, Start(job, pods, store))
    ensures CalmSlots(job, Slots(job, pods)) && Countable(job, pods, store)
    ensures forall p | p in job.condemned :: CanonicalKey(p.key)
  {
    hide Mirrors, Ledger, FromListing, Calm, FirstUnhealthy;
    CalmStart(job, pods, store);
    SlotsListed(job, pods);
    StartMirrors(job, pods, store);
    StartLedger(job, pods, store);
    assert PatchedKeys([]) == {};
  }

  lemma {:induction false} ApplyAllAccepts(store: Store, log: seq<Call>)
    requires Accepted(store)
    ensures Accepted(ApplyAll(store, log))
  {
    hide Recorded;
    if log != [] {
      ApplyAllAccepts(store, log[..|log| - 1]);
    }
  }

  /** What the round keeps, and the recorded count: it counts the pods of the current revision that stay. */
  ghost predicate Kept(job: Job, store: Store, m: Machine) {
    && Canonical(m.store) && PatchedKeys(m.log) == {} && SurplusKept(job.sts.replicas, store, m.store)
    && m.status.current == |Staying(m.store, job.cur)|
  }

  lemma RoundKept(job: Job, pods: seq<Pod>, store: Store)
    requires FaultFree(job) && FromListing(job, pods) && Lists(pods, store) && Settled(store)
    requires Countable(job, pods, store) && Plain(job, Slots(job, pods), store, Round(job, pods, store))
    ensures Kept(job, store, Round(job, pods, store))
  {
    hide Round, Mirrors, Calm, FromListing, Countable, Canonical, PatchedKeys, SurplusKept, ApplyAll;
    var m := Round(job, pods, store);
    CountersMatchTheCluster(job, pods, store);
    RoundReplays(job, pods, store);
    assert Accepted(store) by { SettledIsAccepted(store); }
    ApplyAllAccepts(store, m.log);
    assert Holding(m.store, m.log, job.cur) == Staying(m.store, job.cur);
  }

  lemma SettledIsAccepted(store: Store)
    requires Settled(store)
    ensures Accepted(store)
  {
    forall k | k in store
      ensures Created(store[k])
    {
      CalmIsAccepted(store[k]);
    }
  }

  /** A Parallel round, or one that finds no slot in need, leaves at most one in need, on top. */
  lemma RoundRests(job: Job, pods: seq<Pod>, store: Store)
    requires FaultFree(job) && job.sts.rolling.None? && !job.sts.deleting
    requires FromListing(job, pods) && Lists(pods, store) && Settled(store)
    requires job.sts.parallel || NoneNeedy(store, job.sts.replicas)
    ensures
      var m := Round(job, pods, store);
      Kept(job, store, m) && AtRest(m.store, job.sts.replicas, job.upd)
  {
    hide Run, Plain, Ledger, Kept, Lists, FromListing, Settled, Countable, AtRest, SurplusIn;
    var s, slots := Start(job, pods, store), Slots(job, pods);
    StartPlain(job, pods, store);
    AllCondemned(job, pods, store);
    CleanRun(job, slots, |pods|, store, s);
    RunEnds(job, s);
    RoundKept(job, pods, store);
  }

  lemma AllCondemned(job: Job, pods: seq<Pod>, store: Store)
    requires FromListing(job, pods) && Lists(pods, store)
    ensures SurplusIn(job, store, |job.condemned|)
  {
    CondemnedExactly(job, pods);
    forall k | k in Surplus(job.sts.replicas, store)
      ensures exists j :: 0 <= j < |job.condemned| && job.condemned[j].key == k
    {
      assert store[k] in pods && store[k] in job.condemned;
    }
  }

  /** Any other one is nearer to having all slots filled. */
  lemma RoundFills(job: Job, pods: seq<Pod>, store: Store)
    requires FaultFree(job) && !job.sts.parallel && !job.sts.deleting
    requires FromListing(job, pods) && Lists(pods, store) && Settled(store)
    requires !NoneNeedy(store, job.sts.replicas)
    ensures
      var m := Round(job, pods, store);
      && Kept(job, store, m) && Missing(job, m.store) < Missing(job, store)
      && (forall j: nat | j < job.sts.replicas && Needy(m.store, j) :: Needy(store, j))
      && (job.cur != job.upd && FreshFills(job, 0, Slots(job, pods)) ==>
            Staying(m.store, job.cur) <= Staying(store, job.cur))
  {
    hide Run, Plain, Ledger, Kept, Lists, Settled, Countable, NeedsPod, Needy, Missing, FreshFills, Staying;
    var s, slots := Start(job, pods, store), Slots(job, pods);
    StartPlain(job, pods, store);
    ListedNeeds(job, pods, store);
    FillingRun(job, slots, |pods|, store, s);
    RunEnds(job, s);
    RoundKept(job, pods, store);
  }

  // ---------- whole runs ----------

  /** With the recorded current revision and CurrentReplicas. */
  datatype Record = Record(world: World, cur: string, count: int)

  /** One reconcile of Convergence, with the status it reads and the one it writes. */
  ghost predicate Continues(
    sts: StatefulSet, upd: string, key: string, a: Record, job: Job, pods: seq<Pod>, b: Record)
  {
    var status := Round(job, pods, a.world.store).status;
    && Reconciles(sts, upd, key, a.world, job, pods, b.world)
    && job.cur == a.cur && job.sts.currentReplicas == a.count
    && if RoundCompletion.Completes(sts, status) then b.cur == upd && b.count == status.updated
       else b.cur == a.cur && b.count == status.current
  }

  /** Every slot in need will get the update revision: the recorded count is no less than that of the current
      pods, and the slots in need are not below it. */
  predicate Sound(sts: StatefulSet, upd: string, s: Record) {
    s.cur == upd || (
      && |Staying(s.world.store, s.cur)| <= s.count
      && forall i: nat | i < sts.replicas && Needy(s.world.store, i) :: s.count <= i)
  }

  /** How many rounds are left at most. Filling a slot below the recorded count may give it the old revision, so
      until the state is sound only slots in need, marks and surplus pods count. */
  function RoundsLeft(sts: StatefulSet, upd: string, s: Record): nat {
    if Sound(sts, upd, s) then Work(sts, upd, s.world.store)
    else Distance(sts.replicas, sts.replicas, upd, s.world.store) + 6 * sts.replicas + 1
  }

  /** The distance of Convergence does not fall here: the slot of a lost pod is filled with the old revision, to
      be updated later. */
  lemma FillMovesAway(job: Job)
    requires job.sts.replicas == 1 && !job.sts.parallel && !job.sts.deleting && job.oracle(0).Ok?
    requires job.sts.strategy.RollingType? && job.sts.rolling.None? && job.sts.currentReplicas >= 1
    requires job.cur != job.upd
    ensures Work(job.sts, job.upd, Round(job, [], map[]).store) > Work(job.sts, job.upd, map[])
  {
    EmptyRound(job);
    var store := Round(job, [], map[]).store;
    assert SlotsWork(0, job.upd, store, 1) == SlotWork(0, job.upd, store, 0);
    assert SlotsWork(0, job.upd, map[], 1) == SlotWork(0, job.upd, map[], 0) == 2;
    assert Surplus(1, store) == {} && Surplus(1, map[]) == {};
  }

  lemma {:induction false} SlotsWorkBound(min: nat, upd: string, store: Store, i: nat)
    ensures SlotsWork(min, upd, store, i) <= 6 * i
  {
    if i > 0 {
      SlotsWorkBound(min, upd, store, i - 1);
    }
  }

  /** The distance after a round is bounded by what the round started from. */
  lemma DistanceBound(n: nat, upd: string, a: Store, b: Store)
    requires SurplusKept(n, a, b)
    ensures Distance(n, 0, upd, b) <= Distance(n, n, upd, a) + 6 * n
  {
    SlotsWorkBound(0, upd, b, n);
    SubsetCount(Surplus(n, b), Surplus(n, a));
  }

  lemma RecoveryKeepsStaying(a: Store, b: Store, rev: string)
    requires Recovers(a, b)
    ensures Staying(b, rev) == Staying(a, rev)
    ensures forall i: nat | Needy(b, i) :: Needy(a, i)
  {
    forall k | k in b
      ensures k in a && !b[k].terminating && b[k].revision == a[k].revision
    {
      CalmIsAccepted(b[k]);
    }
  }

  function Below(t: nat): (r: set<Key>)
    ensures |r| == t
    ensures forall k :: k in r <==> k.Slot? && 0 <= k.ordinal < t
  {
    if t == 0 then {} else Below(t - 1) + {Slot(t - 1)}
  }

  /** If one slot on top is in need, all pods of another revision are below it. */
  lemma StayingBelow(store: Store, n: nat, upd: string, t: nat, rev: string)
    requires Canonical(store) && OneNeedyOnTop(store, n, upd, t) && rev != upd
    ensures |Staying(store, rev)| <= t
  {
    forall k | k in Staying(store, rev)
      ensures k in Below(t)
    {
      assert k == Slot(k.ordinal);
      assert k.ordinal >= n ==> k in Surplus(n, store);
    }
    SubsetCount(Staying(store, rev), Below(t));
  }

  /** The next state is sound if the round leaves at most one slot in need, on top. */
  lemma RestIsSound(
    sts: StatefulSet, upd: string, key: string, a: Record, job: Job, pods: seq<Pod>, b: Record)
    requires Continues(sts, upd, key, a, job, pods, b)
    requires
      var m := Round(job, pods, a.world.store);
      Kept(job, a.world.store, m) && AtRest(m.store, sts.replicas, upd)
    ensures Sound(sts, upd, b)
  {
    hide Round, Lists, FromListing, Recovers, SurplusKept, Needy, Staying, OneNeedyOnTop, Canonical, StillListed;
    var after := Round(job, pods, a.world.store).store;
    RecoveryKeepsStaying(after, b.world.store, b.cur);
    if b.cur != upd && !NoneNeedy(after, sts.replicas) {
      var t :| 0 <= t < sts.replicas && OneNeedyOnTop(after, sts.replicas, upd, t);
      StayingBelow(after, sts.replicas, upd, t, b.cur);
      OnlyNeedy(after, sts.replicas, upd, t);
    }
  }

  lemma OnlyNeedy(store: Store, n: nat, upd: string, t: nat)
    requires OneNeedyOnTop(store, n, upd, t)
    ensures forall i: nat | i < n && Needy(store, i) :: i == t
  {
  }

  /** Nor does a round that only fills make a sound state unsound. */
  lemma FillingKeepsSound(
    sts: StatefulSet, upd: string, key: string, a: Record, job: Job, pods: seq<Pod>, b: Record)
    requires Continues(sts, upd, key, a, job, pods, b) && Sound(sts, upd, a)
    requires
      var m := Round(job, pods, a.world.store);
      && Kept(job, a.world.store, m)
      && (forall j: nat | j < sts.replicas && Needy(m.store, j) :: Needy(a.world.store, j))
      && (job.cur != job.upd ==> Staying(m.store, job.cur) <= Staying(a.world.store, job.cur))
    ensures Sound(sts, upd, b)
  {
    hide Round, Lists, FromListing, Recovers, SurplusKept, Needy, Staying, Canonical, StillListed;
    var after := Round(job, pods, a.world.store).store;
    RecoveryKeepsStaying(after, b.world.store, b.cur);
    if a.cur != upd {
      SubsetCount(Staying(after, a.cur), Staying(a.world.store, a.cur));
    }
  }

  /** In a sound state slots are filled with the update revision. */
  lemma SoundFills(sts: StatefulSet, upd: string, key: string, a: Record, job: Job, pods: seq<Pod>, b: Record)
    requires sts.rolling.None? && Sound(sts, upd, a) && Continues(sts, upd, key, a, job, pods, b)
    requires Settled(a.world.store)
    ensures FreshFills(job, 0, Slots(job, pods))
  {
    hide Round, FromListing, Recovers, Needy, Staying, Lists, SlotPod, NeedsPod;
    ListedNeeds(job, pods, a.world.store);
    var slots := Slots(job, pods);
    forall i | 0 <= i < |slots| && NeedsPod(slots[i])
      ensures NewPod(job, i).revision == job.upd
    {
      assert Needy(a.world.store, i);
    }
  }

  lemma KeptIsReady(sts: StatefulSet, upd: string, key: string, a: Record, job: Job, pods: seq<Pod>, b: Record)
    requires Ready(sts, upd, key, a.world) && Continues(sts, upd, key, a, job, pods, b)
    requires Kept(job, a.world.store, Round(job, pods, a.world.store))
    ensures Ready(sts, upd, key, b.world)
  {
    hide Round, Lists, FromListing, Recovers, SurplusKept, Staying, Canonical, StillListed, Settled, PatchedKeys, Ready;
    ReadyAgain(sts, upd, key, a.world, job, pods, b.world);
  }

  lemma ReconcileLowersRoundsLeft(
    sts: StatefulSet, upd: string, key: string, a: Record, job: Job, pods: seq<Pod>, b: Record)
    requires MayRoll(sts) && sts.rolling.None?
    requires Ready(sts, upd, key, a.world) && Continues(sts, upd, key, a, job, pods, b)
    ensures Ready(sts, upd, key, b.world)
    ensures Sound(sts, upd, a) ==> Sound(sts, upd, b)
    ensures
      || RoundsLeft(sts, upd, b) < RoundsLeft(sts, upd, a)
      || RoundsLeft(sts, upd, b) == RoundsLeft(sts, upd, a) == 0
  {
    hide Round, Lists, FromListing, Recovers, Kept, AtRest, Needy, Staying, Canonical, StillListed, Settled, Ready,
      Slots, Distance, FreshFills, RoundCompletion.Completes;
    var store, m := a.world.store, Round(job, pods, a.world.store);
    assert Settled(store) by { ReadyFacts(sts, upd, key, a.world); }
    if Sound(sts, upd, a) {
      SoundFills(sts, upd, key, a, job, pods, b);
      FreshReconcileDecreasesWork(sts, upd, key, a.world, job, pods, b.world);
    }
    if sts.parallel || NoneNeedy(store, sts.replicas) {
      RoundRests(job, pods, store);
      RestIsSound(sts, upd, key, a, job, pods, b);
    } else {
      RoundFills(job, pods, store);
      if Sound(sts, upd, a) {
        FillingKeepsSound(sts, upd, key, a, job, pods, b);
      }
    }
    KeptIsReady(sts, upd, key, a, job, pods, b);
    KeptBounds(sts, upd, key, a, job, pods, b);
  }

  lemma ReadyFacts(sts: StatefulSet, upd: string, key: string, w: World)
    requires Ready(sts, upd, key, w)
    ensures Settled(w.store)
  {
  }

  lemma KeptBounds(sts: StatefulSet, upd: string, key: string, a: Record, job: Job, pods: seq<Pod>, b: Record)
    requires Continues(sts, upd, key, a, job, pods, b)
    requires Kept(job, a.world.store, Round(job, pods, a.world.store))
    ensures
      Distance(sts.replicas, 0, upd, b.world.store) <=
        Distance(sts.replicas, sts.replicas, upd, a.world.store) + 6 * sts.replicas
    ensures
      Distance(sts.replicas, sts.replicas, upd, b.world.store) <=
        Missing(job, Round(job, pods, a.world.store).store)
  {
    hide Round, Lists, FromListing, Recovers, Staying, Canonical, StillListed, SurplusKept, Distance,
      RoundCompletion.Completes;
    var after := Round(job, pods, a.world.store).store;
    DistanceBound(sts.replicas, upd, a.world.store, after);
    RecoveryAddsNoWork(sts.replicas, 0, upd, after, b.world.store);
    RecoveryAddsNoWork(sts.replicas, sts.replicas, upd, after, b.world.store);
  }

  /** Without a RollingUpdate block, too, every run is at its target after a bounded number of rounds, and from
      then on, whatever count was recorded at the start. */
  lemma {:induction false} EveryBlocklessRunConverges(
    sts: StatefulSet, upd: string, key: string, ss: seq<Record>, rounds: seq<(Job, seq<Pod>)>, i: nat)
    requires MayRoll(sts) && sts.rolling.None? && |ss| == |rounds| + 1 && Ready(sts, upd, key, ss[0].world)
    requires forall r | 0 <= r < |rounds| :: Continues(sts, upd, key, ss[r], rounds[r].0, rounds[r].1, ss[r + 1])
    requires i <= |rounds|
    ensures Ready(sts, upd, key, ss[i].world)
    ensures i <= RoundsLeft(sts, upd, ss[0]) ==> RoundsLeft(sts, upd, ss[i]) <= RoundsLeft(sts, upd, ss[0]) - i
    ensures i >= RoundsLeft(sts, upd, ss[0]) ==> RoundsLeft(sts, upd, ss[i]) == 0 && Target(sts, upd, ss[i].world.store)
  {
    hide Continues, Work, Distance, Target, MayRoll, Settled, Sound, OneSickSurplus, StillListed;
    if i > 0 {
      EveryBlocklessRunConverges(sts, upd, key, ss, rounds, i - 1);
      ReconcileLowersRoundsLeft(sts, upd, key, ss[i - 1], rounds[i - 1].0, rounds[i - 1].1, ss[i]);
    }
    NoWorkIffTarget(sts, upd, ss[i].world.store);
  }

  lemma {:induction false} PairKeepsWaiting(
    sts: StatefulSet, upd: string, key: string, ss: seq<Record>, rounds: seq<(Job, seq<Pod>)>, k: Key, l: Key, i: nat)
    requires |ss| == |rounds| + 1 && ScaleDownStalls.WaitingPair(sts, ss[0].world.store, k, l)
    requires forall r | 0 <= r < |rounds| :: Continues(sts, upd, key, ss[r], rounds[r].0, rounds[r].1, ss[r + 1])
    requires i <= |rounds|
    ensures ScaleDownStalls.WaitingPair(sts, ss[i].world.store, k, l) && !Target(sts, upd, ss[i].world.store)
  {
    hide Reconciles, ScaleDownStalls.WaitingPair, Round, Target;
    var ws := seq(|ss|, j requires 0 <= j < |ss| => ss[j].world);
    ScaleDownStalls.DivergesOtherwise(sts, upd, key, ws, rounds, k, l, i);
  }

  /** And the condition is the same: of any two pods beyond the replica count one is healthy at the start. */
  lemma BlocklessConvergesIff(
    sts: StatefulSet, upd: string, key: string, ss: seq<Record>, rounds: seq<(Job, seq<Pod>)>, i: nat)
    requires MayRoll(sts) && sts.rolling.None? && |ss| == |rounds| + 1
    requires
      var w := ss[0].world;
      Settled(w.store) && StillListed(upd, key, w) && ScaleDownStalls.NoFailedSurplus(sts, w.store)
    requires forall r | 0 <= r < |rounds| :: Continues(sts, upd, key, ss[r], rounds[r].0, rounds[r].1, ss[r + 1])
    requires i <= |rounds|
    ensures
      i >= RoundsLeft(sts, upd, ss[0]) ==>
        (Target(sts, upd, ss[i].world.store) <==> OneSickSurplus(sts, ss[0].world.store))
    ensures !OneSickSurplus(sts, ss[0].world.store) ==> !Target(sts, upd, ss[i].world.store)
  {
    hide Continues, RoundsLeft, Target, MayRoll, Settled, OneSickSurplus, ScaleDownStalls.WaitingPair,
      ScaleDownStalls.NoFailedSurplus;
    if OneSickSurplus(sts, ss[0].world.store) {
      EveryBlocklessRunConverges(sts, upd, key, ss, rounds, i);
    } else {
      var k, l := ScaleDownStalls.SickSurplusWaits(sts, ss[0].world.store);
      PairKeepsWaiting(sts, upd, key, ss, rounds, k, l, i);
    }
  }
}
