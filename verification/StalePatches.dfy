/** The third clause of the in-place protocol on listings that lag: a patch must meet a finished update.
    Exactly which calls break it, and exactly which listings lead to them
    (controllers/stateful_set_control.go:555-621, 627-655, controllers/stateful_pod_control.go:140-162). */
module StalePatches {
  import opened Pods
  import opened RoundSpec
  import opened RoundOrder
  import opened RoundRolling
  import opened RoundBurst
  import opened RoundLedger
  import opened RoundReplay
  import opened InPlaceProtocol
  import opened StaleListings

  // ---------- the clause ----------

  predicate Updates(call: Call) {
    call.action.Patch? && call.outcome.Ok?
  }

  /** Each patch that succeeds finds the last update of its pod finished, or the pod gone. */
  ghost predicate PatchesMeetFinished(store: Store, log: seq<Call>) {
    forall j | 0 <= j < |log| && Updates(log[j]) ::
      var now, k := ApplyAll(store, log[..j]), log[j].action.pod.key;
      k in now ==> Completed(now[k])
  }

  /** The same, read off the API server at the start of the round. */
  predicate PatchesOk(store: Store, log: seq<Call>) {
    forall j | 0 <= j < |log| && Updates(log[j]) ::
      var k := log[j].action.pod.key;
      k in store ==> Completed(store[k])
  }

  /** All clauses of the protocol, before, between and after the calls. */
  ghost predicate Follows(store: Store, log: seq<Call>) {
    AlwaysSafe(store, log) && PatchesMeetFinished(store, log)
  }

  // ---------- what a round leaves alone until it patches ----------

  /** The pod is there or gone, and its update finished or not, as before. */
  predicate Kept(a: Store, b: Store, k: Key) {
    (k in a <==> k in b) && (k in a ==> (Completed(a[k]) <==> Completed(b[k])))
  }

  ghost predicate KeptAtPatches(store: Store, log: seq<Call>, from: nat) {
    forall j | from <= j < |log| && Updates(log[j]) :: Kept(store, ApplyAll(store, log[..j]), log[j].action.pod.key)
  }

  lemma KeptSplit(store: Store, log: seq<Call>, mid: seq<Call>, end: seq<Call>)
    requires log <= mid <= end && KeptAtPatches(store, mid, |log|) && KeptAtPatches(store, end, |mid|)
    ensures KeptAtPatches(store, end, |log|)
  {
    hide Kept, ApplyAll;
    forall j | |log| <= j < |end| && Updates(end[j])
      ensures Kept(store, ApplyAll(store, end[..j]), end[j].action.pod.key)
    {
      if j < |mid| {
        assert end[j] == mid[j] && end[..j] == mid[..j];
      }
    }
  }

  lemma KeptThenSame(a: Store, b: Store, c: Store, o: int, k: Key)
    requires Kept(a, b, k) && AgreeOff(b, c, o) && k.ordinal != o
    ensures Kept(a, c, k)
  {
  }

  /** Conditions and identity do not enter the record of an update. */
  lemma UpkeepKeeps(a: Store, b: Store, call: Call)
    requires Kept(a, b, call.action.pod.key) && (call.action.SetCondition? || call.action.Repair?)
    ensures Kept(a, Apply(b, call), call.action.pod.key)
  {
  }

  /** A slot that may be patched holds a pod about which this round changed nothing of the kind. */
  predicate Tracked(job: Job, store: Store, now: Store, p: Pod, j: nat) {
    UpdateMin(job.sts) <= j && Stale(job, p) && InPlacePlan(job, p.revision).Some? ==> Kept(store, now, p.key)
  }

  ghost predicate Tracking(job: Job, store: Store, m: Machine, left: nat) {
    && Indexed(m.replicas) && Replayed(store, m) && left <= |m.replicas|
    && forall j | 0 <= j < left :: Tracked(job, store, m.store, m.replicas[j], j)
  }

  lemma TrackingOff(job: Job, store: Store, m: Machine, m': Machine, left: nat, o: int)
    requires Tracking(job, store, m, left) && Replayed(store, m') && AgreeOff(m.store, m'.store, o)
    requires left <= o && |m'.replicas| == |m.replicas| && Indexed(m'.replicas)
    requires forall j | 0 <= j < left :: m'.replicas[j] == m.replicas[j]
    ensures Tracking(job, store, m', left)
  {
    hide Kept, Replayed, AgreeOff;
    forall j | 0 <= j < left
      ensures Tracked(job, store, m'.store, m'.replicas[j], j)
    {
      assert Tracked(job, store, m.store, m.replicas[j], j);
      var p := m.replicas[j];
      if Kept(store, m.store, p.key) {
        KeptThenSame(store, m.store, m'.store, o, p.key);
      }
    }
  }

  // ---------- slot steps ----------

  predicate NoNewPatch(log: seq<Call>, log': seq<Call>) {
    log <= log' && forall j | |log| <= j < |log'| :: !log'[j].action.Patch?
  }

  lemma NoNewPatchIsKept(store: Store, log: seq<Call>, log': seq<Call>)
    requires NoNewPatch(log, log')
    ensures KeptAtPatches(store, log', |log|)
  {
  }

  lemma KeepKeeps(job: Job, store: Store, m: Machine, i: nat)
    requires i < |m.replicas| && Kept(store, m.store, m.replicas[i].key)
    ensures
      var m' := KeepSlot(job, m, i);
      NoNewPatch(m.log, m'.log) && m'.replicas == m.replicas && Kept(store, m'.store, m.replicas[i].key)
  {
    hide Apply, ShouldMarkReady, Kept;
    var p := m.replicas[i];
    UpkeepKeeps(store, m.store, Call(SetCondition(p, IsTrue), job.oracle(|m.log|)));
    var m1 := MarkReady(job, m, i);
    UpkeepKeeps(store, m1.store, Call(Repair(p), job.oracle(|m1.log|)));
  }

  /** An empty slot of a listing of accepted pods holds the new pod it gets. */
  predicate FreshIfEmpty(job: Job, p: Pod, j: nat) {
    p.phase.Unset? ==> p == NewPod(job, j)
  }

  lemma SlotTracks(job: Job, store: Store, m: Machine, i: nat)
    requires m.pc == AtSlot(i) && i < |m.replicas| && m.replicas[i].key.ordinal == i
    requires FreshIfEmpty(job, m.replicas[i], i) && Kept(store, m.store, m.replicas[i].key)
    ensures
      var m' := SlotStep(job, m, i);
      NoNewPatch(m.log, m'.log) && (m'.pc == AtSlot(i + 1) ==> Tracked(job, store, m'.store, m'.replicas[i], i))
  {
    hide Apply, KeepSlot, Kept;
    if !NeedsPod(m.replicas[i]) {
      KeepKeeps(job, store, m, i);
    }
  }

  // ---------- rolling steps ----------

  lemma PatchesKept(job: Job, store: Store, m: Machine, p: Pod, images: map<string, string>)
    requires Replayed(store, m) && Kept(store, m.store, p.key)
    ensures KeptAtPatches(store, PatchStale(job, m, p, images).log, |m.log|)
    ensures m.log <= PatchStale(job, m, p, images).log
  {
    hide Apply, Kept, ApplyAll;
    var m1 := Do(job, m, SetCondition(p, IsFalse));
    DoReplays(job, store, m, SetCondition(p, IsFalse));
    UpkeepKeeps(store, m.store, Call(SetCondition(p, IsFalse), job.oracle(|m.log|)));
    var end := PatchStale(job, m, p, images).log;
    forall j | |m.log| <= j < |end| && Updates(end[j])
      ensures Kept(store, ApplyAll(store, end[..j]), end[j].action.pod.key)
    {
      assert j == |m1.log| && end[..j] == m1.log;
    }
  }

  lemma ReplaceKept(job: Job, store: Store, m: Machine, p: Pod)
    requires Replayed(store, m) && (InPlacePlan(job, p.revision).Some? ==> Kept(store, m.store, p.key))
    ensures
      var m' := Replace(job, m, p);
      && KeptAtPatches(store, m'.log, |m.log|) && m.log <= m'.log
      && Replayed(store, m') && AgreeOff(m.store, m'.store, p.key.ordinal) && m'.replicas == m.replicas
  {
    hide Kept, PatchStale, ApplyAll;
    ReplaceReplays(job, store, m, p);
    ReplaceTouches(job, m, p);
    match InPlacePlan(job, p.revision)
    case None =>
    case Some(images) => if Completed(p) { PatchesKept(job, store, m, p, images); }
  }

  lemma ReplaceTouches(job: Job, m: Machine, p: Pod)
    ensures AgreeOff(m.store, Replace(job, m, p).store, p.key.ordinal)
  {
    hide Do, AgreeOff, Completed;
    var o := p.key.ordinal;
    AgreeSelf(m.store, o);
    DoTouches(job, m, Delete(p), o);
    if InPlacePlan(job, p.revision).Some? {
      var m1 := Do(job, m, SetCondition(p, IsFalse));
      var patch := Patch(p, job.upd, InPlacePlan(job, p.revision).value);
      var m2 := Do(job, m1, patch);
      DoTouches(job, m, SetCondition(p, IsFalse), o);
      DoTouches(job, m1, Delete(p), o);
      DoTouches(job, m1, patch, o);
      DoTouches(job, m2, Delete(p), o);
      AgreeTwice(m.store, m1.store, Do(job, m1, Delete(p)).store, o);
      AgreeTwice(m.store, m1.store, m2.store, o);
      AgreeTwice(m.store, m2.store, Do(job, m2, Delete(p)).store, o);
    }
  }

  // ---------- whole rounds ----------

  /** What holds until the rolling loop has passed a slot. */
  ghost predicate Watched(job: Job, store: Store, m: Machine) {
    match m.pc
    case AtSlot(i) =>
      && Tracking(job, store, m, i) && Unexamined(store, m, i)
      && forall j | i <= j < |m.replicas| :: FreshIfEmpty(job, m.replicas[j], j)
    case AtRoll(left, _) => Tracking(job, store, m, left)
    case Done(_) => true
    case _ => Tracking(job, store, m, |m.replicas|)
  }

  lemma SlotWatched(job: Job, store: Store, m: Machine)
    requires InRange(job, m) && m.pc.AtSlot? && m.pc.i < |m.replicas| && Watched(job, store, m)
    ensures Watched(job, store, SlotStep(job, m, m.pc.i)) && NoNewPatch(m.log, SlotStep(job, m, m.pc.i).log)
  {
    hide SlotStep, Kept, Tracked, FreshIfEmpty, NoNewPatch, Unexamined;
    var i := m.pc.i;
    var m' := SlotStep(job, m, i);
    UnexaminedAt(store, m, i);
    SameIsKept(store, m.store, m.replicas[i].key);
    assert FreshIfEmpty(job, m.replicas[i], i);
    SlotTracks(job, store, m, i);
    SlotTouches(job, m, i);
    SlotReplays(job, store, m, i);
    SlotStaysUnexamined(job, store, m, i);
    TrackingOff(job, store, m, m', i, i);
  }

  lemma SameIsKept(a: Store, b: Store, k: Key)
    requires (k in a <==> k in b) && (k in a ==> b[k] == a[k])
    ensures Kept(a, b, k)
  {
  }

  lemma StepWatched(job: Job, store: Store, m: Machine)
    requires InRange(job, m) && !m.pc.Done? && Watched(job, store, m)
    requires forall p | p in job.condemned :: p.key.ordinal >= job.sts.replicas
    ensures Watched(job, store, Step(job, m)) && m.log <= Step(job, m).log
    ensures KeptAtPatches(store, Step(job, m).log, |m.log|)
  {
    hide SlotStep, ScaleStep, RollStep, Tracked, Unexamined, AgreeOff, KeptAtPatches, Apply, FreshIfEmpty, ApplyAll;
    var m' := Step(job, m);
    match m.pc
    case AtSlot(i) =>
      if i < |m.replicas| {
        SlotWatched(job, store, m);
      }
      NoNewPatchIsKept(store, m.log, m'.log);
    case AtScale(left) =>
      if left > 0 {
        ScaleWatched(job, store, m, left - 1);
      }
      NoNewPatchIsKept(store, m.log, m'.log);
    case AtRoll(left, u) =>
      NoNewPatchIsKept(store, m.log, m.log);
      if left > UpdateMin(job.sts) {
        RollWatched(job, store, m);
      }
    case _ =>
      NoNewPatchIsKept(store, m.log, m'.log);
  }

  lemma ScaleWatched(job: Job, store: Store, m: Machine, t: nat)
    requires t < |job.condemned| && m.pc.AtScale? && Tracking(job, store, m, |m.replicas|)
    requires |m.replicas| == job.sts.replicas && forall p | p in job.condemned :: p.key.ordinal >= job.sts.replicas
    ensures Watched(job, store, ScaleStep(job, m, t)) && NoNewPatch(m.log, ScaleStep(job, m, t).log)
  {
    hide Tracked, AgreeOff, Apply, ApplyAll;
    var p, m' := job.condemned[t], ScaleStep(job, m, t);
    assert p in job.condemned;
    DoReplays(job, store, m, Delete(p));
    DoTouches(job, m, Delete(p), p.key.ordinal);
    AgreeSelf(m.store, p.key.ordinal);
    TrackingOff(job, store, m, m', |m.replicas|, p.key.ordinal);
  }

  lemma RollWatched(job: Job, store: Store, m: Machine)
    requires InRange(job, m) && m.pc.AtRoll? && m.pc.left > UpdateMin(job.sts) && Watched(job, store, m)
    ensures
      var m' := RollStep(job, m, m.pc.left - 1, m.pc.unavailable);
      Watched(job, store, m') && m.log <= m'.log && KeptAtPatches(store, m'.log, |m.log|)
  {
    hide Replace, Kept, AgreeOff, KeptAtPatches, Apply, ApplyAll, Unavailable;
    var t := m.pc.left - 1;
    var p := m.replicas[t];
    NoNewPatchIsKept(store, m.log, m.log);
    AgreeSelf(m.store, t);
    if Stale(job, p) {
      assert Tracked(job, store, m.store, p, t);
      ReplaceKept(job, store, m, p);
    }
    TrackingLess(job, store, m, t);
    TrackingOff(job, store, m, RollStep(job, m, t, m.pc.unavailable), t, t);
  }

  lemma TrackingLess(job: Job, store: Store, m: Machine, left: nat)
    requires Tracking(job, store, m, left + 1)
    ensures Tracking(job, store, m, left)
  {
  }

  lemma {:induction false} RunKept(job: Job, store: Store, m: Machine)
    requires InRange(job, m) && Watched(job, store, m)
    requires forall p | p in job.condemned :: p.key.ordinal >= job.sts.replicas
    ensures m.log <= Run(job, m).log && KeptAtPatches(store, Run(job, m).log, |m.log|)
    decreases Rank(m.pc), Left(job, m.pc)
  {
    hide Watched, KeptAtPatches;
    if !m.pc.Done? {
      StepWatched(job, store, m);
      RunKept(job, store, Step(job, m));
      KeptSplit(store, m.log, Step(job, m).log, Run(job, m).log);
    } else {
      NoNewPatchIsKept(store, m.log, m.log);
    }
  }

  /** When a round patches a pod, its update is finished or not as it was when the round began. */
  lemma PatchesFindTheStart(job: Job, pods: seq<Pod>, store: Store)
    requires FromListing(job, pods) && forall p | p in pods :: Created(p)
    ensures KeptAtPatches(store, Round(job, pods, store).log, 0)
  {
    hide ApplyAll;
    var s := Start(job, pods, store);
    CondemnedExactly(job, pods);
    SlotsIndexed(job, pods);
    forall j | 0 <= j < |s.replicas|
      ensures FreshIfEmpty(job, s.replicas[j], j)
    {
      SlotPodHasOrdinal(pods, j);
    }
    NoCallsYet(store);
    RunKept(job, store, s);
  }

  lemma NoCallsYet(store: Store)
    ensures ApplyAll(store, []) == store
  {
  }

  /** Whatever the mode, the outcomes and the listing of accepted pods: a round keeps the whole protocol if and
      only if each mark and each patch it writes is on a pod whose update is finished on the API server when
      the round begins, or which is gone. */
  lemma RoundFollowsIff(job: Job, pods: seq<Pod>, store: Store)
    requires Safe(store) && FromListing(job, pods) && forall p | p in pods :: Created(p)
    ensures
      var log := Round(job, pods, store).log;
      && (PatchesMeetFinished(store, log) <==> PatchesOk(store, log))
      && (Follows(store, log) <==> MarksOk(store, log, 0) && PatchesOk(store, log))
  {
    hide Round, Safe, Completed, ApplyAll, MarksOk, AlwaysSafe;
    var log := Round(job, pods, store).log;
    RoundIsSafeIff(job, pods, store);
    PatchesFindTheStart(job, pods, store);
    forall j | 0 <= j < |log| && Updates(log[j])
      ensures Kept(store, ApplyAll(store, log[..j]), log[j].action.pod.key)
    {
    }
  }

  // ---------- listings of fault-free Parallel rounds ----------

  /** The rolling loop gets to slot t: the pods above it do not fill the bound. */
  predicate Reached(job: Job, slots: seq<Pod>, t: nat) {
    t + 1 == |slots|
    || (MaxUnavailable(job.sts).Some? && CountUnavailable(job, slots, t + 1) < MaxUnavailable(job.sts).value)
  }

  /** The pod in slot t is stale, can be patched, and shows its last update finished. */
  predicate PatchDue(job: Job, slots: seq<Pod>, t: nat) {
    && UpdateMin(job.sts) <= t < |slots| && Stale(job, slots[t])
    && InPlacePlan(job, slots[t].revision).Some? && Completed(slots[t])
  }

  function PatchCall(job: Job, p: Pod): Call
    requires InPlacePlan(job, p.revision).Some?
  {
    Call(Patch(p, job.upd, InPlacePlan(job, p.revision).value), Ok)
  }

  predicate PatchedAt(job: Job, slots: seq<Pod>, t: nat, call: Call) {
    PatchDue(job, slots, t) && Reached(job, slots, t) && call == PatchCall(job, slots[t])
  }

  lemma {:induction false} CountGrows(job: Job, slots: seq<Pod>, t: nat, t': nat)
    requires t <= t'
    ensures CountUnavailable(job, slots, t') <= CountUnavailable(job, slots, t)
    decreases t' - t
  {
    if t < t' {
      CountGrows(job, slots, t + 1, t');
    }
  }

  /** A fault-free turn patches its pod exactly if a patch is due. */
  lemma TurnPatches(job: Job, m: Machine, t: nat, u: nat)
    requires FaultFree(job) && UpdateMin(job.sts) <= t < |m.replicas| && !m.pc.Done?
    ensures
      var m' := RollStep(job, m, t, u);
      && m.log <= m'.log && m'.replicas == m.replicas
      && (PatchDue(job, m.replicas, t) ==>
            |m'.log| == |m.log| + 2 && m'.log[|m.log| + 1] == PatchCall(job, m.replicas[t]))
      && (forall j | |m.log| <= j < |m'.log| && Updates(m'.log[j]) ::
            PatchDue(job, m.replicas, t) && m'.log[j] == PatchCall(job, m.replicas[t]))
  {
    hide Apply, Unavailable, MaxUnavailable, Completed;
  }

  /** The loop patches exactly the due pods it reaches. */
  lemma {:induction false} LoopPatches(job: Job, m: Machine)
    requires FaultFree(job) && InRange(job, m) && m.pc.AtRoll? && MaxUnavailable(job.sts).Some?
    requires m.pc.unavailable == CountUnavailable(job, m.replicas, m.pc.left)
    requires m.pc.left == |m.replicas| || m.pc.unavailable < MaxUnavailable(job.sts).value
    ensures m.log <= Run(job, m).log
    ensures forall j | |m.log| <= j < |Run(job, m).log| && Updates(Run(job, m).log[j]) ::
      exists t: nat | t < m.pc.left :: PatchedAt(job, m.replicas, t, Run(job, m).log[j])
    ensures forall t: nat | t < m.pc.left && PatchDue(job, m.replicas, t) && Reached(job, m.replicas, t) ::
      PatchCall(job, m.replicas[t]) in Run(job, m).log
    decreases m.pc.left
  {
    hide RollStep, PatchDue, MaxUnavailable, Unavailable, SlotStep, ScaleStep, GateStep;
    var slots, end := m.replicas, Run(job, m).log;
    if m.pc.left <= UpdateMin(job.sts) {
      assert Run(job, m) == Run(job, Step(job, m)) == m.(pc := Done(true));
      BelowIsNotDue(job, slots, m.pc.left);
    } else {
      var t0 := m.pc.left - 1;
      var m' := Step(job, m);
      TurnPatches(job, m, t0, m.pc.unavailable);
      RollStopsOrGoes(job, m, t0, m.pc.unavailable);
      RunGrows(job, m');
      assert Run(job, m) == Run(job, m');
      if m'.pc.AtRoll? {
        LoopPatches(job, m');
      } else {
        assert Run(job, m') == m';
      }
      forall j | |m.log| <= j < |end| && Updates(end[j])
        ensures exists t: nat | t < m.pc.left :: PatchedAt(job, slots, t, end[j])
      {
        if j < |m'.log| {
          assert end[j] == m'.log[j];
          assert PatchedAt(job, slots, t0, end[j]);
        }
      }
      DueHavePlans(job, slots);
      forall t: nat | t < m.pc.left && PatchDue(job, slots, t) && Reached(job, slots, t)
        ensures PatchCall(job, slots[t]) in end
      {
        if t == t0 {
          assert end[|m.log| + 1] == m'.log[|m.log| + 1];
        } else {
          CountGrows(job, slots, t + 1, t0);
        }
      }
    }
  }

  lemma BelowIsNotDue(job: Job, slots: seq<Pod>, left: nat)
    requires left <= UpdateMin(job.sts)
    ensures forall t: nat | t < left :: !PatchDue(job, slots, t)
  {
  }

  lemma RollStopsOrGoes(job: Job, m: Machine, t: nat, u: nat)
    requires FaultFree(job) && MaxUnavailable(job.sts).Some? && t < |m.replicas| && m.pc.AtRoll?
    requires u == CountUnavailable(job, m.replicas, t + 1)
    ensures
      var u' := CountUnavailable(job, m.replicas, t);
      RollStep(job, m, t, u).pc == if u' >= MaxUnavailable(job.sts).value then Done(true) else AtRoll(t, u')
  {
    hide Apply, Unavailable, MaxUnavailable, Completed;
  }

  // ---------- until the rolling loop ----------

  function Filled(job: Job, p: Pod, j: nat): Pod {
    if NeedsPod(p) then PodFor(job, p, j).(phase := Pending) else p
  }

  /** A fault-free Parallel round fills every slot in need and goes on. */
  ghost predicate Filling(job: Job, slots: seq<Pod>, m: Machine) {
    && |m.replicas| == |slots| && (forall c | c in m.log :: !c.action.Patch?)
    && match m.pc
       case AtSlot(i) =>
         && (forall j | 0 <= j < i <= |slots| :: m.replicas[j] == Filled(job, slots[j], j))
         && (forall j | i <= j < |slots| :: m.replicas[j] == slots[j])
       case AtRoll(left, u) =>
         && left == |slots| && u == 0 && Permitted(job)
         && forall j | 0 <= j < |slots| :: m.replicas[j] == Filled(job, slots[j], j)
       case Done(_) => !Permitted(job)
       case _ => forall j | 0 <= j < |slots| :: m.replicas[j] == Filled(job, slots[j], j)
  }

  lemma ParallelKeeps(job: Job, m: Machine, i: nat)
    requires FaultFree(job) && job.sts.parallel && m.pc == AtSlot(i) && i < |m.replicas|
    ensures
      var m' := KeepSlot(job, m, i);
      NoNewPatch(m.log, m'.log) && m'.pc == AtSlot(i + 1) && m'.replicas == m.replicas
  {
    hide Apply, ShouldMarkReady;
  }

  lemma ParallelFills(job: Job, m: Machine, i: nat)
    requires FaultFree(job) && job.sts.parallel && m.pc == AtSlot(i) && i < |m.replicas|
    ensures
      var m' := SlotStep(job, m, i);
      && NoNewPatch(m.log, m'.log) && m'.pc == AtSlot(i + 1)
      && m'.replicas == m.replicas[i := Filled(job, m.replicas[i], i)]
  {
    hide Apply, KeepSlot;
    if !NeedsPod(m.replicas[i]) {
      ParallelKeeps(job, m, i);
    }
  }

  lemma StepFills(job: Job, slots: seq<Pod>, m: Machine)
    requires FaultFree(job) && job.sts.parallel && !job.sts.deleting && InRange(job, m) && Filling(job, slots, m)
    requires !m.pc.Done? && !m.pc.AtRoll?
    ensures Filling(job, slots, Step(job, m))
  {
    hide Apply, SlotStep, Filled, MaxUnavailable;
    var m' := Step(job, m);
    if m.pc.AtSlot? && m.pc.i < |m.replicas| {
      ParallelFills(job, m, m.pc.i);
    }
    forall c | c in m'.log
      ensures !c.action.Patch?
    {
      var j :| 0 <= j < |m'.log| && m'.log[j] == c;
      if j < |m.log| {
        assert m'.log[j] == m.log[j];
      }
    }
  }

  lemma {:induction false} RunFills(job: Job, slots: seq<Pod>, m: Machine)
    requires FaultFree(job) && job.sts.parallel && !job.sts.deleting && InRange(job, m) && Filling(job, slots, m)
    ensures Filling(job, slots, BeforeRoll(job, m))
    decreases Rank(m.pc), Left(job, m.pc)
  {
    hide Filling;
    if !m.pc.Done? && !m.pc.AtRoll? {
      StepFills(job, slots, m);
      RunFills(job, slots, Step(job, m));
    }
  }

  lemma {:induction false} FilledCountsAlike(job: Job, slots: seq<Pod>, filled: seq<Pod>, t: nat)
    requires |filled| == |slots| && forall j | 0 <= j < |slots| :: filled[j] == Filled(job, slots[j], j)
    ensures CountUnavailable(job, filled, t) == CountUnavailable(job, slots, t)
    decreases |slots| - t
  {
    if t < |slots| {
      FilledCountsAlike(job, slots, filled, t + 1);
    }
  }

  /** A pod created in this round is never due for a patch. */
  lemma FilledDueAlike(job: Job, slots: seq<Pod>, filled: seq<Pod>, t: nat)
    requires |filled| == |slots| && forall j | 0 <= j < |slots| :: filled[j] == Filled(job, slots[j], j)
    requires t < |slots| && FreshIfEmpty(job, slots[t], t)
    ensures PatchDue(job, filled, t) <==> !NeedsPod(slots[t]) && PatchDue(job, slots, t)
    ensures PatchDue(job, filled, t) ==> filled[t] == slots[t]
  {
    hide Completed;
  }

  // ---------- the exact listings ----------

  /** The rolling loop reaches a pod that the listing shows due for a patch, while its last update is
      unfinished on the API server. */
  predicate ShowsStalePatch(job: Job, pods: seq<Pod>, store: Store) {
    && Permitted(job)
    && exists t: nat | t < job.sts.replicas ::
         var p := Slots(job, pods)[t];
         && !NeedsPod(p) && PatchDue(job, Slots(job, pods), t) && Reached(job, Slots(job, pods), t)
         && p.key in store && !Completed(store[p.key])
  }

  /** The patches of a fault-free Parallel round, read off its listing. */
  lemma RoundPatches(job: Job, pods: seq<Pod>, store: Store)
    requires FaultFree(job) && job.sts.parallel && !job.sts.deleting && forall p | p in pods :: Created(p)
    ensures
      var log, slots := Round(job, pods, store).log, Slots(job, pods);
      && (forall j | 0 <= j < |log| && Updates(log[j]) ::
            Permitted(job) && exists t: nat | t < |slots| :: !NeedsPod(slots[t]) && PatchedAt(job, slots, t, log[j]))
      && (Permitted(job) ==>
            forall t: nat | t < |slots| && !NeedsPod(slots[t]) && PatchDue(job, slots, t) && Reached(job, slots, t) ::
              PatchCall(job, slots[t]) in log)
  {
    var s, slots := Start(job, pods, store), Slots(job, pods);
    SlotsIndexed(job, pods);
    BeforeRollFacts(job, s);
    RunFills(job, slots, s);
    forall t: nat | t < |slots|
      ensures FreshIfEmpty(job, slots[t], t)
    {
      SlotPodHasOrdinal(pods, t);
    }
    hide Slots, Filling, FreshIfEmpty, Start;
    PatchesFrom(job, slots, BeforeRoll(job, s));
  }

  /** The same from the start of the rolling loop on. */
  lemma PatchesFrom(job: Job, slots: seq<Pod>, b: Machine)
    requires FaultFree(job) && InRange(job, b) && Filling(job, slots, b) && (b.pc.AtRoll? || b.pc.Done?)
    requires forall t: nat | t < |slots| :: FreshIfEmpty(job, slots[t], t)
    ensures
      var log := Run(job, b).log;
      && (forall j | 0 <= j < |log| && Updates(log[j]) ::
            Permitted(job) && exists t: nat | t < |slots| :: !NeedsPod(slots[t]) && PatchedAt(job, slots, t, log[j]))
      && (Permitted(job) ==>
            forall t: nat | t < |slots| && !NeedsPod(slots[t]) && PatchDue(job, slots, t) && Reached(job, slots, t) ::
              PatchCall(job, slots[t]) in log)
  {
    hide PatchDue, FreshIfEmpty, NeedsPod, Reached;
    var log := Run(job, b).log;
    DueHavePlans(job, slots);
    DueHavePlans(job, b.replicas);
    if b.pc.AtRoll? {
      FilledAlike(job, slots, b.replicas);
      LoopPatches(job, b);
      forall j | 0 <= j < |log| && Updates(log[j])
        ensures exists t: nat | t < |slots| :: !NeedsPod(slots[t]) && PatchedAt(job, slots, t, log[j])
      {
        PatchIsLater(b.log, log, j);
        var t: nat :| t < |slots| && PatchedAt(job, b.replicas, t, log[j]);
        assert PatchedAt(job, slots, t, log[j]);
      }
    } else {
      forall j | 0 <= j < |log|
        ensures !Updates(log[j])
      {
        assert log[j] in b.log;
      }
    }
  }

  /** So the rolling loop sees the slots as the listing shows them. */
  lemma FilledAlike(job: Job, slots: seq<Pod>, filled: seq<Pod>)
    requires |filled| == |slots| && forall j | 0 <= j < |slots| :: filled[j] == Filled(job, slots[j], j)
    requires forall t: nat | t < |slots| :: FreshIfEmpty(job, slots[t], t)
    ensures CountUnavailable(job, filled, |filled|) == 0
    ensures forall t: nat | t < |slots| ::
      && (PatchDue(job, filled, t) <==> !NeedsPod(slots[t]) && PatchDue(job, slots, t))
      && (PatchDue(job, filled, t) ==> filled[t] == slots[t])
      && (Reached(job, filled, t) <==> Reached(job, slots, t))
  {
    hide PatchDue, FreshIfEmpty, NeedsPod, Filled, MaxUnavailable;
    forall t: nat | t < |slots|
      ensures PatchDue(job, filled, t) <==> !NeedsPod(slots[t]) && PatchDue(job, slots, t)
      ensures PatchDue(job, filled, t) ==> filled[t] == slots[t]
      ensures Reached(job, filled, t) <==> Reached(job, slots, t)
    {
      FilledDueAlike(job, slots, filled, t);
      FilledCountsAlike(job, slots, filled, t + 1);
    }
  }

  /** A fault-free Parallel round keeps the whole protocol if and only if its listing shows neither a mark nor
      a patch whose pod has an unfinished update on the API server. */
  lemma ParallelRoundFollowsIff(job: Job, pods: seq<Pod>, store: Store)
    requires Safe(store) && FromListing(job, pods) && forall p | p in pods :: Created(p)
    requires FaultFree(job) && job.sts.parallel && !job.sts.deleting
    requires Round(job, pods, store).pc == Done(true)
    ensures
      Follows(store, Round(job, pods, store).log) <==>
        !ShowsStaleMark(job, pods, store) && !ShowsStalePatch(job, pods, store)
  {
    hide Round, Safe, Completed, AlwaysSafe, PatchesMeetFinished, ShowsStaleMark, PatchDue, Reached, Slots;
    var log, slots := Round(job, pods, store).log, Slots(job, pods);
    RoundFollowsIff(job, pods, store);
    ParallelRoundIsSafeIff(job, pods, store);
    RoundPatches(job, pods, store);
    assert |slots| == job.sts.replicas by { SlotCount(job, pods); }
    if ShowsStalePatch(job, pods, store) {
      var t: nat :| t < |slots| && !NeedsPod(slots[t]) && PatchDue(job, slots, t) && Reached(job, slots, t)
        && slots[t].key in store && !Completed(store[slots[t].key]);
      DueHavePlans(job, slots);
      var j :| 0 <= j < |log| && log[j] == PatchCall(job, slots[t]);
      assert Updates(log[j]);
    } else {
      forall j | 0 <= j < |log| && Updates(log[j]) && log[j].action.pod.key in store
        ensures Completed(store[log[j].action.pod.key])
      {
        var t: nat :| t < |slots| && !NeedsPod(slots[t]) && PatchedAt(job, slots, t, log[j]);
      }
    }
  }

  lemma SlotCount(job: Job, pods: seq<Pod>)
    ensures |Slots(job, pods)| == job.sts.replicas
  {
  }

  lemma DueHavePlans(job: Job, slots: seq<Pod>)
    ensures forall t: nat | PatchDue(job, slots, t) :: t < |slots| && InPlacePlan(job, slots[t].revision).Some?
  {
  }

  lemma PatchIsLater(log: seq<Call>, log': seq<Call>, j: nat)
    requires log <= log' && j < |log'| && Updates(log'[j]) && forall c | c in log :: !c.action.Patch?
    ensures j >= |log|
  {
    assert forall i | 0 <= i < |log| :: log[i] in log && log'[i] == log[i];
  }

  /** A listing that hides no patch shows no such pod either. */
  lemma HidingNoPatchIsEnough(job: Job, pods: seq<Pod>, store: Store)
    requires HidesNoPatch(pods, store)
    ensures !ShowsStaleMark(job, pods, store) && !ShowsStalePatch(job, pods, store)
  {
    StaleListings.HidingNoPatchIsEnough(job, pods, store);
    hide Completed, Reached;
    forall t: nat | t < job.sts.replicas && PatchDue(job, Slots(job, pods), t)
      ensures
        var p := Slots(job, pods)[t];
        !NeedsPod(p) && p.key in store ==> Completed(store[p.key])
    {
      SlotPodHasOrdinal(pods, t);
    }
  }

  /** A family of listings whose marks are all in order and whose patch is not: a ready pod with condition True
      is shown from before its last patch. The round writes condition False and patches it once more, over
      the record of the unfinished update. */
  lemma StaleListingForgetsUpdate(job: Job, p: Pod, current: Pod)
    requires FaultFree(job) && job.sts.replicas == 1 && Permitted(job) && job.condemned == [] && job.first.None?
    requires job.sts.rolling.Some? && job.sts.rolling.value.partition == 0 && InPlacePlan(job, p.revision).Some?
    requires p.key == current.key == Slot(0) && Healthy(p) && p.conforms && p.revision != job.upd
    requires p.gate && p.note.NoState? && p.cond.IsTrue?
    requires Consistent(current) && !Completed(current)
    ensures
      var store: Store := map[Slot(0) := current];
      var log := Round(job, [p], store).log;
      && log == [Call(SetCondition(p, IsFalse), Ok), PatchCall(job, p)]
      && AlwaysSafe(store, log) && MarksOk(store, log, 0) && !PatchesMeetFinished(store, log)
  {
    var store: Store := map[Slot(0) := current];
    ForgettingRound(job, p, store);
    var log := Round(job, [p], store).log;
    assert Safe(store);
    assert FromListing(job, [p]) by { LoneListing(job, p); }
    RoundFollowsIff(job, [p], store);
    assert MarksOk(store, log, 0);
    RoundIsSafeIff(job, [p], store);
    assert Updates(log[1]);
  }

  lemma LoneListing(job: Job, p: Pod)
    requires job.sts.replicas == 1 && p.key == Slot(0) && Healthy(p) && job.condemned == [] && job.first.None?
    ensures FromListing(job, [p])
  {
    assert [p][..0] == [];
    assert Beyond([p], 1) == [];
  }

  lemma ForgettingRound(job: Job, p: Pod, store: Store)
    requires FaultFree(job) && job.sts.replicas == 1 && Permitted(job) && job.condemned == []
    requires job.sts.rolling.Some? && job.sts.rolling.value.partition == 0 && InPlacePlan(job, p.revision).Some?
    requires p.key == Slot(0) && Healthy(p) && p.conforms && p.revision != job.upd
    requires p.note.NoState? && p.cond.IsTrue?
    ensures Round(job, [p], store).log == [Call(SetCondition(p, IsFalse), Ok), PatchCall(job, p)]
  {
    hide Apply, MaxUnavailable;
    var s := Start(job, [p], store);
    SlotPodHasOrdinal([p], 0);
    assert s.replicas == [p];
    var m1 := Step(job, s);
    assert m1 == s.(pc := AtSlot(1));
    var m2 := Step(job, m1);
    assert m2 == s.(pc := AtScale(0));
    var m3 := Step(job, m2);
    assert m3 == s.(pc := AtGate);
    var m4 := Step(job, m3);
    assert m4 == s.(pc := AtRoll(1, 0));
    LoneTurn(job, p, m4);
    var m5 := Step(job, m4);
    assert Run(job, s) == Run(job, m1) == Run(job, m2) == Run(job, m3) == Run(job, m4) == Run(job, m5);
    if m5.pc.AtRoll? {
      assert Run(job, m5) == Run(job, Step(job, m5)) == Step(job, m5);
    }
  }

  lemma LoneTurn(job: Job, p: Pod, m: Machine)
    requires FaultFree(job) && m.replicas == [p] && m.log == [] && m.pc == AtRoll(1, 0)
    requires job.sts.rolling.Some? && job.sts.rolling.value.partition == 0 && InPlacePlan(job, p.revision).Some?
    requires p.revision != job.upd && !p.terminating && p.note.NoState?
    ensures
      var m' := RollStep(job, m, 0, 0);
      && m'.log == [Call(SetCondition(p, IsFalse), Ok), PatchCall(job, p)]
      && (m'.pc.Done? || (m'.pc.AtRoll? && m'.pc.left == 0))
  {
    hide Apply, MaxUnavailable, Unavailable;
  }
}
