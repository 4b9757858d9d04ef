/** What a round does to the in-place protocol when its listing lags behind the API server: exactly which
    writes break it, and exactly which listings lead to them
    (controllers/stateful_set_control.go:446-459, 627-655, controllers/stateful_pod_control.go:140-181). */
module StaleListings {
  import opened Pods
  import opened RoundSpec
  import opened RoundOrder
  import opened RoundRolling
  import opened RoundBurst
  import opened RoundLedger
  import opened RoundReplay
  import opened InPlaceProtocol
  import InPlaceUpdate

  // ---------- single writes ----------

  /** Writing condition True is safe if and only if the API server's copy is complete. */
  lemma MarkIsSafeIff(store: Store, p: Pod)
    requires Safe(store) && p.key in store
    ensures Safe(Apply(store, Call(SetCondition(p, IsTrue), Ok))) <==> Completed(store[p.key])
  {
    hide Completed;
    var after := Apply(store, Call(SetCondition(p, IsTrue), Ok));
    assert after[p.key] == store[p.key].(cond := IsTrue);
    ConditionIsNoProgress(store[p.key], IsTrue);
    assert forall k | k in store && k != p.key :: after[k] == store[k];
  }

  lemma ConditionIsNoProgress(p: Pod, value: Condition)
    ensures Completed(p.(cond := value)) <==> Completed(p)
  {
  }

  /** A patch is safe if and only if the condition is False already, or no container it names reports a
      status; and it forgets the unfinished update it finds, if there is one. */
  lemma PatchIsSafeIff(store: Store, p: Pod, revision: string, images: map<string, string>)
    requires Safe(store) && p.key in store && InPlaceUpdate.DistinctNames(store[p.key].statuses)
    ensures
      var q, after := store[p.key], Apply(store, Call(Patch(p, revision, images), Ok));
      && (Safe(after) <==> q.cond.IsFalse? || forall c | c in images :: FirstImage(q.statuses, c).None?)
      && after[p.key].note == State(revision, Recorded(q.statuses, images))
  {
    hide Completed, Recorded;
    var q, after := store[p.key], Apply(store, Call(Patch(p, revision, images), Ok));
    assert after[p.key] == Patched(q, revision, images);
    InPlaceUpdate.PatchStartsIncomplete(q, revision, images, q.statuses);
    assert forall k | k in store && k != p.key :: after[k] == store[k];
  }

  // ---------- whole rounds ----------

  /** Safe before, between and after the calls. */
  ghost predicate AlwaysSafe(store: Store, log: seq<Call>) {
    forall n: nat | n <= |log| :: Safe(ApplyAll(store, log[..n]))
  }

  predicate Marks(call: Call, p: Pod) {
    call == Call(SetCondition(p, IsTrue), Ok)
  }

  /** No call from index `from` on marks a pod ready that is incomplete on the API server at the start. */
  predicate MarksOk(store: Store, log: seq<Call>, from: nat) {
    forall j | from <= j < |log| :: var p := log[j].action.pod;
      Marks(log[j], p) && p.key in store ==> Completed(store[p.key])
  }

  lemma ApplyAllAppend(store: Store, log: seq<Call>, call: Call)
    ensures ApplyAll(store, log + [call]) == Apply(ApplyAll(store, log), call)
  {
    hide Apply;
    assert (log + [call])[..|log|] == log;
  }

  lemma AlwaysSafeAppend(store: Store, log: seq<Call>, call: Call)
    ensures AlwaysSafe(store, log + [call]) <==>
      AlwaysSafe(store, log) && Safe(Apply(ApplyAll(store, log), call))
  {
    hide Apply, Safe, ApplyAll;
    var all := log + [call];
    assert all[..|all|] == all;
    ApplyAllAppend(store, log, call);
    assert forall n: nat | n <= |log| :: all[..n] == log[..n];
    if AlwaysSafe(store, all) {
      AlwaysSafePrefix(store, log, all);
      assert Safe(ApplyAll(store, all[..|all|]));
    }
    if AlwaysSafe(store, log) && Safe(Apply(ApplyAll(store, log), call)) {
      forall n: nat | n <= |all|
        ensures Safe(ApplyAll(store, all[..n]))
      {
        if n <= |log| {
          assert Safe(ApplyAll(store, log[..n]));
        }
      }
    }
  }

  lemma AlwaysSafePrefix(store: Store, log: seq<Call>, log': seq<Call>)
    requires log <= log' && AlwaysSafe(store, log')
    ensures AlwaysSafe(store, log)
  {
    hide Safe, ApplyAll;
    forall n: nat | n <= |log|
      ensures Safe(ApplyAll(store, log[..n]))
    {
      assert log[..n] == log'[..n];
    }
  }

  /** Calls that keep a safe store safe. */
  predicate Benign(store: Store, call: Call) {
    var k := call.action.pod.key;
    call.outcome.Ok? ==>
      match call.action
      case Create(p) => p.note.NoState?
      case SetCondition(_, value) => value.IsFalse? || (k in store ==> Completed(store[k]))
      case Patch(_, _, _) => k in store ==> store[k].cond.IsFalse?
      case _ => true
  }

  lemma BenignIsSafe(store: Store, call: Call)
    requires Safe(store) && Benign(store, call)
    ensures Safe(Apply(store, call))
  {
    ApplyFrame(store, call);
  }

  /** Replayed from `store`, safe all along. */
  ghost predicate SafeSoFar(store: Store, m: Machine) {
    Replayed(store, m) && AlwaysSafe(store, m.log)
  }

  lemma DoSafe(job: Job, store: Store, m: Machine, a: Action)
    requires SafeSoFar(store, m)
    ensures Replayed(store, Do(job, m, a))
    ensures SafeSoFar(store, Do(job, m, a)) <==> Safe(Apply(m.store, Call(a, job.oracle(|m.log|))))
    ensures Benign(m.store, Call(a, job.oracle(|m.log|))) ==> SafeSoFar(store, Do(job, m, a))
  {
    hide Apply, Safe, Benign;
    var call := Call(a, job.oracle(|m.log|));
    DoReplays(job, store, m, a);
    AlwaysSafeAppend(store, m.log, call);
    assert m.log[..|m.log|] == m.log;
    assert Safe(m.store);
    if Benign(m.store, call) {
      BenignIsSafe(m.store, call);
    }
  }

  // ---------- slot steps ----------

  lemma MarksSplit(store: Store, log: seq<Call>, mid: seq<Call>, end: seq<Call>)
    requires log <= mid <= end
    ensures MarksOk(store, end, |log|) <==> MarksOk(store, mid, |log|) && MarksOk(store, end, |mid|)
  {
    hide Completed, Marks;
    assert forall j | 0 <= j < |mid| :: end[j] == mid[j];
  }

  /** A pod that stays is marked at most once; that write decides. */
  lemma KeepExact(job: Job, store: Store, m: Machine, i: nat)
    requires m.pc == AtSlot(i) && i < |m.replicas| && SafeSoFar(store, m)
    requires var k := m.replicas[i].key; (k in store <==> k in m.store) && (k in store ==> m.store[k] == store[k])
    ensures
      var m' := KeepSlot(job, m, i);
      && Replayed(store, m') && m.log <= m'.log
      && (SafeSoFar(store, m') <==> MarksOk(store, m'.log, |m.log|))
  {
    hide Apply, Safe, ShouldMarkReady, Completed, AlwaysSafe, ApplyAll, MarksOk, MarkReady;
    var p := m.replicas[i];
    var m1, m' := MarkReady(job, m, i), KeepSlot(job, m, i);
    NoMarks(store, m.log);
    MarkExact(job, store, m, i);
    NoMarks(store, m1.log);
    if m'.log != m.log {
      RepairDecides(job, store, m1, p);
      MarksSplit(store, m.log, m1.log, m'.log);
    }
  }

  lemma MarkExact(job: Job, store: Store, m: Machine, i: nat)
    requires i < |m.replicas| && SafeSoFar(store, m)
    requires var k := m.replicas[i].key; (k in store <==> k in m.store) && (k in store ==> m.store[k] == store[k])
    ensures
      var m' := MarkReady(job, m, i);
      && Replayed(store, m') && m.log <= m'.log && m'.replicas == m.replicas
      && (SafeSoFar(store, m') <==> MarksOk(store, m'.log, |m.log|))
  {
    hide Apply, Safe, ShouldMarkReady, Completed, AlwaysSafe, ApplyAll;
    var p := m.replicas[i];
    if ShouldMarkReady(p) {
      var mark := Call(SetCondition(p, IsTrue), job.oracle(|m.log|));
      DoSafe(job, store, m, mark.action);
      SafeNow(store, m);
      MarkDecides(m.store, mark);
      assert MarkReady(job, m, i).log[|m.log|] == mark;
    }
  }

  lemma SafeNow(store: Store, m: Machine)
    requires SafeSoFar(store, m)
    ensures Safe(m.store)
  {
    assert m.log[..|m.log|] == m.log;
  }

  lemma MarkDecides(store: Store, mark: Call)
    requires Safe(store) && mark.action.SetCondition? && mark.action.value.IsTrue?
    ensures
      var p := mark.action.pod;
      Safe(Apply(store, mark)) <==> (mark.outcome.Ok? && p.key in store ==> Completed(store[p.key]))
  {
    hide Completed, Safe;
    if mark.outcome.Ok? && mark.action.pod.key in store {
      MarkIsSafeIff(store, mark.action.pod);
    }
  }

  lemma RepairDecides(job: Job, store: Store, m: Machine, p: Pod)
    requires Replayed(store, m)
    ensures
      var m' := Do(job, m, Repair(p));
      && Replayed(store, m') && m.log <= m'.log && (SafeSoFar(store, m') <==> SafeSoFar(store, m))
      && MarksOk(store, m'.log, |m.log|)
  {
    hide Apply, Safe, Completed, AlwaysSafe, ApplyAll;
    var m' := Do(job, m, Repair(p));
    DoReplays(job, store, m, Repair(p));
    if SafeSoFar(store, m) {
      DoSafe(job, store, m, Repair(p));
    }
    if SafeSoFar(store, m') {
      AlwaysSafePrefix(store, m.log, m'.log);
    }
  }

  lemma SlotExact(job: Job, store: Store, m: Machine, i: nat)
    requires m.pc == AtSlot(i) && i < |m.replicas| && SafeSoFar(store, m)
    requires m.replicas[i].phase.Unset? ==> m.replicas[i].note.NoState?
    requires var k := m.replicas[i].key; (k in store <==> k in m.store) && (k in store ==> m.store[k] == store[k])
    ensures
      var m' := SlotStep(job, m, i);
      && Replayed(store, m') && m.log <= m'.log
      && (SafeSoFar(store, m') <==> MarksOk(store, m'.log, |m.log|))
  {
    hide Apply, Safe, KeepSlot, Completed, AlwaysSafe, ApplyAll;
    var p := m.replicas[i];
    if NeedsPod(p) {
      DoSafe(job, store, m, Delete(p));
      var m1 := RecreateFailed(job, m, i);
      assert SafeSoFar(store, m1);
      DoSafe(job, store, m1, Create(m1.replicas[i]));
    } else {
      KeepExact(job, store, m, i);
    }
  }

  // ---------- scale-down and rolling steps ----------

  /** Neither marks a pod, and a patch follows its condition False. */
  lemma ReplaceSafe(job: Job, store: Store, m: Machine, p: Pod)
    requires SafeSoFar(store, m)
    ensures SafeSoFar(store, Replace(job, m, p))
  {
    hide Apply, Safe, Completed, AlwaysSafe, ApplyAll;
    DoSafe(job, store, m, Delete(p));
    match InPlacePlan(job, p.revision)
    case None =>
    case Some(images) =>
      var m1 := Do(job, m, SetCondition(p, IsFalse));
      DoSafe(job, store, m, SetCondition(p, IsFalse));
      DoSafe(job, store, m1, Delete(p));
      if job.oracle(|m.log|).Ok? {
        MarkedFalse(job, m, p);
        DoSafe(job, store, m1, Patch(p, job.upd, images));
        DoSafe(job, store, Do(job, m1, Patch(p, job.upd, images)), Delete(p));
      }
  }

  lemma MarkedFalse(job: Job, m: Machine, p: Pod)
    requires job.oracle(|m.log|).Ok?
    ensures
      var store' := Do(job, m, SetCondition(p, IsFalse)).store;
      p.key in store' ==> store'[p.key].cond.IsFalse?
  {
  }

  lemma LaterStepSafe(job: Job, store: Store, m: Machine)
    requires InRange(job, m) && !m.pc.Done? && SafeSoFar(store, m)
    requires !m.pc.AtSlot? || m.pc.i == |m.replicas|
    ensures
      var m' := Step(job, m);
      SafeSoFar(store, m') && !m'.pc.AtSlot? && m.log <= m'.log && MarksOk(store, m'.log, |m.log|)
  {
    hide Apply, Safe, Completed, AlwaysSafe, ApplyAll, Replace, RollsOn;
    match m.pc
    case AtScale(left) => if left > 0 { DoSafe(job, store, m, Delete(job.condemned[left - 1])); }
    case AtRoll(left, u) =>
      if left > UpdateMin(job.sts) {
        var p := m.replicas[left - 1];
        ReplaceSafe(job, store, m, p);
        RollAppends(job, m, left - 1, u);
      }
    case AtSlot(_) =>
    case AtGate =>
    case Done(_) =>
  }

  lemma {:induction false} LaterRunSafe(job: Job, store: Store, m: Machine)
    requires InRange(job, m) && SafeSoFar(store, m)
    requires !m.pc.AtSlot? || m.pc.i == |m.replicas|
    ensures SafeSoFar(store, Run(job, m)) && m.log <= Run(job, m).log && MarksOk(store, Run(job, m).log, |m.log|)
    decreases Rank(m.pc), Left(job, m.pc)
  {
    hide SafeSoFar, MarksOk;
    if !m.pc.Done? {
      var m' := Step(job, m);
      LaterStepSafe(job, store, m);
      LaterRunSafe(job, store, m');
      MarksSplit(store, m.log, m'.log, Run(job, m).log);
    } else {
      NoMarks(store, m.log);
    }
  }

  lemma NoMarks(store: Store, log: seq<Call>)
    ensures MarksOk(store, log, |log|)
  {
  }

  // ---------- main results ----------

  ghost predicate SameFrom(a: Store, b: Store, i: int) {
    forall k: Key | k.ordinal >= i :: (k in a <==> k in b) && (k in a ==> b[k] == a[k])
  }

  ghost predicate Unexamined(store: Store, m: Machine, i: nat) {
    && Indexed(m.replicas) && SameFrom(store, m.store, i)
    && forall j | i <= j < |m.replicas| :: m.replicas[j].phase.Unset? ==> m.replicas[j].note.NoState?
  }

  lemma SlotStaysUnexamined(job: Job, store: Store, m: Machine, i: nat)
    requires m.pc == AtSlot(i) && i < |m.replicas| && Unexamined(store, m, i)
    ensures Unexamined(store, SlotStep(job, m, i), i + 1)
    ensures SlotStep(job, m, i).pc == AtSlot(i + 1) || SlotStep(job, m, i).pc.Done?
  {
    hide SlotStep;
    SlotTouches(job, m, i);
    SlotNext(job, m, i);
  }

  lemma {:induction false} RunExact(job: Job, store: Store, m: Machine)
    requires InRange(job, m) && m.pc.AtSlot? && Unexamined(store, m, m.pc.i) && SafeSoFar(store, m)
    ensures Replayed(store, Run(job, m)) && m.log <= Run(job, m).log
    ensures SafeSoFar(store, Run(job, m)) <==> MarksOk(store, Run(job, m).log, |m.log|)
    decreases Rank(m.pc), Left(job, m.pc)
  {
    hide SafeSoFar, MarksOk, SlotStep, Unexamined, Replayed;
    var i, end := m.pc.i, Run(job, m);
    if i == |m.replicas| {
      LaterRunSafe(job, store, m);
      SafeIsReplayed(store, end);
    } else {
      var m' := SlotStep(job, m, i);
      assert m.replicas[i].key.ordinal == i by { UnexaminedAt(store, m, i); }
      UnexaminedAt(store, m, i);
      SlotExact(job, store, m, i);
      SlotStaysUnexamined(job, store, m, i);
      assert end == Run(job, m');
      RunGrows(job, m');
      MarksSplit(store, m.log, m'.log, end.log);
      if !SafeSoFar(store, m') {
        RunReplays(job, store, m');
        UnsafeStays(store, m', end);
      } else if m'.pc.Done? {
        NoMarks(store, m'.log);
      } else {
        RunExact(job, store, m');
      }
    }
  }

  lemma SafeIsReplayed(store: Store, m: Machine)
    requires SafeSoFar(store, m)
    ensures Replayed(store, m)
  {
  }

  lemma UnexaminedAt(store: Store, m: Machine, i: nat)
    requires i < |m.replicas| && Unexamined(store, m, i)
    ensures
      var p := m.replicas[i];
      && p.key.ordinal == i && (p.phase.Unset? ==> p.note.NoState?)
      && (p.key in store <==> p.key in m.store) && (p.key in store ==> m.store[p.key] == store[p.key])
  {
  }

  lemma UnsafeStays(store: Store, m: Machine, end: Machine)
    requires Replayed(store, m) && !SafeSoFar(store, m) && m.log <= end.log
    ensures !SafeSoFar(store, end)
  {
    hide Safe, Replayed;
    if AlwaysSafe(store, end.log) {
      AlwaysSafePrefix(store, m.log, end.log);
    }
  }

  /** Whatever the mode, the outcomes and the listing: a round keeps the protocol's two clauses on states in
      every state it passes through if and only if each mark it writes is on a pod that is complete on the
      API server (or gone). */
  lemma RoundIsSafeIff(job: Job, pods: seq<Pod>, store: Store)
    requires Safe(store) && forall p | p in pods :: Created(p)
    ensures AlwaysSafe(store, Round(job, pods, store).log) <==> MarksOk(store, Round(job, pods, store).log, 0)
  {
    hide Safe, Completed;
    var s := Start(job, pods, store);
    assert AlwaysSafe(store, []);
    if !job.sts.deleting {
      SlotsIndexed(job, pods);
      forall j | 0 <= j < |s.replicas| && s.replicas[j].phase.Unset?
        ensures s.replicas[j].note.NoState?
      {
        SlotPodHasOrdinal(pods, j);
      }
      RunExact(job, store, s);
    }
  }

  /** Some slot shows a finished update that waits for its mark, while the API server's copy is unfinished. */
  predicate ShowsStaleMark(job: Job, pods: seq<Pod>, store: Store) {
    exists i | 0 <= i < job.sts.replicas ::
      var p := Slots(job, pods)[i];
      !NeedsPod(p) && ShouldMarkReady(p) && p.key in store && !Completed(store[p.key])
  }

  /** An error-free Parallel round keeps these clauses all along if and only if its listing shows no such
      slot. StalePatches adds the clause on patches. */
  lemma ParallelRoundIsSafeIff(job: Job, pods: seq<Pod>, store: Store)
    requires Safe(store) && forall p | p in pods :: Created(p)
    requires job.sts.parallel && !job.sts.deleting && Round(job, pods, store).pc == Done(true)
    ensures AlwaysSafe(store, Round(job, pods, store).log) <==> !ShowsStaleMark(job, pods, store)
  {
    hide Safe, Completed, Round, AlwaysSafe, ShouldMarkReady;
    var log, slots := Round(job, pods, store).log, Slots(job, pods);
    RoundIsSafeIff(job, pods, store);
    ParallelRoundIsComplete(job, pods, store);
    if ShowsStaleMark(job, pods, store) {
      var i :| 0 <= i < |slots| && !NeedsPod(slots[i]) && ShouldMarkReady(slots[i])
        && slots[i].key in store && !Completed(store[slots[i].key]);
      assert Served(job, slots[i], i, log);
      var j :| 0 <= j < |log| && log[j] == Call(SetCondition(slots[i], IsTrue), Ok);
      assert Marks(log[j], slots[i]);
    } else {
      forall j | 0 <= j < |log| && Marks(log[j], log[j].action.pod) && log[j].action.pod.key in store
        ensures Completed(store[log[j].action.pod.key])
      {
        assert log[j] in log && Needed(job, slots, log[j]);
      }
    }
  }

  /** A listing that hides no patch shows no such slot; so the condition of InPlaceProtocol is enough. */
  lemma HidingNoPatchIsEnough(job: Job, pods: seq<Pod>, store: Store)
    requires HidesNoPatch(pods, store)
    ensures !ShowsStaleMark(job, pods, store)
  {
    forall i | 0 <= i < job.sts.replicas
      ensures
        var p := Slots(job, pods)[i];
        !NeedsPod(p) && ShouldMarkReady(p) && p.key in store ==> Completed(store[p.key])
    {
      SlotPodHasOrdinal(pods, i);
    }
  }

  /** A family of such listings: the copy is from before the pod's last patch. The first call of the round
      marks the pod ready while that patch is incomplete. */
  lemma StaleListingBreaksProtocol(job: Job, p: Pod, current: Pod)
    requires job.sts.replicas > 0 && !job.sts.deleting && job.oracle(0).Ok?
    requires p.key == current.key == Slot(0) && Live(p) && !p.phase.Failed?
    requires p.gate && p.note.NoState? && !p.cond.IsTrue? && !p.cond.IsUnknown?
    requires Consistent(current) && !Completed(current)
    ensures
      var store: Store := map[Slot(0) := current];
      var log := Round(job, [p], store).log;
      && log != [] && log[0].action.pod == p
      && Slot(0) in Apply(store, log[0]) && !Consistent(Apply(store, log[0])[Slot(0)])
  {
    var store: Store := map[Slot(0) := current];
    var s := Start(job, [p], store);
    SlotPodHasOrdinal([p], 0);
    assert SlotPod([p], 0) == Some(p);
    assert s.replicas[0] == p;
    var m := Step(job, s);
    var call := Call(SetCondition(p, IsTrue), Ok);
    assert m.log[0] == call;
    RunGrows(job, m);
    assert Run(job, s) == Run(job, m);
    var after := Apply(store, call)[Slot(0)];
    assert after == current.(cond := IsTrue);
  }
}
