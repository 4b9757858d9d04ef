/** Safety of in-place updates over whole runs: the calls of a round are sent one by one while the
    kubelet works, pods vanish, and the controller may crash between any two calls
    (controllers/stateful_set_control.go:446-459, 561-588, 627-655; stateful_inplace_utils.go:119-218). */
module InPlaceProtocol {
  import opened Pods
  import opened RoundSpec
  import opened RoundOrder
  import opened RoundRolling
  import opened RoundLedger

  /** The API server and the calls of the current round still to be sent. */
  datatype Sys = Sys(store: Store, queue: seq<Call>)

  // ---------- invariant ----------

  /** The recorded revision is the label, and an unfinished update shows as condition False. */
  predicate Consistent(p: Pod) {
    && Created(p) && !p.note.Garbled?
    && (p.note.State? ==> p.note.revision == p.revision)
    && (!Completed(p) ==> p.cond.IsFalse?)
  }

  predicate Safe(store: Store) {
    forall k | k in store :: store[k].key == k && Consistent(store[k])
  }

  predicate Creates(call: Call, k: Key) {
    call.action.Create? && call.outcome.Ok? && call.action.pod.key == k
  }

  predicate Patches(call: Call, k: Key) {
    call.action.Patch? && call.outcome.Ok? && call.action.pod.key == k
  }

  /** When call j is sent, the last in-place update of pod k is complete. */
  predicate WillBeDone(store: Store, queue: seq<Call>, j: nat, k: Key)
    requires j <= |queue|
  {
    && (k !in store || Completed(store[k]) || exists i | 0 <= i < j :: Creates(queue[i], k))
    && forall i | 0 <= i < j :: !Patches(queue[i], k)
  }

  /** Condition False on the same pod was written just before. */
  predicate MarkedBusy(store: Store, queue: seq<Call>, j: nat, p: Pod)
    requires j <= |queue|
  {
    if j == 0 then p.key in store ==> store[p.key].cond.IsFalse?
    else queue[j - 1] == Call(SetCondition(p, IsFalse), Ok)
  }

  predicate CallOk(store: Store, queue: seq<Call>, j: nat)
    requires j < |queue|
  {
    var a := queue[j].action;
    queue[j].outcome.Ok? ==>
      match a
      case Create(p) => p.note.NoState?
      case SetCondition(p, value) => value.IsFalse? || (value.IsTrue? && WillBeDone(store, queue, j, p.key))
      case Patch(p, _, _) => WillBeDone(store, queue, j, p.key) && MarkedBusy(store, queue, j, p)
      case _ => true
  }

  predicate QueueOk(store: Store, queue: seq<Call>) {
    forall j | 0 <= j < |queue| :: CallOk(store, queue, j)
  }

  // ---------- steps of the system ----------

  /** The kubelet moves statuses, phase and readiness; a container that left its recorded image does not
      go back to it. Somebody may also ask for the pod's deletion. */
  predicate KubeletStep(p: Pod, q: Pod) {
    && q == p.(phase := q.phase, ready := q.ready, statuses := q.statuses, terminating := q.terminating)
    && Created(q)
    && (p.note.State? ==> forall c | c in p.note.last ::
          Moved(p.statuses, c, p.note.last[c]) ==> Moved(q.statuses, c, p.note.last[c]))
  }

  predicate Environment(a: Store, b: Store) {
    b.Keys <= a.Keys && forall k | k in b :: KubeletStep(a[k], b[k])
  }

  /** A copy of a pod does not hide a patch: what it shows complete is complete on the API server, unless
      the pod is gone. */
  predicate Current(store: Store, p: Pod) {
    p.key in store && Completed(p) ==> Completed(store[p.key])
  }

  /** A listing of accepted pods; it may lag behind the API server as long as it hides no patch. */
  predicate HidesNoPatch(pods: seq<Pod>, store: Store) {
    forall p | p in pods :: Created(p) && Current(store, p)
  }

  ghost predicate BeginsRound(a: Sys, b: Sys, job: Job, pods: seq<Pod>) {
    && a.queue == [] && b.store == a.store
    && HidesNoPatch(pods, a.store) && FromListing(job, pods)
    && b.queue == Round(job, pods, a.store).log
  }

  ghost predicate Next(a: Sys, b: Sys) {
    || (exists job, pods :: BeginsRound(a, b, job, pods))
    || (a.queue != [] && b == Sys(Apply(a.store, a.queue[0]), a.queue[1..]))
    || b == Sys(a.store, [])
    || (b.queue == a.queue && Environment(a.store, b.store))
  }

  // ---------- sending a call ----------

  lemma ApplySafe(store: Store, queue: seq<Call>)
    requires Safe(store) && queue != [] && CallOk(store, queue, 0)
    ensures Safe(Apply(store, queue[0]))
  {
    var call, k := queue[0], queue[0].action.pod.key;
    ApplyFrame(store, call);
    if call.outcome.Ok? && k in store && call.action.Patch? {
      assert WillBeDone(store, queue, 0, k);
    }
  }

  /** Only a patch makes a completed pod incomplete. */
  lemma ApplyKeepsCompleted(store: Store, call: Call, k: Key)
    requires call.action.Create? ==> call.action.pod.note.NoState?
    requires !Patches(call, k)
    ensures
      var store' := Apply(store, call);
      && (k !in store && !Creates(call, k) ==> k !in store')
      && (k in store && Completed(store[k]) ==> k !in store' || Completed(store'[k]))
      && (Creates(call, k) ==> k in store' && Completed(store'[k]))
  {
    ApplyFrame(store, call);
  }

  lemma QueueAdvances(store: Store, queue: seq<Call>)
    requires queue != [] && QueueOk(store, queue)
    ensures QueueOk(Apply(store, queue[0]), queue[1..])
  {
    hide Apply, Completed;
    var store', rest := Apply(store, queue[0]), queue[1..];
    assert CallOk(store, queue, 0);
    forall j | 0 <= j < |rest|
      ensures CallOk(store', rest, j)
    {
      assert CallOk(store, queue, j + 1);
      assert rest[j] == queue[j + 1];
      var k := rest[j].action.pod.key;
      if rest[j].outcome.Ok? && WillBeDone(store, queue, j + 1, k) {
        WillBeDoneAdvances(store, queue, j + 1, k);
        if MarkedBusy(store, queue, j + 1, rest[j].action.pod) && j == 0 {
          ConditionWritten(store, queue[0], k);
        }
      }
    }
  }

  lemma ConditionWritten(store: Store, call: Call, k: Key)
    requires call.action.SetCondition? && call.outcome.Ok? && call.action.pod.key == k
    ensures k in Apply(store, call) ==> Apply(store, call)[k].cond == call.action.value
  {
  }

  lemma WillBeDoneAdvances(store: Store, queue: seq<Call>, j: nat, k: Key)
    requires 0 < j <= |queue| && WillBeDone(store, queue, j, k)
    requires CallOk(store, queue, 0)
    ensures WillBeDone(Apply(store, queue[0]), queue[1..], j - 1, k)
  {
    hide Apply, Completed;
    var rest := queue[1..];
    assert !Patches(queue[0], k);
    if queue[0].outcome.Ok? {
      ApplyKeepsCompleted(store, queue[0], k);
    } else {
      ApplyFails(store, queue[0]);
    }
    if k in store && !Completed(store[k]) {
      var i :| 0 <= i < j && Creates(queue[i], k);
      if i > 0 {
        assert Creates(rest[i - 1], k);
      }
    }
    assert forall i | 0 <= i < j - 1 :: rest[i] == queue[i + 1];
  }

  lemma ApplyFails(store: Store, call: Call)
    requires !call.outcome.Ok?
    ensures Apply(store, call) == store
  {
  }

  // ---------- the environment ----------

  lemma KubeletKeeps(p: Pod, q: Pod)
    requires KubeletStep(p, q)
    ensures Completed(p) ==> Completed(q)
    ensures Consistent(p) ==> Consistent(q)
  {
  }

  lemma EnvironmentSafe(a: Store, b: Store, queue: seq<Call>)
    requires Safe(a) && QueueOk(a, queue) && Environment(a, b)
    ensures Safe(b) && QueueOk(b, queue)
  {
    hide Completed;
    forall k | k in b
      ensures b[k].key == k && Consistent(b[k]) && (Completed(a[k]) ==> Completed(b[k])) && b[k].cond == a[k].cond
    {
      KubeletKeeps(a[k], b[k]);
    }
    forall j | 0 <= j < |queue|
      ensures CallOk(b, queue, j)
    {
      assert CallOk(a, queue, j);
    }
  }

  // ---------- the calls of a round ----------

  /** A slot still holds its listed pod, or one created in this round. */
  predicate Known(store: Store, log: seq<Call>, p: Pod) {
    Current(store, p) || (p.note.NoState? && exists i | 0 <= i < |log| :: Creates(log[i], p.key))
  }

  ghost predicate Guarded(job: Job, store: Store, slots: seq<Pod>, m: Machine) {
    && Indexed(m.replicas) && |slots| == |m.replicas| && QueueOk(store, m.log)
    && (forall p | p in slots :: if Created(p) then Current(store, p) else p.note.NoState?)
    && match m.pc
       case AtSlot(i) =>
         && (forall j | 0 <= j < i <= |slots| :: Known(store, m.log, m.replicas[j]))
         && (forall j | i <= j < |slots| :: m.replicas[j] == slots[j])
         && (forall c | c in m.log :: !c.action.Patch?)
       case AtRoll(left, _) =>
         && (forall j | 0 <= j < |slots| :: Known(store, m.log, m.replicas[j]))
         && (forall c | c in m.log :: c.action.Patch? ==> c.action.pod.key.ordinal >= left)
       case Done(_) => true
       case _ =>
         && (forall j | 0 <= j < |slots| :: Known(store, m.log, m.replicas[j]))
         && (forall c | c in m.log :: !c.action.Patch?)
  }

  /** Appending a call whose own guard holds. */
  lemma AppendOk(store: Store, log: seq<Call>, call: Call)
    requires QueueOk(store, log) && CallOk(store, log + [call], |log|)
    ensures QueueOk(store, log + [call])
  {
    hide Completed;
    var all := log + [call];
    forall j | 0 <= j < |all|
      ensures CallOk(store, all, j)
    {
      if j < |log| {
        assert CallOk(store, log, j);
        assert all[j] == log[j];
        assert forall i | 0 <= i < j :: all[i] == log[i];
        var k := log[j].action.pod.key;
        if WillBeDone(store, log, j, k) && k in store && !Completed(store[k]) {
          var i :| 0 <= i < j && Creates(log[i], k);
          assert Creates(all[i], k);
        }
      }
    }
  }

  /** Harmless calls need no guard. */
  predicate Harmless(call: Call) {
    match call.action
    case Create(p) => p.note.NoState?
    case SetCondition(_, value) => value.IsFalse?
    case Patch(_, _, _) => false
    case _ => true
  }

  lemma KnownStays(store: Store, log: seq<Call>, log': seq<Call>, p: Pod)
    requires log <= log' && Known(store, log, p)
    ensures Known(store, log', p)
  {
    if !Current(store, p) {
      var i :| 0 <= i < |log| && Creates(log[i], p.key);
      assert Creates(log'[i], p.key);
    }
  }

  lemma KnownIsDone(store: Store, log: seq<Call>, p: Pod)
    requires Known(store, log, p) && Completed(p)
    requires forall c | c in log :: !Patches(c, p.key)
    ensures WillBeDone(store, log, |log|, p.key)
  {
  }

  lemma HarmlessAppend(store: Store, log: seq<Call>, call: Call)
    requires QueueOk(store, log) && Harmless(call)
    ensures QueueOk(store, log + [call])
  {
    hide Completed, WillBeDone, MarkedBusy;
    AppendOk(store, log, call);
  }

  /** The log after a slot step: guarded calls about this slot, none of them a patch. */
  lemma SlotAppendsGuarded(job: Job, store: Store, m: Machine, i: nat)
    requires m.pc == AtSlot(i) && i < |m.replicas| && QueueOk(store, m.log)
    requires forall c | c in m.log :: !c.action.Patch?
    requires
      var p := m.replicas[i];
      if Created(p) then Current(store, p) else p.note.NoState?
    ensures
      var m' := SlotStep(job, m, i);
      && m.log <= m'.log && QueueOk(store, m'.log)
      && (forall j | |m.log| <= j < |m'.log| :: !m'.log[j].action.Patch?)
      && |m'.replicas| == |m.replicas| && m'.replicas == m.replicas[i := m'.replicas[i]]
      && m'.replicas[i].key.ordinal ==
           (if m.replicas[i].phase.Failed? && m'.replicas[i] != m.replicas[i] then i else m.replicas[i].key.ordinal)
      && (m'.pc == AtSlot(i + 1) || m'.pc.Done?)
      && (m'.pc == AtSlot(i + 1) ==> Known(store, m'.log, m'.replicas[i]))
  {
    hide Apply, QueueOk, Completed, WillBeDone;
    var p := m.replicas[i];
    var m1 := RecreateFailed(job, m, i);
    HarmlessAppend(store, m.log, Call(Delete(p), job.oracle(|m.log|)));
    if p.phase.Failed? && !m1.pc.Done? {
      var call := Call(Create(m1.replicas[i]), job.oracle(|m1.log|));
      HarmlessAppend(store, m1.log, call);
      var all := m1.log + [call];
      assert all[|m1.log|] == call;
      if call.outcome.Ok? {
        assert Creates(all[|m1.log|], m1.replicas[i].key);
      }
    } else if p.phase.Unset? {
      var call := Call(Create(p), job.oracle(|m.log|));
      HarmlessAppend(store, m.log, call);
      var all := m.log + [call];
      assert all[|m.log|] == call;
      if call.outcome.Ok? {
        assert Creates(all[|m.log|], p.key);
      }
    } else if !p.phase.Failed? {
      KeepGuarded(job, store, m, i);
    }
  }

  lemma KeepGuarded(job: Job, store: Store, m: Machine, i: nat)
    requires m.pc == AtSlot(i) && i < |m.replicas| && QueueOk(store, m.log)
    requires forall c | c in m.log :: !c.action.Patch?
    requires Current(store, m.replicas[i])
    ensures QueueOk(store, KeepSlot(job, m, i).log)
  {
    hide Apply, QueueOk;
    var p := m.replicas[i];
    var m1 := MarkReady(job, m, i);
    if ShouldMarkReady(p) {
      var call := Call(SetCondition(p, IsTrue), job.oracle(|m.log|));
      var all := m.log + [call];
      assert all[|m.log|] == call && all[..|m.log|] == m.log;
      assert forall j | 0 <= j < |m.log| :: all[j] in m.log;
      AppendOk(store, m.log, call);
    }
    HarmlessAppend(store, m1.log, Call(Repair(p), job.oracle(|m1.log|)));
  }

  lemma SlotGuarded(job: Job, store: Store, slots: seq<Pod>, m: Machine)
    requires InRange(job, m) && m.pc.AtSlot? && m.pc.i < |m.replicas| && Guarded(job, store, slots, m)
    ensures Guarded(job, store, slots, SlotStep(job, m, m.pc.i))
  {
    hide SlotStep, QueueOk, Known;
    var i := m.pc.i;
    var m' := SlotStep(job, m, i);
    SlotAppendsGuarded(job, store, m, i);
    forall j | 0 <= j < i
      ensures Known(store, m'.log, m'.replicas[j])
    {
      KnownStays(store, m.log, m'.log, m.replicas[j]);
    }
    NoPatchAdded(m.log, m'.log);
  }

  lemma NoPatchAdded(log: seq<Call>, log': seq<Call>)
    requires log <= log' && forall c | c in log :: !c.action.Patch?
    requires forall j | |log| <= j < |log'| :: !log'[j].action.Patch?
    ensures forall c | c in log' :: !c.action.Patch?
  {
    forall c | c in log'
      ensures !c.action.Patch?
    {
      var j :| 0 <= j < |log'| && log'[j] == c;
      if j < |log| {
        assert c in log;
      }
    }
  }

  lemma ScaleGuarded(job: Job, store: Store, slots: seq<Pod>, m: Machine)
    requires InRange(job, m) && m.pc.AtScale? && m.pc.left > 0 && Guarded(job, store, slots, m)
    ensures Guarded(job, store, slots, ScaleStep(job, m, m.pc.left - 1))
  {
    hide Apply, QueueOk, Known;
    var m' := ScaleStep(job, m, m.pc.left - 1);
    HarmlessAppend(store, m.log, Call(Delete(job.condemned[m.pc.left - 1]), job.oracle(|m.log|)));
    forall j | 0 <= j < |slots|
      ensures Known(store, m'.log, m'.replicas[j])
    {
      KnownStays(store, m.log, m'.log, m.replicas[j]);
    }
    NoPatchAdded(m.log, m'.log);
  }

  lemma ReplaceGuarded(job: Job, store: Store, m: Machine, p: Pod)
    requires QueueOk(store, m.log) && Known(store, m.log, p)
    requires forall c | c in m.log :: c.action.Patch? ==> c.action.pod.key != p.key
    ensures QueueOk(store, Replace(job, m, p).log)
  {
    hide Apply, QueueOk, Known;
    match InPlacePlan(job, p.revision)
    case None =>
      HarmlessAppend(store, m.log, Call(Delete(p), job.oracle(|m.log|)));
    case Some(images) =>
      if Completed(p) {
        PatchGuarded(job, store, m, p, images);
      }
  }

  lemma PatchGuarded(job: Job, store: Store, m: Machine, p: Pod, images: map<string, string>)
    requires QueueOk(store, m.log) && Known(store, m.log, p) && Completed(p)
    requires forall c | c in m.log :: c.action.Patch? ==> c.action.pod.key != p.key
    ensures QueueOk(store, PatchStale(job, m, p, images).log)
  {
    hide Apply, QueueOk, Completed, Known, WillBeDone;
    var call1 := Call(SetCondition(p, IsFalse), job.oracle(|m.log|));
    HarmlessAppend(store, m.log, call1);
    var m1 := Do(job, m, SetCondition(p, IsFalse));
    HarmlessAppend(store, m1.log, Call(Delete(p), job.oracle(|m1.log|)));
    var call2 := Call(Patch(p, job.upd, images), job.oracle(|m1.log|));
    if call1.outcome.Ok? {
      KnownStays(store, m.log, m1.log, p);
      KnownIsDone(store, m1.log, p);
      DonePrefix(store, m1.log, call2, p.key);
      AppendOk(store, m1.log, call2);
      var m2 := Do(job, m1, Patch(p, job.upd, images));
      HarmlessAppend(store, m2.log, Call(Delete(p), job.oracle(|m2.log|)));
    }
  }

  lemma DonePrefix(store: Store, log: seq<Call>, call: Call, k: Key)
    requires WillBeDone(store, log, |log|, k)
    ensures WillBeDone(store, log + [call], |log|, k)
  {
    hide Completed;
    var all := log + [call];
    assert forall i | 0 <= i < |log| :: all[i] == log[i];
  }

  lemma RollGuarded(job: Job, store: Store, slots: seq<Pod>, m: Machine)
    requires InRange(job, m) && m.pc.AtRoll? && m.pc.left > UpdateMin(job.sts) && Guarded(job, store, slots, m)
    ensures Guarded(job, store, slots, RollStep(job, m, m.pc.left - 1, m.pc.unavailable))
  {
    hide Apply, QueueOk, Known, Completed, Replace, Rolls, RollsOn;
    var t := m.pc.left - 1;
    var m' := RollStep(job, m, t, m.pc.unavailable);
    RollAppends(job, m, t, m.pc.unavailable);
    RollsOnlyTop(job, m, t, m.pc.unavailable);
    if Stale(job, m.replicas[t]) {
      ReplaceGuarded(job, store, m, m.replicas[t]);
    }
    forall j | 0 <= j < |slots|
      ensures Known(store, m'.log, m'.replicas[j])
    {
      KnownStays(store, m.log, m'.log, m.replicas[j]);
    }
    forall c | c in m'.log && c.action.Patch?
      ensures c.action.pod.key.ordinal >= t
    {
      var j :| 0 <= j < |m'.log| && m'.log[j] == c;
      if j < |m.log| {
        assert c in m.log;
      }
    }
  }

  lemma RollsOnlyTop(job: Job, m: Machine, t: nat, u: nat)
    requires UpdateMin(job.sts) <= t < |m.replicas| && !m.pc.Done?
    ensures
      var m' := RollStep(job, m, t, u);
      && (m'.pc.Done? || (m'.pc.AtRoll? && m'.pc.left == t))
      && m.log <= m'.log
      && forall j | |m.log| <= j < |m'.log| :: m'.log[j].action.pod == m.replicas[t]
  {
    hide RollStep, Rolls;
    RollAppends(job, m, t, u);
    assert forall c | Rolls(job, m.replicas, t, c) :: c.action.pod == m.replicas[t] by {
      RollsPod(job, m.replicas, t);
    }
  }

  lemma RollsPod(job: Job, slots: seq<Pod>, t: nat)
    ensures forall c | Rolls(job, slots, t, c) :: c.action.pod == slots[t]
  {
  }

  lemma StepGuarded(job: Job, store: Store, slots: seq<Pod>, m: Machine)
    requires InRange(job, m) && !m.pc.Done? && Guarded(job, store, slots, m)
    ensures Guarded(job, store, slots, Step(job, m))
  {
    hide SlotStep, ScaleStep, RollStep, QueueOk, Known;
    match m.pc
    case AtSlot(i) => if i < |m.replicas| { SlotGuarded(job, store, slots, m); }
    case AtScale(left) => if left > 0 { ScaleGuarded(job, store, slots, m); }
    case AtGate =>
    case AtRoll(left, u) => if left > UpdateMin(job.sts) { RollGuarded(job, store, slots, m); }
    case Done(_) =>
  }

  lemma {:induction false} RunGuarded(job: Job, store: Store, slots: seq<Pod>, m: Machine)
    requires InRange(job, m) && Guarded(job, store, slots, m)
    ensures QueueOk(store, Run(job, m).log)
    decreases Rank(m.pc), Left(job, m.pc)
  {
    if !m.pc.Done? {
      StepGuarded(job, store, slots, m);
      RunGuarded(job, store, slots, Step(job, m));
    }
  }

  /** The calls of a round are guarded, whatever their outcomes, if its listing hides no patch. */
  lemma RoundIsGuarded(job: Job, pods: seq<Pod>, store: Store)
    requires HidesNoPatch(pods, store) && FromListing(job, pods)
    ensures QueueOk(store, Round(job, pods, store).log)
  {
    hide Completed;
    var slots := Slots(job, pods);
    SlotsIndexed(job, pods);
    forall p | p in slots
      ensures if Created(p) then Current(store, p) else p.note.NoState?
    {
      var i :| 0 <= i < |slots| && slots[i] == p;
      SlotPodHasOrdinal(pods, i);
    }
    RunGuarded(job, store, slots, Start(job, pods, store));
  }

  /** A listing that only lags behind the kubelet and deletions hides no patch, a fresh one least of all. */
  lemma KubeletLagHidesNoPatch(pods: seq<Pod>, before: Store, store: Store)
    requires Safe(before) && Lists(pods, before) && Environment(before, store)
    ensures HidesNoPatch(pods, store)
  {
    hide Completed;
    forall p | p in pods
      ensures Created(p) && Current(store, p)
    {
      assert Consistent(before[p.key]);
      if p.key in store {
        KubeletKeeps(before[p.key], store[p.key]);
      }
    }
  }

  // ---------- whole runs ----------

  predicate Invariant(s: Sys) {
    Safe(s.store) && QueueOk(s.store, s.queue)
  }

  lemma NextSafe(a: Sys, b: Sys)
    requires Invariant(a) && Next(a, b)
    ensures Invariant(b)
  {
    hide Safe, QueueOk, Environment;
    if job, pods :| BeginsRound(a, b, job, pods) {
      RoundIsGuarded(job, pods, a.store);
    } else if a.queue != [] && b == Sys(Apply(a.store, a.queue[0]), a.queue[1..]) {
      SendSafe(a);
    } else if b.queue == a.queue && Environment(a.store, b.store) {
      EnvironmentSafe(a.store, b.store, a.queue);
    } else {
      assert QueueOk(b.store, []) by { EmptyQueue(b.store); }
    }
  }

  lemma EmptyQueue(store: Store)
    ensures QueueOk(store, [])
  {
  }

  lemma SendSafe(a: Sys)
    requires Invariant(a) && a.queue != []
    ensures Invariant(Sys(Apply(a.store, a.queue[0]), a.queue[1..]))
  {
    hide Apply;
    assert CallOk(a.store, a.queue, 0);
    ApplySafe(a.store, a.queue);
    QueueAdvances(a.store, a.queue);
  }

  /** In every reachable state, crashes between two calls included: the annotation's revision is the
      pod's label; while an in-place update is incomplete the condition is present and False; and a
      patch about to be sent finds the last in-place update complete. */
  lemma {:induction false} InPlaceUpdatesAreSafe(trace: seq<Sys>, i: nat)
    requires i < |trace| && Safe(trace[0].store) && trace[0].queue == []
    requires forall j | 0 <= j < |trace| - 1 :: Next(trace[j], trace[j + 1])
    ensures Invariant(trace[i])
    ensures forall k | k in trace[i].store :: Consistent(trace[i].store[k])
    ensures
      var s := trace[i];
      s.queue != [] && s.queue[0].action.Patch? && s.queue[0].outcome.Ok? && s.queue[0].action.pod.key in s.store ==>
        Completed(s.store[s.queue[0].action.pod.key])
  {
    if i > 0 {
      InPlaceUpdatesAreSafe(trace, i - 1);
      NextSafe(trace[i - 1], trace[i]);
    } else {
      EmptyQueue(trace[0].store);
    }
    if trace[i].queue != [] {
      assert CallOk(trace[i].store, trace[i].queue, 0);
    }
  }
}
