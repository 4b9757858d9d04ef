/** Exactly which pods the rolling loop updates, by which calls, and when a round reports an error; in terms
    of the spec, the plans and the listed pods alone (controllers/stateful_set_control.go:384-625,
    controllers/stateful_inplace_utils.go:38-56). */
module RoundUpdates {
  import opened Pods
  import opened RoundSpec
  import opened RoundOrder
  import opened RoundRolling

  // ---------- one turn ----------

  /** The last in-place update of the pod is recorded and not finished: the record does not decode, is of
      another revision, or has a container that reports no status or first the image ID it had. */
  predicate Unfinished(p: Pod) {
    match p.note
    case NoState => false
    case Garbled => true
    case State(revision, last) =>
      revision != p.revision || exists c | c in last :: StillRuns(p.statuses, c, last[c])
  }

  predicate StillRuns(statuses: seq<ContainerStatus>, c: string, image: string) {
    forall i | 0 <= i < |statuses| && statuses[i].name == c ::
      statuses[i].imageID == image || exists j | 0 <= j < i :: statuses[j].name == c
  }

  lemma {:induction false} FirstImageIs(statuses: seq<ContainerStatus>, c: string)
    ensures
      match FirstImage(statuses, c)
      case None => forall i | 0 <= i < |statuses| :: statuses[i].name != c
      case Some(image) => exists i | 0 <= i < |statuses| ::
        && statuses[i] == ContainerStatus(c, image) && forall j | 0 <= j < i :: statuses[j].name != c
  {
    if statuses != [] && statuses[0].name != c {
      FirstImageIs(statuses[1..], c);
      if FirstImage(statuses, c).Some? {
        var i :| 0 <= i < |statuses[1..]| && statuses[1..][i] == ContainerStatus(c, FirstImage(statuses, c).value)
          && forall j | 0 <= j < i :: statuses[1..][j].name != c;
        assert statuses[i + 1] == statuses[1..][i];
      }
      forall i | 0 < i < |statuses|
        ensures statuses[i] == statuses[1..][i - 1]
      {
      }
    }
  }

  lemma MovedMeans(statuses: seq<ContainerStatus>, c: string, image: string)
    ensures Moved(statuses, c, image) <==> !StillRuns(statuses, c, image)
  {
    FirstImageIs(statuses, c);
  }

  lemma CompletedMeans(p: Pod)
    ensures Completed(p) <==> !Unfinished(p)
  {
    hide Moved, StillRuns;
    if p.note.State? {
      forall c | c in p.note.last
        ensures Moved(p.statuses, c, p.note.last[c]) <==> !StillRuns(p.statuses, c, p.note.last[c])
      {
        MovedMeans(p.statuses, c, p.note.last[c]);
      }
    }
  }

  /** Policy and templates allow an in-place update of pods of this revision. */
  predicate MayPatch(job: Job, revision: string) {
    job.sts.rolling.Some? && !job.sts.rolling.value.policy.ReCreate? && job.plan(revision).Some?
  }

  /** After a failed attempt that was no conflict the pod is recreated, unless the policy is InPlaceOnly. */
  predicate FallsBack(job: Job, o: Outcome) {
    o.Error? && job.sts.rolling.Some? && !job.sts.rolling.value.policy.InPlaceOnly?
  }

  /** An in-place attempt: condition False, the patch if that was written, and a deletion if the last of them
      failed for good. */
  predicate Attempts(job: Job, p: Pod, images: map<string, string>, calls: seq<Call>) {
    && calls != [] && calls[0].action == SetCondition(p, IsFalse)
    && var k := if calls[0].outcome.Ok? then 2 else 1;
       && |calls| == k + (if k <= |calls| && FallsBack(job, calls[k - 1].outcome) then 1 else 0)
       && (k == 2 ==> calls[1].action == Patch(p, job.upd, images))
       && (|calls| == k + 1 ==> calls[k].action == Delete(p))
  }

  /** The calls the loop makes about a pod: none about a pod at the update revision, on its way out or in the
      middle of an in-place update it may not be patched over; one deletion if no patch is allowed; otherwise
      an attempt. */
  predicate Updates(job: Job, p: Pod, calls: seq<Call>) {
    if p.revision == job.upd || p.terminating then calls == []
    else if !MayPatch(job, p.revision) then |calls| == 1 && calls[0].action == Delete(p)
    else if Unfinished(p) then calls == []
    else Attempts(job, p, job.plan(p.revision).value, calls)
  }

  /** A deletion failed, which ends the round with an error. */
  predicate Breaks(calls: seq<Call>) {
    calls != [] && calls[|calls| - 1].action.Delete? && !calls[|calls| - 1].outcome.Ok?
  }

  /** Stale, unhealthy, or in the middle of an in-place update. */
  predicate Busy(job: Job, p: Pod) {
    p.revision != job.upd || !p.phase.Running? || !p.ready || p.terminating || Unfinished(p)
  }

  /** So few busy pods leave room for another one. */
  predicate Room(sts: StatefulSet, busy: nat) {
    match if sts.rolling.Some? then sts.rolling.value.maxUnavailable else None
    case None => busy < 1
    case Some(IntVal(v)) => busy < v
    case Some(Percent(v)) => 100 * busy < v * sts.replicas
    case Some(Malformed) => false
  }

  lemma RoomMeans(sts: StatefulSet, busy: nat)
    ensures Room(sts, busy) <==> MaxUnavailable(sts).Some? && busy < MaxUnavailable(sts).value
  {
  }

  lemma BusyMeans(job: Job, p: Pod)
    ensures Busy(job, p) <==> Unavailable(job, p)
  {
    hide Completed, Unfinished;
    CompletedMeans(p);
  }

  lemma AttemptUpdates(job: Job, m: Machine, p: Pod, images: map<string, string>)
    requires !m.pc.Done? && InPlacePlan(job, p.revision) == Some(images)
    ensures
      var m' := PatchStale(job, m, p, images);
      && m.log <= m'.log && Attempts(job, p, images, m'.log[|m.log|..])
      && (forall j | |m.log| <= j < |m'.log| :: m'.log[j].action.pod == p)
      && m'.pc == if Breaks(m'.log[|m.log|..]) then Done(false) else m.pc
  {
    hide Settle, Apply;
    var mark := Call(SetCondition(p, IsFalse), job.oracle(|m.log|));
    var m1 := Do(job, m, SetCondition(p, IsFalse));
    var patch := Call(Patch(p, job.upd, images), job.oracle(|m1.log|));
    var m2 := Do(job, m1, Patch(p, job.upd, images));
    var done := if mark.outcome.Ok? then [mark, patch] else [mark];
    var before := if mark.outcome.Ok? then m2 else m1;
    SettleUpdates(job, before, p, done[|done| - 1].outcome);
    var m' := PatchStale(job, m, p, images);
    assert before.log == m.log + done;
    assert m'.log[|m.log|..] == done + m'.log[|before.log|..];
  }

  lemma SettleUpdates(job: Job, m: Machine, p: Pod, o: Outcome)
    requires !m.pc.Done? && MayPatch(job, p.revision)
    ensures
      var m' := Settle(job, m, p, o);
      && m'.log == m.log + (if FallsBack(job, o) then [Call(Delete(p), job.oracle(|m.log|))] else [])
      && m'.pc == if FallsBack(job, o) && !job.oracle(|m.log|).Ok? then Done(false) else m.pc
  {
    hide Apply;
  }

  lemma ReplaceUpdates(job: Job, m: Machine, p: Pod)
    requires !m.pc.Done? && Stale(job, p)
    ensures
      var m' := Replace(job, m, p);
      && m.log <= m'.log && Updates(job, p, m'.log[|m.log|..])
      && (forall j | |m.log| <= j < |m'.log| :: m'.log[j].action.pod == p)
      && m'.pc == if Breaks(m'.log[|m.log|..]) then Done(false) else m.pc
  {
    hide Apply, Completed, Unfinished, PatchStale, Attempts;
    CompletedMeans(p);
    if MayPatch(job, p.revision) {
      AttemptUpdates(job, m, p, job.plan(p.revision).value);
    }
  }

  lemma TurnUpdates(job: Job, m: Machine, t: nat, u: nat)
    requires t < |m.replicas| && m.pc.AtRoll?
    ensures
      var p, m' := m.replicas[t], RollStep(job, m, t, u);
      && m.log <= m'.log && m'.replicas == m.replicas
      && Updates(job, p, m'.log[|m.log|..])
      && (forall j | |m.log| <= j < |m'.log| :: m'.log[j].action.pod == p)
      && var u' := u + (if Busy(job, p) then 1 else 0);
         m'.pc ==
           if Breaks(m'.log[|m.log|..]) then Done(false) else if Room(job.sts, u') then AtRoll(t, u') else Done(true)
  {
    hide Apply, Completed, Unavailable, MaxUnavailable, Replace, Busy, Room, Attempts, MayPatch;
    var p := m.replicas[t];
    BusyMeans(job, p);
    RoomMeans(job.sts, u + (if Busy(job, p) then 1 else 0));
    if Stale(job, p) {
      ReplaceUpdates(job, m, p);
    } else {
      assert m.log[|m.log|..] == [];
    }
  }

  // ---------- the whole loop ----------

  /** The calls about a pod. */
  function About(calls: seq<Call>, p: Pod): seq<Call> {
    if calls == [] then []
    else
      About(calls[..|calls| - 1], p)
      + (if calls[|calls| - 1].action.pod == p then [calls[|calls| - 1]] else [])
  }

  lemma {:induction false} AboutAppend(a: seq<Call>, b: seq<Call>, p: Pod)
    ensures About(a + b, p) == About(a, p) + About(b, p)
  {
    if b == [] {
      assert a + b == a;
    } else {
      assert (a + b)[..|a + b| - 1] == a + b[..|b| - 1];
      AboutAppend(a, b[..|b| - 1], p);
    }
  }

  lemma {:induction false} AboutOne(calls: seq<Call>, p: Pod)
    ensures (forall c | c in calls :: c.action.pod == p) ==> About(calls, p) == calls
    ensures (forall c | c in calls :: c.action.pod != p) ==> About(calls, p) == []
  {
    if calls != [] {
      assert calls == calls[..|calls| - 1] + [calls[|calls| - 1]];
      AboutOne(calls[..|calls| - 1], p);
    }
  }

  /** The busy pods from slot t up. */
  function BusyFrom(job: Job, slots: seq<Pod>, t: nat): set<int> {
    set i | t <= i < |slots| && Busy(job, slots[i])
  }

  lemma BusyNext(job: Job, slots: seq<Pod>, t: nat)
    requires t < |slots|
    ensures |BusyFrom(job, slots, t)| == |BusyFrom(job, slots, t + 1)| + (if Busy(job, slots[t]) then 1 else 0)
  {
    hide Busy;
    assert BusyFrom(job, slots, t) == BusyFrom(job, slots, t + 1) + (if Busy(job, slots[t]) then {t as int} else {});
  }

  /** The loop goes from slot `top` down to `stop`, and makes these calls. */
  ghost predicate Covers(job: Job, slots: seq<Pod>, calls: seq<Call>, stop: nat, top: nat) {
    && stop <= top <= |slots|
    && (forall c | c in calls :: exists t: nat | stop <= t < top :: c.action.pod == slots[t])
    && (forall t: nat | stop <= t < top :: Updates(job, slots[t], About(calls, slots[t])))
    && (forall t: nat | stop < t < top :: !Breaks(About(calls, slots[t])))
  }

  lemma CoversNone(job: Job, slots: seq<Pod>, top: nat)
    requires top <= |slots|
    ensures Covers(job, slots, [], top, top)
  {
  }

  /** One more slot on top. */
  lemma CoversMore(job: Job, slots: seq<Pod>, turn: seq<Call>, calls: seq<Call>, stop: nat, top: nat)
    requires Indexed(slots) && top < |slots| && Covers(job, slots, calls, stop, top)
    requires (forall c | c in turn :: c.action.pod == slots[top]) && Updates(job, slots[top], turn)
    requires stop < top ==> !Breaks(turn)
    ensures Covers(job, slots, turn + calls, stop, top + 1)
    ensures About(turn + calls, slots[top]) == turn
    ensures forall t: nat | stop <= t < top :: About(turn + calls, slots[t]) == About(calls, slots[t])
  {
    hide Updates, Breaks;
    forall t: nat | stop <= t <= top
      ensures About(turn + calls, slots[t]) == if t == top then turn else About(calls, slots[t])
    {
      AboutAppend(turn, calls, slots[t]);
      AboutOne(turn, slots[t]);
      if t == top {
        AboutOne(calls, slots[t]);
      }
    }
  }

  function Partition(sts: StatefulSet): nat {
    if sts.rolling.Some? then sts.rolling.value.partition else 0
  }

  /** The loop gets below slot t, as far as the busy pods from t up are concerned. */
  predicate Open(job: Job, slots: seq<Pod>, t: nat) {
    t >= |slots| || Room(job.sts, |BusyFrom(job, slots, t)|)
  }

  /** What the loop has done when it ends: it goes down from slot `top` as long as there is room, to the
      partition or to a pod whose deletion failed. */
  ghost predicate Rolled(job: Job, slots: seq<Pod>, calls: seq<Call>, stop: nat, top: nat, ok: bool) {
    && Covers(job, slots, calls, stop, top)
    && (stop < top ==> Partition(job.sts) <= stop)
    && (forall t: nat | stop < t <= top :: Open(job, slots, t))
    && (ok <==> !(stop < top && Breaks(About(calls, slots[stop]))))
    && (ok ==> stop <= Partition(job.sts) || !Open(job, slots, stop))
  }

  lemma RolledMore(job: Job, slots: seq<Pod>, turn: seq<Call>, rest: seq<Call>, stop: nat, top: nat, ok: bool)
    requires Indexed(slots) && top < |slots| && Rolled(job, slots, rest, stop, top, ok)
    requires (forall c | c in turn :: c.action.pod == slots[top]) && Updates(job, slots[top], turn)
    requires Partition(job.sts) <= top && !Breaks(turn) && Open(job, slots, top + 1)
    ensures Rolled(job, slots, turn + rest, stop, top + 1, ok)
  {
    hide Covers, Updates, Breaks, Open;
    CoversAtMost(job, slots, rest, stop, top);
    CoversMore(job, slots, turn, rest, stop, top);
  }

  lemma CoversAtMost(job: Job, slots: seq<Pod>, calls: seq<Call>, stop: nat, top: nat)
    requires Covers(job, slots, calls, stop, top)
    ensures stop <= top <= |slots|
  {
  }

  lemma RolledLast(job: Job, slots: seq<Pod>, turn: seq<Call>, top: nat)
    requires Indexed(slots) && top < |slots|
    requires (forall c | c in turn :: c.action.pod == slots[top]) && Updates(job, slots[top], turn)
    requires Partition(job.sts) <= top && Open(job, slots, top + 1)
    requires Breaks(turn) || !Open(job, slots, top)
    ensures Rolled(job, slots, turn, top, top + 1, !Breaks(turn))
  {
    hide Covers, Updates, Breaks, Open;
    CoversNone(job, slots, top);
    CoversMore(job, slots, turn, [], top, top);
    assert turn + [] == turn;
  }

  lemma {:induction false} LoopUpdates(job: Job, m: Machine) returns (stop: nat)
    requires InRange(job, m) && Indexed(m.replicas) && m.pc.AtRoll?
    requires m.pc.unavailable == |BusyFrom(job, m.replicas, m.pc.left)| && Open(job, m.replicas, m.pc.left)
    ensures m.log <= Run(job, m).log && Run(job, m).pc.Done?
    ensures Rolled(job, m.replicas, Run(job, m).log[|m.log|..], stop, m.pc.left, Run(job, m).pc.ok)
    decreases m.pc.left
  {
    hide RollStep, MaxUnavailable, Room, Covers, Rolled, Breaks, BusyFrom, Updates, Busy, SlotStep, ScaleStep, GateStep;
    var slots, left := m.replicas, m.pc.left;
    if left <= UpdateMin(job.sts) {
      stop := left;
      assert Run(job, m) == Run(job, Step(job, m)) == m.(pc := Done(true));
      assert m.log[|m.log|..] == [];
      RolledNone(job, slots, left);
    } else {
      var m' := Step(job, m);
      TurnUpdates(job, m, left - 1, m.pc.unavailable);
      BusyNext(job, slots, left - 1);
      var turn := m'.log[|m.log|..];
      assert Run(job, m) == Run(job, m');
      if m'.pc.AtRoll? {
        stop := LoopUpdates(job, m');
        var rest := Run(job, m').log[|m'.log|..];
        assert Run(job, m).log[|m.log|..] == turn + rest;
        RolledMore(job, slots, turn, rest, stop, left - 1, Run(job, m).pc.ok);
      } else {
        stop := left - 1;
        assert Run(job, m') == m';
        RolledLast(job, slots, turn, stop);
      }
    }
  }

  lemma RolledNone(job: Job, slots: seq<Pod>, top: nat)
    requires top <= |slots| && top <= Partition(job.sts)
    ensures Rolled(job, slots, [], top, top, true)
  {
  }

  // ---------- when a round rolls, and when it fails ----------

  /** A failed call that is not part of an in-place attempt ends the round with an error. */
  predicate Fatal(c: Call) {
    && !c.outcome.Ok? && !c.action.Patch?
    && !(c.action.SetCondition? && c.action.value.IsFalse?)
  }

  predicate NoneFatal(log: seq<Call>) {
    forall j | 0 <= j < |log| :: !Fatal(log[j])
  }

  /** A Parallel set always gets past its slots; an OrderedReady one if it is healthy and has its size. */
  predicate GetsPast(job: Job, slots: seq<Pod>) {
    job.sts.parallel || (HealthyBelow(slots, |slots|) && job.condemned == [])
  }

  predicate MayUpdate(job: Job, slots: seq<Pod>) {
    !job.sts.deleting && GetsPast(job, slots) && !job.sts.strategy.OnDelete? && job.satisfied
  }

  predicate Misspelled(sts: StatefulSet) {
    sts.rolling.Some? && sts.rolling.value.maxUnavailable == Some(Malformed)
  }

  /** The round goes on to update stale pods. */
  predicate WillRoll(job: Job, slots: seq<Pod>) {
    && MayUpdate(job, slots) && !Misspelled(job.sts)
    && (job.sts.rolling.Some? ==> !job.sts.rolling.value.paused)
  }

  /** The one error that no call causes. */
  predicate FailsUnbidden(job: Job, slots: seq<Pod>) {
    MayUpdate(job, slots) && Misspelled(job.sts)
  }

  predicate OnlyLastFatal(log: seq<Call>) {
    log != [] && NoneFatal(log[..|log| - 1]) && Fatal(log[|log| - 1])
  }

  /** No fatal call so far, or the last one was and the round is over. */
  predicate Reports(job: Job, slots: seq<Pod>, m: Machine) {
    match m.pc
    case AtSlot(i) =>
      !job.sts.deleting && NoneFatal(m.log) && (!job.sts.parallel ==> m.replicas == slots && HealthyBelow(slots, i))
    case AtScale(left) =>
      && !job.sts.deleting && NoneFatal(m.log)
      && (!job.sts.parallel ==> HealthyBelow(slots, |slots|) && left == |job.condemned|)
    case AtGate => !job.sts.deleting && NoneFatal(m.log) && GetsPast(job, slots)
    case AtRoll(_, _) => NoneFatal(m.log) && WillRoll(job, slots)
    case Done(ok) =>
      if ok then NoneFatal(m.log) && !FailsUnbidden(job, slots)
      else OnlyLastFatal(m.log) || (NoneFatal(m.log) && FailsUnbidden(job, slots))
  }

  lemma KeepReports(job: Job, m: Machine, i: nat)
    requires i < |m.replicas| && m.pc == AtSlot(i) && NoneFatal(m.log)
    ensures
      var m' := KeepSlot(job, m, i);
      && m'.replicas == m.replicas
      && (if m'.pc == Done(false) then OnlyLastFatal(m'.log) else NoneFatal(m'.log))
      && (m'.pc == AtSlot(i + 1) || m'.pc.Done?)
      && (!job.sts.parallel ==> (m'.pc == AtSlot(i + 1) ==> Healthy(m.replicas[i])))
      && (m'.pc == Done(true) ==> !job.sts.parallel && !Healthy(m.replicas[i]))
  {
    hide Apply, ShouldMarkReady;
  }

  lemma SlotReports(job: Job, slots: seq<Pod>, m: Machine)
    requires InRange(job, m) && |slots| == |m.replicas| && m.pc.AtSlot? && m.pc.i < |slots| && Reports(job, slots, m)
    ensures
      var m' := SlotStep(job, m, m.pc.i);
      Reports(job, slots, m') && (m'.pc.Done? && NoneFatal(m'.log) ==> !GetsPast(job, slots))
  {
    hide RecreateFailed, CreateSlot, KeepSlot, NoneFatal, OnlyLastFatal;
    FatalIsOne(SlotStep(job, m, m.pc.i).log);
    RecreateReports(job, m, m.pc.i);
    var m1 := RecreateFailed(job, m, m.pc.i);
    if !m1.pc.Done? {
      if Created(m1.replicas[m.pc.i]) {
        KeepReports(job, m1, m.pc.i);
      } else {
        CreateReports(job, m1, m.pc.i);
      }
    }
  }

  lemma FatalIsOne(log: seq<Call>)
    ensures OnlyLastFatal(log) ==> !NoneFatal(log)
  {
  }

  lemma RecreateReports(job: Job, m: Machine, i: nat)
    requires i < |m.replicas| && m.pc == AtSlot(i) && NoneFatal(m.log)
    ensures
      var p, m' := m.replicas[i], RecreateFailed(job, m, i);
      if m'.pc == m.pc then
        && NoneFatal(m'.log) && |m'.replicas| == |m.replicas|
        && if p.phase.Failed? then !Created(m'.replicas[i]) else m' == m
      else m'.pc == Done(false) && OnlyLastFatal(m'.log)
  {
    hide Apply;
  }

  lemma CreateReports(job: Job, m: Machine, i: nat)
    requires i < |m.replicas| && m.pc == AtSlot(i) && NoneFatal(m.log)
    ensures
      var m' := CreateSlot(job, m, i);
      if m'.pc == Done(false) then OnlyLastFatal(m'.log)
      else NoneFatal(m'.log) && m'.pc == if job.sts.parallel then AtSlot(i + 1) else Done(true)
  {
    hide Apply;
  }

  lemma ScaleReports(job: Job, slots: seq<Pod>, m: Machine)
    requires InRange(job, m) && |slots| == |m.replicas| && m.pc.AtScale? && m.pc.left > 0 && Reports(job, slots, m)
    ensures
      var m' := ScaleStep(job, m, m.pc.left - 1);
      Reports(job, slots, m') && (m'.pc.Done? && NoneFatal(m'.log) ==> !GetsPast(job, slots))
  {
    hide Apply, HealthyBelow;
    assert job.condemned != [];
  }

  lemma GateReports(job: Job, slots: seq<Pod>, m: Machine)
    requires m.pc.AtGate? && Reports(job, slots, m)
    ensures Reports(job, slots, GateStep(job, m))
    ensures WillRoll(job, slots) <==> GateStep(job, m).pc.AtRoll?
  {
  }

  lemma TurnReports(job: Job, slots: seq<Pod>, m: Machine)
    requires InRange(job, m) && m.pc.AtRoll? && m.pc.left > 0 && Reports(job, slots, m)
    ensures Reports(job, slots, RollStep(job, m, m.pc.left - 1, m.pc.unavailable))
  {
    hide RollStep, Busy, Room, Unfinished, GetsPast;
    var t := m.pc.left - 1;
    TurnUpdates(job, m, t, m.pc.unavailable);
    var m' := RollStep(job, m, t, m.pc.unavailable);
    assert m'.log == m.log + m'.log[|m.log|..];
  }

  lemma StepReports(job: Job, slots: seq<Pod>, m: Machine)
    requires InRange(job, m) && |slots| == |m.replicas| && !m.pc.Done? && Reports(job, slots, m)
    ensures Reports(job, slots, Step(job, m))
    ensures Step(job, m).pc.Done? && !m.pc.AtRoll? && NoneFatal(Step(job, m).log) ==> !WillRoll(job, slots)
  {
    hide SlotStep, ScaleStep, GateStep, RollStep;
    match m.pc
    case AtSlot(i) => if i < |slots| { SlotReports(job, slots, m); }
    case AtScale(left) => if left > 0 { ScaleReports(job, slots, m); }
    case AtGate => GateReports(job, slots, m);
    case AtRoll(left, _) => if left > UpdateMin(job.sts) { TurnReports(job, slots, m); }
    case Done(_) =>
  }

  lemma {:induction false} RunReports(job: Job, slots: seq<Pod>, m: Machine)
    requires InRange(job, m) && |slots| == |m.replicas| && Reports(job, slots, m)
    ensures Reports(job, slots, Run(job, m))
    decreases Rank(m.pc), Left(job, m.pc)
  {
    hide Reports;
    if !m.pc.Done? {
      StepReports(job, slots, m);
      RunReports(job, slots, Step(job, m));
    }
  }

  lemma {:induction false} BeforeRollReports(job: Job, slots: seq<Pod>, m: Machine)
    requires InRange(job, m) && |slots| == |m.replicas| && Reports(job, slots, m)
    requires m.pc.Done? && NoneFatal(m.log) ==> !WillRoll(job, slots)
    ensures
      var b := BeforeRoll(job, m);
      b.pc.AtRoll? <==> WillRoll(job, slots) && NoneFatal(b.log)
    decreases Rank(m.pc), Left(job, m.pc)
  {
    hide SlotStep, ScaleStep, GateStep, RollStep, GetsPast, NoneFatal;
    if !m.pc.Done? && !m.pc.AtRoll? {
      StepReports(job, slots, m);
      BeforeRollReports(job, slots, Step(job, m));
    }
  }

  lemma StartReports(job: Job, pods: seq<Pod>, store: Store)
    ensures Reports(job, Slots(job, pods), Start(job, pods, store))
    ensures job.sts.deleting ==> !WillRoll(job, Slots(job, pods))
  {
  }

  lemma ReportsWhenDone(job: Job, slots: seq<Pod>, m: Machine)
    requires m.pc.Done? && Reports(job, slots, m)
    ensures m.pc == Done(false) <==> !NoneFatal(m.log) || FailsUnbidden(job, slots)
    ensures !NoneFatal(m.log) ==> OnlyLastFatal(m.log)
  {
    hide MayUpdate, NoneFatal;
    FatalIsOne(m.log);
  }

  /** Whatever the mode and the outcomes: a round ends with an error if and only if some call failed that is
      not part of an in-place attempt, and then it is the last one, or the round gets to the update of pods and
      finds a malformed bound. */
  lemma RoundFailsIff(job: Job, pods: seq<Pod>, store: Store)
    ensures
      var m := Round(job, pods, store);
      && (m.pc == Done(false) <==> !NoneFatal(m.log) || FailsUnbidden(job, Slots(job, pods)))
      && (!NoneFatal(m.log) ==> OnlyLastFatal(m.log))
  {
    hide Run, Reports, FailsUnbidden, NoneFatal, OnlyLastFatal;
    StartReports(job, pods, store);
    RunReports(job, Slots(job, pods), Start(job, pods, store));
    RunEnds(job, Start(job, pods, store));
    ReportsWhenDone(job, Slots(job, pods), Round(job, pods, store));
  }

  lemma {:induction false} LessRoom(job: Job, slots: seq<Pod>, t: nat, stop: nat)
    requires t <= stop <= |slots| && !Open(job, slots, stop)
    ensures !Open(job, slots, t)
    decreases stop - t
  {
    hide Busy;
    if t < stop {
      LessRoom(job, slots, t + 1, stop);
      BusyNext(job, slots, t);
      MoreIsNoRoom(job.sts, |BusyFrom(job, slots, t + 1)|, |BusyFrom(job, slots, t)|);
    }
  }

  lemma MoreIsNoRoom(sts: StatefulSet, a: nat, b: nat)
    requires a <= b && !Room(sts, a)
    ensures !Room(sts, b)
  {
  }

  /** The loop gets to slot t if no deletion fails above it: it is not below the partition, and it is on top or
      the busy pods above it leave room. */
  predicate Due(job: Job, slots: seq<Pod>, t: nat) {
    Partition(job.sts) <= t < |slots| && Open(job, slots, t + 1)
  }

  lemma RolledIsDue(job: Job, slots: seq<Pod>, calls: seq<Call>, stop: nat, ok: bool)
    requires Rolled(job, slots, calls, stop, |slots|, ok)
    ensures forall t: nat | stop <= t < |slots| :: Due(job, slots, t)
    ensures ok ==> forall t: nat | Due(job, slots, t) :: stop <= t
    ensures !ok ==> stop < |slots| && Breaks(About(calls, slots[stop]))
    ensures Covers(job, slots, calls, stop, |slots|)
  {
    hide Covers, Breaks, Open;
    CoversAtMost(job, slots, calls, stop, |slots|);
    forall t: nat | ok && Due(job, slots, t)
      ensures stop <= t
    {
      if t < stop {
        assert !Open(job, slots, stop);
        LessRoom(job, slots, t + 1, stop);
      }
    }
  }

  /** The rolling phase, exactly, for any mode and outcomes. It takes place if and only if the set may be rolled
      and no call failed before. Each pod it handles gets the calls of the policy. If all deletions work, the
      pods it handles are exactly those from the partition on that are on top or leave room: fewer pods above
      them are busy than the bound allows. A deletion that fails ends it at its pod. */
  lemma RollingIsExact(job: Job, pods: seq<Pod>, store: Store) returns (stop: nat)
    ensures
      var b := BeforeRoll(job, Start(job, pods, store));
      b.pc.AtRoll? <==> WillRoll(job, Slots(job, pods)) && NoneFatal(b.log)
    ensures
      var b, m := BeforeRoll(job, Start(job, pods, store)), Round(job, pods, store);
      && b.log <= m.log
      && var slots, calls := b.replicas, m.log[|b.log|..];
         if b.pc.AtRoll? then
           && Covers(job, slots, calls, stop, |slots|)
           && (forall t: nat | stop <= t < |slots| :: Due(job, slots, t))
           && (m.pc == Done(true) ==> forall t: nat | Due(job, slots, t) :: stop <= t)
           && (m.pc == Done(false) ==> stop < |slots| && Breaks(About(calls, slots[stop])))
         else calls == []
  {
    hide Run, Start, BeforeRoll, Reports, WillRoll, NoneFatal, Covers, Open, Breaks, BusyFrom, Due, Rolled;
    var s := Start(job, pods, store);
    StartReports(job, pods, store);
    SlotsIndexed(job, pods);
    StartIsFirst(job, pods, store);
    BeforeRollFacts(job, s);
    BeforeRollReports(job, Slots(job, pods), s);
    var b := BeforeRoll(job, s);
    stop := 0;
    if b.pc.AtRoll? {
      OpenOnTop(job, b.replicas);
      stop := LoopUpdates(job, b);
      RolledIsDue(job, b.replicas, Run(job, b).log[|b.log|..], stop, Run(job, b).pc.ok);
    } else {
      assert Run(job, b) == b by { DoneStays(job, b); }
    }
  }

  lemma StartIsFirst(job: Job, pods: seq<Pod>, store: Store)
    ensures
      var s := Start(job, pods, store);
      InRange(job, s) && s.replicas == Slots(job, pods) && |s.replicas| == job.sts.replicas && !s.pc.AtRoll?
    ensures Start(job, pods, store).pc.Done? ==> job.sts.deleting
  {
  }

  lemma DoneStays(job: Job, m: Machine)
    requires InRange(job, m) && m.pc.Done?
    ensures Run(job, m) == m
  {
  }

  lemma OpenOnTop(job: Job, slots: seq<Pod>)
    ensures |BusyFrom(job, slots, |slots|)| == 0 && Open(job, slots, |slots|)
  {
  }
}
