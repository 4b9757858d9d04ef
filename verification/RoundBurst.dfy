/** What one error-free Parallel round has done (controllers/stateful_set_control.go:387-530). */
module RoundBurst {
  import opened Pods
  import opened RoundSpec
  import opened RoundOrder
  import opened RoundRolling

  predicate Succeeded(log: seq<Call>, a: Action) {
    Call(a, Ok) in log
  }

  /** Slot i needs a pod: it is empty, never accepted, or failed. */
  predicate NeedsPod(p: Pod) {
    p.phase.Unset? || p.phase.Failed?
  }

  /** The pod a round creates for a slot in need. */
  function PodFor(job: Job, p: Pod, i: nat): Pod {
    if p.phase.Failed? then NewPod(job, i) else p
  }

  /** The slot has all it needs: a pod, or for a pod that stays its condition and its identity. */
  predicate Served(job: Job, p: Pod, i: nat, log: seq<Call>) {
    && (NeedsPod(p) ==> Succeeded(log, Create(PodFor(job, p, i))))
    && (p.phase.Failed? ==> Succeeded(log, Delete(p)))
    && (!NeedsPod(p) && ShouldMarkReady(p) ==> Succeeded(log, SetCondition(p, IsTrue)))
    && (!NeedsPod(p) && !p.conforms ==> Succeeded(log, Repair(p)))
  }

  predicate Removed(p: Pod, log: seq<Call>) {
    !p.terminating ==> Succeeded(log, Delete(p))
  }

  /** A call slot i gave reason for. */
  predicate NeededFor(job: Job, p: Pod, i: nat, call: Call) {
    match call.action
    case Create(q) => NeedsPod(p) && q == PodFor(job, p, i)
    case Delete(q) => p.phase.Failed? && q == p
    case SetCondition(q, value) => value.IsTrue? && !NeedsPod(p) && ShouldMarkReady(p) && q == p
    case Repair(q) => !NeedsPod(p) && !p.conforms && q == p
    case Patch(_, _, _) => false
  }

  predicate Fills(call: Call) {
    call.action.Create? || Upkeep(call)
  }

  /** Creations and upkeep are for a slot that needs them. */
  predicate Needed(job: Job, slots: seq<Pod>, call: Call) {
    Fills(call) ==> exists i: nat | i < |slots| :: NeededFor(job, slots[i], i, call)
  }

  ghost predicate Caught(job: Job, slots: seq<Pod>, m: Machine) {
    && |m.replicas| == |slots|
    && (forall c | c in m.log :: Needed(job, slots, c))
    && match m.pc
       case AtSlot(i) =>
         && (forall j | i <= j < |slots| :: m.replicas[j] == slots[j])
         && (forall j | 0 <= j < i <= |slots| :: Served(job, slots[j], j, m.log))
       case AtScale(left) =>
         && (forall j | 0 <= j < |slots| :: Served(job, slots[j], j, m.log))
         && (forall j | left <= j < |job.condemned| :: Removed(job.condemned[j], m.log))
       case Done(false) => true
       case _ =>
         && (forall j | 0 <= j < |slots| :: Served(job, slots[j], j, m.log))
         && (forall p | p in job.condemned :: Removed(p, m.log))
  }

  lemma KeepsServed(job: Job, p: Pod, i: nat, log: seq<Call>, log': seq<Call>)
    requires log <= log'
    ensures Served(job, p, i, log) ==> Served(job, p, i, log')
    ensures Removed(p, log) ==> Removed(p, log')
  {
    assert forall c | c in log :: c in log';
  }

  lemma KeepAppends(job: Job, m: Machine, i: nat)
    requires job.sts.parallel && i < |m.replicas| && m.pc == AtSlot(i)
    ensures
      var m' := KeepSlot(job, m, i);
      && m.log <= m'.log && m'.replicas == m.replicas
      && (m'.pc == AtSlot(i + 1) || m'.pc == Done(false))
      && (m'.pc != Done(false) && !NeedsPod(m.replicas[i]) ==> Served(job, m.replicas[i], i, m'.log))
      && (!NeedsPod(m.replicas[i]) ==>
            forall j | |m.log| <= j < |m'.log| :: NeededFor(job, m.replicas[i], i, m'.log[j]))
  {
    hide Apply, ShouldMarkReady;
    var p, k, m' := m.replicas[i], |m.log|, KeepSlot(job, m, i);
    if m'.pc != Done(false) {
      if ShouldMarkReady(p) {
        assert m'.log[k] == Call(SetCondition(p, IsTrue), Ok);
      }
      if !p.conforms {
        assert m'.log[|m'.log| - 1] == Call(Repair(p), Ok);
      }
    }
  }

  /** What a slot step does for slot i: all that is needed unless an error ends it, and nothing else. */
  ghost predicate Serves(job: Job, m: Machine, m': Machine, i: nat)
    requires i < |m.replicas|
  {
    && m.log <= m'.log
    && (m'.pc == AtSlot(i + 1) || m'.pc == Done(false))
    && (m'.pc != Done(false) ==> Served(job, m.replicas[i], i, m'.log))
    && (forall j | |m.log| <= j < |m'.log| :: NeededFor(job, m.replicas[i], i, m'.log[j]))
    && |m'.replicas| == |m.replicas|
    && (forall j | 0 <= j < |m.replicas| && j != i :: m'.replicas[j] == m.replicas[j])
  }

  lemma FilledIsServed(job: Job, p: Pod, i: nat, log: seq<Call>)
    requires NeedsPod(p) && Succeeded(log, Create(PodFor(job, p, i)))
    requires p.phase.Failed? ==> Succeeded(log, Delete(p))
    ensures Served(job, p, i, log)
  {
  }

  lemma DoLogs(job: Job, m: Machine, a: Action)
    ensures
      var m' := Do(job, m, a);
      && m'.log == m.log + [Call(a, job.oracle(|m.log|))] && m'.log[|m.log|] == Call(a, job.oracle(|m.log|))
      && m'.replicas == m.replicas && m'.pc == m.pc
  {
  }

  lemma CreateAppends(job: Job, m: Machine, i: nat)
    requires job.sts.parallel && m.pc == AtSlot(i) && i < |m.replicas| && m.replicas[i].phase.Unset?
    ensures
      var p, m' := m.replicas[i], CreateSlot(job, m, i);
      && m'.log == m.log + [Call(Create(p), job.oracle(|m.log|))]
      && m'.pc == (if job.oracle(|m.log|).Ok? then AtSlot(i + 1) else Done(false))
      && |m'.replicas| == |m.replicas| && forall j | 0 <= j < |m.replicas| && j != i :: m'.replicas[j] == m.replicas[j]
  {
    hide Do;
    DoLogs(job, m, Create(m.replicas[i]));
  }

  lemma FillAppends(job: Job, m: Machine, i: nat)
    requires job.sts.parallel && m.pc == AtSlot(i) && i < |m.replicas| && NeedsPod(m.replicas[i])
    ensures Serves(job, m, SlotStep(job, m, i), i)
  {
    hide Do, KeepSlot, CreateSlot, ShouldMarkReady, Served, Upkeep;
    var p, m' := m.replicas[i], SlotStep(job, m, i);
    DoLogs(job, m, Delete(p));
    var m1 := RecreateFailed(job, m, i);
    if !m1.pc.Done? {
      CreateAppends(job, m1, i);
      var create := Call(Create(m1.replicas[i]), job.oracle(|m1.log|));
      assert m'.log[|m1.log|] == create;
      if m'.pc != Done(false) {
        FilledIsServed(job, p, i, m'.log);
      }
    }
  }

  lemma SlotAppends(job: Job, m: Machine, i: nat)
    requires job.sts.parallel && m.pc == AtSlot(i) && i < |m.replicas|
    ensures Serves(job, m, SlotStep(job, m, i), i)
  {
    if NeedsPod(m.replicas[i]) {
      FillAppends(job, m, i);
    } else {
      hide KeepSlot, Served, NeededFor;
      KeepAppends(job, m, i);
    }
  }

  lemma SlotCaught(job: Job, slots: seq<Pod>, m: Machine)
    requires job.sts.parallel && InRange(job, m) && m.pc.AtSlot? && m.pc.i < |m.replicas|
    requires Caught(job, slots, m)
    ensures Caught(job, slots, SlotStep(job, m, m.pc.i))
  {
    hide SlotStep, Served, NeededFor, Upkeep;
    var i := m.pc.i;
    var m' := SlotStep(job, m, i);
    SlotAppends(job, m, i);
    forall j | 0 <= j < i
      ensures Served(job, slots[j], j, m'.log)
    {
      KeepsServed(job, slots[j], j, m.log, m'.log);
    }
    forall c | c in m'.log
      ensures Needed(job, slots, c)
    {
      var j :| 0 <= j < |m'.log| && m'.log[j] == c;
      if j < |m.log| {
        assert c in m.log;
      }
    }
  }

  /** Any other step only adds calls that create nothing. */
  lemma LaterCaught(job: Job, slots: seq<Pod>, m: Machine, m': Machine)
    requires Caught(job, slots, m) && |m'.replicas| == |slots| && m.log <= m'.log
    requires forall j | |m.log| <= j < |m'.log| :: !Fills(m'.log[j])
    ensures forall c | c in m'.log :: Needed(job, slots, c)
    ensures forall j | 0 <= j < |slots| :: Served(job, slots[j], j, m.log) ==> Served(job, slots[j], j, m'.log)
    ensures forall p | Removed(p, m.log) :: Removed(p, m'.log)
  {
    hide Served, NeededFor, Fills;
    forall j | 0 <= j < |slots|
      ensures Served(job, slots[j], j, m.log) ==> Served(job, slots[j], j, m'.log)
    {
      KeepsServed(job, slots[j], j, m.log, m'.log);
    }
    forall c | c in m'.log
      ensures Needed(job, slots, c)
    {
      var j :| 0 <= j < |m'.log| && m'.log[j] == c;
      if j < |m.log| {
        assert c in m.log;
      }
    }
    assert forall c | c in m.log :: c in m'.log;
  }

  lemma StepCaught(job: Job, slots: seq<Pod>, m: Machine)
    requires job.sts.parallel && InRange(job, m) && !m.pc.Done?
    requires Caught(job, slots, m)
    ensures Caught(job, slots, Step(job, m))
  {
    hide Apply, SlotStep, RollStep, Served, Needed;
    var m' := Step(job, m);
    match m.pc
    case AtSlot(i) => if i < |m.replicas| { SlotCaught(job, slots, m); }
    case AtScale(left) =>
      LaterCaught(job, slots, m, m');
      if left > 0 && m'.pc.AtScale? && !job.condemned[left - 1].terminating {
        assert m'.log[|m.log|] == Call(Delete(job.condemned[left - 1]), Ok);
      }
    case AtRoll(left, u) =>
      if left > UpdateMin(job.sts) {
        RollAppends(job, m, left - 1, u);
        LaterCaught(job, slots, m, m');
      }
    case _ =>
  }

  lemma {:induction false} RunCaught(job: Job, slots: seq<Pod>, m: Machine)
    requires job.sts.parallel && InRange(job, m)
    requires Caught(job, slots, m)
    ensures Caught(job, slots, Run(job, m))
    decreases Rank(m.pc), Left(job, m.pc)
  {
    if !m.pc.Done? {
      StepCaught(job, slots, m);
      RunCaught(job, slots, Step(job, m));
    }
  }

  /** After an error-free Parallel round every slot in need got its pod, every failed pod and every
      non-terminating condemned pod was deleted, every finished in-place update was marked ready and every
      lost identity or storage repaired; nothing else was created or repaired. The new
      pods carry the current revision exactly below the partition, or below CurrentReplicas if a RollingUpdate
      type has no block. */
  lemma ParallelRoundIsComplete(job: Job, pods: seq<Pod>, store: Store)
    requires job.sts.parallel && !job.sts.deleting
    requires Round(job, pods, store).pc == Done(true)
    ensures
      var log, slots := Round(job, pods, store).log, Slots(job, pods);
      && (forall i | 0 <= i < |slots| :: Served(job, slots[i], i, log))
      && (forall p | p in job.condemned :: Removed(p, log))
      && (forall c | c in log :: Needed(job, slots, c))
    ensures
      forall i | 0 <= i < job.sts.replicas && (SlotPod(pods, i).None? || SlotPod(pods, i).value.phase.Failed?) ::
        PodFor(job, Slots(job, pods)[i], i).revision ==
          if job.sts.rolling.Some? then (if i < job.sts.rolling.value.partition then job.cur else job.upd)
          else if job.sts.strategy.RollingType? && i < job.sts.currentReplicas then job.cur
          else job.upd
  {
    var s, slots := Start(job, pods, store), Slots(job, pods);
    RunCaught(job, slots, s);
    assert Caught(job, slots, Run(job, s));
  }
}
