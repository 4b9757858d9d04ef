/** The calls of a round explain everything it changes on the API server, and a slot step changes only
    pods of its own ordinal (controllers/stateful_set_control.go:384-625). */
module RoundReplay {
  import opened Pods
  import opened RoundSpec
  import opened RoundRolling
  import opened RoundLedger

  /** The API server after the first calls of a log. */
  function ApplyAll(store: Store, log: seq<Call>): Store {
    if log == [] then store else Apply(ApplyAll(store, log[..|log| - 1]), log[|log| - 1])
  }

  ghost predicate Replayed(store: Store, m: Machine) {
    m.store == ApplyAll(store, m.log)
  }

  lemma DoReplays(job: Job, store: Store, m: Machine, a: Action)
    requires Replayed(store, m)
    ensures Replayed(store, Do(job, m, a))
  {
    var call := Call(a, job.oracle(|m.log|));
    assert (m.log + [call])[..|m.log|] == m.log;
  }

  lemma SlotReplays(job: Job, store: Store, m: Machine, i: nat)
    requires i < |m.replicas| && Replayed(store, m)
    ensures Replayed(store, SlotStep(job, m, i))
  {
    hide Do, ApplyAll, ShouldMarkReady;
    var p := m.replicas[i];
    DoReplays(job, store, m, Delete(p));
    var m1 := RecreateFailed(job, m, i);
    DoKeepsReplicas(job, m, Delete(p));
    var p1 := m1.replicas[i];
    DoReplays(job, store, m1, Create(p1));
    DoReplays(job, store, m1, SetCondition(p1, IsTrue));
    DoReplays(job, store, MarkReady(job, m1, i), Repair(p1));
    DoKeepsReplicas(job, m1, SetCondition(p1, IsTrue));
  }

  lemma ReplaceReplays(job: Job, store: Store, m: Machine, p: Pod)
    requires Replayed(store, m)
    ensures Replayed(store, Replace(job, m, p))
  {
    hide Do, ApplyAll, Completed;
    DoReplays(job, store, m, Delete(p));
    var m1 := Do(job, m, SetCondition(p, IsFalse));
    DoReplays(job, store, m, SetCondition(p, IsFalse));
    DoReplays(job, store, m1, Delete(p));
    if InPlacePlan(job, p.revision).Some? {
      var patch := Patch(p, job.upd, InPlacePlan(job, p.revision).value);
      DoReplays(job, store, m1, patch);
      DoReplays(job, store, Do(job, m1, patch), Delete(p));
    }
  }

  lemma StepReplays(job: Job, store: Store, m: Machine)
    requires InRange(job, m) && !m.pc.Done? && Replayed(store, m)
    ensures Replayed(store, Step(job, m))
  {
    hide Do, ApplyAll, SlotStep, Replace;
    match m.pc
    case AtSlot(i) => if i < |m.replicas| { SlotReplays(job, store, m, i); }
    case AtScale(left) => if left > 0 { DoReplays(job, store, m, Delete(job.condemned[left - 1])); }
    case AtGate =>
    case AtRoll(left, _) => if left > UpdateMin(job.sts) { ReplaceReplays(job, store, m, m.replicas[left - 1]); }
    case Done(_) =>
  }

  lemma {:induction false} RunReplays(job: Job, store: Store, m: Machine)
    requires InRange(job, m) && Replayed(store, m)
    ensures Replayed(store, Run(job, m))
    decreases Rank(m.pc), Left(job, m.pc)
  {
    if !m.pc.Done? {
      StepReplays(job, store, m);
      RunReplays(job, store, Step(job, m));
    }
  }

  /** The calls of a round explain the whole change of the API server. */
  lemma RoundReplays(job: Job, pods: seq<Pod>, store: Store)
    ensures Round(job, pods, store).store == ApplyAll(store, Round(job, pods, store).log)
  {
    RunReplays(job, store, Start(job, pods, store));
  }

  // ---------- what a slot step leaves alone ----------

  lemma DoTouches(job: Job, m: Machine, a: Action, o: int)
    requires a.pod.key.ordinal == o
    ensures AgreeOff(m.store, Do(job, m, a).store, o)
  {
    ApplyFrame(m.store, Call(a, job.oracle(|m.log|)));
  }

  lemma AgreeTwice(a: Store, b: Store, c: Store, o: int)
    requires AgreeOff(a, b, o) && AgreeOff(b, c, o)
    ensures AgreeOff(a, c, o)
  {
  }

  lemma KeepTouches(job: Job, m: Machine, i: nat)
    requires i < |m.replicas| && m.replicas[i].key.ordinal == i
    ensures AgreeOff(m.store, KeepSlot(job, m, i).store, i) && KeepSlot(job, m, i).replicas == m.replicas
  {
    hide Do, ShouldMarkReady, AgreeOff;
    var p := m.replicas[i];
    var m1 := MarkReady(job, m, i);
    DoKeepsReplicas(job, m, SetCondition(p, IsTrue));
    DoTouches(job, m, SetCondition(p, IsTrue), i);
    DoKeepsReplicas(job, m1, Repair(p));
    DoTouches(job, m1, Repair(p), i);
    assert AgreeOff(m.store, m.store, i) by { AgreeSelf(m.store, i); }
    AgreeTwice(m.store, m1.store, RepairSlot(job, m1, i).store, i);
  }

  lemma AgreeSelf(a: Store, o: int)
    ensures AgreeOff(a, a, o)
  {
  }

  /** Whatever the outcomes, a slot step changes no pod of another ordinal, here or on the API server. */
  lemma SlotTouches(job: Job, m: Machine, i: nat)
    requires i < |m.replicas| && m.replicas[i].key.ordinal == i
    ensures
      var m' := SlotStep(job, m, i);
      && AgreeOff(m.store, m'.store, i)
      && |m'.replicas| == |m.replicas| && m'.replicas == m.replicas[i := m'.replicas[i]]
      && m'.replicas[i].key.ordinal == i
  {
    hide Do, KeepSlot, AgreeOff;
    var p := m.replicas[i];
    AgreeSelf(m.store, i);
    DoKeepsReplicas(job, m, Delete(p));
    DoTouches(job, m, Delete(p), i);
    var m1 := RecreateFailed(job, m, i);
    DoKeepsReplicas(job, m1, Create(m1.replicas[i]));
    DoTouches(job, m1, Create(m1.replicas[i]), i);
    KeepTouches(job, m1, i);
    AgreeSelf(m1.store, i);
    AgreeTwice(m.store, m1.store, SlotStep(job, m, i).store, i);
  }
}
