/** The imperative round: slices filled and replaced in place, counters raised and lowered, loops with
    early returns; each method is tied to the machine of RoundSpec
    (controllers/stateful_set_control.go:85-655). */
module StatefulSetControl {
  import opened Pods
  import opened RoundSpec
  import opened RoundExpectations
  import opened PodControl
  import Expectations
  import RoundRolling
  import RoundLedger
  import RoundCompletion
  import RoundSnapshot
  import RoundUpdates

  /** How a loop body ends: go on, or return from the round. */
  datatype Flow = Next | Return(ok: bool)

  class RoundControl {
    const control: StatefulPodControl
    const expectations: Expectations.UpdateExpectations<Key>
    const key: string
    var replicas: seq<Pod>
    var statusReplicas: int
    var readyReplicas: int
    var currentReplicas: int
    var updatedReplicas: int

    constructor (control: StatefulPodControl, expectations: Expectations.UpdateExpectations<Key>, key: string)
      ensures this.control == control && this.expectations == expectations && this.key == key
      ensures replicas == [] && Status() == Counters(0, 0, 0, 0)
    {
      this.control, this.expectations, this.key := control, expectations, key;
      replicas := [];
      statusReplicas, readyReplicas, currentReplicas, updatedReplicas := 0, 0, 0, 0;
    }

    ghost function Status(): Counters
      reads this
    {
      Counters(statusReplicas, readyReplicas, currentReplicas, updatedReplicas)
    }

    ghost function At(pc: PC): Machine
      reads this, control
    {
      Machine(pc, replicas, control.store, control.log, Status())
    }

    // ---------- snapshot ----------

    method CountPod(p: Pod, cur: string, upd: string)
      modifies this`statusReplicas, this`readyReplicas, this`currentReplicas, this`updatedReplicas
      ensures Status() == Listed(old(Status()), p, cur, upd)
    {
      statusReplicas := statusReplicas + 1;
      if RunningAndReady(p) {
        readyReplicas := readyReplicas + 1;
      }
      if Created(p) && !p.terminating {
        if p.revision == cur {
          currentReplicas := currentReplicas + 1;
        }
        if p.revision == upd {
          updatedReplicas := updatedReplicas + 1;
        }
      }
    }

    /** Counts the listing and sorts it into slots, where the last pod of an ordinal stays, and condemned pods. */
    method Partition(pods: seq<Pod>, n: nat, cur: string, upd: string)
      returns (slots: seq<Option<Pod>>, condemned: seq<Pod>)
      requires Status() == Counters(0, 0, 0, 0)
      modifies this
      ensures Status() == Tally(pods, cur, upd)
      ensures |slots| == n && forall i | 0 <= i < n :: slots[i] == SlotPod(pods, i)
      ensures condemned == Beyond(pods, n)
      ensures
        Status() == Counters(
          |pods|, |RoundSnapshot.ReadyOnes(pods)|,
          |RoundSnapshot.LabelledOnes(pods, cur)|, |RoundSnapshot.LabelledOnes(pods, upd)|)
      ensures forall i, k | 0 <= i < n && RoundSnapshot.LastOf(pods, i, k) :: slots[i] == Some(pods[k])
      ensures forall i | 0 <= i < n :: slots[i].None? <==> forall p | p in pods :: p.key.ordinal != i
    {
      hide Listed, RoundSnapshot.ReadyOnes, RoundSnapshot.LabelledOnes;
      slots := seq(n, _ => None);
      condemned := [];
      var k := 0;
      while k < |pods|
        invariant k <= |pods|
        invariant Status() == Tally(pods[..k], cur, upd)
        invariant |slots| == n && forall i | 0 <= i < n :: slots[i] == SlotPod(pods[..k], i)
        invariant condemned == Beyond(pods[..k], n)
      {
        assert pods[..k + 1][..k] == pods[..k];
        var p := pods[k];
        CountPod(p, cur, upd);
        var ord := p.key.ordinal;
        if 0 <= ord < n {
          slots := slots[ord := Some(p)];
        } else if ord >= n {
          condemned := condemned + [p];
        }
        k := k + 1;
      }
      assert pods[..k] == pods;
      RoundSnapshot.TallyCountsAll(pods, cur, upd);
      forall i | 0 <= i < n
        ensures forall j | RoundSnapshot.LastOf(pods, i, j) :: slots[i] == Some(pods[j])
        ensures slots[i].None? <==> forall p | p in pods :: p.key.ordinal != i
      {
        RoundSnapshot.SlotIsLast(pods, i);
      }
    }

    /** Fills the empty slots with new pods. */
    method FillSlots(job: Job, pods: seq<Pod>, slots: seq<Option<Pod>>)
      requires |slots| == job.sts.replicas && forall i | 0 <= i < |slots| :: slots[i] == SlotPod(pods, i)
      modifies this`replicas
      ensures replicas == Slots(job, pods) && |replicas| == job.sts.replicas
    {
      replicas := [];
      while |replicas| < |slots|
        invariant |replicas| <= |slots|
        invariant replicas == Slots(job, pods)[..|replicas|]
      {
        var ord := |replicas|;
        replicas := replicas + [if slots[ord].Some? then slots[ord].value else NewPod(job, ord)];
      }
    }

    // ---------- create loop ----------

    /** Deletes a failed pod and puts its successor into the slot. */
    method RecreateFailedPod(job: Job, i: nat) returns (ok: bool)
      requires i < |replicas| && job.oracle == control.oracle
      modifies this, control
      ensures |replicas| == |old(replicas)|
      ensures At(if ok then AtSlot(i) else Done(false)) == RecreateFailed(job, old(At(AtSlot(i))), i)
      ensures NoPatch(old(control.log)) ==> NoPatch(control.log)
    {
      hide Apply;
      if !replicas[i].phase.Failed? {
        return true;
      }
      var r := control.Send(Delete(replicas[i]));
      if !r.Ok? {
        return false;
      }
      if replicas[i].revision == job.cur {
        currentReplicas := currentReplicas - 1;
      }
      if replicas[i].revision == job.upd {
        updatedReplicas := updatedReplicas - 1;
      }
      statusReplicas := statusReplicas - 1;
      replicas := replicas[i := NewPod(job, i)];
      return true;
    }

    method CreateReplica(job: Job, i: nat) returns (flow: Flow)
      requires i < |replicas| && job.oracle == control.oracle
      modifies this, control
      ensures |replicas| == |old(replicas)|
      ensures At(if flow.Next? then AtSlot(i + 1) else Done(flow.ok)) == CreateSlot(job, old(At(AtSlot(i))), i)
      ensures NoPatch(old(control.log)) ==> NoPatch(control.log)
    {
      hide Apply;
      var r := control.Send(Create(replicas[i]));
      if !r.Ok? {
        return Return(false);
      }
      statusReplicas := statusReplicas + 1;
      if replicas[i].revision == job.cur {
        currentReplicas := currentReplicas + 1;
      }
      if replicas[i].revision == job.upd {
        updatedReplicas := updatedReplicas + 1;
      }
      replicas := replicas[i := replicas[i].(phase := Pending)];
      return if job.sts.parallel then Next else Return(true);
    }

    method KeepReplica(job: Job, i: nat) returns (flow: Flow)
      requires i < |replicas| && job.oracle == control.oracle
      modifies control
      ensures At(if flow.Next? then AtSlot(i + 1) else Done(flow.ok)) == KeepSlot(job, old(At(AtSlot(i))), i)
      ensures NoPatch(old(control.log)) ==> NoPatch(control.log)
    {
      hide Apply, ShouldMarkReady;
      if replicas[i].terminating && !job.sts.parallel {
        return Return(true);
      }
      var r;
      if ShouldMarkReady(replicas[i]) {
        r := control.Send(SetCondition(replicas[i], IsTrue));
        if !r.Ok? {
          return Return(false);
        }
      }
      if !RunningAndReady(replicas[i]) && !job.sts.parallel {
        return Return(true);
      }
      if replicas[i].conforms {
        return Next;
      }
      r := control.Send(Repair(replicas[i]));
      return if r.Ok? then Next else Return(false);
    }

    /** Examines every replica in ordinal order. */
    method ReplicaLoop(job: Job) returns (flow: Flow)
      requires job.oracle == control.oracle && |replicas| == job.sts.replicas
      modifies this, control
      ensures |replicas| == job.sts.replicas
      ensures
        Run(job, At(if flow.Next? then AtScale(|job.condemned|) else Done(flow.ok))) == Run(job, old(At(AtSlot(0))))
      ensures NoPatch(old(control.log)) ==> NoPatch(control.log)
    {
      hide RecreateFailed, CreateSlot, KeepSlot;
      var i := 0;
      while i < |replicas|
        invariant i <= |replicas| == job.sts.replicas
        invariant NoPatch(old(control.log)) ==> NoPatch(control.log)
        invariant Run(job, At(AtSlot(i))) == Run(job, old(At(AtSlot(0))))
      {
        ghost var m := At(AtSlot(i));
        ghost var m' := Step(job, m);
        var ok := RecreateFailedPod(job, i);
        if !ok {
          assert m' == At(Done(false));
          return Return(false);
        }
        if !Created(replicas[i]) {
          flow := CreateReplica(job, i);
        } else {
          flow := KeepReplica(job, i);
        }
        assert m' == At(if flow.Next? then AtSlot(i + 1) else Done(flow.ok));
        if flow.Return? {
          return flow;
        }
        i := i + 1;
      }
      assert Step(job, At(AtSlot(i))) == At(AtScale(|job.condemned|));
      return Next;
    }

    // ---------- scale-down loop ----------

    /** The first unhealthy pod by ordinal, replicas before condemned ones; its index if condemned. The
        round panics if it counts unhealthy pods but names none of them. */
    method FirstUnhealthyPod(condemned: seq<Pod>) returns (first: Option<nat>, panics: bool)
      requires forall i | 0 <= i < |replicas| :: replicas[i].key.ordinal == i
      requires SortedByOrdinal(condemned)
      requires forall p | p in condemned :: |replicas| <= p.key.ordinal <= MAX_INT32
      requires |replicas| <= MAX_INT32
      ensures panics <==> NamesNoUnhealthy(replicas, condemned)
      ensures !panics ==> first == FirstUnhealthy(replicas, condemned)
    {
      var unhealthy, named, firstOrdinal := 0, false, MAX_INT32;
      first := None;
      var i := 0;
      while i < |replicas|
        invariant i <= |replicas|
        invariant unhealthy >= 0 && (unhealthy > 0 <==> FirstSick(replicas) < i) && (named <==> unhealthy > 0)
        invariant first.None? && firstOrdinal == if FirstSick(replicas) < i then FirstSick(replicas) else MAX_INT32
      {
        if !Healthy(replicas[i]) {
          unhealthy := unhealthy + 1;
          if replicas[i].key.ordinal < firstOrdinal {
            firstOrdinal := replicas[i].key.ordinal;
            named := true;
          }
        }
        i := i + 1;
      }
      var j := 0;
      while j < |condemned|
        invariant j <= |condemned|
        invariant unhealthy >= 0
        invariant FirstSick(replicas) < |replicas| ==> named && first.None? && firstOrdinal == FirstSick(replicas)
        invariant FirstSick(replicas) == |replicas| ==>
          && (unhealthy > 0 <==> FirstSick(condemned) < j)
          && if FirstSick(condemned) < j && condemned[FirstSick(condemned)].key.ordinal < MAX_INT32 then
               && named && first == Some(FirstSick(condemned))
               && firstOrdinal == condemned[FirstSick(condemned)].key.ordinal
             else !named && first.None? && firstOrdinal == MAX_INT32
      {
        var p := condemned[j];
        assert p in condemned;
        if !Healthy(p) {
          unhealthy := unhealthy + 1;
          if p.key.ordinal < firstOrdinal {
            firstOrdinal := p.key.ordinal;
            first, named := Some(j), true;
          }
        }
        j := j + 1;
      }
      panics := unhealthy > 0 && !named;
    }

    method ScaleOne(job: Job, t: nat) returns (flow: Flow)
      requires t < |job.condemned| && job.oracle == control.oracle
      modifies this`currentReplicas, this`updatedReplicas, control
      ensures At(if flow.Next? then AtScale(t) else Done(flow.ok)) == ScaleStep(job, old(At(AtScale(t + 1))), t)
      ensures NoPatch(old(control.log)) ==> NoPatch(control.log)
    {
      hide Apply;
      var p := job.condemned[t];
      if p.terminating {
        return if job.sts.parallel then Next else Return(true);
      }
      if !RunningAndReady(p) && !job.sts.parallel && job.first != Some(t) {
        return Return(true);
      }
      var r := control.Send(Delete(p));
      if !r.Ok? {
        return Return(false);
      }
      if p.revision == job.cur {
        currentReplicas := currentReplicas - 1;
      }
      if p.revision == job.upd {
        updatedReplicas := updatedReplicas - 1;
      }
      return if job.sts.parallel then Next else Return(true);
    }

    method ScaleLoop(job: Job) returns (flow: Flow)
      requires job.oracle == control.oracle && |replicas| == job.sts.replicas
      modifies this`currentReplicas, this`updatedReplicas, control
      ensures Run(job, At(if flow.Next? then AtGate else Done(flow.ok))) == Run(job, old(At(AtScale(|job.condemned|))))
      ensures NoPatch(old(control.log)) ==> NoPatch(control.log)
    {
      hide ScaleStep;
      var left := |job.condemned|;
      while left > 0
        invariant 0 <= left <= |job.condemned|
        invariant NoPatch(old(control.log)) ==> NoPatch(control.log)
        invariant Run(job, At(AtScale(left))) == Run(job, old(At(AtScale(|job.condemned|))))
      {
        ghost var m' := Step(job, At(AtScale(left)));
        flow := ScaleOne(job, left - 1);
        assert m' == At(if flow.Next? then AtScale(left - 1) else Done(flow.ok));
        if flow.Return? {
          return flow;
        }
        left := left - 1;
      }
      assert Step(job, At(AtScale(left))) == At(AtGate);
      return Next;
    }

    // ---------- rolling update ----------

    /** inPlaceUpdatePod: condition False, then the patch, then the expectation. */
    method InPlaceUpdatePod(job: Job, p: Pod, images: map<string, string>) returns (outcome: Outcome)
      requires job.oracle == control.oracle && expectations.Valid()
      modifies control, expectations
      ensures expectations.Valid()
      ensures
        var m := old(At(AtGate));
        var r1 := job.oracle(|m.log|);
        var m1 := Do(job, m, SetCondition(p, IsFalse));
        if !r1.Ok? then At(AtGate) == m1 && outcome == r1
        else At(AtGate) == Do(job, m1, Patch(p, job.upd, images)) && outcome == job.oracle(|m1.log|)
      ensures forall cache | old(expectations.cache) == ExpectAll(cache, key, old(control.log)) ::
        expectations.cache == ExpectAll(cache, key, control.log)
    {
      hide Apply, Patched;
      ghost var log := control.log;
      outcome := control.Send(SetCondition(p, IsFalse));
      assert control.log[..|log|] == log;
      if !outcome.Ok? {
        return;
      }
      log := control.log;
      outcome := control.Send(Patch(p, job.upd, images));
      assert control.log[..|log|] == log;
      if outcome.Ok? {
        ghost var ops := expectations.ops;
        expectations.ExpectUpdated(key, job.upd, p.key);
        assert expectations.ops[..|ops|] == ops;
      }
    }

    /** Deletes or patches a stale pod, by the calls the policy asks for; false is an error that ends the round. */
    method ReplaceStale(job: Job, p: Pod) returns (ok: bool)
      requires job.oracle == control.oracle && expectations.Valid()
      modifies this`currentReplicas, control, expectations
      ensures expectations.Valid()
      ensures At(if ok then AtGate else Done(false)) == Replace(job, old(At(AtGate)), p)
      ensures old(control.log) <= control.log
      ensures p.revision != job.upd && !p.terminating ==>
        var calls := control.log[|old(control.log)|..];
        RoundUpdates.Updates(job, p, calls) && (ok <==> !RoundUpdates.Breaks(calls))
      ensures forall cache | old(expectations.cache) == ExpectAll(cache, key, old(control.log)) ::
        expectations.cache == ExpectAll(cache, key, control.log)
    {
      hide Apply, Completed, ExpectAll, RoundUpdates.Updates, RoundUpdates.Breaks;
      ghost var start := At(AtGate);
      if Stale(job, p) {
        RoundUpdates.ReplaceUpdates(job, start, p);
      }
      var useInPlace, skip := InPlacePlan(job, p.revision).Some?, false;
      if useInPlace {
        if !Completed(p) {
          skip := true;
        } else {
          var r := InPlaceUpdatePod(job, p, InPlacePlan(job, p.revision).value);
          if r.Error? && !IsInPlaceOnly(job.sts) {
            useInPlace := false;
          }
        }
      }
      if !useInPlace {
        ghost var log := control.log;
        var r := control.Send(Delete(p));
        forall cache
          ensures ExpectAll(cache, key, control.log) == ExpectAll(cache, key, log)
        {
          DeletionExpectsNothing(cache, key, log, p, r);
        }
        if !r.Ok? {
          return false;
        }
      }
      if !skip && p.revision == job.cur {
        currentReplicas := currentReplicas - 1;
      }
      return true;
    }

    /** Updates stale pods from the greatest ordinal down until too many pods are unavailable. */
    method RollLoop(job: Job, maxUnavailable: int) returns (ok: bool)
      requires job.oracle == control.oracle && |replicas| == job.sts.replicas && expectations.Valid()
      requires MaxUnavailable(job.sts) == Some(maxUnavailable)
      modifies this`currentReplicas, control, expectations
      ensures expectations.Valid()
      ensures At(Done(ok)) == Run(job, old(At(AtRoll(|replicas|, 0))))
      ensures forall cache | old(expectations.cache) == ExpectAll(cache, key, old(control.log)) ::
        expectations.cache == ExpectAll(cache, key, control.log)
    {
      hide Replace, Unavailable, MaxUnavailable, ExpectAll;
      var left, unavailable := |replicas|, 0;
      while left > UpdateMin(job.sts)
        invariant 0 <= left <= |replicas| && 0 <= unavailable && expectations.Valid()
        invariant Run(job, At(AtRoll(left, unavailable))) == Run(job, old(At(AtRoll(|replicas|, 0))))
        invariant forall cache | old(expectations.cache) == ExpectAll(cache, key, old(control.log)) ::
          expectations.cache == ExpectAll(cache, key, control.log)
      {
        ghost var m := At(AtRoll(left, unavailable));
        ghost var m' := Step(job, m);
        var target := left - 1;
        var p := replicas[target];
        if Stale(job, p) {
          label before:
          ok := ReplaceStale(job, p);
          ReplaceKeepsPC(job, m, old@before(At(AtGate)), p);
          if !ok {
            assert m' == At(Done(false));
            return false;
          }
        }
        if Unavailable(job, p) {
          unavailable := unavailable + 1;
        }
        if unavailable >= maxUnavailable {
          assert m' == At(Done(true));
          return true;
        }
        assert m' == At(AtRoll(target, unavailable));
        left := target;
      }
      assert Step(job, At(AtRoll(left, unavailable))) == At(Done(true));
      return true;
    }

    static lemma PatchKeepsPC(job: Job, a: Machine, b: Machine, p: Pod, images: map<string, string>)
      requires b == a.(pc := b.pc) && !a.pc.Done? && !b.pc.Done?
      ensures
        var x, y := PatchStale(job, a, p, images), PatchStale(job, b, p, images);
        y == x.(pc := y.pc) && (y.pc == b.pc <==> x.pc == a.pc) && (y.pc == Done(false) <==> x.pc == Done(false))
    {
      hide Do, Completed;
      var a1, b1 := Do(job, a, SetCondition(p, IsFalse)), Do(job, b, SetCondition(p, IsFalse));
      DoKeepsPC(job, a, b, SetCondition(p, IsFalse));
      DoKeepsPC(job, a1, b1, Delete(p));
      DoKeepsPC(job, a1, b1, Patch(p, job.upd, images));
      DoKeepsPC(job, Do(job, a1, Patch(p, job.upd, images)), Do(job, b1, Patch(p, job.upd, images)), Delete(p));
    }

    static lemma DoKeepsPC(job: Job, a: Machine, b: Machine, act: Action)
      requires b == a.(pc := b.pc)
      ensures Do(job, b, act) == Do(job, a, act).(pc := b.pc) && Do(job, a, act).pc == a.pc
    {
    }

    /** Handling a stale pod does not look at the program counter. */
    static lemma ReplaceKeepsPC(job: Job, a: Machine, b: Machine, p: Pod)
      requires b == a.(pc := b.pc) && !a.pc.Done? && !b.pc.Done?
      ensures
        var x, y := Replace(job, a, p), Replace(job, b, p);
        y == x.(pc := y.pc) && (y.pc == b.pc <==> x.pc == a.pc) && (y.pc == Done(false) <==> x.pc == Done(false))
    {
      hide Apply, Completed, PatchStale;
      if InPlacePlan(job, p.revision).Some? {
        PatchKeepsPC(job, a, b, p, InPlacePlan(job, p.revision).value);
      }
    }

    // ---------- a whole round ----------

    /** Refreshes the expectations from the listing. */
    method ObservePods(pods: seq<Pod>, upd: string)
      requires expectations.Valid()
      modifies expectations
      ensures expectations.Valid() && expectations.cache == ObserveAll(old(expectations.cache), key, upd, pods)
    {
      var k := 0;
      while k < |pods|
        invariant k <= |pods| && expectations.Valid()
        invariant expectations.cache == ObserveAll(old(expectations.cache), key, upd, pods[..k])
      {
        assert pods[..k + 1][..k] == pods[..k];
        ghost var ops := expectations.ops;
        expectations.ObserveUpdated(key, upd, pods[k].key, pods[k].revision);
        assert expectations.ops[..|ops|] == ops;
        k := k + 1;
      }
      assert pods[..k] == pods;
    }

    /** The loops of updateStatefulSet, after the snapshot is taken. */
    method RunLoops(job: Job) returns (ok: bool)
      requires job.oracle == control.oracle && |replicas| == job.sts.replicas && expectations.Valid()
      requires control.log == []
      modifies this, control, expectations
      ensures expectations.Valid()
      ensures At(Done(ok)) == Run(job, old(At(if job.sts.deleting then Done(true) else AtSlot(0))))
      ensures expectations.cache == ExpectAll(old(expectations.cache), key, control.log)
    {
      hide MaxUnavailable, SlotStep, ScaleStep, RollStep, ExpectAll;
      ghost var cache := expectations.cache;
      NothingExpected(cache, key, []);
      if job.sts.deleting {
        return true;
      }
      var flow := ReplicaLoop(job);
      NothingExpected(cache, key, control.log);
      if flow.Return? {
        return flow.ok;
      }
      flow := ScaleLoop(job);
      NothingExpected(cache, key, control.log);
      if flow.Return? {
        return flow.ok;
      }
      ghost var m' := Step(job, At(AtGate));
      if job.sts.strategy.OnDelete? || !job.satisfied {
        assert m' == At(Done(true));
        return true;
      }
      if MaxUnavailable(job.sts).None? {
        assert m' == At(Done(false));
        return false;
      }
      if job.sts.rolling.Some? && job.sts.rolling.value.paused {
        assert m' == At(Done(true));
        return true;
      }
      assert m' == At(AtRoll(|replicas|, 0));
      ok := RollLoop(job, MaxUnavailable(job.sts).value);
    }

    /** UpdateStatefulSet up to the status: the calls sent, the API server and the counters are those of
        the machine, and the expectations are those of the listing plus the successful patches. The
        expectations do not change before the rolling phase reads them. A panic comes before any call. */
    method UpdateStatefulSet(
      sts: StatefulSet, cur: string, upd: string, plan: string -> Option<map<string, string>>,
      gate: string -> bool, pods: seq<Pod>)
      returns (ok: bool, panicked: bool, ghost job: Job)
      requires control.log == [] && Status() == Counters(0, 0, 0, 0) && expectations.Valid()
      requires sts.replicas <= MAX_INT32 && forall p | p in pods :: p.key.ordinal <= MAX_INT32
      modifies this, control, expectations
      ensures expectations.Valid()
      ensures job.sts == sts && job.cur == cur && job.upd == upd && job.plan == plan && job.gate == gate
      ensures job.oracle == control.oracle && FromListing(job, pods)
      ensures
        var seen := ObserveAll(old(expectations.cache), key, upd, pods);
        && job.satisfied == (Expectations.Pending(seen, key, upd) == {})
        && expectations.cache == ExpectAll(seen, key, control.log)
      ensures panicked <==> NamesNoUnhealthy(Slots(job, pods), job.condemned)
      ensures panicked ==> !ok && control.log == [] && control.store == old(control.store)
      ensures !panicked ==> At(Done(ok)) == Round(job, pods, old(control.store))
    {
      hide Run, ExpectAll, ObserveAll, Tally, FirstSick, Slots, FirstUnhealthy;
      ObservePods(pods, upd);
      var satisfied, _ := expectations.SatisfiedExpectations(key, upd);
      var slots, far := Partition(pods, sts.replicas, cur, upd);
      var condemned := SortByOrdinal(far);
      var work := Job(sts, cur, upd, plan, gate, control.oracle, satisfied, condemned, None);
      FillSlots(work, pods, slots);
      RoundRolling.SlotsIndexed(work, pods);
      CondemnedOrdinals(pods, sts.replicas, condemned);
      var first;
      first, panicked := FirstUnhealthyPod(condemned);
      SlotsIgnoreFirst(work, pods, FirstUnhealthy(replicas, condemned));
      job := work.(first := FirstUnhealthy(replicas, condemned));
      if panicked {
        NothingExpected(expectations.cache, key, control.log);
        return false, true, job;
      }
      ok := RunLoops(work.(first := first));
    }
  }

  lemma SlotsIgnoreFirst(job: Job, pods: seq<Pod>, first: Option<nat>)
    ensures Slots(job.(first := first), pods) == Slots(job, pods)
  {
    assert forall i | 0 <= i < job.sts.replicas :: NewPod(job, i) == NewPod(job.(first := first), i);
  }

  lemma CondemnedOrdinals(pods: seq<Pod>, n: nat, condemned: seq<Pod>)
    requires multiset(condemned) == multiset(Beyond(pods, n))
    requires forall p | p in pods :: p.key.ordinal <= MAX_INT32
    ensures forall p | p in condemned :: n <= p.key.ordinal <= MAX_INT32
  {
    forall p | p in condemned
      ensures n <= p.key.ordinal <= MAX_INT32
    {
      assert p in multiset(condemned) && p in multiset(Beyond(pods, n));
      RoundLedger.BeyondFacts(pods, n);
      RoundCompletion.BeyondListed(pods, n);
    }
  }

  /** A round panics if and only if some pod of the maximal ordinal is unhealthy and no other replica or
      condemned pod is. */
  lemma PanicsIff(job: Job, pods: seq<Pod>)
    requires FromListing(job, pods) && job.sts.replicas <= MAX_INT32
    requires forall p | p in pods :: p.key.ordinal <= MAX_INT32
    ensures NamesNoUnhealthy(Slots(job, pods), job.condemned) <==>
      && (forall p | p in Slots(job, pods) :: Healthy(p))
      && (exists p :: p in pods && p.key.ordinal == MAX_INT32 && !Healthy(p))
      && (forall p | p in pods && job.sts.replicas <= p.key.ordinal < MAX_INT32 :: Healthy(p))
  {
    var slots, c := Slots(job, pods), job.condemned;
    CondemnedOrdinals(pods, job.sts.replicas, c);
    RoundLedger.CondemnedExactly(job, pods);
    var f := FirstSick(c);
    assert FirstSick(slots) == |slots| <==> forall p | p in slots :: Healthy(p);
    if f < |c| {
      assert c[f] in c;
      if c[f].key.ordinal == MAX_INT32 {
        forall p | p in c && p.key.ordinal < MAX_INT32
          ensures Healthy(p)
        {
          var j :| 0 <= j < |c| && c[j] == p;
          assert j < f;
        }
      }
    }
  }

  function Insert(pods: seq<Pod>, p: Pod): seq<Pod> {
    if pods == [] || p.key.ordinal < pods[0].key.ordinal then [p] + pods else [pods[0]] + Insert(pods[1..], p)
  }

  lemma {:induction false} InsertKeeps(pods: seq<Pod>, p: Pod)
    ensures multiset(Insert(pods, p)) == multiset(pods) + multiset{p}
  {
    if pods != [] {
      assert pods == [pods[0]] + pods[1..];
      InsertKeeps(pods[1..], p);
    }
  }

  lemma ConsSorted(p: Pod, pods: seq<Pod>)
    requires SortedByOrdinal(pods) && forall q | q in pods :: p.key.ordinal <= q.key.ordinal
    ensures SortedByOrdinal([p] + pods)
  {
  }

  lemma {:induction false} InsertSorts(pods: seq<Pod>, p: Pod)
    requires SortedByOrdinal(pods)
    ensures SortedByOrdinal(Insert(pods, p))
  {
    if pods == [] || p.key.ordinal < pods[0].key.ordinal {
      ConsSorted(p, pods);
    } else {
      var rest := Insert(pods[1..], p);
      InsertSorts(pods[1..], p);
      InsertKeeps(pods[1..], p);
      forall q | q in rest
        ensures pods[0].key.ordinal <= q.key.ordinal
      {
        assert q in multiset(rest);
        assert q == p || q in pods[1..];
      }
      ConsSorted(pods[0], rest);
    }
  }

  /** Sorts by ordinal; callers may not rely on the order of pods of one ordinal. */
  method SortByOrdinal(pods: seq<Pod>) returns (sorted: seq<Pod>)
    ensures multiset(sorted) == multiset(pods) && SortedByOrdinal(sorted)
  {
    sorted := [];
    var k := 0;
    while k < |pods|
      invariant k <= |pods|
      invariant multiset(sorted) == multiset(pods[..k]) && SortedByOrdinal(sorted)
    {
      assert pods[..k + 1] == pods[..k] + [pods[k]];
      InsertSorts(sorted, pods[k]);
      InsertKeeps(sorted, pods[k]);
      sorted := Insert(sorted, pods[k]);
      k := k + 1;
    }
    assert pods[..k] == pods;
  }
}
