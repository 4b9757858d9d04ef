/** Exactly which calls a round makes for its slots and for the pods beyond them, one after the other, in terms
    of the listed pods and the spec alone (controllers/stateful_set_control.go:346-530). */
module RoundSlots {
  import opened Pods
  import opened RoundSpec
  import opened RoundOrder
  import opened RoundRolling
  import opened RoundBurst
  import opened RoundSnapshot
  import opened RoundUpdates

  // ---------- one slot ----------

  /** A failed pod is deleted, and if that worked replaced by a new one; a pod not accepted yet is created. */
  predicate Refills(job: Job, i: int, p: Pod, calls: seq<Call>) {
    if p.phase.Failed? then
      && calls != [] && calls[0].action == Delete(p)
      && if calls[0].outcome.Ok? then |calls| == 2 && calls[1].action.Create? && IsNew(job, i, calls[1].action.pod)
         else |calls| == 1
    else |calls| == 1 && calls[0].action == Create(p)
  }

  /** The pod has the readiness gate, no unfinished update, and a condition absent or False. */
  predicate DueMark(p: Pod) {
    p.gate && !Unfinished(p) && (p.cond.Absent? || p.cond.IsFalse?)
  }

  /** OrderedReady waits for a pod that is on its way out. Otherwise a pod due is marked, and then, if that worked
      and the pod is ready or the set Parallel, its identity and storage are repaired if they do not match. */
  predicate Upholds(job: Job, p: Pod, calls: seq<Call>) {
    if p.terminating && !job.sts.parallel then calls == []
    else
      var k := if DueMark(p) then 1 else 0;
      && (k == 1 ==> calls != [] && calls[0].action == SetCondition(p, IsTrue))
      && var repairs := !p.conforms && (job.sts.parallel || (p.phase.Running? && p.ready))
                        && (k == 1 ==> calls[0].outcome.Ok?);
         && |calls| == k + (if repairs then 1 else 0)
         && (repairs ==> calls[k].action == Repair(p))
  }

  predicate ServesSlot(job: Job, i: int, p: Pod, calls: seq<Call>) {
    if p.phase.Unset? || p.phase.Failed? then Refills(job, i, p, calls) else Upholds(job, p, calls)
  }

  /** The round goes on to the next slot: no call failed, and OrderedReady found the pod there, running, ready and
      not on its way out. */
  predicate GoesOn(job: Job, p: Pod, calls: seq<Call>) {
    NoneFatal(calls) && (job.sts.parallel || (p.phase.Running? && p.ready && !p.terminating))
  }

  lemma MarkMeans(p: Pod)
    ensures DueMark(p) <==> ShouldMarkReady(p)
  {
    hide Completed, Unfinished;
    CompletedMeans(p);
  }

  lemma KeepServes(job: Job, m: Machine, i: nat)
    requires i < |m.replicas| && m.pc == AtSlot(i) && !m.replicas[i].phase.Unset? && !m.replicas[i].phase.Failed?
    ensures
      var p, m' := m.replicas[i], KeepSlot(job, m, i);
      && m.log <= m'.log && m'.replicas == m.replicas
      && Upholds(job, p, m'.log[|m.log|..])
      && m'.pc == if GoesOn(job, p, m'.log[|m.log|..]) then AtSlot(i + 1) else Done(NoneFatal(m'.log[|m.log|..]))
  {
    hide Apply, ShouldMarkReady, DueMark;
    MarkMeans(m.replicas[i]);
  }

  lemma SlotServes(job: Job, m: Machine, i: nat)
    requires i < |m.replicas| == job.sts.replicas && m.pc == AtSlot(i)
    ensures
      var p, m' := m.replicas[i], SlotStep(job, m, i);
      && m.log <= m'.log && |m'.replicas| == |m.replicas|
      && (forall j | 0 <= j < |m.replicas| && j != i :: m'.replicas[j] == m.replicas[j])
      && ServesSlot(job, i, p, m'.log[|m.log|..])
      && m'.pc == if GoesOn(job, p, m'.log[|m.log|..]) then AtSlot(i + 1) else Done(NoneFatal(m'.log[|m.log|..]))
  {
    hide Apply, KeepSlot, IsNew, NewPod, Upholds;
    NewPodIsNew(job, i);
    var p := m.replicas[i];
    if !p.phase.Unset? && !p.phase.Failed? {
      KeepServes(job, m, i);
    }
  }

  // ---------- all slots ----------

  function Concat(turns: seq<seq<Call>>): seq<Call> {
    if turns == [] then [] else Concat(turns[..|turns| - 1]) + turns[|turns| - 1]
  }

  /** The calls are those of the slots 0, 1, ... in this order, and all but the last slot went on. */
  ghost predicate InTurn(job: Job, slots: seq<Pod>, turns: seq<seq<Call>>, log: seq<Call>) {
    && log == Concat(turns) && |turns| <= |slots|
    && (forall i | 0 <= i < |turns| :: ServesSlot(job, i, slots[i], turns[i]))
    && forall i | 0 <= i < |turns| - 1 :: GoesOn(job, slots[i], turns[i])
  }

  /** The last slot of these turns went on, too. */
  predicate AllGoOn(job: Job, slots: seq<Pod>, turns: seq<seq<Call>>) {
    turns == [] || (|turns| <= |slots| && GoesOn(job, slots[|turns| - 1], turns[|turns| - 1]))
  }

  ghost predicate Serving(job: Job, slots: seq<Pod>, m: Machine, turns: seq<seq<Call>>) {
    && InTurn(job, slots, turns, m.log) && |slots| == |m.replicas| == job.sts.replicas
    && (m.pc.AtSlot? ==>
          && |turns| == m.pc.i && AllGoOn(job, slots, turns)
          && forall j | m.pc.i <= j < |slots| :: m.replicas[j] == slots[j])
    && (m.pc.Done? ==>
          turns != [] && !AllGoOn(job, slots, turns) && m.pc.ok == NoneFatal(turns[|turns| - 1]))
  }

  lemma ServingMore(job: Job, slots: seq<Pod>, m: Machine, turns: seq<seq<Call>>) returns (turns': seq<seq<Call>>)
    requires InRange(job, m) && m.pc.AtSlot? && m.pc.i < |m.replicas| && Serving(job, slots, m, turns)
    ensures Serving(job, slots, SlotStep(job, m, m.pc.i), turns')
    ensures SlotStep(job, m, m.pc.i).pc.AtSlot? || SlotStep(job, m, m.pc.i).pc.Done?
  {
    hide SlotStep, ServesSlot, GoesOn;
    var i := m.pc.i;
    SlotServes(job, m, i);
    var m' := SlotStep(job, m, i);
    var turn := m'.log[|m.log|..];
    turns' := turns + [turn];
    assert turns'[..i] == turns && m'.log == m.log + turn;
  }

  /** The machine when all slots are served, or when the round ends before. */
  function AfterSlots(job: Job, m: Machine): (a: Machine)
    requires InRange(job, m)
    ensures InRange(job, a)
    decreases Rank(m.pc), Left(job, m.pc)
  {
    if m.pc.AtSlot? then AfterSlots(job, Step(job, m)) else m
  }

  lemma {:induction false} LoopServes(job: Job, slots: seq<Pod>, m: Machine, turns: seq<seq<Call>>)
    returns (turns': seq<seq<Call>>)
    requires InRange(job, m) && (m.pc.AtSlot? || m.pc.Done?) && Serving(job, slots, m, turns)
    ensures
      var a := AfterSlots(job, m);
      && Run(job, m) == Run(job, a) && InTurn(job, slots, turns', a.log)
      && if |turns'| == |slots| && AllGoOn(job, slots, turns') then a.pc == AtScale(|job.condemned|)
         else turns' != [] && !AllGoOn(job, slots, turns') && a.pc == Done(NoneFatal(turns'[|turns'| - 1]))
    decreases Rank(m.pc), Left(job, m.pc)
  {
    hide SlotStep, ServesSlot, GoesOn, Concat, NoneFatal;
    turns' := turns;
    if m.pc.AtSlot? {
      if m.pc.i < |m.replicas| {
        turns' := ServingMore(job, slots, m, turns);
        turns' := LoopServes(job, slots, Step(job, m), turns');
      } else {
        assert AfterSlots(job, m) == AfterSlots(job, Step(job, m)) == Step(job, m);
      }
    }
  }

  /** The slots, exactly, for any mode and outcomes: the round begins with the calls of the slots 0, 1, ... in this
      order, each as its pod asks for. It goes past all slots, or ends at the first where a call fails or where
      OrderedReady waits; a call that fails there is the error of the round. */
  lemma SlotsAreExact(job: Job, pods: seq<Pod>, store: Store) returns (turns: seq<seq<Call>>)
    requires !job.sts.deleting
    ensures
      var slots, a, m := Slots(job, pods), AfterSlots(job, Start(job, pods, store)), Round(job, pods, store);
      && a.log <= m.log && InTurn(job, slots, turns, a.log) && |slots| == job.sts.replicas
      && if |turns| == |slots| && AllGoOn(job, slots, turns) then a.pc == AtScale(|job.condemned|)
         else turns != [] && !AllGoOn(job, slots, turns) && m == a && m.pc == Done(NoneFatal(turns[|turns| - 1]))
  {
    var s := Start(job, pods, store);
    turns := LoopServes(job, Slots(job, pods), s, []);
    RunGrows(job, AfterSlots(job, s));
  }

  // ---------- the pods beyond ----------

  /** The pods to delete, from the greatest ordinal down: those not on their way out. */
  function Leaving(condemned: seq<Pod>, left: nat): seq<Pod>
    requires left <= |condemned|
  {
    if left == 0 then []
    else (if condemned[left - 1].terminating then [] else [condemned[left - 1]]) + Leaving(condemned, left - 1)
  }

  /** Deletions of the first of these pods, up to one that fails. */
  predicate DeletesInOrder(pods: seq<Pod>, calls: seq<Call>) {
    && |calls| <= |pods|
    && (forall j | 0 <= j < |calls| :: calls[j].action == Delete(pods[j]))
    && (forall j | 0 <= j < |calls| - 1 :: calls[j].outcome.Ok?)
    && (|calls| < |pods| ==> calls != [] && !calls[|calls| - 1].outcome.Ok?)
  }

  predicate AllWorked(calls: seq<Call>) {
    forall j | 0 <= j < |calls| :: calls[j].outcome.Ok?
  }

  lemma DeletesOneMore(p: Pod, pods: seq<Pod>, calls: seq<Call>)
    requires DeletesInOrder(pods, calls)
    ensures DeletesInOrder([p] + pods, [Call(Delete(p), Ok)] + calls)
    ensures AllWorked([Call(Delete(p), Ok)] + calls) <==> AllWorked(calls)
  {
    var call := Call(Delete(p), Ok);
    var all, more := [p] + pods, [call] + calls;
    forall j | 0 <= j < |more|
      ensures more[j] == (if j == 0 then call else calls[j - 1])
      ensures j < |all| ==> all[j] == if j == 0 then p else pods[j - 1]
    {
    }
    if AllWorked(more) {
      forall j | 0 <= j < |calls|
        ensures calls[j].outcome.Ok?
      {
        assert more[j + 1].outcome.Ok?;
      }
    }
  }

  /** The machine when all pods beyond the replica count are handled, or when the round ends before. */
  function AfterScale(job: Job, m: Machine): (a: Machine)
    requires InRange(job, m)
    ensures InRange(job, a)
    decreases Rank(m.pc), Left(job, m.pc)
  {
    if m.pc.AtScale? then AfterScale(job, Step(job, m)) else m
  }

  lemma ScaleTurn(job: Job, m: Machine)
    requires InRange(job, m) && m.pc.AtScale? && m.pc.left > 0 && job.sts.parallel
    ensures
      var p, m' := job.condemned[m.pc.left - 1], Step(job, m);
      && m'.log == m.log + (if p.terminating then [] else [Call(Delete(p), job.oracle(|m.log|))])
      && m'.pc == if p.terminating || job.oracle(|m.log|).Ok? then AtScale(m.pc.left - 1) else Done(false)
  {
    hide Apply;
  }

  /** A Parallel round deletes the pods beyond the replica count from the greatest ordinal down, up to the first
      deletion that fails, which ends it. */
  lemma {:induction false} ScaleDownIsExact(job: Job, m: Machine)
    requires InRange(job, m) && m.pc.AtScale? && job.sts.parallel
    ensures
      var a := AfterScale(job, m);
      && m.log <= a.log && Run(job, m) == Run(job, a)
      && var calls := a.log[|m.log|..];
         && DeletesInOrder(Leaving(job.condemned, m.pc.left), calls)
         && a.pc == if AllWorked(calls) then AtGate else Done(false)
    decreases m.pc.left
  {
    hide ScaleStep, GateStep, RollStep, SlotStep, DeletesInOrder, AllWorked;
    if m.pc.left == 0 {
      assert AfterScale(job, m) == AfterScale(job, Step(job, m)) == Step(job, m);
      assert m.log[|m.log|..] == [];
      FewDeletions([], []);
    } else {
      var m', p := Step(job, m), job.condemned[m.pc.left - 1];
      assert AfterScale(job, m) == AfterScale(job, m') && Run(job, m) == Run(job, m');
      ScaleTurn(job, m);
      if p.terminating {
        ScaleDownIsExact(job, m');
        assert Leaving(job.condemned, m.pc.left) == Leaving(job.condemned, m.pc.left - 1);
      } else if job.oracle(|m.log|).Ok? {
        ScaleDownIsExact(job, m');
        var rest := AfterScale(job, m').log[|m'.log|..];
        DeletesOneMore(p, Leaving(job.condemned, m.pc.left - 1), rest);
        assert AfterScale(job, m).log[|m.log|..] == [Call(Delete(p), Ok)] + rest;
      } else {
        var call := Call(Delete(p), job.oracle(|m.log|));
        assert AfterScale(job, m') == m' && m'.log[|m.log|..] == [call];
        FewDeletions(Leaving(job.condemned, m.pc.left), [call]);
      }
    }
  }

  lemma FewDeletions(pods: seq<Pod>, calls: seq<Call>)
    ensures pods == [] && calls == [] ==> DeletesInOrder(pods, calls) && AllWorked(calls)
    ensures pods != [] && |calls| == 1 && calls[0].action == Delete(pods[0]) && !calls[0].outcome.Ok? ==>
      DeletesInOrder(pods, calls) && !AllWorked(calls)
  {
  }

  /** The pods are running, ready and not on their way out. */
  predicate AllWell(pods: seq<Pod>) {
    forall p | p in pods :: p.phase.Running? && p.ready && !p.terminating
  }

  /** Once its replicas are well, an OrderedReady set deletes the pod with the greatest ordinal beyond its size,
      unless that is on its way out, or is not ready while another one beyond is not well. */
  predicate DeletesTop(condemned: seq<Pod>, calls: seq<Call>) {
    if condemned == [] then calls == []
    else
      var n := |condemned| - 1;
      var top := condemned[n];
      if top.terminating || (!(top.phase.Running? && top.ready) && !AllWell(condemned[..n])) then calls == []
      else |calls| == 1 && calls[0].action == Delete(top)
  }

  lemma FirstSickAt(pods: seq<Pod>, n: nat)
    requires n < |pods| && !Healthy(pods[n])
    ensures FirstSick(pods) == n <==> AllWell(pods[..n])
  {
    if AllWell(pods[..n]) {
      assert forall j | 0 <= j < n :: pods[j] == pods[..n][j] && pods[..n][j] in pods[..n];
    }
  }

  lemma NoneSick(pods: seq<Pod>)
    ensures AllWell(pods) ==> FirstSick(pods) == |pods|
  {
    var k := FirstSick(pods);
    if k < |pods| {
      assert pods[k] in pods && !Healthy(pods[k]);
    }
  }

  lemma TopTurn(job: Job, m: Machine)
    requires InRange(job, m) && m.pc.AtScale? && m.pc.left > 0 && !job.sts.parallel
    ensures
      var t, m' := m.pc.left - 1, Step(job, m);
      var top := job.condemned[t];
      && m'.pc.Done?
      && m'.log == m.log +
           if top.terminating || (!RunningAndReady(top) && job.first != Some(t)) then []
           else [Call(Delete(top), job.oracle(|m.log|))]
  {
    hide Apply;
  }

  lemma TopIsExact(job: Job, slots: seq<Pod>, m: Machine)
    requires InRange(job, m) && m.pc == AtScale(|job.condemned|) && !job.sts.parallel
    requires AllWell(slots) && job.first == FirstUnhealthy(slots, job.condemned)
    ensures
      var a := AfterScale(job, m);
      && m.log <= a.log && Run(job, m) == Run(job, a)
      && DeletesTop(job.condemned, a.log[|m.log|..])
      && (job.condemned == [] ==> a.pc.AtGate?) && (job.condemned != [] ==> a.pc.Done?)
  {
    hide ScaleStep, SlotStep, GateStep, RollStep;
    var c, m' := job.condemned, Step(job, m);
    if c != [] {
      TopTurn(job, m);
    }
    assert AfterScale(job, m) == AfterScale(job, m') == m' && Run(job, m) == Run(job, m');
    NoneSick(slots);
    if c != [] && !Healthy(c[|c| - 1]) {
      FirstSickAt(c, |c| - 1);
    }
  }

  lemma {:induction false} BeforeRollIsAfter(job: Job, m: Machine)
    requires InRange(job, m) && (m.pc.AtSlot? || m.pc.AtScale? || m.pc.Done?)
    ensures
      var a := AfterSlots(job, m);
      (a.pc.AtScale? || a.pc.Done?) ==> BeforeRoll(job, m) == BeforeRoll(job, a)
    decreases Rank(m.pc), Left(job, m.pc)
  {
    hide SlotStep, ScaleStep;
    if m.pc.AtSlot? {
      if m.pc.i < |m.replicas| {
        SlotServes(job, m, m.pc.i);
      }
      BeforeRollIsAfter(job, Step(job, m));
    }
  }

  lemma {:induction false} BeforeRollIsAfterScale(job: Job, m: Machine)
    requires InRange(job, m) && (m.pc.AtScale? || m.pc.AtGate? || m.pc.Done?)
    ensures BeforeRoll(job, m).log == AfterScale(job, m).log
    decreases Rank(m.pc), Left(job, m.pc)
  {
    hide Apply, SlotStep, RollStep;
    if m.pc.AtScale? {
      BeforeRollIsAfterScale(job, Step(job, m));
    }
  }

  lemma WellSlots(job: Job, slots: seq<Pod>, turns: seq<seq<Call>>, log: seq<Call>)
    requires !job.sts.parallel && InTurn(job, slots, turns, log) && |turns| == |slots| && AllGoOn(job, slots, turns)
    ensures AllWell(slots)
  {
    hide ServesSlot, NoneFatal;
    forall p | p in slots
      ensures p.phase.Running? && p.ready && !p.terminating
    {
      var i :| 0 <= i < |slots| && slots[i] == p;
      assert GoesOn(job, slots[i], turns[i]);
    }
  }

  /** A whole round, call by call, for any mode and outcomes: first the slots in order, then, if all of them went
      on, the pods beyond the replica count, and then, as RollingIsExact says, the update of stale pods. */
  lemma RoundIsExact(job: Job, pods: seq<Pod>, store: Store) returns (turns: seq<seq<Call>>)
    requires !job.sts.deleting && FromListing(job, pods)
    ensures
      var s, slots := Start(job, pods, store), Slots(job, pods);
      var a, b := AfterSlots(job, s), BeforeRoll(job, s);
      && InTurn(job, slots, turns, a.log) && a.log <= b.log <= Round(job, pods, store).log
      && if |turns| == |slots| && AllGoOn(job, slots, turns) then
           var calls := b.log[|a.log|..];
           if job.sts.parallel then DeletesInOrder(Leaving(job.condemned, |job.condemned|), calls)
           else DeletesTop(job.condemned, calls)
         else
           turns != [] && !AllGoOn(job, slots, turns) && Round(job, pods, store) == a
  {
    hide Run, AfterSlots, AfterScale, BeforeRoll, InTurn, AllGoOn, DeletesInOrder, DeletesTop, FirstUnhealthy, AllWell,
      AllWorked, Leaving;
    var s, slots := Start(job, pods, store), Slots(job, pods);
    turns := SlotsAreExact(job, pods, store);
    var a := AfterSlots(job, s);
    BeforeRollIsAfter(job, s);
    SlotsIndexed(job, pods);
    BeforeRollFacts(job, s);
    RunGrows(job, BeforeRoll(job, s));
    BeforeRollIsAfterScale(job, a);
    if a.pc.AtScale? {
      if job.sts.parallel {
        ScaleDownIsExact(job, a);
      } else {
        WellSlots(job, slots, turns, a.log);
        TopIsExact(job, slots, a);
      }
    } else {
      AfterScaleDone(job, a);
    }
  }

  lemma AfterScaleDone(job: Job, m: Machine)
    requires InRange(job, m) && m.pc.Done?
    ensures AfterScale(job, m) == m
  {
  }
}
