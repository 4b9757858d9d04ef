/** What a round reads off its listing and what it makes of an empty slot, in terms of the listed pods: the
    pod in each slot, the counters at the start, ReadyReplicas at the end, and the label and readiness gate
    of every pod it creates (controllers/stateful_set_control.go:290-344, 387-436,
    controllers/stateful_set_utils.go:264-290). */
module RoundSnapshot {
  import opened Pods
  import opened RoundSpec
  import opened RoundOrder
  import opened RoundRolling

  // ---------- slots ----------

  /** The pod at position k is the last listed one of its ordinal. */
  predicate LastOf(pods: seq<Pod>, i: int, k: int) {
    0 <= k < |pods| && pods[k].key.ordinal == i && forall j | k < j < |pods| :: pods[j].key.ordinal != i
  }

  /** A slot has the last listed pod of its ordinal, or none if no pod has that. */
  lemma {:induction false} SlotIsLast(pods: seq<Pod>, i: int)
    ensures forall k | LastOf(pods, i, k) :: SlotPod(pods, i) == Some(pods[k])
    ensures SlotPod(pods, i).Some? ==> exists k :: LastOf(pods, i, k)
    ensures SlotPod(pods, i).None? <==> forall p | p in pods :: p.key.ordinal != i
  {
    if pods != [] {
      var n := |pods| - 1;
      assert pods == pods[..n] + [pods[n]];
      SlotIsLast(pods[..n], i);
      if pods[n].key.ordinal == i {
        assert LastOf(pods, i, n);
      } else {
        forall k
          ensures LastOf(pods, i, k) <==> LastOf(pods[..n], i, k)
        {
          assert 0 <= k < n ==> pods[..n][k] == pods[k];
        }
      }
    }
  }

  // ---------- counters ----------

  /** The positions of the pods that run and are ready. */
  function ReadyOnes(pods: seq<Pod>): set<int> {
    set i | 0 <= i < |pods| && pods[i].phase.Running? && pods[i].ready
  }

  /** The positions of the pods of a revision that are accepted and not on their way out. */
  function LabelledOnes(pods: seq<Pod>, revision: string): set<int> {
    set i | 0 <= i < |pods| && !pods[i].phase.Unset? && !pods[i].terminating && pods[i].revision == revision
  }

  lemma ReadyOnesGrow(pods: seq<Pod>)
    requires pods != []
    ensures
      var n := |pods| - 1;
      |ReadyOnes(pods)| == |ReadyOnes(pods[..n])| + if pods[n].phase.Running? && pods[n].ready then 1 else 0
  {
    var n := |pods| - 1;
    assert n !in ReadyOnes(pods[..n]);
    assert ReadyOnes(pods) == ReadyOnes(pods[..n]) + if pods[n].phase.Running? && pods[n].ready then {n} else {};
  }

  lemma LabelledOnesGrow(pods: seq<Pod>, revision: string)
    requires pods != []
    ensures
      var n := |pods| - 1;
      |LabelledOnes(pods, revision)| == |LabelledOnes(pods[..n], revision)|
        + if !pods[n].phase.Unset? && !pods[n].terminating && pods[n].revision == revision then 1 else 0
  {
    var n := |pods| - 1;
    assert n !in LabelledOnes(pods[..n], revision);
    assert LabelledOnes(pods, revision) == LabelledOnes(pods[..n], revision)
      + if !pods[n].phase.Unset? && !pods[n].terminating && pods[n].revision == revision then {n} else {};
  }

  /** The counters at the start are the numbers of these pods. */
  lemma {:induction false} TallyCountsAll(pods: seq<Pod>, cur: string, upd: string)
    ensures
      Tally(pods, cur, upd) ==
        Counters(|pods|, |ReadyOnes(pods)|, |LabelledOnes(pods, cur)|, |LabelledOnes(pods, upd)|)
  {
    hide ReadyOnes, LabelledOnes;
    if pods == [] {
      NoOnes(cur);
      NoOnes(upd);
    } else {
      var n := |pods| - 1;
      TallyCountsAll(pods[..n], cur, upd);
      ReadyOnesGrow(pods);
      LabelledOnesGrow(pods, cur);
      LabelledOnesGrow(pods, upd);
    }
  }

  lemma NoOnes(revision: string)
    ensures ReadyOnes([]) == {} && LabelledOnes([], revision) == {}
  {
  }

  lemma ReplaceKeepsReady(job: Job, m: Machine, p: Pod)
    ensures Replace(job, m, p).status.ready == m.status.ready
  {
    hide Apply, Completed;
  }

  lemma StepKeepsReady(job: Job, m: Machine)
    requires InRange(job, m) && !m.pc.Done?
    ensures Step(job, m).status.ready == m.status.ready
  {
    hide Apply, Replace, Unavailable, MaxUnavailable, ShouldMarkReady;
    if m.pc.AtRoll? && m.pc.left > UpdateMin(job.sts) {
      ReplaceKeepsReady(job, m, m.replicas[m.pc.left - 1]);
    }
  }

  lemma {:induction false} RunKeepsReady(job: Job, m: Machine)
    requires InRange(job, m)
    ensures Run(job, m).status.ready == m.status.ready
    decreases Rank(m.pc), Left(job, m.pc)
  {
    hide Step;
    if !m.pc.Done? {
      StepKeepsReady(job, m);
      assert InRange(job, Step(job, m)) && Run(job, m) == Run(job, Step(job, m));
      RunKeepsReady(job, Step(job, m));
    }
  }

  /** ReadyReplicas is that of the listing, whatever the round does. */
  lemma ReadyIsListed(job: Job, pods: seq<Pod>, store: Store)
    ensures Round(job, pods, store).status.ready == |ReadyOnes(pods)|
  {
    TallyCountsAll(pods, job.cur, job.upd);
    RunKeepsReady(job, Start(job, pods, store));
  }

  // ---------- new pods ----------

  /** The revision an empty slot is filled with: the current one below the partition, or without a RollingUpdate
      block, for type RollingUpdate, below the recorded CurrentReplicas; the update revision elsewhere. */
  function RevisionFor(job: Job, i: int): string {
    match job.sts.rolling
    case Some(block) => if i < block.partition then job.cur else job.upd
    case None => if job.sts.strategy.RollingType? && i < job.sts.currentReplicas then job.cur else job.upd
  }

  /** A new pod of its slot: the label, the gate of the labelled template, nothing reported yet. */
  predicate IsNew(job: Job, i: int, p: Pod) {
    var revision := RevisionFor(job, i);
    p == Pod(Slot(i), revision, Unset, false, false, job.gate(revision), Absent, NoState, [], true)
  }

  /** Slots are filled with new pods, or with a listed pod that has not been accepted yet. */
  predicate Fresh(job: Job, pods: seq<Pod>, p: Pod) {
    (p in pods && p.phase.Unset?) || exists i | 0 <= i < job.sts.replicas :: IsNew(job, i, p)
  }

  predicate FreshCreations(job: Job, pods: seq<Pod>, m: Machine) {
    && (forall p | p in m.replicas && p.phase.Unset? :: Fresh(job, pods, p))
    && (forall j | 0 <= j < |m.log| && m.log[j].action.Create? :: Fresh(job, pods, m.log[j].action.pod))
  }

  lemma NewPodIsNew(job: Job, i: nat)
    requires i < job.sts.replicas
    ensures IsNew(job, i, NewPod(job, i))
  {
  }

  lemma KeepCreatesNothing(job: Job, m: Machine, i: nat)
    requires i < |m.replicas|
    ensures
      var m' := KeepSlot(job, m, i);
      && m'.replicas == m.replicas && m.log <= m'.log
      && forall j | |m.log| <= j < |m'.log| :: !m'.log[j].action.Create?
  {
    hide Apply, ShouldMarkReady;
  }

  lemma SlotCreatesFresh(job: Job, pods: seq<Pod>, m: Machine, i: nat)
    requires i < |m.replicas| == job.sts.replicas && FreshCreations(job, pods, m)
    ensures FreshCreations(job, pods, SlotStep(job, m, i))
  {
    hide Apply, KeepSlot, NewPod, Fresh;
    NewPodIsNew(job, i);
    assert Fresh(job, pods, NewPod(job, i)) by { IsFresh(job, pods, i, NewPod(job, i)); }
    assert m.replicas[i] in m.replicas;
    KeepCreatesNothing(job, RecreateFailed(job, m, i), i);
  }

  lemma IsFresh(job: Job, pods: seq<Pod>, i: int, p: Pod)
    requires 0 <= i < job.sts.replicas && IsNew(job, i, p)
    ensures Fresh(job, pods, p)
  {
  }

  lemma StepCreatesFresh(job: Job, pods: seq<Pod>, m: Machine)
    requires InRange(job, m) && !m.pc.Done? && FreshCreations(job, pods, m)
    ensures FreshCreations(job, pods, Step(job, m))
  {
    hide Apply, SlotStep, RollStep, Fresh;
    match m.pc
    case AtSlot(i) => if i < |m.replicas| { SlotCreatesFresh(job, pods, m, i); }
    case AtRoll(left, u) =>
      if left > UpdateMin(job.sts) {
        RollAppends(job, m, left - 1, u);
      }
    case _ =>
  }

  lemma {:induction false} RunCreatesFresh(job: Job, pods: seq<Pod>, m: Machine)
    requires InRange(job, m) && FreshCreations(job, pods, m)
    ensures FreshCreations(job, pods, Run(job, m))
    decreases Rank(m.pc), Left(job, m.pc)
  {
    hide FreshCreations;
    if !m.pc.Done? {
      StepCreatesFresh(job, pods, m);
      RunCreatesFresh(job, pods, Step(job, m));
    }
  }

  /** Every pod a round creates, in a slot that is empty or whose pod failed, has the revision the spec asks for
      in that slot and the readiness gate of that revision's template, whatever the outcomes. */
  lemma CreationsAreVersioned(job: Job, pods: seq<Pod>, store: Store)
    requires forall p | p in pods :: Created(p)
    ensures forall c | c in Round(job, pods, store).log && c.action.Create? ::
      exists i | 0 <= i < job.sts.replicas :: IsNew(job, i, c.action.pod)
  {
    hide IsNew;
    var s := Start(job, pods, store);
    forall p | p in s.replicas && p.phase.Unset?
      ensures Fresh(job, pods, p)
    {
      var i :| 0 <= i < job.sts.replicas && s.replicas[i] == p;
      SlotPodHasOrdinal(pods, i);
      NewPodIsNew(job, i);
    }
    RunCreatesFresh(job, pods, s);
  }
}
