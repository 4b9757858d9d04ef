/** A scale-down that stalls for good: two pods beyond the replica count were caught in an in-place
    update, and nothing marks them ready again. With the limit of one such pod the scale-down converges
    (controllers/stateful_set_control.go:386-530). */
module ScaleDownStalls {
  import opened Pods
  import opened RoundSpec
  import opened RoundOrder
  import opened RoundRolling
  import opened RoundLedger
  import opened RoundReplay
  import opened Convergence

  predicate SickSurplus(sts: StatefulSet, store: Store, k: Key) {
    && k in store && store[k].key == k && sts.replicas <= k.ordinal
    && !RunningAndReady(store[k]) && !store[k].terminating
  }

  /** Both keys hold unhealthy pods beyond the replica count that nobody has asked to go. */
  predicate SickPair(sts: StatefulSet, store: Store, k: Key, l: Key) {
    && !sts.parallel && k != l
    && SickSurplus(sts, store, k) && SickSurplus(sts, store, l)
  }

  predicate Unchanged(a: Store, b: Store, k: Key) {
    (k in a <==> k in b) && (k in a ==> b[k] == a[k])
  }

  // ---------- one round ----------

  /** Below the top pod, or at it, there is an unhealthy pod that the scan for the first one meets earlier. */
  lemma PairBlocksItself(job: Job, slots: seq<Pod>, i: nat, j: nat)
    requires i < |job.condemned| && j < |job.condemned| && i != j
    requires !Healthy(job.condemned[i]) && !Healthy(job.condemned[j])
    requires job.first == FirstUnhealthy(slots, job.condemned)
    ensures job.first != Some(|job.condemned| - 1)
  {
    var c := job.condemned;
    assert FirstSick(c) <= i && FirstSick(c) <= j;
  }

  /** The only condemned pod an OrderedReady round may delete is the last one, and not a sick one of a pair. */
  lemma LastIsNoneOf(job: Job, pods: seq<Pod>, store: Store, k: Key, l: Key)
    requires Lists(pods, store) && FromListing(job, pods) && SickPair(job.sts, store, k, l)
    ensures job.condemned != []
    ensures
      var last := job.condemned[|job.condemned| - 1];
      RunningAndReady(last) || job.first == Some(|job.condemned| - 1) ==> last.key != k && last.key != l
  {
    CondemnedExactly(job, pods);
    assert store[k] in pods && store[l] in pods;
    var c := job.condemned;
    var i :| 0 <= i < |c| && c[i] == store[k];
    var j :| 0 <= j < |c| && c[j] == store[l];
    PairBlocksItself(job, Slots(job, pods), i, j);
    var last := c[|c| - 1];
    assert last in c && last in pods && store[last.key] == last;
  }

  lemma PairSlotStep(job: Job, m: Machine, i: nat, k: Key)
    requires i < |m.replicas| && m.replicas[i].key.ordinal == i && |m.replicas| <= k.ordinal
    ensures Unchanged(m.store, SlotStep(job, m, i).store, k)
  {
    hide SlotStep;
    SlotTouches(job, m, i);
  }

  /** The scale-down step of an OrderedReady round, which is its last. */
  lemma PairScaleStep(job: Job, m: Machine, k: Key)
    requires !job.sts.parallel && InRange(job, m) && m.pc == AtScale(|job.condemned|) && job.condemned != []
    requires
      var last := job.condemned[|job.condemned| - 1];
      RunningAndReady(last) || job.first == Some(|job.condemned| - 1) ==> last.key != k
    ensures Step(job, m).pc.Done? && Unchanged(m.store, Step(job, m).store, k) && Step(job, m).replicas == m.replicas
  {
    ApplyFrame(m.store, Call(Delete(job.condemned[|job.condemned| - 1]), job.oracle(|m.log|)));
    hide Apply;
  }

  lemma {:induction false} PairRun(job: Job, store: Store, m: Machine, k: Key)
    requires !job.sts.parallel && InRange(job, m) && Indexed(m.replicas) && Unchanged(store, m.store, k)
    requires job.condemned != [] && job.sts.replicas <= k.ordinal
    requires
      var last := job.condemned[|job.condemned| - 1];
      RunningAndReady(last) || job.first == Some(|job.condemned| - 1) ==> last.key != k
    requires m.pc.AtSlot? || m.pc == AtScale(|job.condemned|) || m.pc.Done?
    ensures Unchanged(store, Run(job, m).store, k)
    decreases Rank(m.pc), Left(job, m.pc)
  {
    hide SlotStep, ScaleStep;
    if m.pc.AtSlot? {
      if m.pc.i < |m.replicas| {
        SlotTouches(job, m, m.pc.i);
        SlotNext(job, m, m.pc.i);
        PairSlotStep(job, m, m.pc.i, k);
      }
      PairRun(job, store, Step(job, m), k);
    } else if m.pc.AtScale? {
      PairScaleStep(job, m, k);
      PairRun(job, store, Step(job, m), k);
    }
  }

  /** Whatever its outcomes, a round leaves both pods of a sick pair as they are. */
  lemma RoundKeepsPair(job: Job, pods: seq<Pod>, store: Store, k: Key, l: Key)
    requires Lists(pods, store) && FromListing(job, pods) && SickPair(job.sts, store, k, l)
    ensures
      var after := Round(job, pods, store).store;
      k in after && after[k] == store[k] && l in after && after[l] == store[l]
  {
    LastIsNoneOf(job, pods, store, k, l);
    SlotsIndexed(job, pods);
    PairRun(job, store, Start(job, pods, store), k);
    PairRun(job, store, Start(job, pods, store), l);
  }

  lemma KeepCallsOwn(job: Job, m: Machine, i: nat)
    requires i < |m.replicas| && m.replicas[i].key.ordinal == i
    ensures
      var m' := KeepSlot(job, m, i);
      m.log <= m'.log && forall j | |m.log| <= j < |m'.log| :: m'.log[j].action.pod.key.ordinal == i
  {
    hide Apply, ShouldMarkReady;
  }

  lemma SlotCallsOwn(job: Job, m: Machine, i: nat)
    requires i < |m.replicas| && m.replicas[i].key.ordinal == i
    ensures
      var m' := SlotStep(job, m, i);
      m.log <= m'.log && forall j | |m.log| <= j < |m'.log| :: m'.log[j].action.pod.key.ordinal == i
  {
    hide Apply, KeepSlot;
    KeepCallsOwn(job, RecreateFailed(job, m, i), i);
  }

  predicate AboutReplicas(job: Job, log: seq<Call>) {
    forall j | 0 <= j < |log| :: 0 <= log[j].action.pod.key.ordinal < job.sts.replicas
  }

  lemma {:induction false} BlockedRun(job: Job, m: Machine)
    requires !job.sts.parallel && job.condemned != [] && InRange(job, m) && Indexed(m.replicas)
    requires !RunningAndReady(job.condemned[|job.condemned| - 1]) && job.first != Some(|job.condemned| - 1)
    requires m.pc.AtSlot? || m.pc == AtScale(|job.condemned|) || m.pc.Done?
    requires AboutReplicas(job, m.log)
    ensures AboutReplicas(job, Run(job, m).log)
    decreases Rank(m.pc), Left(job, m.pc)
  {
    hide SlotStep;
    if m.pc.AtSlot? {
      if m.pc.i < |m.replicas| {
        SlotTouches(job, m, m.pc.i);
        SlotNext(job, m, m.pc.i);
        SlotCallsOwn(job, m, m.pc.i);
        var m' := Step(job, m);
        assert forall j | 0 <= j < |m.log| :: m'.log[j] == m.log[j];
      }
      BlockedRun(job, Step(job, m));
    } else if m.pc.AtScale? {
      assert Run(job, Step(job, m)) == Step(job, m) == m.(pc := Done(true));
    }
  }

  /** With a second unhealthy condemned pod below an unready top one, an OrderedReady round makes no call about
      a condemned pod; so one of zero replicas makes none at all. */
  lemma TwoSickCondemnedBlockScaleDown(job: Job, pods: seq<Pod>, store: Store, j: nat)
    requires !job.sts.parallel && FromListing(job, pods)
    requires
      var c := job.condemned;
      j < |c| - 1 && !Healthy(c[j]) && !RunningAndReady(c[|c| - 1])
    ensures AboutReplicas(job, Round(job, pods, store).log)
    ensures job.sts.replicas == 0 ==> Round(job, pods, store).log == []
  {
    SlotsIndexed(job, pods);
    assert FirstSick(job.condemned) <= j;
    BlockedRun(job, Start(job, pods, store));
    if Round(job, pods, store).log != [] {
      assert 0 <= Round(job, pods, store).log[0].action.pod.key.ordinal < job.sts.replicas;
    }
  }

  // ---------- whole runs ----------

  /** A sick pair that waits for a mark it will not get. */
  predicate WaitingPair(sts: StatefulSet, store: Store, k: Key, l: Key) {
    SickPair(sts, store, k, l) && Waiting(store[k]) && Waiting(store[l])
  }

  /** One reconcile, whatever its template and the outcomes of its calls, and then the environment. */
  ghost predicate Next(sts: StatefulSet, a: Store, job: Job, pods: seq<Pod>, b: Store) {
    && SameSpec(job.sts, sts) && Lists(pods, a) && FromListing(job, pods)
    && Recovers(Round(job, pods, a).store, b)
  }

  lemma WaitingStays(a: Store, b: Store, k: Key)
    requires Recovers(a, b) && k in a && Waiting(a[k]) && a[k].key == k
    ensures k in b && Waiting(b[k]) && b[k].key == k
  {
    hide Completed;
  }

  lemma PairStays(sts: StatefulSet, a: Store, job: Job, pods: seq<Pod>, b: Store, k: Key, l: Key)
    requires WaitingPair(sts, a, k, l) && Next(sts, a, job, pods, b)
    ensures WaitingPair(sts, b, k, l)
  {
    RoundKeepsPair(job, pods, a, k, l);
    WaitingStays(Round(job, pods, a).store, b, k);
    WaitingStays(Round(job, pods, a).store, b, l);
    hide Recovers, Completed, ShouldMarkReady, FromListing, Lists, Round;
  }

  /** Two pods that wait beyond the replica count of an OrderedReady set, at any ordinals, are there in every
      later state, through any template edits and failures: the set never reaches its size. */
  lemma {:induction false} StallsForGood(
    sts: StatefulSet, stores: seq<Store>, rounds: seq<(Job, seq<Pod>)>, k: Key, l: Key, i: nat)
    requires |stores| == |rounds| + 1 && WaitingPair(sts, stores[0], k, l)
    requires forall r | 0 <= r < |rounds| :: Next(sts, stores[r], rounds[r].0, rounds[r].1, stores[r + 1])
    requires i <= |rounds|
    ensures WaitingPair(sts, stores[i], k, l)
    ensures forall upd :: !Target(sts, upd, stores[i])
  {
    hide Next, Waiting;
    if i > 0 {
      StallsForGood(sts, stores, rounds, k, l, i - 1);
      PairStays(sts, stores[i - 1], rounds[i - 1].0, rounds[i - 1].1, stores[i], k, l);
    }
  }

  // ---------- the dichotomy ----------

  predicate NoFailedSurplus(sts: StatefulSet, store: Store) {
    forall k | k in Surplus(sts.replicas, store) :: !store[k].phase.Failed?
  }

  /** On a settled cluster more than one unhealthy surplus pod means a pair that waits. */
  lemma SickSurplusWaits(sts: StatefulSet, store: Store) returns (k: Key, l: Key)
    requires Settled(store) && NoFailedSurplus(sts, store) && !OneSickSurplus(sts, store)
    ensures WaitingPair(sts, store, k, l)
  {
    hide Completed;
    k, l :| k in Surplus(sts.replicas, store) && l in Surplus(sts.replicas, store) && k != l
      && !Healthy(store[k]) && !Healthy(store[l]);
    assert Calm(store[k]) && Calm(store[l]);
  }

  lemma {:induction false} DivergesOtherwise(
    sts: StatefulSet, upd: string, key: string, ws: seq<World>, rounds: seq<(Job, seq<Pod>)>, k: Key, l: Key, i: nat)
    requires |ws| == |rounds| + 1 && WaitingPair(sts, ws[0].store, k, l)
    requires forall r | 0 <= r < |rounds| :: Reconciles(sts, upd, key, ws[r], rounds[r].0, rounds[r].1, ws[r + 1])
    requires i <= |rounds|
    ensures WaitingPair(sts, ws[i].store, k, l) && !Target(sts, upd, ws[i].store)
  {
    hide Waiting, Reconciles, Next, SickPair;
    WaitingMissesTarget(sts, upd, ws[i].store, k, l);
    if i > 0 {
      DivergesOtherwise(sts, upd, key, ws, rounds, k, l, i - 1);
      ReconcileIsNext(sts, upd, key, ws[i - 1], rounds[i - 1].0, rounds[i - 1].1, ws[i]);
      PairStays(sts, ws[i - 1].store, rounds[i - 1].0, rounds[i - 1].1, ws[i].store, k, l);
    }
  }

  lemma WaitingMissesTarget(sts: StatefulSet, upd: string, store: Store, k: Key, l: Key)
    ensures WaitingPair(sts, store, k, l) ==> !Target(sts, upd, store)
  {
  }

  lemma ReconcileIsNext(sts: StatefulSet, upd: string, key: string, w: World, job: Job, pods: seq<Pod>, w': World)
    requires Reconciles(sts, upd, key, w, job, pods, w')
    ensures Next(sts, w.store, job, pods, w'.store)
  {
  }

  /** Convergence if and only if: from a settled cluster without failed surplus pods, a run is at its target
      after as many rounds as its initial distance, and from then on, exactly if of any two pods beyond the
      replica count one is healthy at the start (or the set is Parallel). Otherwise it never is. */
  lemma ConvergesIff(
    sts: StatefulSet, upd: string, key: string, ws: seq<World>, rounds: seq<(Job, seq<Pod>)>, i: nat)
    requires Updating(sts) && |ws| == |rounds| + 1
    requires Settled(ws[0].store) && StillListed(upd, key, ws[0]) && NoFailedSurplus(sts, ws[0].store)
    requires forall r | 0 <= r < |rounds| :: Reconciles(sts, upd, key, ws[r], rounds[r].0, rounds[r].1, ws[r + 1])
    requires i <= |rounds|
    ensures i >= Work(sts, upd, ws[0].store) ==> (Target(sts, upd, ws[i].store) <==> OneSickSurplus(sts, ws[0].store))
    ensures !OneSickSurplus(sts, ws[0].store) ==> !Target(sts, upd, ws[i].store)
  {
    hide Reconciles, Work, Target, Updating, Settled, OneSickSurplus, WaitingPair, NoFailedSurplus;
    if OneSickSurplus(sts, ws[0].store) {
      EveryRunConverges(sts, upd, key, ws, rounds, i);
    } else {
      var k, l := SickSurplusWaits(sts, ws[0].store);
      DivergesOtherwise(sts, upd, key, ws, rounds, k, l, i);
    }
  }
}
