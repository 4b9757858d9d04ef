/** How a reconcile uses the expectations cache: every listed pod is observed first, every successful
    in-place patch is expected (controllers/stateful_set_control.go:100-103, 538, 653). */
module RoundExpectations {
  import opened Pods
  import opened RoundSpec
  import opened RoundOrder
  import opened RoundRolling
  import opened RoundLedger
  import Expectations

  type Cache = Expectations.Cache<Key>

  function ObserveAll(cache: Cache, key: string, upd: string, pods: seq<Pod>): Cache {
    if pods == [] then cache
    else Expectations.Perform(ObserveAll(cache, key, upd, pods[..|pods| - 1]),
                              Expectations.Observe(key, upd, pods[|pods| - 1].key, pods[|pods| - 1].revision))
  }

  function ExpectAll(cache: Cache, key: string, log: seq<Call>): Cache {
    if log == [] then cache
    else
      var call, before := log[|log| - 1], ExpectAll(cache, key, log[..|log| - 1]);
      if call.action.Patch? && call.outcome.Ok? then
        Expectations.Perform(before, Expectations.Expect(key, call.action.revision, call.action.pod.key))
      else before
  }

  predicate Shows(pods: seq<Pod>, k: Key, upd: string) {
    exists p | p in pods :: p.key == k && p.revision == upd
  }

  /** Observing a listing clears exactly the pods it shows with the update label. */
  lemma {:induction false} ObservedAreCleared(cache: Cache, key: string, upd: string, pods: seq<Pod>)
    ensures forall k :: k in Expectations.Pending(ObserveAll(cache, key, upd, pods), key, upd) <==>
      k in Expectations.Pending(cache, key, upd) && !Shows(pods, k, upd)
  {
    if pods != [] {
      var init, last := pods[..|pods| - 1], pods[|pods| - 1];
      assert pods == init + [last];
      ObservedAreCleared(cache, key, upd, init);
      forall k
        ensures Shows(pods, k, upd) <==> Shows(init, k, upd) || (last.key == k && last.revision == upd)
      {
        assert last in pods && forall p | p in init :: p in pods;
      }
    }
  }

  /** The calls of a round patch to its update revision. */
  predicate PatchesTo(log: seq<Call>, upd: string) {
    forall j | 0 <= j < |log| :: log[j].action.Patch? ==> log[j].action.revision == upd
  }

  /** Exactly the pods patched are awaited on top. */
  lemma {:induction false} OnlyPatchedAreExpected(cache: Cache, key: string, upd: string, log: seq<Call>)
    requires PatchesTo(log, upd)
    ensures Expectations.Pending(ExpectAll(cache, key, log), key, upd) ==
      Expectations.Pending(cache, key, upd) + PatchedKeys(log)
  {
    if log != [] {
      var before, call := log[..|log| - 1], log[|log| - 1];
      assert log == before + [call];
      OnlyPatchedAreExpected(cache, key, upd, before);
      PatchedAppend(before, call);
    }
  }

  lemma DeletionExpectsNothing(cache: Cache, key: string, log: seq<Call>, p: Pod, outcome: Outcome)
    ensures ExpectAll(cache, key, log + [Call(Delete(p), outcome)]) == ExpectAll(cache, key, log)
  {
    assert (log + [Call(Delete(p), outcome)])[..|log|] == log;
  }

  predicate NoPatch(log: seq<Call>) {
    forall j | 0 <= j < |log| :: !log[j].action.Patch?
  }

  lemma {:induction false} NothingExpected(cache: Cache, key: string, log: seq<Call>)
    requires NoPatch(log)
    ensures ExpectAll(cache, key, log) == cache
  {
    if log != [] {
      NothingExpected(cache, key, log[..|log| - 1]);
    }
  }

  // ---------- whole rounds ----------

  lemma KeepPatchesNothing(job: Job, m: Machine, i: nat)
    requires i < |m.replicas| && PatchesTo(m.log, job.upd)
    ensures PatchesTo(KeepSlot(job, m, i).log, job.upd)
  {
    hide Apply, ShouldMarkReady;
  }

  lemma SlotPatchesNothing(job: Job, m: Machine, i: nat)
    requires i < |m.replicas| && PatchesTo(m.log, job.upd)
    ensures PatchesTo(SlotStep(job, m, i).log, job.upd)
  {
    hide Apply, KeepSlot;
    KeepPatchesNothing(job, RecreateFailed(job, m, i), i);
  }

  lemma RollPatchesTo(job: Job, m: Machine, t: nat, u: nat)
    requires UpdateMin(job.sts) <= t < |m.replicas| && !m.pc.Done? && PatchesTo(m.log, job.upd)
    ensures PatchesTo(RollStep(job, m, t, u).log, job.upd)
  {
    hide RollStep, RollsOn, Completed, InPlacePlan;
    RollAppends(job, m, t, u);
    var m' := RollStep(job, m, t, u);
    forall j | 0 <= j < |m'.log|
      ensures m'.log[j].action.Patch? ==> m'.log[j].action.revision == job.upd
    {
      assert j < |m.log| ==> m'.log[j] == m.log[j];
    }
  }

  lemma {:induction false} RunPatchesTo(job: Job, m: Machine)
    requires InRange(job, m) && PatchesTo(m.log, job.upd)
    ensures PatchesTo(Run(job, m).log, job.upd)
    decreases Rank(m.pc), Left(job, m.pc)
  {
    hide SlotStep, RollStep, Apply, PatchesTo;
    if !m.pc.Done? {
      match m.pc {
        case AtSlot(i) => if i < |m.replicas| { SlotPatchesNothing(job, m, i); }
        case AtScale(left) => if left > 0 { ScalePatchesNothing(job, m, left - 1); }
        case AtRoll(left, u) => if left > UpdateMin(job.sts) { RollPatchesTo(job, m, left - 1, u); }
        case _ =>
      }
      RunPatchesTo(job, Step(job, m));
    }
  }

  lemma ScalePatchesNothing(job: Job, m: Machine, t: nat)
    requires t < |job.condemned| && PatchesTo(m.log, job.upd)
    ensures PatchesTo(ScaleStep(job, m, t).log, job.upd)
  {
    hide Apply;
  }

  /** One reconcile, as the cache sees it. */
  ghost predicate Refreshes(key: string, upd: string, a: Cache, job: Job, pods: seq<Pod>, store: Store, b: Cache) {
    && job.upd == upd
    && job.satisfied == (Expectations.Pending(ObserveAll(a, key, upd, pods), key, upd) == {})
    && b == ExpectAll(ObserveAll(a, key, upd, pods), key, Round(job, pods, store).log)
  }

  /** After a reconcile exactly those pods are awaited that were awaited and not shown, or were patched; and
      only a reconcile with none awaited and not shown goes on to roll. */
  lemma ReconcileAwaits(key: string, upd: string, a: Cache, job: Job, pods: seq<Pod>, store: Store, b: Cache)
    requires Refreshes(key, upd, a, job, pods, store, b)
    ensures forall k :: k in Expectations.Pending(b, key, upd) <==>
      || (k in Expectations.Pending(a, key, upd) && !Shows(pods, k, upd))
      || k in PatchedKeys(Round(job, pods, store).log)
    ensures (exists k :: k in Expectations.Pending(a, key, upd) && !Shows(pods, k, upd)) ==>
      Round(job, pods, store).log == BeforeRoll(job, Start(job, pods, store)).log
  {
    hide Round, PatchedKeys, ObserveAll, ExpectAll;
    ObservedAreCleared(a, key, upd, pods);
    RoundPatchesTo(job, pods, store);
    OnlyPatchedAreExpected(ObserveAll(a, key, upd, pods), key, upd, Round(job, pods, store).log);
    if k :| k in Expectations.Pending(a, key, upd) && !Shows(pods, k, upd) {
      assert k in Expectations.Pending(ObserveAll(a, key, upd, pods), key, upd);
      RollingNeedsPermission(job, pods, store);
    }
  }

  lemma RoundPatchesTo(job: Job, pods: seq<Pod>, store: Store)
    ensures PatchesTo(Round(job, pods, store).log, job.upd)
  {
    RunPatchesTo(job, Start(job, pods, store));
  }

  /** A patched pod that no listing shows with its new label blocks the rolling of every later round of that
      revision, for good if it is gone; the first listing that shows it ends the block. */
  lemma {:induction false} UnseenPodBlocksRolling(
    key: string, upd: string, caches: seq<Cache>, rounds: seq<(Job, seq<Pod>, Store)>, k: Key, i: nat)
    requires |caches| == |rounds| + 1 && k in Expectations.Pending(caches[0], key, upd)
    requires forall r | 0 <= r < |rounds| ::
      Refreshes(key, upd, caches[r], rounds[r].0, rounds[r].1, rounds[r].2, caches[r + 1])
    requires i < |rounds| && forall r | 0 <= r < i :: !Shows(rounds[r].1, k, upd)
    ensures
      k in Expectations.Pending(ObserveAll(caches[i], key, upd, rounds[i].1), key, upd) <==> !Shows(rounds[i].1, k, upd)
    ensures
      var (job, pods, store) := rounds[i];
      !Shows(pods, k, upd) ==>
        && Round(job, pods, store).log == BeforeRoll(job, Start(job, pods, store)).log
        && k in Expectations.Pending(caches[i + 1], key, upd)
  {
    hide Refreshes, ObserveAll, ExpectAll, Round, BeforeRoll, Shows, Start;
    if i > 0 {
      UnseenPodBlocksRolling(key, upd, caches, rounds, k, i - 1);
    }
    assert k in Expectations.Pending(caches[i], key, upd);
    ObservedAreCleared(caches[i], key, upd, rounds[i].1);
    ReconcileAwaits(key, upd, caches[i], rounds[i].0, rounds[i].1, rounds[i].2, caches[i + 1]);
  }
}
