/** One whole reconcile: revisions, round, status and truncation in order, tied to the transition system
    of RevisionSafety (controllers/stateful_set_control.go:85-133, 161-258, 657-679,
    controllers/stateful_set_utils.go:370-394). */
module Reconciler {
  import opened Pods
  import opened RoundSpec
  import opened RoundOrder
  import opened RoundRolling
  import opened RoundLedger
  import opened RoundCompletion
  import opened History
  import opened RevisionControl
  import opened RevisionSafety
  import opened RoundReplay
  import opened RoundExpectations
  import RoundSnapshot
  import Convergence
  import BlocklessRolling
  import Expectations
  import InPlaceUpdate
  import PodControl
  import StatefulSetControl

  // ---------- status ----------

  datatype Status = Status(counters: Counters, current: string, update: string, generation: int)

  /** completeRollingUpdate. */
  function WithCompletion(sts: StatefulSet, s: Status): Status {
    if Completes(sts, s.counters) then
      s.(counters := s.counters.(current := s.counters.updated), current := s.update)
    else s
  }

  /** The update is complete: type RollingUpdate, and as many pods are updated and ready as there are. */
  predicate Finished(sts: StatefulSet, c: Counters) {
    sts.strategy.RollingType? && c.updated == c.replicas && c.ready == c.replicas
  }

  /** What the status says after a round that counted `c`, field by field: the counters; for a complete update
      the update revision and its count as the current ones. */
  predicate Records(status: Status, sts: StatefulSet, c: Counters, cur: string, upd: string) {
    && status.counters.replicas == c.replicas && status.counters.ready == c.ready
    && status.counters.updated == c.updated && status.update == upd
    && status.counters.current == (if Finished(sts, c) then c.updated else c.current)
    && status.current == (if Finished(sts, c) then upd else cur)
  }

  predicate InconsistentStatus(next: Status, recorded: Status) {
    next.generation > recorded.generation || next.(generation := recorded.generation) != recorded
  }

  lemma NoCalls(store: Store, log: seq<Call>)
    ensures ApplyAll(store, log[..0]) == store
  {
  }

  function RecordOf(pods: Store, cache: Cache, s: Status): BlocklessRolling.Record {
    BlocklessRolling.Record(Convergence.World(pods, cache), s.current, s.counters.current)
  }

  /** However the pods settle, the reconcile is a step of the runs of BlocklessRolling. */
  ghost predicate GoesOn(
    spec: StatefulSet, key: string, pods: Store, cache: Cache, before: Status, job: Job, listed: seq<Pod>,
    pods': Store, cache': Cache, after: Status)
  {
    forall settled: Store | Convergence.Recovers(pods', settled) ::
      BlocklessRolling.Continues(
        spec, job.upd, key, RecordOf(pods, cache, before), job, listed, RecordOf(settled, cache', after))
  }

  /** Both revisions are stored, the update one with the template, and a new pod of either gets the readiness gate
      if that revision's own content lists it. */
  predicate Templated(job: Job, revs: Revisions, content: string, contentGate: string -> bool) {
    && (forall n | n in {job.cur, job.upd} :: n in revs && job.gate(n) == contentGate(revs[n].content))
    && revs[job.upd].content == content
  }

  lemma GatesAreTemplated(
    items: Revisions, listing: seq<Revision>, hash: Hash, content: string, collisions: nat, recorded: string,
    current: Revision, update: Revision, revs: Revisions, contentGate: string -> bool, job: Job)
    requires Injective(hash) && ListsAll(listing, items)
    requires update == Advance(items, listing, hash, content, collisions).upd
    requires current == CurrentRevision(listing, recorded, update)
    requires revs == Advance(items, listing, hash, content, collisions).items || (revs == items && update.name in items)
    requires job.cur == current.name && job.upd == update.name
    requires forall n :: job.gate(n) == contentGate(if n == update.name then update.content else current.content)
    ensures Templated(job, revs, content, contentGate)
    ensures (exists r :: r in listing && r.name == recorded) ==> current.name == recorded
  {
    hide Advance, CurrentRevision, Injective;
    AdvanceKeepsContents(items, listing, hash, content, collisions);
    CurrentIsRecorded(listing, recorded, update);
  }

  /** Every pod a round creates has the readiness gate if and only if the content its label names lists it. */
  lemma CreatedPodsAreGated(
    job: Job, listed: seq<Pod>, store: Store, revs: Revisions, content: string, contentGate: string -> bool)
    requires Templated(job, revs, content, contentGate) && forall p | p in listed :: Created(p)
    ensures forall c | c in Round(job, listed, store).log && c.action.Create? ::
      var p := c.action.pod;
      p.revision in revs && (p.gate <==> contentGate(revs[p.revision].content))
  {
    hide Round;
    RoundSnapshot.CreationsAreVersioned(job, listed, store);
  }

  /** A successful fault-free reconcile on a fresh listing is a step of the runs of BlocklessRolling, with the
      current revision and CurrentReplicas it read and the ones it recorded. */
  lemma Carries(
    spec: StatefulSet, key: string, pods: Store, cache: Cache, before: Status, job: Job, listed: seq<Pod>,
    pods': Store, cache': Cache, after: Status)
    requires job.sts == spec.(currentReplicas := before.counters.current) && job.cur == before.current
    requires FaultFree(job) && Lists(listed, pods) && FromListing(job, listed)
    requires Refreshes(key, job.upd, cache, job, listed, pods, cache')
    requires pods' == ApplyAll(pods, Round(job, listed, pods).log)
    requires Records(after, job.sts, Round(job, listed, pods).status, job.cur, job.upd)
    ensures GoesOn(spec, key, pods, cache, before, job, listed, pods', cache', after)
  {
    hide Round, Lists, FromListing, Convergence.Recovers, ObserveAll, ExpectAll;
    RoundReplays(job, listed, pods);
  }

  // ---------- the controller ----------

  class StatefulSetReconciler {
    const key: string
    const revisions: RevisionStore
    const expectations: Expectations.UpdateExpectations<Key>
    var pods: Store
    var status: Status

    constructor (
      key: string, revisions: RevisionStore, expectations: Expectations.UpdateExpectations<Key>,
      pods: Store, status: Status)
      ensures this.key == key && this.revisions == revisions && this.expectations == expectations
      ensures this.pods == pods && this.status == status
    {
      this.key, this.revisions, this.expectations := key, revisions, expectations;
      this.pods, this.status := pods, status;
    }

    ghost function State(): Cluster
      reads this, revisions
    {
      Cluster(revisions.items, pods, status.current)
    }

    /** updateStatefulSetStatus: skipped if the recorded status already says the same. */
    method UpdateStatefulSetStatus(sts: StatefulSet, next: Status, works: bool) returns (ok: bool)
      modifies this`status
      ensures ok ==> status == WithCompletion(sts, next).(generation := status.generation)
      ensures ok ==> Records(status, sts, next.counters, next.current, next.update)
      ensures ok ==> status.generation >= next.generation
      ensures !ok ==> status == old(status) && !works
      ensures works ==> ok
    {
      var final := WithCompletion(sts, next);
      if !InconsistentStatus(final, status) {
        return true;
      }
      if !works {
        return false;
      }
      status := final;
      return true;
    }

    /** The round, on a session of its own with the API server. */
    method RunRound(
      sts: StatefulSet, cur: string, upd: string, plan: string -> Option<map<string, string>>,
      gate: string -> bool, listed: seq<Pod>, oracle: nat -> Outcome)
      returns (ok: bool, panicked: bool, counters: Counters, ghost job: Job)
      requires expectations.Valid()
      requires sts.replicas <= MAX_INT32 && forall p | p in listed :: p.key.ordinal <= MAX_INT32
      modifies this`pods, expectations
      ensures expectations.Valid()
      ensures job.sts == sts && job.cur == cur && job.upd == upd && job.plan == plan && job.gate == gate
      ensures job.oracle == oracle && FromListing(job, listed)
      ensures panicked <==> NamesNoUnhealthy(Slots(job, listed), job.condemned)
      ensures panicked ==>
        !ok && pods == old(pods) && expectations.cache == ObserveAll(old(expectations.cache), key, upd, listed)
      ensures !panicked ==>
        var m := Round(job, listed, old(pods));
        && m.pc == Done(ok) && m.status == counters
        && pods == ApplyAll(old(pods), m.log)
        && Refreshes(key, upd, old(expectations.cache), job, listed, old(pods), expectations.cache)
    {
      hide Round, ApplyAll, FromListing, ObserveAll, ExpectAll, Expectations.Pending, NamesNoUnhealthy, Slots;
      var control := new PodControl.StatefulPodControl(pods, oracle);
      var round := new StatefulSetControl.RoundControl(control, expectations, key);
      ok, panicked, job := round.UpdateStatefulSet(sts, cur, upd, plan, gate, listed);
      RoundReplays(job, listed, pods);
      NothingExpected(ObserveAll(old(expectations.cache), key, upd, listed), key, []);
      counters := Counters(round.statusReplicas, round.readyReplicas, round.currentReplicas, round.updatedReplicas);
      pods := control.store;
    }

    /** Truncation spares the two revisions and every label listed. */
    method Truncate(
      listing: seq<Revision>, listed: seq<Pod>, cur: string, upd: string, limit: nat, deletes: nat -> bool)
      returns (ok: bool, ghost deleted: nat)
      modifies revisions
      ensures
        var doomed := Doomed(listing, {cur, upd} + (set p | p in listed :: p.revision), limit);
        && deleted <= |doomed| && revisions.items == old(revisions.items) - Names(doomed[..deleted])
        && (ok ==> deleted == |doomed|)
    {
      hide Doomed, Names;
      var labels := seq(|listed|, i requires 0 <= i < |listed| => listed[i].revision);
      ok, deleted := revisions.TruncateHistory(listing, labels, cur, upd, limit, deletes);
      forall l
        ensures l in labels <==> exists p :: p in listed && p.revision == l
      {
        if p :| p in listed && p.revision == l {
          var i :| 0 <= i < |listed| && listed[i] == p;
          assert labels[i] == l;
        }
      }
      assert (set l | l in labels) == (set p | p in listed :: p.revision);
    }

    /** The start of a reconcile: the two revisions, and the round with the plans and gates of their contents. */
    method ReviseAndRun(
      sts: StatefulSet, content: string, hash: Hash, collisions: nat, listing: seq<Revision>, listed: seq<Pod>,
      templates: InPlaceUpdate.Templates, contentGate: string -> bool, works: nat -> bool, oracle: nat -> Outcome,
      written: bool)
      returns (started: bool, ok: bool, panicked: bool, current: Revision, update: Revision, counters: Counters,
               ghost job: Job)
      requires Injective(hash) && ListsAll(listing, revisions.items) && Sorted(listing) && expectations.Valid()
      requires sts.replicas <= MAX_INT32 && forall p | p in listed :: p.key.ordinal <= MAX_INT32
      modifies this`pods, revisions, expectations
      ensures expectations.Valid()
      ensures !started ==>
        && pods == old(pods) && revisions.items == old(revisions.items) && LastEqual(listing, content).None?
        && expectations.cache == old(expectations.cache)
      ensures started ==>
        var next := Advance(old(revisions.items), listing, hash, content, collisions);
        && update == next.upd && current == CurrentRevision(listing, status.current, update)
        && (revisions.items == next.items
            || (revisions.items == old(revisions.items) && update.name in old(revisions.items)))
      ensures started ==>
        && job.sts == sts && job.cur == current.name && job.upd == update.name && job.oracle == oracle
        && FromListing(job, listed)
        && (forall from :: job.plan(from) == InPlaceUpdate.PlannedImages(templates, listing, from, update))
        && Templated(job, revisions.items, content, contentGate)
        && ((exists r :: r in listing && r.name == status.current) ==> current.name == status.current)
      ensures started ==> (panicked <==> NamesNoUnhealthy(Slots(job, listed), job.condemned))
      ensures started && panicked ==>
        !ok && pods == old(pods) && expectations.cache == ObserveAll(old(expectations.cache), key, job.upd, listed)
      ensures started && !panicked ==>
        var m := Round(job, listed, old(pods));
        && m.pc == Done(ok) && m.status == counters && pods == ApplyAll(old(pods), m.log)
        && Refreshes(key, job.upd, old(expectations.cache), job, listed, old(pods), expectations.cache)
    {
      hide Advance, Round, FromListing, ApplyAll, InPlaceUpdate.PlannedImages, CurrentRevision, ListsAll, Sorted,
        Injective, Refreshes, Slots, NamesNoUnhealthy, LastEqual, ObserveAll, Templated;
      ghost var items := revisions.items;
      ok, panicked, counters := false, false, Counters(0, 0, 0, 0);
      var collisions';
      started, current, update, collisions' :=
        revisions.GetStatefulSetRevisions(listing, content, hash, status.current, collisions, written, works);
      if !started {
        job := Job(sts, "", "", _ => None, _ => false, oracle, false, [], None);
        return;
      }
      var plan := from => InPlaceUpdate.PlannedImages(templates, listing, from, update);
      var gate := name => contentGate(if name == update.name then update.content else current.content);
      ok, panicked, counters, job := RunRound(sts, current.name, update.name, plan, gate, listed, oracle);
      GatesAreTemplated(
        items, listing, hash, content, collisions, status.current, current, update, revisions.items, contentGate, job);
    }

    /** The end of a reconcile: the status, and once that is recorded the history. */
    method RecordAndTruncate(
      sts: StatefulSet, next: Status, listing: seq<Revision>, listed: seq<Pod>, limit: nat, statusWorks: bool,
      deletes: nat -> bool)
      returns (ok: bool, ghost extent: Extent)
      modifies this`status, revisions
      ensures
        var doomed := Doomed(listing, {next.current, next.update} + (set p | p in listed :: p.revision), limit);
        if extent == StatusLost then !ok && status == old(status) && revisions.items == old(revisions.items)
        else
          && extent.Recorded? && extent.deleted <= |doomed|
          && revisions.items == old(revisions.items) - Names(doomed[..extent.deleted])
          && (ok ==> extent.deleted == |doomed|)
          && status == WithCompletion(sts, next).(generation := status.generation)
          && Records(status, sts, next.counters, next.current, next.update) && status.generation >= next.generation
    {
      hide Doomed, Names, Records, WithCompletion;
      ok := UpdateStatefulSetStatus(sts, next, statusWorks);
      if !ok {
        return false, StatusLost;
      }
      ghost var deleted;
      ok, deleted := Truncate(listing, listed, next.current, next.update, limit, deletes);
      extent := Recorded(deleted);
    }

    /** One reconcile. `contentGate` tells whether a revision's content lists the readiness gate; `works`,
        `oracle`, `written`, `statusWorks` and `deletes` are the outcomes of the calls. If the update revision
        cannot be created nothing changes. If it can, the reconcile is a step of RevisionSafety, so that a
        revision dangles exactly if truncation deletes a label the listing missed, and, unless it panics
        before its first call, of the expectations cache; success means that the status says what the round
        counted and that the history is truncated. */
    method UpdateStatefulSet(
      spec: StatefulSet, generation: int, content: string, hash: Hash, collisions: nat, listing: seq<Revision>,
      listed: seq<Pod>, templates: InPlaceUpdate.Templates, contentGate: string -> bool, limit: nat,
      works: nat -> bool, oracle: nat -> Outcome, written: bool, statusWorks: bool, deletes: nat -> bool)
      returns (ok: bool, panicked: bool, ghost r: Option<Reconcile>, ghost revs: Revisions)
      requires Injective(hash) && ListsAll(listing, revisions.items) && Sorted(listing)
      requires EmptiesKnown(listed, pods) && expectations.Valid()
      requires spec.replicas <= MAX_INT32 && forall p | p in listed :: p.key.ordinal <= MAX_INT32
      modifies this, revisions, expectations
      ensures expectations.Valid()
      ensures r.None? ==>
        && !ok && !panicked && State() == old(State()) && status == old(status)
        && expectations.cache == old(expectations.cache) && LastEqual(listing, content).None?
      ensures r.Some? ==>
        && r.value.content == content && r.value.hash == hash && r.value.listing == listing
        && r.value.pods == listed && r.value.limit == limit && r.value.job.oracle == oracle
        && r.value.job.sts == spec.(currentReplicas := old(status).counters.current)
      ensures r.Some? ==>
        var update := Updated(old(State()), r.value);
        forall from :: r.value.job.plan(from) == InPlaceUpdate.PlannedImages(templates, listing, from, update)
      ensures r.Some? ==> Templated(r.value.job, revs, content, contentGate)
      ensures r.Some? && (exists rev :: rev in listing && rev.name == old(status).current) ==>
        r.value.job.cur == old(status).current
      ensures r.Some? ==> Reconciles(old(State()), r.value, State(), revs)
      ensures r.Some? ==> (panicked <==> NamesNoUnhealthy(Slots(r.value.job, listed), r.value.job.condemned))
      ensures panicked ==>
        && r.Some? && !ok && pods == old(pods) && status == old(status)
        && expectations.cache == ObserveAll(old(expectations.cache), key, r.value.job.upd, listed)
      ensures r.Some? && !panicked ==>
        Refreshes(key, r.value.job.upd, old(expectations.cache), r.value.job, listed, old(pods), expectations.cache)
      ensures r.Some? && r.value.extent.Recorded? ==>
        r.value.extent.deleted <= |Doomed(listing, LiveNames(r.value), limit)|
      ensures r.Some? && NoDangling(old(State())) ==>
        (NoDangling(State()) <==> !LosesLabel(old(State()), r.value, State()))
      ensures NoDangling(old(State())) && ShowsLabels(listed, old(pods)) ==> NoDangling(State())
      ensures ok ==> r.Some? && !panicked && r.value.extent == Recorded(|Doomed(listing, LiveNames(r.value), limit)|)
      ensures ok ==>
        var job := r.value.job;
        status == WithCompletion(
          job.sts, Status(Round(job, listed, old(pods)).status, job.cur, job.upd, status.generation))
        && Records(status, job.sts, Round(job, listed, old(pods)).status, job.cur, job.upd)
        && status.generation >= generation
      ensures ok && FaultFree(r.value.job) && Lists(listed, old(pods)) && r.value.job.cur == old(status).current ==>
        GoesOn(
          spec, key, old(pods), old(expectations.cache), old(status), r.value.job, listed, pods, expectations.cache,
          status)
    {
      hide Advance, Round, Doomed, FromListing, ApplyAll, InPlaceUpdate.PlannedImages, CurrentRevision, EmptiesKnown,
        ListsAll, Sorted, Injective, Completes, NoDangling, Names, LosesLabel, ShowsLabels, Refreshes, Slots,
        NamesNoUnhealthy, LastEqual,
        ObserveAll, Templated, GoesOn, Records, FaultFree, Lists;
      ghost var a, cache, recorded := State(), expectations.cache, status;
      panicked, revs := false, revisions.items;
      var sts := spec.(currentReplicas := status.counters.current);
      var started, current, update, counters;
      ghost var job;
      started, ok, panicked, current, update, counters, job := ReviseAndRun(
        sts, content, hash, collisions, listing, listed, templates, contentGate, works, oracle, written);
      if !started {
        return false, false, None, revs;
      }
      revs := revisions.items;
      ghost var log := Round(job, listed, a.pods).log;
      assert log[..|log|] == log;
      NoCalls(a.pods, log);
      ghost var calls: nat := if panicked then 0 else |log|;
      ghost var step := Reconcile(listing, content, hash, collisions, job, listed, limit, Stopped(calls));
      if ok {
        ghost var extent;
        ok, extent := RecordAndTruncate(
          sts, Status(counters, current.name, update.name, generation), listing, listed, limit, statusWorks, deletes);
        step := step.(extent := extent);
      }
      r := Some(step);
      assert Reconciles(a, step, State(), revs);
      hide Reconciles, Updated;
      if ok && FaultFree(job) && Lists(listed, a.pods) && job.cur == recorded.current {
        Carries(spec, key, a.pods, cache, recorded, job, listed, pods, expectations.cache, status);
      }
      if NoDangling(a) {
        ReconcileIsSafeIff(a, step, State(), revs);
        if ShowsLabels(listed, a.pods) {
          ReconcileIsSafe(a, step, State(), revs);
        }
      }
    }
  }
}
