/** No dangling revisions: over any run of template edits, rounds, crashes and truncations every pod's
    label and the recorded current revision name a stored revision
    (controllers/stateful_set_control.go:85-133, 161-258, 334-344, 657-679). */
module RevisionSafety {
  import opened Pods
  import opened RoundSpec
  import opened RoundOrder
  import opened RoundRolling
  import opened RoundLedger
  import opened RoundCompletion
  import opened RoundReplay
  import opened History
  import RoundSnapshot
  import InPlaceProtocol

  // ---------- labels a round can write ----------

  predicate LabelOk(known: set<string>, call: Call) {
    match call.action
    case Create(p) => p.revision in known
    case Patch(_, revision, _) => revision in known
    case _ => true
  }

  predicate LabelsOk(job: Job, known: set<string>, m: Machine) {
    && job.cur in known && job.upd in known
    && (forall p | p in m.replicas && p.phase.Unset? :: p.revision in known)
    && (forall j | 0 <= j < |m.log| :: LabelOk(known, m.log[j]))
  }

  lemma KeepLabels(job: Job, known: set<string>, m: Machine, i: nat)
    requires i < |m.replicas| && LabelsOk(job, known, m)
    ensures LabelsOk(job, known, KeepSlot(job, m, i))
  {
    hide Apply, ShouldMarkReady;
  }

  lemma SlotLabels(job: Job, known: set<string>, m: Machine, i: nat)
    requires i < |m.replicas| && LabelsOk(job, known, m)
    ensures LabelsOk(job, known, SlotStep(job, m, i))
  {
    hide Apply, KeepSlot;
    assert m.replicas[i] in m.replicas;
    var m1 := RecreateFailed(job, m, i);
    assert LabelsOk(job, known, m1);
    KeepLabels(job, known, m1, i);
  }

  lemma RollLabels(job: Job, known: set<string>, m: Machine, t: nat, u: nat)
    requires UpdateMin(job.sts) <= t < |m.replicas| && !m.pc.Done? && LabelsOk(job, known, m)
    ensures LabelsOk(job, known, RollStep(job, m, t, u))
  {
    hide RollStep, RollsOn, Completed, InPlacePlan;
    RollAppends(job, m, t, u);
    var m' := RollStep(job, m, t, u);
    forall j | 0 <= j < |m'.log|
      ensures LabelOk(known, m'.log[j])
    {
      assert j < |m.log| ==> m'.log[j] == m.log[j];
    }
  }

  lemma {:induction false} RunLabels(job: Job, known: set<string>, m: Machine)
    requires InRange(job, m) && LabelsOk(job, known, m)
    ensures LabelsOk(job, known, Run(job, m))
    decreases Rank(m.pc), Left(job, m.pc)
  {
    if !m.pc.Done? {
      StepLabels(job, known, m);
      RunLabels(job, known, Step(job, m));
    }
  }

  lemma StepLabels(job: Job, known: set<string>, m: Machine)
    requires InRange(job, m) && !m.pc.Done? && LabelsOk(job, known, m)
    ensures LabelsOk(job, known, Step(job, m))
  {
    hide Apply, SlotStep, RollStep;
    match m.pc
    case AtSlot(i) => if i < |m.replicas| { SlotLabels(job, known, m, i); }
    case AtRoll(left, u) => if left > UpdateMin(job.sts) { RollLabels(job, known, m, left - 1, u); }
    case _ =>
  }

  predicate Labelled(store: Store, known: set<string>) {
    forall k | k in store :: store[k].revision in known
  }

  /** Each pod afterwards has a label that was written, or the one it had. */
  predicate LabelsFrom(store: Store, written: set<string>, after: Store) {
    forall k | k in after :: after[k].revision in written || (k in store && after[k].revision == store[k].revision)
  }

  lemma {:induction false} AppliedLabels(store: Store, log: seq<Call>, written: set<string>)
    requires forall j | 0 <= j < |log| :: LabelOk(written, log[j])
    ensures LabelsFrom(store, written, ApplyAll(store, log))
  {
    if log != [] {
      AppliedLabels(store, log[..|log| - 1], written);
    }
  }

  // ---------- the system ----------

  datatype Cluster = Cluster(revs: Revisions, pods: Store, current: string)

  /** How far a reconcile gets: it stops after some calls, fails to record the status, or records it and
      deletes the first few doomed revisions. */
  datatype Extent = Stopped(calls: nat) | StatusLost | Recorded(deleted: nat)

  datatype Reconcile = Reconcile(
    listing: seq<Revision>, content: string, hash: Hash, collisions: nat,
    job: Job, pods: seq<Pod>, limit: nat, extent: Extent)

  function Updated(a: Cluster, r: Reconcile): Revision {
    Advance(a.revs, r.listing, r.hash, r.content, r.collisions).upd
  }

  function Labels(store: Store): set<string> {
    set k | k in store :: store[k].revision
  }

  /** The listing shows every label there is, as a fresh one does; a pod may be missing or outdated. */
  predicate ShowsLabels(pods: seq<Pod>, store: Store) {
    Labelled(store, set p | p in pods :: p.revision)
  }

  /** A listed pod that is not accepted yet has a label some pod has; API servers list accepted pods only. */
  predicate EmptiesKnown(pods: seq<Pod>, store: Store) {
    forall p | p in pods && p.phase.Unset? :: p.revision in Labels(store)
  }

  function LiveNames(r: Reconcile): set<string> {
    {r.job.cur, r.job.upd} + (set p | p in r.pods :: p.revision)
  }

  ghost predicate Reconciles(a: Cluster, r: Reconcile, b: Cluster, revs: Revisions) {
    var m := Round(r.job, r.pods, a.pods);
    && Injective(r.hash) && ListsAll(r.listing, a.revs) && Sorted(r.listing)
    // a bump of an old revision may get lost
    && (revs == Advance(a.revs, r.listing, r.hash, r.content, r.collisions).items
        || (revs == a.revs && Updated(a, r).name in a.revs))
    && r.job.upd == Updated(a, r).name
    && r.job.cur == CurrentRevision(r.listing, a.current, Updated(a, r)).name
    && EmptiesKnown(r.pods, a.pods) && FromListing(r.job, r.pods)
    && match r.extent
       case Stopped(calls) =>
         && calls <= |m.log| && b == Cluster(revs, ApplyAll(a.pods, m.log[..calls]), a.current)
       case StatusLost =>
         m.pc == Done(true) && b == Cluster(revs, ApplyAll(a.pods, m.log), a.current)
       case Recorded(deleted) =>
         var doomed := Doomed(r.listing, LiveNames(r), r.limit);
         && m.pc == Done(true) && deleted <= |doomed|
         && b == Cluster(revs - Names(doomed[..deleted]), ApplyAll(a.pods, m.log),
                         if Completes(r.job.sts, m.status) then r.job.upd else r.job.cur)
  }

  ghost predicate Next(a: Cluster, b: Cluster) {
    || (exists r, revs :: Reconciles(a, r, b, revs) && ShowsLabels(r.pods, a.pods))
    || (b.revs == a.revs && b.current == a.current && InPlaceProtocol.Environment(a.pods, b.pods))
  }

  /** The recorded current revision is empty only before the first status. */
  predicate NoDangling(c: Cluster) {
    && Labelled(c.pods, c.revs.Keys)
    && (c.current != "" ==> c.current in c.revs)
  }

  lemma AdvanceKeepsNames(a: Cluster, r: Reconcile)
    requires Injective(r.hash) && ListsAll(r.listing, a.revs)
    ensures
      var adv := Advance(a.revs, r.listing, r.hash, r.content, r.collisions);
      a.revs.Keys <= adv.items.Keys && adv.upd.name in adv.items
    ensures CurrentRevision(r.listing, a.current, Updated(a, r)).name in a.revs.Keys + {Updated(a, r).name}
  {
    LastEqualFacts(r.listing, r.content);
    LastNamedFacts(r.listing, a.current);
  }

  lemma SlotLabelsKnown(job: Job, pods: seq<Pod>, known: set<string>)
    requires job.cur in known && job.upd in known && forall p | p in pods && p.phase.Unset? :: p.revision in known
    ensures forall p | p in Slots(job, pods) && p.phase.Unset? :: p.revision in known
  {
    forall p | p in Slots(job, pods) && p.phase.Unset?
      ensures p.revision in known
    {
      var i :| 0 <= i < job.sts.replicas && Slots(job, pods)[i] == p;
      SlotPodHasOrdinal(pods, i);
    }
  }

  /** The labels a round can write. */
  function Written(r: Reconcile): set<string> {
    {r.job.cur, r.job.upd} + (set p | p in r.pods && p.phase.Unset? :: p.revision)
  }

  lemma RoundLabels(a: Cluster, r: Reconcile, calls: nat)
    requires calls <= |Round(r.job, r.pods, a.pods).log|
    ensures LabelsFrom(a.pods, Written(r), ApplyAll(a.pods, Round(r.job, r.pods, a.pods).log[..calls]))
    ensures
      var log := Round(r.job, r.pods, a.pods).log;
      calls == |log| ==> log[..calls] == log
  {
    hide Round, ApplyAll;
    SlotLabelsKnown(r.job, r.pods, Written(r));
    RoundLabelsOk(r.job, Written(r), r.pods, a.pods);
    AppliedLabels(a.pods, Round(r.job, r.pods, a.pods).log[..calls], Written(r));
  }

  lemma RoundLabelsOk(job: Job, known: set<string>, pods: seq<Pod>, store: Store)
    requires LabelsOk(job, known, Start(job, pods, store))
    ensures LabelsOk(job, known, Round(job, pods, store))
  {
    RunLabels(job, known, Start(job, pods, store));
  }

  /** They are stored before truncation, which spares them. */
  lemma WrittenAreStored(a: Cluster, r: Reconcile, b: Cluster, revs: Revisions)
    requires NoDangling(a) && Reconciles(a, r, b, revs)
    ensures Written(r) <= revs.Keys && Written(r) <= LiveNames(r) && a.revs.Keys <= revs.Keys
    ensures {r.job.cur, r.job.upd} <= Written(r)
  {
    hide Advance, CurrentRevision, FromListing, Completes, Doomed, ApplyAll, Round;
    AdvanceKeepsNames(a, r);
    forall n | n in Written(r)
      ensures n in revs
    {
      if p :| p in r.pods && p.phase.Unset? && p.revision == n {
        var k :| k in a.pods && a.pods[k].revision == n;
      }
    }
  }

  /** The names truncation deletes. */
  function Deleted(r: Reconcile): set<string>
    requires r.extent.Recorded? ==> r.extent.deleted <= |Doomed(r.listing, LiveNames(r), r.limit)|
  {
    if r.extent.Recorded? then Names(Doomed(r.listing, LiveNames(r), r.limit)[..r.extent.deleted]) else {}
  }

  /** Some pod keeps a label that truncation deletes; so no listed pod has it. */
  predicate LosesLabel(a: Cluster, r: Reconcile, b: Cluster)
    requires r.extent.Recorded? ==> r.extent.deleted <= |Doomed(r.listing, LiveNames(r), r.limit)|
  {
    exists k | k in b.pods ::
      k in a.pods && b.pods[k].revision == a.pods[k].revision && a.pods[k].revision in Deleted(r)
  }

  /** What a reconcile leaves: the labels come from before or were written, the stored names are those before
      truncation without the deleted ones, and the recorded revision is among them. */
  lemma ReconcileLeaves(a: Cluster, r: Reconcile, b: Cluster, revs: Revisions)
    requires NoDangling(a) && Reconciles(a, r, b, revs)
    ensures r.extent.Recorded? ==> r.extent.deleted <= |Doomed(r.listing, LiveNames(r), r.limit)|
    ensures LabelsFrom(a.pods, Written(r), b.pods)
    ensures b.revs.Keys == revs.Keys - Deleted(r) && Deleted(r) !! LiveNames(r)
    ensures b.current != "" ==> b.current in b.revs
  {
    hide Advance, CurrentRevision, FromListing, Completes, Doomed, ApplyAll, Round, LiveNames, EmptiesKnown, Injective,
      ListsAll, Sorted, Updated, Written, Names, LabelsFrom;
    WrittenAreStored(a, r, b, revs);
    var calls := match r.extent case Stopped(n) => n case _ => |Round(r.job, r.pods, a.pods).log|;
    RoundLabels(a, r, calls);
    if r.extent.Recorded? {
      DoomedAreNotLive(r.listing, LiveNames(r), r.limit, r.extent.deleted);
    }
  }

  /** A reconcile, however far it gets and whatever its listing, leaves no dangling revision if and only if
      truncation deletes no label the pods have afterwards; that is, if and only if no pod keeps a label that
      truncation deletes because no listed pod has it. */
  lemma ReconcileIsSafeIff(a: Cluster, r: Reconcile, b: Cluster, revs: Revisions)
    requires NoDangling(a) && Reconciles(a, r, b, revs)
    ensures r.extent.Recorded? ==> r.extent.deleted <= |Doomed(r.listing, LiveNames(r), r.limit)|
    ensures NoDangling(b) <==> Labels(b.pods) !! Deleted(r)
    ensures NoDangling(b) <==> !LosesLabel(a, r, b)
    ensures forall p | p in r.pods :: p.revision !in Deleted(r)
  {
    hide Reconciles, Written, Deleted;
    WrittenAreStored(a, r, b, revs);
    ReconcileLeaves(a, r, b, revs);
    assert forall k | k in b.pods :: b.pods[k].revision in Labels(b.pods);
    forall k | k in b.pods
      ensures b.pods[k].revision in revs
      ensures b.pods[k].revision in Deleted(r) ==> k in a.pods && b.pods[k].revision == a.pods[k].revision
    {
    }
    assert forall p | p in r.pods :: p.revision in LiveNames(r);
  }

  /** A listing that shows every label is enough. */
  lemma ReconcileIsSafe(a: Cluster, r: Reconcile, b: Cluster, revs: Revisions)
    requires NoDangling(a) && Reconciles(a, r, b, revs) && ShowsLabels(r.pods, a.pods)
    ensures NoDangling(b)
  {
    hide Reconciles, Deleted;
    ReconcileIsSafeIff(a, r, b, revs);
    forall k | k in a.pods
      ensures a.pods[k].revision !in Deleted(r)
    {
      var p :| p in r.pods && p.revision == a.pods[k].revision;
    }
  }

  /** A fresh listing shows every label. */
  lemma FreshListingShowsLabels(pods: seq<Pod>, store: Store)
    requires Lists(pods, store)
    ensures ShowsLabels(pods, store) && EmptiesKnown(pods, store)
  {
    forall k | k in store
      ensures store[k].revision in (set p | p in pods :: p.revision)
    {
      assert store[k] in pods;
    }
    forall p | p in pods
      ensures p.revision in Labels(store)
    {
      assert p.key in store && store[p.key] == p;
    }
  }

  lemma FreshReconcileIsSafe(a: Cluster, r: Reconcile, b: Cluster, revs: Revisions)
    requires NoDangling(a) && Reconciles(a, r, b, revs) && Lists(r.pods, a.pods)
    ensures NoDangling(b)
  {
    hide Reconciles, ShowsLabels, Lists, EmptiesKnown;
    FreshListingShowsLabels(r.pods, a.pods);
    ReconcileIsSafe(a, r, b, revs);
  }

  lemma NothingListedNothingDone(job: Job, store: Store)
    requires job.sts.replicas == 0 && FromListing(job, [])
    ensures Round(job, [], store).log == []
  {
    hide MaxUnavailable;
    var s := Start(job, [], store);
    assert |multiset(job.condemned)| == |multiset(Beyond([], 0))| == 0;
    if !job.sts.deleting {
      var m1 := Step(job, s);
      assert m1 == s.(pc := AtScale(0));
      var m2 := Step(job, m1);
      assert m2 == s.(pc := AtGate);
      var m3 := Step(job, m2);
      assert Run(job, s) == Run(job, m1) == Run(job, m2) == Run(job, m3);
      if m3.pc.AtRoll? {
        assert Run(job, m3) == Run(job, Step(job, m3)) == Step(job, m3);
      }
    }
  }

  /** A family where one dangles: an empty listing for a set of no replicas, while a pod with an old label is
      still there, and no history is to be kept. */
  lemma UnseenLabelDangles(a: Cluster, r: Reconcile, b: Cluster, revs: Revisions, k: Key)
    requires NoDangling(a) && Reconciles(a, r, b, revs)
    requires r.pods == [] && r.job.sts.replicas == 0 && r.limit == 0
    requires r.extent == Recorded(|Doomed(r.listing, LiveNames(r), 0)|)
    requires k in a.pods && a.pods[k].revision !in {r.job.cur, r.job.upd}
    ensures k in b.pods && b.pods[k] == a.pods[k] && !NoDangling(b)
  {
    hide Reconciles, Doomed, LiveNames, ListsAll, Sorted, LosesLabel;
    NothingListed(a, r, b, revs);
    ReconcileIsSafeIff(a, r, b, revs);
    var n, doomed := a.pods[k].revision, Doomed(r.listing, LiveNames(r), 0);
    assert n !in LiveNames(r) by { LiveOfNone(r); }
    OldNameIsDoomed(r.listing, LiveNames(r), a.revs, n);
    assert doomed[..|doomed|] == doomed;
    assert n in Labels(b.pods) && n in Deleted(r);
  }

  lemma LiveOfNone(r: Reconcile)
    requires r.pods == []
    ensures LiveNames(r) == {r.job.cur, r.job.upd}
  {
  }

  lemma NothingListed(a: Cluster, r: Reconcile, b: Cluster, revs: Revisions)
    requires NoDangling(a) && Reconciles(a, r, b, revs)
    requires r.pods == [] && r.job.sts.replicas == 0 && r.extent.Recorded?
    ensures b.pods == a.pods && ListsAll(r.listing, a.revs) && Sorted(r.listing)
  {
    hide Advance, CurrentRevision, Completes, Updated, Doomed, ListsAll, Sorted, Injective, LiveNames;
    NothingListedNothingDone(r.job, a.pods);
  }

  /** With no history to keep, every stored revision that is not live is doomed. */
  lemma OldNameIsDoomed(listing: seq<Revision>, live: set<string>, revs: Revisions, n: string)
    requires ListsAll(listing, revs) && Sorted(listing) && n in revs && n !in live
    ensures n in Names(Doomed(listing, live, 0))
  {
    NonLiveFacts(listing, live);
    assert revs[n] in listing && revs[n].name == n;
    assert Doomed(listing, live, 0) == NonLive(listing, live);
  }

  // ---------- the current revision ----------

  /** However far a reconcile gets and whatever its template and listing of pods: it works with the recorded
      current revision, keeps it stored, and records another one only when the update is complete. */
  lemma RecordedCurrentStays(a: Cluster, r: Reconcile, b: Cluster, revs: Revisions)
    requires Reconciles(a, r, b, revs) && a.current in a.revs
    ensures r.job.cur == a.current && a.current in b.revs
    ensures
      b.current == if r.extent.Recorded? && Completes(r.job.sts, Round(r.job, r.pods, a.pods).status) then r.job.upd
                   else a.current
  {
    hide Advance, FromListing, Completes, Doomed, ApplyAll, Round, EmptiesKnown, Injective, Sorted, Names;
    CurrentIsRecorded(r.listing, a.current, Updated(a, r));
    AdvanceKeepsNames(a, r);
    if r.extent.Recorded? {
      DoomedAreNotLive(r.listing, LiveNames(r), r.limit, r.extent.deleted);
    }
  }

  /** Through any edits: as long as no update is complete, a pod created below the partition has the label it
      would have had at the start. */
  lemma {:induction false} PartitionKeepsRevision(
    befores: seq<Cluster>, rs: seq<Reconcile>, afters: seq<Cluster>, revss: seq<Revisions>, i: nat)
    requires |befores| == |rs| == |afters| == |revss| && i < |rs| && befores[0].current in befores[0].revs
    requires forall j | 0 <= j < |rs| :: Reconciles(befores[j], rs[j], afters[j], revss[j])
    requires forall j | 0 <= j < |rs| - 1 ::
      afters[j].revs == befores[j + 1].revs && afters[j].current == befores[j + 1].current
    requires forall j | 0 <= j < i :: !Completes(rs[j].job.sts, Round(rs[j].job, rs[j].pods, befores[j].pods).status)
    ensures befores[i].current == befores[0].current && befores[i].current in befores[i].revs
    ensures (forall p | p in rs[i].pods :: Created(p)) ==>
      forall c | c in Round(rs[i].job, rs[i].pods, befores[i].pods).log && c.action.Create? ::
        var block := rs[i].job.sts.rolling;
        block.Some? && c.action.pod.key.ordinal < block.value.partition ==> c.action.pod.revision == befores[0].current
  {
    hide Reconciles, Completes, Round, Created;
    if i > 0 {
      PartitionKeepsRevision(befores, rs, afters, revss, i - 1);
      RecordedCurrentStays(befores[i - 1], rs[i - 1], afters[i - 1], revss[i - 1]);
    }
    RecordedCurrentStays(befores[i], rs[i], afters[i], revss[i]);
    if forall p | p in rs[i].pods :: Created(p) {
      RoundSnapshot.CreationsAreVersioned(rs[i].job, rs[i].pods, befores[i].pods);
    }
  }

  /** In every state of every run, crashes, lost status writes and partial truncations included. */
  lemma {:induction false} RevisionsNeverDangle(trace: seq<Cluster>, i: nat)
    requires i < |trace| && NoDangling(trace[0])
    requires forall j | 0 <= j < |trace| - 1 :: Next(trace[j], trace[j + 1])
    ensures NoDangling(trace[i])
  {
    if i > 0 {
      RevisionsNeverDangle(trace, i - 1);
      var a, b := trace[i - 1], trace[i];
      if r, revs :| Reconciles(a, r, b, revs) && ShowsLabels(r.pods, a.pods) {
        ReconcileIsSafe(a, r, b, revs);
      }
    }
  }

  /** Seen from the history, a reconcile is one of its steps, however far it gets. */
  lemma ReconcileEvolves(a: Cluster, r: Reconcile, b: Cluster, revs: Revisions)
    requires Reconciles(a, r, b, revs)
    ensures Evolves(r.hash, a.revs, r.content, b.revs, Updated(a, r))
  {
    hide Advance, CurrentRevision, FromListing, Completes, Doomed, ApplyAll, Round, Lists, Injective, ListsAll, Sorted,
      Names;
    var n := match r.extent case Recorded(deleted) => deleted case _ => 0;
    var live := LiveNames(r);
    NoNames(Doomed(r.listing, live, r.limit));
    assert b.revs == revs - Names(Doomed(r.listing, live, r.limit)[..n]);
    assert EvolvesBy(r.hash, a.revs, r.content, b.revs, Updated(a, r), r.listing, r.collisions, live, r.limit, n);
  }

  lemma NoNames(revs: seq<Revision>)
    ensures Names(revs[..0]) == {}
  {
  }

  /** So names, contents and numbers of the stored revisions stay distinct over every run, lost writes and
      partial truncations included. */
  lemma {:induction false} HistoryStaysDistinct(trace: seq<Cluster>, i: nat)
    requires i < |trace| && HistoryOk(trace[0].revs)
    requires forall j | 0 <= j < |trace| - 1 :: Next(trace[j], trace[j + 1])
    ensures HistoryOk(trace[i].revs)
  {
    hide Reconciles, Evolves, InPlaceProtocol.Environment;
    if i > 0 {
      HistoryStaysDistinct(trace, i - 1);
      var a, b := trace[i - 1], trace[i];
      if r, revs :| Reconciles(a, r, b, revs) {
        ReconcileEvolves(a, r, b, revs);
        HashIsInjective(a, r, b, revs);
        EvolvesKeeps(r.hash, a.revs, r.content, b.revs, Updated(a, r));
      }
    }
  }

  lemma HashIsInjective(a: Cluster, r: Reconcile, b: Cluster, revs: Revisions)
    requires Reconciles(a, r, b, revs)
    ensures Injective(r.hash)
  {
  }
}
