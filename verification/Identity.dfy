/** Identity and storage of a pod: matching, repairing, and the retried update
    (controllers/stateful_set_utils.go:99-190, 239-247, controllers/stateful_pod_control.go:90-138). */
module Identity {
  import opened Pods
  import opened Names
  import opened Coordinates
  import opened Placement

  datatype Source = Claim(claimName: string) | Other(text: string)

  datatype Volume = Volume(name: string, source: Source)

  const POD_NAME_LABEL := "statefulset.kubernetes.io/pod-name"

  /** The fields of a pod object that identity, storage and placement are about. */
  datatype Object = Object(
    name: string, namespace: string, labels: map<string, string>, volumes: seq<Volume>,
    hostname: string, subdomain: string, affinity: Option<Coordinate>)

  /** The set: `claims` are the names of its volume claim templates, `coordinates` is the decoded annotation
      of its template, if there is one. */
  datatype Owner = Owner(
    name: string, namespace: string, claims: seq<string>, service: string, coordinates: Option<seq<Coordinate>>)

  // ---------- matching ----------

  predicate IdentityMatches(owner: Owner, p: Object) {
    && Ordinal(p.name) >= 0 && Parent(p.name) == owner.name
    && p.name == PodName(owner.name, Ordinal(p.name))
    && p.namespace == owner.namespace
    && POD_NAME_LABEL in p.labels && p.labels[POD_NAME_LABEL] == p.name
  }

  /** The last volume of this name. */
  function LastVolume(volumes: seq<Volume>, name: string): Option<Volume> {
    if volumes == [] then None
    else if volumes[|volumes| - 1].name == name then Some(volumes[|volumes| - 1])
    else LastVolume(volumes[..|volumes| - 1], name)
  }

  predicate StorageMatches(owner: Owner, p: Object) {
    && Ordinal(p.name) >= 0
    && forall c | c in owner.claims ::
         && LastVolume(p.volumes, c).Some?
         && LastVolume(p.volumes, c).value.source == Claim(ClaimName(c, owner.name, Ordinal(p.name)))
  }

  // ---------- repairing ----------

  function WithIdentity(owner: Owner, p: Object): Object {
    var name := PodName(owner.name, Ordinal(p.name));
    p.(name := name, namespace := owner.namespace, labels := p.labels[POD_NAME_LABEL := name])
  }

  /** The volumes of the claims, in the order the claim map is walked. */
  function ClaimVolumes(owner: Owner, ordinal: int, order: seq<string>): seq<Volume> {
    if order == [] then []
    else
      ClaimVolumes(owner, ordinal, order[..|order| - 1])
      + [Volume(order[|order| - 1], Claim(ClaimName(order[|order| - 1], owner.name, ordinal)))]
  }

  /** The volumes that belong to no claim. */
  function LocalVolumes(owner: Owner, volumes: seq<Volume>): seq<Volume> {
    if volumes == [] then []
    else
      LocalVolumes(owner, volumes[..|volumes| - 1])
      + (if volumes[|volumes| - 1].name in owner.claims then [] else [volumes[|volumes| - 1]])
  }

  function WithStorage(owner: Owner, p: Object, order: seq<string>): Object {
    p.(volumes := ClaimVolumes(owner, Ordinal(p.name), order) + LocalVolumes(owner, p.volumes))
  }

  /** One walk over the claim map: every claim name once, in any order. */
  ghost predicate WalksClaims(owner: Owner, order: seq<string>) {
    && (forall c :: c in order <==> c in owner.claims)
    && forall i, j | 0 <= i < j < |order| :: order[i] != order[j]
  }

  /** One attempt of UpdateStatefulPod. */
  function Repaired(owner: Owner, p: Object, order: seq<string>): Object {
    var p1 := if IdentityMatches(owner, p) then p else WithIdentity(owner, p);
    if StorageMatches(owner, p1) then p1 else WithStorage(owner, p1, order)
  }

  /** The storage matches once the identity does, so no claim need be created. */
  predicate StorageKept(owner: Owner, p: Object) {
    StorageMatches(owner, if IdentityMatches(owner, p) then p else WithIdentity(owner, p))
  }

  // ---------- what repairing achieves ----------

  /** Renaming establishes the identity exactly for pods that have an ordinal. */
  lemma IdentityIsRepaired(owner: Owner, p: Object)
    ensures IdentityMatches(owner, WithIdentity(owner, p)) <==> Ordinal(p.name) >= 0
    ensures Ordinal(p.name) >= 0 ==> Ordinal(WithIdentity(owner, p).name) == Ordinal(p.name)
  {
    hide Itoa, HasOrdinal;
    if Ordinal(p.name) >= 0 {
      OrdinalBound(p.name);
      ParseOfPrint(owner.name, Ordinal(p.name));
    } else {
      OrdinalBound(p.name);
      NoOrdinalPrintsAmbiguously(owner.name);
    }
  }

  lemma OrdinalBound(name: string)
    ensures -1 <= Ordinal(name) <= MAX_INT32
  {
  }

  lemma {:induction false} LastVolumeAppend(a: seq<Volume>, b: seq<Volume>, name: string)
    ensures LastVolume(a + b, name) == if LastVolume(b, name).Some? then LastVolume(b, name) else LastVolume(a, name)
  {
    if b == [] {
      assert a + b == a;
    } else {
      assert (a + b)[..|a + b| - 1] == a + b[..|b| - 1];
      LastVolumeAppend(a, b[..|b| - 1], name);
    }
  }

  lemma {:induction false} ClaimVolumesFacts(owner: Owner, ordinal: int, order: seq<string>, name: string)
    ensures
      LastVolume(ClaimVolumes(owner, ordinal, order), name) ==
        if name in order then Some(Volume(name, Claim(ClaimName(name, owner.name, ordinal)))) else None
    ensures forall v | v in ClaimVolumes(owner, ordinal, order) :: v.name in order
  {
    hide ClaimName;
    if order != [] {
      var init, last := order[..|order| - 1], order[|order| - 1];
      assert order == init + [last];
      ClaimVolumesFacts(owner, ordinal, init, name);
      var volume := Volume(last, Claim(ClaimName(last, owner.name, ordinal)));
      LastVolumeAppend(ClaimVolumes(owner, ordinal, init), [volume], name);
    }
  }

  lemma {:induction false} LocalVolumesFacts(owner: Owner, volumes: seq<Volume>, name: string)
    ensures name in owner.claims ==> LastVolume(LocalVolumes(owner, volumes), name).None?
    ensures LocalVolumes(owner, LocalVolumes(owner, volumes)) == LocalVolumes(owner, volumes)
  {
    if volumes != [] {
      var init, last := volumes[..|volumes| - 1], volumes[|volumes| - 1];
      LocalVolumesFacts(owner, init, name);
      var local := LocalVolumes(owner, volumes);
      if last.name !in owner.claims {
        assert local[..|local| - 1] == LocalVolumes(owner, init);
      } else {
        assert local == LocalVolumes(owner, init);
      }
    }
  }

  lemma {:induction false} LocalVolumesAppend(owner: Owner, a: seq<Volume>, b: seq<Volume>)
    ensures LocalVolumes(owner, a + b) == LocalVolumes(owner, a) + LocalVolumes(owner, b)
  {
    if b == [] {
      assert a + b == a;
    } else {
      assert (a + b)[..|a + b| - 1] == a + b[..|b| - 1];
      LocalVolumesAppend(owner, a, b[..|b| - 1]);
    }
  }

  lemma {:induction false} NoLocalAmongClaims(owner: Owner, volumes: seq<Volume>)
    requires forall v | v in volumes :: v.name in owner.claims
    ensures LocalVolumes(owner, volumes) == []
  {
    if volumes != [] {
      NoLocalAmongClaims(owner, volumes[..|volumes| - 1]);
    }
  }

  /** Rebuilding the volumes makes the storage match and keeps the local volumes in order. */
  lemma StorageIsRepaired(owner: Owner, p: Object, order: seq<string>)
    requires WalksClaims(owner, order) && Ordinal(p.name) >= 0
    ensures StorageMatches(owner, WithStorage(owner, p, order))
    ensures LocalVolumes(owner, WithStorage(owner, p, order).volumes) == LocalVolumes(owner, p.volumes)
  {
    hide ClaimVolumes, LocalVolumes, LastVolume, ClaimName, Ordinal;
    var ordinal := Ordinal(p.name);
    var claims, local := ClaimVolumes(owner, ordinal, order), LocalVolumes(owner, p.volumes);
    forall c | c in owner.claims
      ensures LastVolume(claims + local, c) == Some(Volume(c, Claim(ClaimName(c, owner.name, ordinal))))
    {
      ClaimVolumesFacts(owner, ordinal, order, c);
      LocalVolumesFacts(owner, p.volumes, c);
      LastVolumeAppend(claims, local, c);
    }
    ClaimVolumesFacts(owner, ordinal, order, "");
    NoLocalAmongClaims(owner, claims);
    LocalVolumesAppend(owner, claims, local);
    LocalVolumesFacts(owner, p.volumes, "");
  }

  /** Labels other than that of the pod's name stay. */
  predicate LabelsKept(p: Object, q: Object) {
    && (forall l | l in q.labels && l != POD_NAME_LABEL :: l in p.labels && q.labels[l] == p.labels[l])
    && forall l | l in p.labels :: l in q.labels
  }

  /** Name, namespace and name label are those of the set's pod of this ordinal. */
  predicate Named(owner: Owner, ordinal: int, q: Object) {
    && q.name == PodName(owner.name, ordinal) && q.namespace == owner.namespace
    && POD_NAME_LABEL in q.labels && q.labels[POD_NAME_LABEL] == q.name
  }

  /** The last volume named like each claim template is the pod's own claim of it. */
  predicate Mounted(owner: Owner, q: Object) {
    forall c | c in owner.claims ::
      exists k | 0 <= k < |q.volumes| ::
        && q.volumes[k] == Volume(c, Claim(c + "-" + q.name))
        && forall j | k < j < |q.volumes| :: q.volumes[j].name != c
  }

  lemma {:induction false} LastVolumeIs(volumes: seq<Volume>, name: string)
    ensures LastVolume(volumes, name).Some? ==>
      exists k | 0 <= k < |volumes| ::
        volumes[k] == LastVolume(volumes, name).value && forall j | k < j < |volumes| :: volumes[j].name != name
    ensures LastVolume(volumes, name).Some? ==> LastVolume(volumes, name).value.name == name
  {
    if volumes != [] && volumes[|volumes| - 1].name != name {
      LastVolumeIs(volumes[..|volumes| - 1], name);
    }
  }

  lemma MatchingMeans(owner: Owner, q: Object)
    requires IdentityMatches(owner, q) && StorageMatches(owner, q)
    ensures Named(owner, Ordinal(q.name), q) && Mounted(owner, q)
  {
    hide Ordinal, Parent, PodName, LastVolume;
    forall c | c in owner.claims
      ensures exists k | 0 <= k < |q.volumes| ::
        && q.volumes[k] == Volume(c, Claim(c + "-" + q.name))
        && forall j | k < j < |q.volumes| :: q.volumes[j].name != c
    {
      LastVolumeIs(q.volumes, c);
      ClaimIsOfPod(owner.name, c, Ordinal(q.name));
    }
  }

  /** One repair makes identity and storage match, whatever the order of the claim map, keeps every local
      volume in order, and leaves a second repair nothing to do. */
  lemma RepairIsComplete(owner: Owner, p: Object, order: seq<string>, order': seq<string>)
    requires WalksClaims(owner, order) && Ordinal(p.name) >= 0
    ensures
      var q := Repaired(owner, p, order);
      && IdentityMatches(owner, q) && StorageMatches(owner, q)
      && Repaired(owner, q, order') == q
      && LocalVolumes(owner, q.volumes) == LocalVolumes(owner, p.volumes)
      && Ordinal(q.name) == Ordinal(p.name) && LabelsKept(p, q)
      && q.hostname == p.hostname && q.subdomain == p.subdomain && q.affinity == p.affinity
      && Named(owner, Ordinal(p.name), q) && Mounted(owner, q)
  {
    hide Ordinal, Parent, PodName, StorageMatches, LocalVolumes, ClaimVolumes, Named, Mounted;
    IdentityIsRepaired(owner, p);
    var p1 := if IdentityMatches(owner, p) then p else WithIdentity(owner, p);
    StorageIsRepaired(owner, p1, order);
    MatchingMeans(owner, Repaired(owner, p, order));
  }

  /** initIdentity: hostname and subdomain are set once and never repaired. */
  function WithFirstIdentity(owner: Owner, p: Object): Object {
    var q := WithIdentity(owner, p);
    q.(hostname := q.name, subdomain := owner.service)
  }

  /** coordinatorPod: an affinity the template brings along stays. */
  function WithPlacement(owner: Owner, p: Object, ordinal: nat): Object
    requires owner.coordinates.Some? ==> owner.coordinates.value != []
  {
    if owner.coordinates.None? || p.affinity.Some? then p
    else
      var cs := owner.coordinates.value;
      p.(affinity := Some(cs[CoordinateOf(ordinal, |cs|)]))
  }

  /** A new pod is built with the identity, storage and place of its ordinal. */
  function NewObject(owner: Owner, template: Object, ordinal: nat, order: seq<string>): Object
    requires owner.coordinates.Some? ==> owner.coordinates.value != []
  {
    var p := template.(name := PodName(owner.name, ordinal));
    WithPlacement(owner, WithStorage(owner, WithFirstIdentity(owner, p), order), ordinal)
  }

  /** A new pod matches, sits under the key of its ordinal, can be reached under its own name, and a repair
      would leave it as it is; without an affinity of its own it goes to its ordinal's coordinate. */
  lemma NewPodsConform(owner: Owner, template: Object, ordinal: int, order: seq<string>, order': seq<string>)
    requires WalksClaims(owner, order) && 0 <= ordinal <= MAX_INT32
    requires owner.coordinates.Some? ==> owner.coordinates.value != []
    ensures
      var p := NewObject(owner, template, ordinal, order);
      && IdentityMatches(owner, p) && StorageMatches(owner, p) && KeyOf(owner.name, p.name) == Slot(ordinal)
      && p.hostname == p.name && p.subdomain == owner.service && Repaired(owner, p, order') == p
      && Named(owner, ordinal, p) && Mounted(owner, p)
      && LabelsKept(template, p) && LocalVolumes(owner, p.volumes) == LocalVolumes(owner, template.volumes)
      && (template.affinity.Some? ==> p.affinity == template.affinity)
      && (template.affinity.None? && owner.coordinates.Some? ==>
            var cs := owner.coordinates.value; p.affinity == Some(cs[ordinal % |cs|]))
  {
    hide HasOrdinal, Itoa, Ordinal, ClaimName, LastVolume, ClaimVolumes, LocalVolumes;
    ParseOfPrint(owner.name, ordinal);
    var p := template.(name := PodName(owner.name, ordinal));
    IdentityIsRepaired(owner, p);
    StorageIsRepaired(owner, WithFirstIdentity(owner, p), order);
    KeysAreNames(owner.name, p.name, p.name, ordinal);
    MatchingMeans(owner, NewObject(owner, template, ordinal, order));
  }

  // ---------- the mutating code ----------

  class StatefulPod {
    var name: string
    var namespace: string
    var labels: map<string, string>
    var volumes: seq<Volume>
    const hostname: string
    const subdomain: string
    const affinity: Option<Coordinate>

    constructor (p: Object)
      ensures Value() == p
    {
      name, namespace, labels, volumes := p.name, p.namespace, p.labels, p.volumes;
      hostname, subdomain, affinity := p.hostname, p.subdomain, p.affinity;
    }

    function Value(): Object
      reads this
    {
      Object(name, namespace, labels, volumes, hostname, subdomain, affinity)
    }

    method UpdateIdentity(owner: Owner)
      modifies this
      ensures Value() == WithIdentity(owner, old(Value()))
    {
      name := PodName(owner.name, Ordinal(name));
      namespace := owner.namespace;
      labels := labels[POD_NAME_LABEL := name];
    }

    method UpdateStorage(owner: Owner, order: seq<string>)
      modifies this
      ensures Value() == WithStorage(owner, old(Value()), order)
    {
      hide Ordinal, ClaimName;
      var newVolumes := [];
      var i := 0;
      while i < |order|
        invariant i <= |order|
        invariant newVolumes == ClaimVolumes(owner, Ordinal(name), order[..i])
      {
        assert order[..i + 1][..i] == order[..i];
        newVolumes := newVolumes + [Volume(order[i], Claim(ClaimName(order[i], owner.name, Ordinal(name))))];
        i := i + 1;
      }
      assert order[..i] == order;
      i := 0;
      while i < |volumes|
        invariant i <= |volumes|
        invariant newVolumes == ClaimVolumes(owner, Ordinal(name), order) + LocalVolumes(owner, volumes[..i])
      {
        assert volumes[..i + 1][..i] == volumes[..i];
        if volumes[i].name !in owner.claims {
          newVolumes := newVolumes + [volumes[i]];
        }
        i := i + 1;
      }
      assert volumes[..i] == volumes;
      volumes := newVolumes;
    }

    /** One attempt: repairs what does not match; tells whether anything did not. Claims are created when the
        storage is rebuilt; an error there (`claims` is false) is the attempt's. */
    method Repair(owner: Owner, order: seq<string>, claims: bool) returns (ok: bool, consistent: bool)
      modifies this
      ensures Value() == Repaired(owner, old(Value()), order)
      ensures consistent <==> IdentityMatches(owner, old(Value())) && StorageMatches(owner, old(Value()))
      ensures ok <==> claims || StorageKept(owner, old(Value()))
      ensures consistent ==> ok
    {
      hide IdentityMatches, StorageMatches, WithIdentity, WithStorage;
      ok, consistent := true, true;
      if !IdentityMatches(owner, Value()) {
        UpdateIdentity(owner);
        consistent := false;
      }
      if !StorageMatches(owner, Value()) {
        UpdateStorage(owner, order);
        consistent, ok := false, claims;
      }
    }
  }

  // ---------- the retried update ----------

  /** The outcomes of the calls: attempt k walks the claims in order(k) and can create the claims it needs if
      claims(k), its write has outcome results(k), and after a failed write the pod is read again as
      reread(k), if that works. */
  datatype Calls = Calls(
    order: nat -> seq<string>, claims: nat -> bool, results: nat -> Outcome, reread: nat -> Option<Object>)

  ghost predicate CallsOk(owner: Owner, c: Calls) {
    && (forall k: nat :: WalksClaims(owner, c.order(k)))
    && forall k: nat :: c.reread(k).Some? ==> Ordinal(c.reread(k).value.name) >= 0
  }

  predicate Matches(owner: Owner, p: Object) {
    IdentityMatches(owner, p) && StorageMatches(owner, p)
  }

  /** `final` is the pod in memory, `stored` the copy last read from or written to the API server. */
  datatype Update = Update(outcome: Outcome, final: Object, stored: Object, writes: nat)

  /** The attempts from number k on. */
  function Retried(owner: Owner, pod: Object, stored: Object, attempts: nat, c: Calls, k: nat): Update
    decreases attempts - k
  {
    var p := Repaired(owner, pod, c.order(k));
    if k >= attempts then Update(Conflict, pod, stored, k)
    else if !c.claims(k) && !StorageKept(owner, pod) then Update(Error, p, stored, k)
    else if Matches(owner, pod) then Update(Ok, pod, stored, k)
    else if c.results(k).Ok? then Update(Ok, p, p, k + 1)
    else
      var (next, kept) := if c.reread(k).Some? then (c.reread(k).value, c.reread(k).value) else (p, stored);
      if c.results(k).Error? then Update(Error, next, kept, k + 1)
      else Retried(owner, next, kept, attempts, c, k + 1)
  }

  /** The last write conflicted and its re-read failed, so the next attempt saw its own unwritten repair. */
  predicate SeesItself(c: Calls, writes: nat) {
    writes > 0 && c.results(writes - 1).Conflict? && c.reread(writes - 1).None?
  }

  /** What the next attempt starts from. */
  predicate FreshOrRepaired(owner: Owner, pod: Object, stored: Object, c: Calls, k: nat) {
    if SeesItself(c, k) then Matches(owner, pod) && !Matches(owner, stored) else pod == stored
  }

  lemma {:induction false} RetriesWrite(owner: Owner, pod: Object, stored: Object, attempts: nat, c: Calls, k: nat)
    requires CallsOk(owner, c) && Ordinal(pod.name) >= 0 && FreshOrRepaired(owner, pod, stored, c, k)
    ensures
      var u := Retried(owner, pod, stored, attempts, c, k);
      u.outcome.Ok? ==> Matches(owner, u.final) && (Matches(owner, u.stored) <==> !SeesItself(c, u.writes))
    decreases attempts - k
  {
    hide Matches, Repaired, Ordinal, StorageKept;
    if k < attempts {
      RepairMatches(owner, pod, c.order(k));
      var p := Repaired(owner, pod, c.order(k));
      if (c.claims(k) || StorageKept(owner, pod)) && !Matches(owner, pod) && c.results(k).Conflict? {
        if c.reread(k).Some? {
          RetriesWrite(owner, c.reread(k).value, c.reread(k).value, attempts, c, k + 1);
        } else {
          RetriesWrite(owner, p, stored, attempts, c, k + 1);
        }
      }
    }
  }

  lemma RepairMatches(owner: Owner, p: Object, order: seq<string>)
    requires WalksClaims(owner, order) && Ordinal(p.name) >= 0
    ensures Matches(owner, Repaired(owner, p, order)) && Ordinal(Repaired(owner, p, order).name) == Ordinal(p.name)
  {
    hide Ordinal, IdentityMatches, StorageMatches, Repaired, WalksClaims;
    RepairIsComplete(owner, p, order, order);
  }

  /** Success means that the pod in memory matches. The copy on the API server does, too, if and only if it is
      not the case that the last write conflicted and its re-read failed. */
  lemma SuccessIsWrittenIff(owner: Owner, pod: Object, attempts: nat, c: Calls)
    requires CallsOk(owner, c) && Ordinal(pod.name) >= 0
    ensures
      var u := Retried(owner, pod, pod, attempts, c, 0);
      u.outcome.Ok? ==> Matches(owner, u.final) && (Matches(owner, u.stored) <==> !SeesItself(c, u.writes))
  {
    RetriesWrite(owner, pod, pod, attempts, c, 0);
  }

  /** A family where it is: a first write that conflicts, whose re-read fails, makes the second attempt report
      success with nothing written. */
  lemma UnwrittenSuccess(owner: Owner, pod: Object, attempts: nat, c: Calls)
    requires CallsOk(owner, c) && Ordinal(pod.name) >= 0 && !Matches(owner, pod)
    requires attempts >= 2 && c.claims(0) && c.claims(1) && c.results(0).Conflict? && c.reread(0).None?
    ensures
      var u := Retried(owner, pod, pod, attempts, c, 0);
      u.outcome.Ok? && u.writes == 1 && u.stored == pod && !Matches(owner, u.stored)
  {
    hide Matches, Repaired, Ordinal, StorageKept;
    RepairMatches(owner, pod, c.order(0));
    assert Retried(owner, pod, pod, attempts, c, 0) ==
      Retried(owner, Repaired(owner, pod, c.order(0)), pod, attempts, c, 1);
  }

  /** UpdateStatefulPod with its retries. A pod that matches from the start is not written at all; only
      conflicts are retried; a claim that cannot be created ends it before the write. */
  method UpdateStatefulPod(owner: Owner, pod: Object, attempts: nat, c: Calls)
    returns (outcome: Outcome, final: Object, ghost stored: Object, writes: nat)
    requires CallsOk(owner, c) && Ordinal(pod.name) >= 0
    ensures Update(outcome, final, stored, writes) == Retried(owner, pod, pod, attempts, c, 0)
    ensures outcome.Ok? ==> Matches(owner, final) && (Matches(owner, stored) <==> !SeesItself(c, writes))
    ensures attempts > 0 && Matches(owner, pod) ==> outcome.Ok? && final == pod && writes == 0
    ensures attempts > 0 && writes == 0 ==> (outcome.Ok? && Matches(owner, pod)) || (outcome.Error? && !c.claims(0))
    ensures forall k: nat | k + 1 < writes :: c.results(k).Conflict?
    ensures writes > 0 && outcome.Conflict? ==> c.results(writes - 1).Conflict?
    ensures outcome.Error? ==> (writes > 0 && c.results(writes - 1).Error?) || !c.claims(writes)
    ensures outcome.Ok? && writes > 0 ==> !c.results(writes - 1).Error?
  {
    hide IdentityMatches, StorageMatches, Repaired, Ordinal, WalksClaims, StorageKept;
    SuccessIsWrittenIff(owner, pod, attempts, c);
    outcome, final, stored, writes := Conflict, pod, pod, 0;
    while writes < attempts
      invariant writes <= attempts && outcome.Conflict? && Ordinal(final.name) >= 0
      invariant Retried(owner, final, stored, attempts, c, writes) == Retried(owner, pod, pod, attempts, c, 0)
      invariant writes == 0 ==> final == pod
      invariant writes > 0 ==> !Matches(owner, pod)
      invariant forall k: nat | k < writes :: c.results(k).Conflict?
    {
      RepairMatches(owner, final, c.order(writes));
      var copy := new StatefulPod(final);
      var ok, consistent := copy.Repair(owner, c.order(writes), c.claims(writes));
      if !ok {
        return Error, copy.Value(), stored, writes;
      }
      if consistent {
        return Ok, final, stored, writes;
      }
      final := copy.Value();
      outcome := c.results(writes);
      writes := writes + 1;
      if outcome.Ok? {
        stored := final;
        return;
      }
      if c.reread(writes - 1).Some? {
        final := c.reread(writes - 1).value;
        stored := final;
      }
      if outcome.Error? {
        return;
      }
    }
  }
}
