/** Deciding, applying and checking an in-place update (controllers/stateful_inplace_utils.go:35-237). */
module InPlaceUpdate {
  import opened Pods
  import opened RoundSpec
  import opened Names
  import History

  /** A JSON Patch operation (section 4 of RFC 6902); the path is split at its slashes. */
  datatype Operation = Operation(op: string, path: seq<string>, value: string)

  /** What a revision's template lists, and how two contents differ; None is a content that does not
      decode. */
  datatype Templates = Templates(
    containers: string -> Option<seq<string>>,
    diff: (string, string) -> Option<seq<Operation>>)

  // ---------- which patches are allowed ----------

  predicate InSpec(path: seq<string>) {
    |path| >= 2 && path[0] == "spec"
  }

  /** Paths are taken relative to the pod: a leading /spec/template goes. */
  function Relative(o: Operation): Operation {
    if |o.path| >= 2 && o.path[0] == "spec" && o.path[1] == "template" then o.(path := o.path[2..]) else o
  }

  /** "/spec/containers/<digits>/image" occurs in the path; more text may follow. */
  predicate ImagePath(path: seq<string>) {
    exists k | 0 <= k < |path| - 3 :: ImageAt(path, k)
  }

  predicate ImageAt(path: seq<string>, k: nat)
    requires k + 3 < |path|
  {
    && path[k] == "spec" && path[k + 1] == "containers"
    && path[k + 2] != "" && AllDigits(path[k + 2]) && "image" <= path[k + 3]
  }

  /** The third segment as an index; text that is no number counts as zero. */
  function ContainerIndex(path: seq<string>): nat
    requires |path| > 2
  {
    if path[2] != "" && AllDigits(path[2]) then Value(path[2]) else 0
  }

  lemma ImagePathIsLong(path: seq<string>)
    ensures ImagePath(path) ==> |path| > 3
  {
  }

  /** Metadata may change freely, the spec only by replacing image fields of listed containers. */
  predicate Allowed(o: Operation, containers: seq<string>) {
    InSpec(o.path) ==>
      && o.op == "replace" && ImagePath(o.path)
      && |o.path| > 2 && ContainerIndex(o.path) < |containers|
  }

  function RelativeAll(ops: seq<Operation>): seq<Operation> {
    seq(|ops|, i requires 0 <= i < |ops| => Relative(ops[i]))
  }

  /** The new image of every container, a later operation winning. */
  function ImagesOf(ops: seq<Operation>, containers: seq<string>): map<string, string>
    requires forall o | o in ops :: Allowed(o, containers)
  {
    if ops == [] then map[]
    else
      var last := ops[|ops| - 1];
      assert Allowed(last, containers) by { assert last in ops; }
      assert forall o | o in ops[..|ops| - 1] :: o in ops;
      var rest := ImagesOf(ops[..|ops| - 1], containers);
      if InSpec(last.path) then rest[containers[ContainerIndex(last.path)] := last.value] else rest
  }

  function FindRevision(revs: seq<History.Revision>, name: string): Option<History.Revision> {
    if revs == [] then None
    else if revs[0].name == name then Some(revs[0])
    else FindRevision(revs[1..], name)
  }

  /** The old revision is still listed, both contents decode, and every operation is allowed. */
  predicate Patchable(t: Templates, revs: seq<History.Revision>, from: string, update: History.Revision) {
    var r := FindRevision(revs, from);
    && r.Some?
    && t.diff(r.value.content, update.content).Some? && t.containers(r.value.content).Some?
    && forall o | o in RelativeAll(t.diff(r.value.content, update.content).value) ::
         Allowed(o, t.containers(r.value.content).value)
  }

  function PlannedImages(t: Templates, revs: seq<History.Revision>, from: string, update: History.Revision)
    : Option<map<string, string>>
  {
    if !Patchable(t, revs, from, update) then None
    else
      var content := FindRevision(revs, from).value.content;
      Some(ImagesOf(RelativeAll(t.diff(content, update.content).value), t.containers(content).value))
  }

  /** An edit of one container's image in the template plans exactly that image. */
  lemma ImageEditIsPlanned(
    t: Templates, revs: seq<History.Revision>, r: History.Revision, update: History.Revision, listed: seq<string>,
    i: nat, image: string)
    requires FindRevision(revs, r.name) == Some(r) && t.containers(r.content) == Some(listed) && i < |listed|
    requires
      var path := ["spec", "template", "spec", "containers", Decimal(i), "image"];
      t.diff(r.content, update.content) == Some([Operation("replace", path, image)])
    ensures PlannedImages(t, revs, r.name, update) == Some(map[listed[i] := image])
  {
    var o := Operation("replace", ["spec", "template", "spec", "containers", Decimal(i), "image"], image);
    var q := Operation("replace", ["spec", "containers", Decimal(i), "image"], image);
    assert o.path[2..] == q.path && RelativeAll([o]) == [q];
    ValueOfDecimal(i);
    assert "image" <= "image" && ImageAt(q.path, 0);
    assert [q][..0] == [];
    assert ImagesOf([q], listed) == map[][listed[i] := image];
  }

  /** Any other edit of the template's spec keeps the pods of the old revision from being updated in place: one
      that adds or removes something, or changes a field not named like an image. */
  lemma OtherEditIsNot(
    t: Templates, revs: seq<History.Revision>, r: History.Revision, update: History.Revision, ops: seq<Operation>,
    o: Operation)
    requires FindRevision(revs, r.name) == Some(r) && t.diff(r.content, update.content) == Some(ops)
    requires o in ops && |o.path| >= 4 && o.path[..3] == ["spec", "template", "spec"]
    requires o.op != "replace" || forall s | s in o.path :: !("image" <= s)
    ensures PlannedImages(t, revs, r.name, update).None?
  {
    var k :| 0 <= k < |ops| && ops[k] == o;
    var q := Relative(o);
    assert o.path[0] == o.path[..3][0] == "spec" && o.path[1] == o.path[..3][1] == "template";
    assert o.path[2] == o.path[..3][2] == "spec" && q.path == o.path[2..];
    assert RelativeAll(ops)[k] == q && q in RelativeAll(ops) && InSpec(q.path);
    if ImagePath(q.path) {
      var j :| 0 <= j < |q.path| - 3 && ImageAt(q.path, j);
      assert q.path[j + 3] == o.path[j + 5] && o.path[j + 5] in o.path;
    }
  }

  /** shouldDoInPlaceUpdate: an in-place update is planned exactly when the policy asks for it and every
      difference is allowed; the plan carries all operations and the new images. */
  method ShouldDoInPlaceUpdate(
    sts: StatefulSet, t: Templates, update: History.Revision, from: string, revs: seq<History.Revision>)
    returns (plan: Option<(seq<Operation>, map<string, string>)>)
    ensures plan.Some? <==>
      && sts.rolling.Some? && sts.rolling.value.policy in {InPlaceIfPossible, InPlaceOnly}
      && Patchable(t, revs, from, update)
    ensures plan.Some? ==>
      && plan.value.0 == RelativeAll(t.diff(FindRevision(revs, from).value.content, update.content).value)
      && PlannedImages(t, revs, from, update) == Some(plan.value.1)
    // what a round whose plans are these goes by
    ensures forall job: Job | job.sts == sts && job.plan(from) == PlannedImages(t, revs, from, update) ::
      InPlacePlan(job, from) == if plan.Some? then Some(plan.value.1) else None
  {
    hide ImagePath;
    if sts.rolling.None? || sts.rolling.value.policy.ReCreate? {
      return None;
    }
    var i := 0;
    while i < |revs| && revs[i].name != from
      invariant i <= |revs| && FindRevision(revs, from) == FindRevision(revs[i..], from)
    {
      assert revs[i..][1..] == revs[i + 1..];
      i := i + 1;
    }
    if i == |revs| {
      return None;
    }
    var content := revs[i].content;
    var diff, listed := t.diff(content, update.content), t.containers(content);
    if diff.None? || listed.None? {
      return None;
    }
    var ops, patches, images := RelativeAll(diff.value), [], map[];
    var k := 0;
    while k < |diff.value|
      invariant k <= |diff.value| == |ops| && patches == ops[..k]
      invariant forall o | o in ops[..k] :: Allowed(o, listed.value)
      invariant images == ImagesOf(ops[..k], listed.value)
    {
      assert ops[..k + 1][..k] == ops[..k];
      assert ops[..k + 1] == ops[..k] + [ops[k]];
      var o := Relative(diff.value[k]);
      patches := patches + [o];
      if InSpec(o.path) {
        if o.op != "replace" || !ImagePath(o.path) {
          assert ops[k] in ops;
          return None;
        }
        ImagePathIsLong(o.path);
        if ContainerIndex(o.path) >= |listed.value| {
          assert ops[k] in ops;
          return None;
        }
        images := images[listed.value[ContainerIndex(o.path)] := o.value];
      }
      k := k + 1;
    }
    assert ops[..k] == ops;
    return Some((patches, images));
  }

  /** The operation sets the image field of container c. */
  predicate About(o: Operation, containers: seq<string>, c: string) {
    && InSpec(o.path) && |o.path| > 2
    && ContainerIndex(o.path) < |containers| && containers[ContainerIndex(o.path)] == c
  }

  /** The images planned are those of the spec operations: each container named by one of them, with the
      value of the last one about it. */
  lemma {:induction false} PlannedImagesAreTheLast(ops: seq<Operation>, containers: seq<string>, c: string)
    requires forall o | o in ops :: Allowed(o, containers)
    ensures c in ImagesOf(ops, containers) <==> exists o | o in ops :: About(o, containers, c)
    ensures c in ImagesOf(ops, containers) ==>
      exists k | 0 <= k < |ops| ::
        && About(ops[k], containers, c) && ops[k].value == ImagesOf(ops, containers)[c]
        && forall j | k < j < |ops| :: !About(ops[j], containers, c)
  {
    hide ImagePath;
    if ops != [] {
      var n := |ops| - 1;
      var init, last := ops[..n], ops[n];
      assert ops == init + [last];
      assert last in ops && forall o | o in init :: o in ops;
      PlannedImagesAreTheLast(init, containers, c);
      if About(last, containers, c) {
        assert last.value == ImagesOf(ops, containers)[c];
      } else if c in ImagesOf(ops, containers) {
        var k :| 0 <= k < n && About(init[k], containers, c) && init[k].value == ImagesOf(init, containers)[c]
          && forall j | k < j < n :: !About(init[j], containers, c);
        assert ops[k] == init[k];
        assert forall j | k < j < n :: ops[j] == init[j];
      }
    }
  }

  /** The pattern has no start anchor either: the path of an image field counts behind other text. */
  lemma AnyFrontPasses(front: string, value: string, containers: seq<string>)
    requires containers != []
    ensures Allowed(Operation("replace", ["spec", front, "0", "spec", "containers", "0", "image"], value), containers)
  {
    var path := ["spec", front, "0", "spec", "containers", "0", "image"];
    assert "image" <= "image" && ImageAt(path, 3);
    assert Value("0") == 0 by {
      assert "0"[..0] == "";
    }
  }

  /** Not only images: a change of the pull policy passes the same test. */
  lemma PullPolicyPasses(containers: seq<string>, value: string)
    requires containers != []
    ensures Allowed(Operation("replace", ["spec", "containers", "0", "imagePullPolicy"], value), containers)
  {
    var path := ["spec", "containers", "0", "imagePullPolicy"];
    assert "imagePullPolicy"[..5] == "image";
    assert ImageAt(path, 0);
    assert Value("0") == 0 by {
      assert "0"[..0] == "";
    }
  }

  // ---------- checking ----------

  lemma {:induction false} FirstImageAppend(a: seq<ContainerStatus>, b: seq<ContainerStatus>, name: string)
    ensures FirstImage(a + b, name) == if FirstImage(a, name).Some? then FirstImage(a, name) else FirstImage(b, name)
  {
    if a == [] {
      assert a + b == b;
    } else {
      assert (a + b)[1..] == a[1..] + b;
      FirstImageAppend(a[1..], b, name);
    }
  }

  /** checkInPlaceUpdateCompleted: scans the statuses once, crossing containers off the recorded map. */
  method CheckInPlaceUpdateCompleted(p: Pod) returns (completed: bool)
    ensures completed == Completed(p)
  {
    if p.note.NoState? {
      return true;
    }
    if p.note.Garbled? || p.note.revision != p.revision {
      return false;
    }
    var last := p.note.last;
    var k := 0;
    while k < |p.statuses|
      invariant k <= |p.statuses|
      invariant forall c :: c in last <==> c in p.note.last && FirstImage(p.statuses[..k], c).None?
      invariant forall c | c in last :: last[c] == p.note.last[c]
      invariant forall c | c in p.note.last && c !in last :: Moved(p.statuses[..k], c, p.note.last[c])
    {
      var cs := p.statuses[k];
      assert p.statuses[..k + 1] == p.statuses[..k] + [cs];
      forall c
        ensures FirstImage(p.statuses[..k + 1], c) ==
          if FirstImage(p.statuses[..k], c).Some? then FirstImage(p.statuses[..k], c)
          else if c == cs.name then Some(cs.imageID) else None
      {
        FirstImageAppend(p.statuses[..k], [cs], c);
      }
      if cs.name in last {
        if last[cs.name] == cs.imageID {
          assert p.statuses == p.statuses[..k + 1] + p.statuses[k + 1..];
          FirstImageAppend(p.statuses[..k + 1], p.statuses[k + 1..], cs.name);
          assert !Moved(p.statuses, cs.name, p.note.last[cs.name]);
          return false;
        }
        last := last - {cs.name};
      }
      k := k + 1;
    }
    assert p.statuses[..k] == p.statuses;
    completed := |last| == 0;
    if completed {
      assert last == map[];
    } else {
      assert last.Keys != {};
      var c :| c in last;
      assert !Moved(p.statuses, c, p.note.last[c]);
    }
  }

  // ---------- applying ----------

  /** The fields of a pod's container that operations admitted by the test can reach. */
  datatype Container = Container(name: string, image: string, pullPolicy: string)

  /** The path names one container of the list (an array index has no leading zero). */
  predicate AtContainer(path: seq<string>, containers: seq<Container>) {
    && |path| == 4 && path[0] == "spec" && path[1] == "containers"
    && CanonicalDigits(path[2]) && Value(path[2]) < |containers|
  }

  /** One replace operation (section 4.3 of RFC 6902); it fails if its target does not exist. Operations
      outside the spec concern metadata, which is not part of the containers. */
  function ApplyOperation(o: Operation, containers: seq<Container>): Option<seq<Container>> {
    if !InSpec(o.path) then Some(containers)
    else if !AtContainer(o.path, containers) then None
    else
      var i := Value(o.path[2]);
      if o.path[3] == "image" then Some(containers[i := containers[i].(image := o.value)])
      else if o.path[3] == "imagePullPolicy" then Some(containers[i := containers[i].(pullPolicy := o.value)])
      else None
  }

  function ApplyOperations(ops: seq<Operation>, containers: seq<Container>): Option<seq<Container>> {
    if ops == [] then Some(containers)
    else
      var before := ApplyOperations(ops[..|ops| - 1], containers);
      if before.None? then None else ApplyOperation(ops[|ops| - 1], before.value)
  }

  /** podInPlaceUpdate: the operations on the spec, the new label, and a record of the image IDs about to
      change; an operation without target fails it as a whole. */
  method PodInPlaceUpdate(
    p: Pod, containers: seq<Container>, ops: seq<Operation>, revision: string, images: map<string, string>)
    returns (ok: bool, q: Pod, containers': seq<Container>)
    ensures ok <==> ApplyOperations(ops, containers).Some?
    ensures ok ==> q == Patched(p, revision, images) && ApplyOperations(ops, containers) == Some(containers')
    ensures !ok ==> q == p && containers' == containers
  {
    containers' := containers;
    var n := 0;
    while n < |ops|
      invariant n <= |ops| && ApplyOperations(ops[..n], containers) == Some(containers')
    {
      assert ops[..n + 1][..n] == ops[..n];
      var next := ApplyOperation(ops[n], containers');
      if next.None? {
        FailsOn(ops, containers, n + 1);
        return false, p, containers;
      }
      containers' := next.value;
      n := n + 1;
    }
    assert ops[..n] == ops;
    var last := map[];
    var k := 0;
    while k < |p.statuses|
      invariant k <= |p.statuses| && last == Recorded(p.statuses[..k], images)
    {
      var c := p.statuses[k];
      assert p.statuses[..k + 1][..k] == p.statuses[..k];
      if c.name in images {
        last := last[c.name := c.imageID];
      }
      k := k + 1;
    }
    assert p.statuses[..k] == p.statuses;
    return true, p.(revision := revision, note := State(revision, last)), containers';
  }

  lemma {:induction false} FailsOn(ops: seq<Operation>, containers: seq<Container>, n: nat)
    requires n <= |ops| && ApplyOperations(ops[..n], containers).None?
    ensures ApplyOperations(ops, containers).None?
    decreases |ops|
  {
    if n < |ops| {
      assert ops[..|ops| - 1][..n] == ops[..n];
      FailsOn(ops[..|ops| - 1], containers, n);
    } else {
      assert ops[..n] == ops;
    }
  }

  /** The pod lists the template's containers first and in order. */
  predicate ListsFirst(listed: seq<string>, containers: seq<Container>) {
    |listed| <= |containers| && forall i | 0 <= i < |listed| :: containers[i].name == listed[i]
  }

  predicate Distinct(listed: seq<string>) {
    forall i, j | 0 <= i < j < |listed| :: listed[i] != listed[j]
  }

  /** The anchored pattern: "/spec/containers/<canonical index>/image" is the whole path. */
  predicate ExactImage(path: seq<string>) {
    |path| == 4 && path[0] == "spec" && path[1] == "containers" && CanonicalDigits(path[2]) && path[3] == "image"
  }

  predicate OnlyImages(ops: seq<Operation>) {
    forall o | o in ops && InSpec(o.path) :: ExactImage(o.path)
  }

  /** The planned image in each planned container, and everything else as it was. */
  function AsPlanned(images: map<string, string>, listed: seq<string>, containers: seq<Container>): seq<Container> {
    seq(|containers|, i requires 0 <= i < |containers| =>
      containers[i].(image := if i < |listed| && listed[i] in images then images[listed[i]] else containers[i].image))
  }

  lemma {:induction false} ExactImagesGiveThePlan(ops: seq<Operation>, listed: seq<string>, containers: seq<Container>)
    requires OnlyImages(ops) && ListsFirst(listed, containers) && Distinct(listed)
    requires forall o | o in ops :: Allowed(o, listed)
    ensures ApplyOperations(ops, containers) == Some(AsPlanned(ImagesOf(ops, listed), listed, containers))
  {
    hide ImagePath, Value, CanonicalDigits;
    if ops != [] {
      var init, last := ops[..|ops| - 1], ops[|ops| - 1];
      assert ops == init + [last];
      assert last in ops && Allowed(last, listed) && forall o | o in init :: o in ops;
      ExactImagesGiveThePlan(init, listed, containers);
      if InSpec(last.path) {
        IndexIsValue(last.path);
        var before := AsPlanned(ImagesOf(init, listed), listed, containers);
        var i := Value(last.path[2]);
        assert before[i := before[i].(image := last.value)] == AsPlanned(ImagesOf(ops, listed), listed, containers);
      }
    } else {
      assert AsPlanned(map[], listed, containers) == containers;
    }
  }

  lemma IndexIsValue(path: seq<string>)
    requires |path| > 2 && CanonicalDigits(path[2])
    ensures AllDigits(path[2]) && ContainerIndex(path) == Value(path[2])
  {
  }

  /** A text that is longer than the value of every operation. */
  function Longer(ops: seq<Operation>): string {
    if ops == [] then "x"
    else
      var rest := Longer(ops[..|ops| - 1]);
      if |ops[|ops| - 1].value| >= |rest| then ops[|ops| - 1].value + "x" else rest
  }

  lemma {:induction false} LongerThanAll(ops: seq<Operation>)
    ensures forall o | o in ops :: |o.value| < |Longer(ops)|
  {
    if ops != [] {
      assert ops == ops[..|ops| - 1] + [ops[|ops| - 1]];
      LongerThanAll(ops[..|ops| - 1]);
    }
  }

  /** The operation sets the pull policy of container i. */
  predicate SetsPolicy(o: Operation, i: nat) {
    && |o.path| == 4 && o.path[0] == "spec" && o.path[1] == "containers"
    && CanonicalDigits(o.path[2]) && Value(o.path[2]) == i && o.path[3] == "imagePullPolicy"
  }

  /** A pull policy that some operation sets ends up with the value of an operation; if the operations apply,
      those on the spec set a container's image or its pull policy. */
  lemma {:induction false} PolicyIsWritten(
    ops: seq<Operation>, containers: seq<Container>, after: seq<Container>, o: Operation, i: nat)
    requires ApplyOperations(ops, containers) == Some(after) && o in ops
    ensures |after| == |containers|
    ensures InSpec(o.path) ==> ExactImage(o.path) || exists k: nat | k < |containers| :: SetsPolicy(o, k)
    ensures SetsPolicy(o, i) && i < |containers| ==> exists o' | o' in ops :: after[i].pullPolicy == o'.value
    decreases |ops|
  {
    hide Value;
    var init, last := ops[..|ops| - 1], ops[|ops| - 1];
    assert ops == init + [last];
    var before := ApplyOperations(init, containers).value;
    ApplyKeepsLength(init, containers, before);
    if o in init {
      PolicyIsWritten(init, containers, before, o, i);
      assert forall o' | o' in init :: o' in ops;
    } else if InSpec(o.path) {
      assert o == last && AtContainer(o.path, before);
      if o.path[3] == "imagePullPolicy" {
        assert SetsPolicy(o, Value(o.path[2]));
      }
    }
  }

  lemma {:induction false} ApplyKeepsLength(ops: seq<Operation>, containers: seq<Container>, after: seq<Container>)
    requires ApplyOperations(ops, containers) == Some(after)
    ensures |after| == |containers|
  {
    if ops != [] {
      ApplyKeepsLength(ops[..|ops| - 1], containers, ApplyOperations(ops[..|ops| - 1], containers).value);
    }
  }

  /** What the plan means. For operations the test allows and distinct container names: on every pod that lists
      the template's containers first, the operations apply, put the planned image into each planned container
      and change nothing else in the containers, if and only if each operation on the spec has exactly the
      path of an image field. */
  lemma PatchMeansPlanIff(ops: seq<Operation>, listed: seq<string>)
    requires Distinct(listed) && forall o | o in ops :: Allowed(o, listed)
    ensures
      (forall containers: seq<Container> :: ListsFirst(listed, containers) ==>
         ApplyOperations(ops, containers) == Some(AsPlanned(ImagesOf(ops, listed), listed, containers)))
      <==> OnlyImages(ops)
  {
    hide Allowed, ExactImage, Value, CanonicalDigits;
    if OnlyImages(ops) {
      forall containers: seq<Container> | ListsFirst(listed, containers)
        ensures ApplyOperations(ops, containers) == Some(AsPlanned(ImagesOf(ops, listed), listed, containers))
      {
        ExactImagesGiveThePlan(ops, listed, containers);
      }
    } else {
      var o :| o in ops && InSpec(o.path) && !ExactImage(o.path);
      var containers := Marked(listed, Longer(ops));
      PolicyGivesAway(ops, listed, containers, o);
    }
  }

  function Marked(listed: seq<string>, policy: string): (cs: seq<Container>)
    ensures ListsFirst(listed, cs) && forall i | 0 <= i < |cs| :: cs[i].pullPolicy == policy
  {
    seq(|listed|, i requires 0 <= i < |listed| => Container(listed[i], "", policy))
  }

  /** On containers whose policies no operation could have written, an inexact one shows. */
  lemma PolicyGivesAway(ops: seq<Operation>, listed: seq<string>, containers: seq<Container>, o: Operation)
    requires forall o' | o' in ops :: Allowed(o', listed)
    requires o in ops && InSpec(o.path) && !ExactImage(o.path)
    requires forall i | 0 <= i < |containers| :: containers[i].pullPolicy == Longer(ops)
    ensures ApplyOperations(ops, containers) != Some(AsPlanned(ImagesOf(ops, listed), listed, containers))
  {
    hide Allowed, ExactImage, SetsPolicy;
    var planned := AsPlanned(ImagesOf(ops, listed), listed, containers);
    if ApplyOperations(ops, containers) == Some(planned) {
      PolicyIsWritten(ops, containers, planned, o, 0);
      var k: nat :| k < |containers| && SetsPolicy(o, k);
      PolicyIsWritten(ops, containers, planned, o, k);
      LongerThanAll(ops);
      assert false;
    }
  }

  /** Why only exact image fields: an operation on the pull policy is planned as if its value were an image,
      and the pod keeps the image it had. */
  lemma PullPolicyIsNoImage(listed: seq<string>, containers: seq<Container>, value: string)
    requires listed != [] && containers != []
    ensures
      var o := Operation("replace", ["spec", "containers", "0", "imagePullPolicy"], value);
      && Allowed(o, listed) && ImagesOf([o], listed) == map[listed[0] := value]
      && ApplyOperations([o], containers) == Some(containers[0 := containers[0].(pullPolicy := value)])
  {
    var o := Operation("replace", ["spec", "containers", "0", "imagePullPolicy"], value);
    PullPolicyPasses(listed, value);
    assert [o][..0] == [];
    assert Value("0") == 0 by {
      assert "0"[..0] == "";
    }
  }

  predicate DistinctNames(statuses: seq<ContainerStatus>) {
    forall i, j | 0 <= i < j < |statuses| :: statuses[i].name != statuses[j].name
  }

  lemma {:induction false} RecordedFacts(statuses: seq<ContainerStatus>, images: map<string, string>, c: string)
    requires DistinctNames(statuses)
    ensures c in Recorded(statuses, images) <==> c in images && FirstImage(statuses, c).Some?
    ensures c in Recorded(statuses, images) ==> Recorded(statuses, images)[c] == FirstImage(statuses, c).value
  {
    if statuses != [] {
      var n := |statuses| - 1;
      assert statuses == statuses[..n] + [statuses[n]];
      RecordedFacts(statuses[..n], images, c);
      FirstImageAppend(statuses[..n], [statuses[n]], c);
      NotYetSeen(statuses, n, c);
    }
  }

  lemma {:induction false} NotYetSeen(statuses: seq<ContainerStatus>, n: nat, c: string)
    requires n <= |statuses|
    ensures FirstImage(statuses[..n], c).Some? ==> exists i | 0 <= i < n :: statuses[i].name == c
    decreases n
  {
    if n > 0 {
      NotYetSeen(statuses, n - 1, c);
      assert statuses[..n] == statuses[..n - 1] + [statuses[n - 1]];
      FirstImageAppend(statuses[..n - 1], [statuses[n - 1]], c);
    }
  }

  /** A fresh patch is incomplete exactly if it concerns a container that already reports a status; from
      then on it is complete exactly when all those containers report other images. */
  lemma PatchStartsIncomplete(p: Pod, revision: string, images: map<string, string>, statuses: seq<ContainerStatus>)
    requires DistinctNames(p.statuses)
    ensures Completed(Patched(p, revision, images)) <==> forall c | c in images :: FirstImage(p.statuses, c).None?
    ensures
      Completed(Patched(p, revision, images).(statuses := statuses)) <==>
        forall c | c in images && FirstImage(p.statuses, c).Some? ::
          FirstImage(statuses, c).Some? && FirstImage(statuses, c) != FirstImage(p.statuses, c)
  {
    forall c
      ensures c in Recorded(p.statuses, images) <==> c in images && FirstImage(p.statuses, c).Some?
      ensures c in Recorded(p.statuses, images) ==> Recorded(p.statuses, images)[c] == FirstImage(p.statuses, c).value
    {
      RecordedFacts(p.statuses, images, c);
    }
  }
}
