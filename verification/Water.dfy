/** Water: one deployment per coordinate, and the removal of those a spec no longer names
    (controllers/water_controller.go:67-123, 156-307, controllers/coordinator.go:32-49,
    controllers/util.go:130-136). */
module Water {
  import opened Pods
  import opened Coordinates

  datatype Strategy = Alpha | Beta | Omega | Release | OtherStrategy

  datatype Spec = Spec(strategy: Strategy, coordinates: seq<Coordinate>)

  datatype Status = Status(desiredReplicas: int, alreadyReplicas: int, desiredDeployment: int, alreadyDeployment: int)

  function LowerChar(c: char): char {
    if 'A' <= c <= 'Z' then c - 'A' + 'a' else c
  }

  function Lower(s: string): string {
    seq(|s|, i requires 0 <= i < |s| => LowerChar(s[i]))
  }

  /** Host and replicas do not enter the name. */
  function DeploymentName(water: string, c: Coordinate): string {
    water + "-" + Lower(c.zone + "-" + c.rack)
  }

  // ---------- names ----------

  /** The texts differ at most in the case of ASCII letters. */
  predicate SameButCase(s: string, t: string) {
    |s| == |t| && forall i | 0 <= i < |s| ::
      || s[i] == t[i]
      || ('A' <= s[i] <= 'Z' && t[i] as int == s[i] as int + 32)
      || ('A' <= t[i] <= 'Z' && s[i] as int == t[i] as int + 32)
  }

  lemma LowerIsExact(s: string, t: string)
    ensures t == Lower(s) <==> SameButCase(s, t) && forall c | c in t :: !('A' <= c <= 'Z')
  {
    var l := Lower(s);
    forall i | 0 <= i < |s|
      ensures l[i] == s[i] || ('A' <= s[i] <= 'Z' && l[i] as int == s[i] as int + 32)
      ensures !('A' <= l[i] <= 'Z')
    {
    }
    if SameButCase(s, t) && forall c | c in t :: !('A' <= c <= 'Z') {
      forall i | 0 <= i < |s|
        ensures t[i] == l[i]
      {
        assert t[i] in t;
      }
    }
  }

  lemma LowerAlike(s: string, t: string)
    ensures Lower(s) == Lower(t) <==> SameButCase(s, t)
  {
    if Lower(s) == Lower(t) {
      assert |s| == |t|;
      forall i | 0 <= i < |s|
        ensures LowerChar(s[i]) == LowerChar(t[i])
      {
        assert Lower(s)[i] == Lower(t)[i];
      }
    }
    if SameButCase(s, t) {
      assert forall i | 0 <= i < |s| :: Lower(s)[i] == Lower(t)[i];
    }
  }

  /** Two coordinates share a deployment exactly if zone and rack, written with a dash in between, differ at
      most in case; so if no zone has a dash, exactly if the zones and the racks do. */
  lemma NamesAgreeIff(water: string, a: Coordinate, b: Coordinate)
    ensures
      DeploymentName(water, a) == DeploymentName(water, b) <==>
        SameButCase(a.zone + "-" + a.rack, b.zone + "-" + b.rack)
    ensures '-' !in a.zone && '-' !in b.zone ==>
      (DeploymentName(water, a) == DeploymentName(water, b) <==>
         SameButCase(a.zone, b.zone) && SameButCase(a.rack, b.rack))
  {
    var s, t := a.zone + "-" + a.rack, b.zone + "-" + b.rack;
    var p := water + "-";
    assert DeploymentName(water, a)[|p|..] == Lower(s) && DeploymentName(water, b)[|p|..] == Lower(t);
    LowerAlike(s, t);
    if '-' !in a.zone && '-' !in b.zone {
      DashSplits(a.zone, a.rack, b.zone, b.rack);
    }
  }

  lemma DashSplits(x: string, y: string, x': string, y': string)
    requires '-' !in x && '-' !in x'
    ensures SameButCase(x + "-" + y, x' + "-" + y') <==> SameButCase(x, x') && SameButCase(y, y')
  {
    var s, t := x + "-" + y, x' + "-" + y';
    assert s[|x|] == '-' && t[|x'|] == '-';
    if SameButCase(s, t) {
      assert forall i | 0 <= i < |x| :: s[i] == x[i] && x[i] in x;
      assert forall i | 0 <= i < |x'| :: t[i] == x'[i] && x'[i] in x';
      assert t[|x|] == '-' && s[|x'|] == '-' && |x| == |x'|;
      assert forall i | 0 <= i < |x| :: s[i] == x[i] && t[i] == x'[i];
      assert forall i | 0 <= i < |y| :: s[|x| + 1 + i] == y[i] && t[|x| + 1 + i] == y'[i];
    }
  }

  // ---------- reference ----------

  /** Deployments by name, with their replica counts. */
  type Deployments = map<string, int>

  function NamesOf(water: string, cs: seq<Coordinate>): set<string> {
    set c | c in cs :: DeploymentName(water, c)
  }

  /** Removes what the last reconciled spec named and this one does not. */
  function Cleaned(water: string, deps: Deployments, last: Option<seq<Coordinate>>, cs: seq<Coordinate>): Deployments {
    if last.None? then deps else deps - NamesOf(water, Missing(last.value, cs))
  }

  function SizeFor(strategy: Strategy, c: Coordinate): int {
    if strategy.Release? then c.replicas else 1
  }

  /** How many coordinates get a deployment: Alpha serves only the first. */
  function Served(spec: Spec): nat {
    if spec.strategy.Alpha? && |spec.coordinates| > 1 then 1 else |spec.coordinates|
  }

  function Deployed(water: string, deps: Deployments, strategy: Strategy, cs: seq<Coordinate>): Deployments {
    if cs == [] then deps
    else
      var last := cs[|cs| - 1];
      Deployed(water, deps, strategy, cs[..|cs| - 1])[DeploymentName(water, last) := SizeFor(strategy, last)]
  }

  function AfterReconcile(water: string, deps: Deployments, last: Option<seq<Coordinate>>, spec: Spec): Deployments {
    Deployed(water, Cleaned(water, deps, last, spec.coordinates), spec.strategy, spec.coordinates[..Served(spec)])
  }

  /** Every deployment is named by a coordinate. */
  predicate NoOrphans(water: string, deps: Deployments, cs: seq<Coordinate>) {
    deps.Keys <= NamesOf(water, cs)
  }

  // ---------- no orphans ----------

  lemma {:induction false} DeployedKeys(water: string, deps: Deployments, strategy: Strategy, cs: seq<Coordinate>)
    ensures Deployed(water, deps, strategy, cs).Keys == deps.Keys + NamesOf(water, cs)
  {
    if cs != [] {
      var init, last := cs[..|cs| - 1], cs[|cs| - 1];
      assert cs == init + [last];
      DeployedKeys(water, deps, strategy, init);
      assert NamesOf(water, cs) == NamesOf(water, init) + {DeploymentName(water, last)};
    }
  }

  lemma EqualNames(water: string, a: Coordinate, b: Coordinate)
    requires Equal(a, b)
    ensures DeploymentName(water, a) == DeploymentName(water, b)
  {
  }

  lemma ReconcileLeavesNoOrphans(water: string, deps: Deployments, last: Option<seq<Coordinate>>, spec: Spec)
    requires last.None? ==> deps == map[]
    requires last.Some? ==> NoOrphans(water, deps, last.value)
    ensures NoOrphans(water, AfterReconcile(water, deps, last, spec), spec.coordinates)
    ensures NamesOf(water, spec.coordinates[..Served(spec)]) <= AfterReconcile(water, deps, last, spec).Keys
  {
    var cs := spec.coordinates;
    var cleaned := Cleaned(water, deps, last, cs);
    DeployedKeys(water, cleaned, spec.strategy, cs[..Served(spec)]);
    forall n | n in cleaned
      ensures n in NamesOf(water, cs)
    {
      var c :| c in last.value && DeploymentName(water, c) == n;
      MissingFacts(last.value, cs, c);
      var d :| d in cs && Equal(d, c);
      EqualNames(water, d, c);
    }
  }

  /** After any sequence of error-free reconciles under arbitrary edits, starting with no deployment, each
      deployment is named by a coordinate of the spec just reconciled. */
  lemma {:induction false} NoOrphansOverRuns(water: string, specs: seq<Spec>, states: seq<Deployments>, i: nat)
    requires |states| == |specs| + 1 && states[0] == map[]
    requires forall j | 0 <= j < |specs| ::
      states[j + 1] == AfterReconcile(
        water, states[j], if j == 0 then None else Some(specs[j - 1].coordinates), specs[j])
    requires 0 < i <= |specs|
    ensures NoOrphans(water, states[i], specs[i - 1].coordinates)
  {
    if i > 1 {
      NoOrphansOverRuns(water, specs, states, i - 1);
    }
    ReconcileLeavesNoOrphans(
      water, states[i - 1], if i == 1 then None else Some(specs[i - 2].coordinates), specs[i - 1]);
  }

  /** After a reconcile there is no orphan if and only if the spec recorded before it, or the new one, named
      every deployment there was. */
  lemma NoOrphansIff(water: string, deps: Deployments, last: Option<seq<Coordinate>>, spec: Spec)
    ensures
      NoOrphans(water, AfterReconcile(water, deps, last, spec), spec.coordinates) <==>
        deps.Keys <= NamesOf(water, spec.coordinates) + Recorded(water, last)
  {
    var cs := spec.coordinates;
    var served := cs[..Served(spec)];
    DeployedKeys(water, Cleaned(water, deps, last, cs), spec.strategy, served);
    assert forall c | c in served :: c in cs;
    if last.Some? {
      forall n | n !in NamesOf(water, cs)
        ensures n in NamesOf(water, Missing(last.value, cs)) <==> n in NamesOf(water, last.value)
      {
        MissingNames(water, last.value, cs, n);
      }
    }
  }

  /** Why every reconcile must reach the annotation: without one nothing is removed, so the orphans that
      are left are those there were. */
  lemma NothingIsRemovedUnrecorded(water: string, deps: Deployments, spec: Spec)
    ensures deps.Keys <= AfterReconcile(water, deps, None, spec).Keys
    ensures
      NoOrphans(water, AfterReconcile(water, deps, None, spec), spec.coordinates) <==>
        NoOrphans(water, deps, spec.coordinates)
  {
    DeployedKeys(water, deps, spec.strategy, spec.coordinates[..Served(spec)]);
    assert forall c | c in spec.coordinates[..Served(spec)] :: c in spec.coordinates;
  }

  // ---------- reconciles that stop ----------

  /** The names of the recorded spec. */
  function Recorded(water: string, last: Option<seq<Coordinate>>): set<string> {
    if last.None? then {} else NamesOf(water, last.value)
  }

  /** A name no longer used is named by a coordinate that left exactly if the old list named it. */
  lemma MissingNames(water: string, old': seq<Coordinate>, cs: seq<Coordinate>, n: string)
    requires n !in NamesOf(water, cs)
    ensures n in NamesOf(water, Missing(old', cs)) <==> n in NamesOf(water, old')
  {
    if n in NamesOf(water, old') {
      var c :| c in old' && DeploymentName(water, c) == n;
      if d :| d in cs && Equal(d, c) {
        EqualNames(water, d, c);
      }
      MissingFacts(old', cs, c);
    }
    if n in NamesOf(water, Missing(old', cs)) {
      var c :| c in Missing(old', cs) && DeploymentName(water, c) == n;
      MissingFacts(old', cs, c);
    }
  }

  /** An error or a crash before the spec is recorded: some of the old deployments are gone and, if all of
      them are, some of the new ones made. */
  datatype Stop = Stop(spec: Spec, cleaned: nat, made: nat)

  predicate StopOk(last: Option<seq<Coordinate>>, s: Stop) {
    && s.made <= Served(s.spec)
    && (last.Some? ==>
          && s.cleaned <= |Missing(last.value, s.spec.coordinates)|
          && (s.made > 0 ==> s.cleaned == |Missing(last.value, s.spec.coordinates)|))
  }

  function CleanedTo(
    water: string, deps: Deployments, last: Option<seq<Coordinate>>, cs: seq<Coordinate>, n: nat): Deployments
    requires last.Some? ==> n <= |Missing(last.value, cs)|
  {
    if last.None? then deps else deps - NamesOf(water, Missing(last.value, cs)[..n])
  }

  function AfterStop(water: string, deps: Deployments, last: Option<seq<Coordinate>>, s: Stop): Deployments
    requires StopOk(last, s)
  {
    Deployed(
      water, CleanedTo(water, deps, last, s.spec.coordinates, s.cleaned), s.spec.strategy,
      s.spec.coordinates[..s.made])
  }

  function Made(water: string, s: Stop): set<string>
    requires s.made <= Served(s.spec)
  {
    NamesOf(water, s.spec.coordinates[..s.made])
  }

  lemma StopKeeps(water: string, deps: Deployments, last: Option<seq<Coordinate>>, s: Stop, n: string)
    requires StopOk(last, s) && n !in Recorded(water, last)
    ensures n in AfterStop(water, deps, last, s) <==> n in deps || n in Made(water, s)
  {
    var cs := s.spec.coordinates;
    DeployedKeys(water, CleanedTo(water, deps, last, cs, s.cleaned), s.spec.strategy, cs[..s.made]);
    if last.Some? {
      forall c | c in Missing(last.value, cs)[..s.cleaned]
        ensures c in last.value
      {
        MissingFacts(last.value, cs, c);
      }
    }
  }

  ghost predicate StopRun(water: string, last: Option<seq<Coordinate>>, stops: seq<Stop>, states: seq<Deployments>) {
    && |states| == |stops| + 1
    && forall j | 0 <= j < |stops| ::
         StopOk(last, stops[j]) && states[j + 1] == AfterStop(water, states[j], last, stops[j])
  }

  lemma {:induction false} StopsKeep(
    water: string, last: Option<seq<Coordinate>>, stops: seq<Stop>, states: seq<Deployments>, i: nat, n: string)
    requires StopRun(water, last, stops, states) && i <= |stops| && n !in Recorded(water, last)
    ensures n in states[i] <==> n in states[0] || exists j | 0 <= j < i :: n in Made(water, stops[j])
  {
    if i > 0 {
      StopsKeep(water, last, stops, states, i - 1, n);
      StopKeeps(water, states[i - 1], last, stops[i - 1], n);
      assert stops[i - 1].made <= Served(stops[i - 1].spec);
    }
  }

  /** When orphans appear: reconciles of any specs stop one after the other before they record their spec, and
      then one is complete. It leaves no orphan if and only if each deployment the stopped ones made is named
      by the spec recorded before them or by its own. */
  lemma OrphansAfterStopsIff(
    water: string, last: Option<seq<Coordinate>>, stops: seq<Stop>, states: seq<Deployments>, spec: Spec)
    requires StopRun(water, last, stops, states) && states[0].Keys <= Recorded(water, last)
    ensures
      NoOrphans(water, AfterReconcile(water, states[|stops|], last, spec), spec.coordinates) <==>
        forall j | 0 <= j < |stops| :: Made(water, stops[j]) <= NamesOf(water, spec.coordinates) + Recorded(water, last)
  {
    hide Made, AfterReconcile, NamesOf, AfterStop, Recorded;
    var end, names := states[|stops|], NamesOf(water, spec.coordinates) + Recorded(water, last);
    NoOrphansIff(water, end, last, spec);
    forall n | n !in names
      ensures n in end <==> exists j | 0 <= j < |stops| :: n in Made(water, stops[j])
    {
      StopsKeep(water, last, stops, states, |stops|, n);
    }
    if end.Keys <= names {
      forall j, n | 0 <= j < |stops| && n in Made(water, stops[j])
        ensures n in names
      {
        assert n !in names ==> n in end.Keys;
      }
    }
  }

  // ---------- status ----------

  function SumReplicas(cs: seq<Coordinate>): int {
    if cs == [] then 0 else SumReplicas(cs[..|cs| - 1]) + cs[|cs| - 1].replicas
  }

  function SumDeployed(water: string, deps: Deployments, cs: seq<Coordinate>): int
    requires NamesOf(water, cs) <= deps.Keys
  {
    if cs == [] then 0
    else
      assert cs[|cs| - 1] in cs && forall c | c in cs[..|cs| - 1] :: c in cs;
      SumDeployed(water, deps, cs[..|cs| - 1]) + deps[DeploymentName(water, cs[|cs| - 1])]
  }

  /** The status of a Water, reported only if every coordinate has its deployment. */
  function Report(water: string, deps: Deployments, cs: seq<Coordinate>): Option<Status> {
    if NamesOf(water, cs) <= deps.Keys then
      Some(Status(SumReplicas(cs), SumDeployed(water, deps, cs), |cs|, |cs|))
    else None
  }

  lemma NoReport(water: string, deps: Deployments, cs: seq<Coordinate>, i: nat)
    requires i < |cs| && DeploymentName(water, cs[i]) !in deps
    ensures Report(water, deps, cs).None?
  {
    hide DeploymentName;
    assert cs[i] in cs && DeploymentName(water, cs[i]) in NamesOf(water, cs);
  }

  /** Coordinates that share a deployment ask for the same number of replicas. */
  predicate Agreeing(water: string, cs: seq<Coordinate>) {
    forall i, j | 0 <= i < |cs| && 0 <= j < |cs| :: DeploymentName(water, cs[i]) == DeploymentName(water, cs[j]) ==>
      cs[i].replicas == cs[j].replicas
  }

  /** A deployment has the size of the last coordinate that names it. */
  lemma {:induction false} DeployedLast(
    water: string, deps: Deployments, strategy: Strategy, cs: seq<Coordinate>, i: nat)
    returns (j: nat)
    requires i < |cs|
    ensures i <= j < |cs| && DeploymentName(water, cs[j]) == DeploymentName(water, cs[i])
    ensures forall k | j < k < |cs| :: DeploymentName(water, cs[k]) != DeploymentName(water, cs[i])
    ensures DeploymentName(water, cs[i]) in Deployed(water, deps, strategy, cs)
    ensures Deployed(water, deps, strategy, cs)[DeploymentName(water, cs[i])] == SizeFor(strategy, cs[j])
  {
    hide DeploymentName;
    var init, last := cs[..|cs| - 1], cs[|cs| - 1];
    if DeploymentName(water, last) == DeploymentName(water, cs[i]) {
      j := |cs| - 1;
    } else {
      j := DeployedLast(water, deps, strategy, init, i);
      assert forall k | j < k < |init| :: init[k] == cs[k];
    }
  }

  /** Coordinate i is served: every one is, under Alpha the first one only. */
  predicate Serves(spec: Spec, i: int) {
    0 <= i < |spec.coordinates| && (spec.strategy.Alpha? ==> i == 0)
  }

  /** The last served coordinate of this name. */
  predicate LastServing(water: string, spec: Spec, n: string, i: int) {
    && Serves(spec, i) && DeploymentName(water, spec.coordinates[i]) == n
    && forall j | i < j < |spec.coordinates| && Serves(spec, j) :: DeploymentName(water, spec.coordinates[j]) != n
  }

  /** A coordinate of this name was recorded, and none of the same zone, rack and host is left. */
  predicate Departed(water: string, last: Option<seq<Coordinate>>, spec: Spec, n: string) {
    last.Some? && exists c | c in last.value ::
      && DeploymentName(water, c) == n
      && forall d | d in spec.coordinates :: d.zone != c.zone || d.rack != c.rack || d.host != c.host
  }

  lemma {:induction false} DeployedElsewhere(
    water: string, deps: Deployments, strategy: Strategy, cs: seq<Coordinate>, n: string)
    requires forall i | 0 <= i < |cs| :: DeploymentName(water, cs[i]) != n
    ensures n in Deployed(water, deps, strategy, cs) <==> n in deps
    ensures n in deps ==> Deployed(water, deps, strategy, cs)[n] == deps[n]
  {
    hide DeploymentName;
    if cs != [] {
      DeployedElsewhere(water, deps, strategy, cs[..|cs| - 1], n);
    }
  }

  lemma DepartedIffMissing(water: string, last: Option<seq<Coordinate>>, spec: Spec, n: string)
    ensures Departed(water, last, spec, n) <==> last.Some? && n in NamesOf(water, Missing(last.value, spec.coordinates))
  {
    hide DeploymentName;
    if last.Some? {
      forall c
        ensures c in Missing(last.value, spec.coordinates) <==>
          && c in last.value
          && forall d | d in spec.coordinates :: d.zone != c.zone || d.rack != c.rack || d.host != c.host
      {
        MissingFacts(last.value, spec.coordinates, c);
      }
    }
  }

  /** The deployments after a reconcile, exactly: one for each served coordinate, with the size of the last one of
      its name under Release and one otherwise; and those there were, unless their coordinate departed. */
  lemma DeploymentsAre(water: string, deps: Deployments, last: Option<seq<Coordinate>>, spec: Spec, n: string)
    ensures
      var after := AfterReconcile(water, deps, last, spec);
      && (forall i | LastServing(water, spec, n, i) ::
            n in after && after[n] == if spec.strategy.Release? then spec.coordinates[i].replicas else 1)
      && ((forall i | Serves(spec, i) :: DeploymentName(water, spec.coordinates[i]) != n) ==>
            && (n in after <==> n in deps && !Departed(water, last, spec, n))
            && (n in after ==> after[n] == deps[n]))
  {
    hide DeploymentName, Departed;
    var cs, cleaned := spec.coordinates, Cleaned(water, deps, last, spec.coordinates);
    var served := cs[..Served(spec)];
    forall i
      ensures Serves(spec, i) <==> 0 <= i < |served|
      ensures 0 <= i < |served| ==> served[i] == cs[i]
    {
    }
    forall i | LastServing(water, spec, n, i)
      ensures n in Deployed(water, cleaned, spec.strategy, served)
      ensures Deployed(water, cleaned, spec.strategy, served)[n] == SizeFor(spec.strategy, cs[i])
    {
      var j := DeployedLast(water, cleaned, spec.strategy, served, i);
      assert j == i;
    }
    if forall i | Serves(spec, i) :: DeploymentName(water, cs[i]) != n {
      DeployedElsewhere(water, cleaned, spec.strategy, served, n);
      DepartedIffMissing(water, last, spec, n);
    }
  }

  /** Every coordinate has the deployment it asks for. */
  predicate SizedAsDesired(water: string, deps: Deployments, cs: seq<Coordinate>) {
    forall i | 0 <= i < |cs| ::
      DeploymentName(water, cs[i]) in deps && deps[DeploymentName(water, cs[i])] == cs[i].replicas
  }

  lemma {:induction false} SumsAgree(water: string, deps: Deployments, cs: seq<Coordinate>)
    requires NamesOf(water, cs) <= deps.Keys
    requires SizedAsDesired(water, deps, cs)
    ensures SumDeployed(water, deps, cs) == SumReplicas(cs)
  {
    hide DeploymentName;
    if cs != [] {
      var init := cs[..|cs| - 1];
      assert forall c | c in init :: c in cs;
      forall i | 0 <= i < |init|
        ensures DeploymentName(water, init[i]) in deps && deps[DeploymentName(water, init[i])] == init[i].replicas
      {
        assert init[i] == cs[i];
      }
      SumsAgree(water, deps, init);
    }
  }

  /** Under Release every coordinate gets the size it asks for if and only if coordinates that share a
      deployment agree. */
  lemma SizedIffAgreeing(water: string, deps: Deployments, last: Option<seq<Coordinate>>, cs: seq<Coordinate>)
    ensures
      SizedAsDesired(water, AfterReconcile(water, deps, last, Spec(Release, cs)), cs) <==> Agreeing(water, cs)
  {
    hide DeploymentName;
    var cleaned := Cleaned(water, deps, last, cs);
    var after := AfterReconcile(water, deps, last, Spec(Release, cs));
    assert cs[..|cs|] == cs;
    assert after == Deployed(water, cleaned, Release, cs);
    forall i | 0 <= i < |cs|
      ensures DeploymentName(water, cs[i]) in after
      ensures Agreeing(water, cs) ==> after[DeploymentName(water, cs[i])] == cs[i].replicas
    {
      var j := DeployedLast(water, cleaned, Release, cs, i);
    }
  }

  /** Then the status reports what is desired; distinct deployment names are a special case. */
  lemma ReleaseReportsWhatIsDesired(
    water: string, deps: Deployments, last: Option<seq<Coordinate>>, cs: seq<Coordinate>)
    requires Agreeing(water, cs)
    ensures
      var r := Report(water, AfterReconcile(water, deps, last, Spec(Release, cs)), cs);
      && r.Some? && r.value.alreadyReplicas == r.value.desiredReplicas == SumReplicas(cs)
      && r.value.alreadyDeployment == r.value.desiredDeployment == |cs|
  {
    hide DeploymentName, Agreeing;
    var after := AfterReconcile(water, deps, last, Spec(Release, cs));
    assert cs[..|cs|] == cs;
    DeployedKeys(water, Cleaned(water, deps, last, cs), Release, cs);
    SizedIffAgreeing(water, deps, last, cs);
    SumsAgree(water, after, cs);
  }

  /** With two hosts of one rack the names collide, the later count wins for both, and the report is off. */
  lemma CollidingNamesMisreport(water: string, a: Coordinate, b: Coordinate)
    requires a.zone == b.zone && a.rack == b.rack && a.replicas != b.replicas
    ensures
      var r := Report(water, AfterReconcile(water, map[], None, Spec(Release, [a, b])), [a, b]);
      r.Some? && r.value.alreadyReplicas == 2 * b.replicas != r.value.desiredReplicas
  {
    hide Lower;
    var name := DeploymentName(water, b);
    var cs := [a, b];
    var after := AfterReconcile(water, map[], None, Spec(Release, cs));
    assert cs[..2] == cs && cs[..1] == [a] && [a][..0] == [];
    assert after == Deployed(water, map[], Release, cs);
    assert Deployed(water, map[], Release, [a]) == map[name := a.replicas];
    assert after == map[name := b.replicas];
    assert NamesOf(water, cs) == {name};
    assert SumDeployed(water, after, [a]) == b.replicas;
    assert SumReplicas([a]) == a.replicas;
  }

  // ---------- the reconciler ----------

  class WaterReconciler {
    const water: string
    var deployments: Deployments
    var annotation: Option<seq<Coordinate>>
    var status: Option<Status>

    constructor (water: string)
      ensures this.water == water && deployments == map[] && annotation.None? && status.None?
    {
      this.water := water;
      deployments, annotation, status := map[], None, None;
    }

    method DeleteDeployment(name: string)
      modifies this`deployments
      ensures deployments == old(deployments) - {name}
    {
      if name in deployments {
        deployments := deployments - {name};
      }
    }

    /** Deletes the deployments of `last` that left, in order, up to the first error. */
    method DeleteMissing(last: seq<Coordinate>, cs: seq<Coordinate>, works: nat -> bool)
      returns (ok: bool, ghost gone: seq<Coordinate>)
      modifies this`deployments
      ensures gone <= Missing(last, cs) && deployments == old(deployments) - NamesOf(water, gone)
      ensures ok ==> gone == Missing(last, cs)
      ensures (forall k: nat :: works(k)) ==> ok
    {
      hide DeploymentName, NamesOf, Among, Missing;
      gone := [];
      MissingAt(last, cs, 0);
      NoNames(water);
      for i := 0 to |last|
        invariant gone == Missing(last[..i], cs) && gone <= Missing(last, cs)
        invariant deployments == old(deployments) - NamesOf(water, gone)
      {
        var before := In(last, last[i]);
        var now := In(cs, last[i]);
        MissingAt(last, cs, i + 1);
        if before && !now {
          if !works(i) {
            return false, gone;
          }
          NamesAppend(water, gone, last[i]);
          DeleteDeployment(DeploymentName(water, last[i]));
          gone := gone + [last[i]];
        }
      }
      assert last[..|last|] == last;
      ok := true;
    }

    /** Deletes the deployments of coordinates that left the spec; an unchanged list ends it early. `works`
        tells which of the deletions succeed. */
    method UpdateCleanOldDeployment(cs: seq<Coordinate>, works: nat -> bool) returns (ok: bool, ghost done: nat)
      modifies this`deployments
      ensures annotation.Some? ==> done <= |Missing(annotation.value, cs)|
      ensures deployments == CleanedTo(water, old(deployments), annotation, cs, done)
      ensures ok ==> deployments == Cleaned(water, old(deployments), annotation, cs)
      ensures ok && annotation.Some? ==> done == |Missing(annotation.value, cs)|
      ensures (forall k: nat :: works(k)) ==> ok
    {
      hide NamesOf, Missing;
      if annotation.None? {
        return true, 0;
      }
      var last := annotation.value;
      var diff := Difference(last, cs);
      if |diff| == 0 {
        NoNames(water);
        return true, 0;
      }
      ghost var gone;
      ok, gone := DeleteMissing(last, cs, works);
      assert Missing(last, cs)[..|gone|] == gone;
      done := |gone|;
    }

    method UpdateDeployment(name: string, size: int)
      modifies this`deployments
      ensures deployments == old(deployments)[name := size]
    {
      if name !in deployments {
        deployments := deployments[name := size];
        return;
      }
      if deployments[name] == size {
        assert deployments == deployments[name := size];
        return;
      }
      deployments := deployments[name := size];
    }

    /** Sums up the deployments; a missing one ends it without touching the status. */
    method UpdateWater(cs: seq<Coordinate>)
      modifies this`status
      ensures
        var r := Report(water, deployments, cs);
        status == if r.Some? then r else old(status)
    {
      hide DeploymentName, NamesOf;
      var desired, already := 0, 0;
      NoNames(water);
      assert cs[..0] == [];
      for i := 0 to |cs|
        invariant status == old(status) && NamesOf(water, cs[..i]) <= deployments.Keys
        invariant desired == SumReplicas(cs[..i]) && already == SumDeployed(water, deployments, cs[..i])
      {
        assert cs[..i + 1][..i] == cs[..i] && cs[..i + 1] == cs[..i] + [cs[i]];
        desired := desired + cs[i].replicas;
        var name := DeploymentName(water, cs[i]);
        if name !in deployments {
          NoReport(water, deployments, cs, i);
          return;
        }
        NamesAppend(water, cs[..i], cs[i]);
        already := already + deployments[name];
      }
      assert cs[..|cs|] == cs;
      status := Some(Status(desired, already, |cs|, |cs|));
    }

    /** One reconcile. `deletes` and `writes` tell which of the calls about old and new deployments succeed,
        `records` whether service and annotation were written, `reports` whether the status was. It is
        complete once the spec is recorded; if it stops before, that is a step of StopRun. */
    method Reconcile(spec: Spec, deletes: nat -> bool, writes: nat -> bool, records: bool, reports: bool)
      returns (ok: bool, ghost stop: Option<Stop>)
      modifies this
      ensures stop.None? ==>
        && deployments == AfterReconcile(water, old(deployments), old(annotation), spec)
        && annotation == Some(spec.coordinates)
      ensures stop.Some? ==>
        && !ok && stop.value.spec == spec && StopOk(old(annotation), stop.value)
        && deployments == AfterStop(water, old(deployments), old(annotation), stop.value)
        && annotation == old(annotation) && status == old(status)
      ensures ok ==>
        && stop.None?
        && var r := Report(water, deployments, spec.coordinates); status == if r.Some? then r else old(status)
      ensures !ok ==> status == old(status)
      ensures (forall k: nat :: deletes(k) && writes(k)) && records && reports ==> ok
    {
      hide DeploymentName, Report;
      var cs := spec.coordinates;
      ghost var done;
      ok, done := UpdateCleanOldDeployment(cs, deletes);
      ghost var cleaned := deployments;
      stop := Some(Stop(spec, done, 0));
      if !ok {
        assert cs[..0] == [];
        return;
      }
      for i := 0 to |cs|
        invariant annotation == old(annotation) && status == old(status) && ok
        invariant stop == Some(Stop(spec, done, if i < Served(spec) then i else Served(spec)))
        invariant deployments == Deployed(water, cleaned, spec.strategy, cs[..stop.value.made])
      {
        if spec.strategy.Alpha? && i > 0 {
          continue;
        }
        assert cs[..i + 1][..i] == cs[..i];
        if !writes(i) {
          ok := false;
          return;
        }
        UpdateDeployment(DeploymentName(water, cs[i]), SizeFor(spec.strategy, cs[i]));
        stop := Some(Stop(spec, done, i + 1));
      }
      if !records {
        ok := false;
        return;
      }
      annotation, stop := Some(cs), None;
      if reports {
        UpdateWater(cs);
      } else {
        ok := false;
      }
    }
  }

  lemma {:induction false} MissingPrefix(old': seq<Coordinate>, cs: seq<Coordinate>, n: nat)
    requires n <= |old'|
    ensures Missing(old'[..n], cs) <= Missing(old', cs)
    decreases |old'|
  {
    if n < |old'| {
      MissingPrefix(old'[..|old'| - 1], cs, n);
      assert old'[..|old'| - 1][..n] == old'[..n];
    } else {
      assert old'[..n] == old';
    }
  }

  /** The coordinates that left, up to n of the old list. */
  lemma MissingAt(old': seq<Coordinate>, cs: seq<Coordinate>, n: nat)
    requires n <= |old'|
    ensures Missing(old'[..n], cs) <= Missing(old', cs)
    ensures n == 0 ==> Missing(old'[..n], cs) == []
    ensures n > 0 ==>
      && Among(old', old'[n - 1])
      && Missing(old'[..n], cs) ==
           Missing(old'[..n - 1], cs) + (if Among(cs, old'[n - 1]) then [] else [old'[n - 1]])
  {
    MissingPrefix(old', cs, n);
    if n > 0 {
      assert old'[..n][..n - 1] == old'[..n - 1];
      assert old'[n - 1] in old' && Equal(old'[n - 1], old'[n - 1]);
    }
  }

  lemma NoNames(water: string)
    ensures NamesOf(water, []) == {}
  {
  }

  lemma NamesAppend(water: string, cs: seq<Coordinate>, c: Coordinate)
    ensures NamesOf(water, cs + [c]) == NamesOf(water, cs) + {DeploymentName(water, c)}
  {
    assert forall d | d in cs + [c] :: d in cs || d == c;
    assert forall d | d in cs :: d in cs + [c];
    assert c in cs + [c];
  }
}
