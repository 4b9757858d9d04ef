/** Stone: one StatefulSet per group, sized by strategy, its pods spread over the group's coordinates
    (controllers/stone_controller.go:83-183, controllers/stateful_set_utils.go:249-267,
    controllers/util.go:138-145). */
module Stone {
  import opened Pods
  import opened Names
  import opened Coordinates
  import opened Water
  import opened Placement
  import opened RoundSpec
  import RoundRolling
  import Convergence

  // ---------- set names ----------

  function StatefulSetName(stone: string, index: nat, group: string): string {
    Lower(stone + "-" + Itoa(index) + "-" + group)
  }

  lemma LowerConcat(a: string, b: string)
    ensures Lower(a + b) == Lower(a) + Lower(b)
  {
  }

  lemma LowerKeepsDigits(s: string)
    requires AllDigits(s)
    ensures Lower(s) == s
  {
    assert forall i | 0 <= i < |s| :: IsDigit(s[i]);
  }

  lemma NameParts(stone: string, index: nat, group: string)
    ensures StatefulSetName(stone, index, group) == (Lower(stone) + "-") + (Decimal(index) + "-" + Lower(group))
  {
    hide Decimal;
    var d := Decimal(index);
    LowerKeepsDigits(d);
    assert Lower("-") == "-";
    LowerConcat(stone + "-" + d + "-", group);
    LowerConcat(stone + "-" + d, "-");
    LowerConcat(stone + "-", d);
    LowerConcat(stone, "-");
    assert (Lower(stone) + "-") + (d + "-" + Lower(group)) == Lower(stone) + "-" + d + "-" + Lower(group);
  }

  /** Digits up to the first dash are read back uniquely. */
  lemma DigitsBeforeDash(a: string, x: string, b: string, y: string)
    requires AllDigits(a) && AllDigits(b) && a + "-" + x == b + "-" + y
    ensures a == b
  {
    var s := a + "-" + x;
    assert s[|a|] == '-' && s[|b|] == '-';
    assert forall i | 0 <= i < |a| :: s[i] == a[i] && IsDigit(a[i]);
    assert forall i | 0 <= i < |b| :: s[i] == b[i] && IsDigit(b[i]);
    assert |a| == |b|;
    assert a == s[..|a|] && b == s[..|b|];
  }

  /** Different groups of a Stone get different set names, whatever the groups are called. */
  lemma SetNamesAreDistinct(stone: string, i: nat, g: string, j: nat, h: string)
    requires i != j
    ensures StatefulSetName(stone, i, g) != StatefulSetName(stone, j, h)
  {
    hide Decimal, Lower, Itoa;
    NameParts(stone, i, g);
    NameParts(stone, j, h);
    if StatefulSetName(stone, i, g) == StatefulSetName(stone, j, h) {
      var p := Lower(stone) + "-";
      var x, y := Decimal(i) + "-" + Lower(g), Decimal(j) + "-" + Lower(h);
      assert (p + x)[|p|..] == x && (p + y)[|p|..] == y;
      DigitsBeforeDash(Decimal(i), Lower(g), Decimal(j), Lower(h));
      ValueOfDecimal(i);
      ValueOfDecimal(j);
      assert false;
    }
  }

  /** The name is an int32 number or ends in a dash and one. */
  predicate NumericEnd(group: string) {
    || Ordinal(group) >= 0
    || (group != "" && AllDigits(group) && Value(group) <= MAX_INT32)
  }

  lemma LowerDigits(s: string)
    ensures AllDigits(Lower(s)) <==> AllDigits(s)
  {
    forall i | 0 <= i < |s|
      ensures IsDigit(Lower(s)[i]) <==> IsDigit(s[i])
    {
    }
    if AllDigits(Lower(s)) {
      assert forall i | 0 <= i < |s| :: IsDigit(Lower(s)[i]);
    }
  }

  /** Lower-casing leaves the last dash and any number behind it alone. */
  lemma LowerKeepsOrdinal(s: string)
    ensures Ordinal(Lower(s)) == Ordinal(s)
  {
    hide LastDash, Value;
    var d := LastDash(s);
    if d >= 0 {
      LastDashAt(Lower(s), d);
      assert Lower(s)[d + 1..] == Lower(s[d + 1..]);
      LowerDigits(s[d + 1..]);
      if AllDigits(s[d + 1..]) {
        LowerKeepsDigits(s[d + 1..]);
      }
    }
  }

  /** Behind another dash a text is an ordinal if it is a number, or has the ordinal it had. */
  lemma OrdinalBehindDash(owner: string, tail: string)
    ensures Ordinal(owner + "-" + tail) >= 0 <==> NumericEnd(tail)
  {
    hide LastDash, Value;
    var name, d := owner + "-" + tail, LastDash(tail);
    assert name[|owner| + 1..] == tail;
    if d >= 0 {
      assert forall j | |owner| + 1 <= j < |name| :: name[j] == tail[j - |owner| - 1];
      LastDashAt(name, |owner| + 1 + d);
      assert name[|owner| + 2 + d..] == tail[d + 1..];
      assert !IsDigit(tail[d]);
    } else {
      assert forall j | |owner| < j < |name| :: name[j] == tail[j - |owner| - 1];
      LastDashAt(name, |owner|);
    }
  }

  /** The reconcile requests of a Stone's set reach the set if and only if the group name has no numeric
      end; otherwise they are taken for requests of one of its pods. */
  lemma SetIsReachedIff(stone: string, index: nat, group: string)
    ensures
      var name := StatefulSetName(stone, index, group);
      RealReconcileName(name) == name <==> !NumericEnd(group)
  {
    hide Decimal, Value, Lower, StatefulSetName, RealReconcileName, Parent, Ordinal;
    NameParts(stone, index, group);
    var owner := Lower(stone) + "-" + Decimal(index);
    assert (Lower(stone) + "-") + (Decimal(index) + "-" + Lower(group)) == owner + "-" + Lower(group);
    SetRequestsReachTheSet(StatefulSetName(stone, index, group));
    OrdinalBehindDash(owner, Lower(group));
    LowerKeepsOrdinal(group);
    LowerDigits(group);
    if AllDigits(group) {
      LowerKeepsDigits(group);
    }
    LowerLength(group);
  }

  lemma LowerLength(s: string)
    ensures |Lower(s)| == |s|
  {
  }

  // ---------- getStatefulSet ----------

  datatype Group = Group(name: string, zoneset: seq<Coordinate>, replicas: Option<int>)

  /** The part of a StatefulSet that its Stone writes; `template` is the pod template apart from its
      containers. */
  datatype SetSpec = SetSpec(
    name: string, replicas: int, containers: string, template: string, gate: bool, parallel: bool,
    strategy: StrategyType, rolling: Option<RollingUpdate>)

  /** A new set: Parallel, one pod updated at a time and in place if possible, with the readiness gate. */
  function NewSet(name: string, template: string): SetSpec {
    SetSpec(name, 0, "", template, true, true, RollingType,
            Some(RollingUpdate(0, Some(IntVal(1)), InPlaceIfPossible, false)))
  }

  /** What every reconcile overwrites, in a new set and in one that exists. */
  function Overwritten(s: SetSpec, size: int, containers: string): SetSpec
    requires s.rolling.Some?
  {
    s.(replicas := size, containers := containers,
       rolling := Some(s.rolling.value.(partition := 0, maxUnavailable := Some(IntVal(1)))))
  }

  function GroupSize(strategy: Strategy, g: Group): int {
    match strategy
    case Omega => |g.zoneset|
    case Release => if g.replicas.Some? then g.replicas.value else 0
    case _ => 1
  }

  /** Alpha, and any unknown strategy, serves the first group only. */
  function Groups(strategy: Strategy, groups: seq<Group>): nat {
    if (strategy.Alpha? || strategy.OtherStrategy?) && |groups| > 1 then 1 else |groups|
  }

  /** What becomes of a group: its set, a failed read, or a dereference of a missing replica count or
      RollingUpdate block. */
  datatype Verdict = Fine | Fails | Panics

  function VerdictOf(
    stone: string, strategy: Strategy, groups: seq<Group>, i: nat, existing: map<string, SetSpec>, works: nat -> bool)
    : Verdict
    requires i < |groups|
  {
    var name := StatefulSetName(stone, i, groups[i].name);
    if strategy.Release? && groups[i].replicas.None? then Panics
    else if !works(i) then Fails
    else if name in existing && existing[name].rolling.None? then Panics
    else Fine
  }

  /** The group has its size, its set can be read, and a set that exists has a RollingUpdate block. */
  predicate CanBeServed(
    stone: string, strategy: Strategy, groups: seq<Group>, i: nat, existing: map<string, SetSpec>, works: nat -> bool)
    requires i < |groups|
  {
    && works(i) && (strategy.Release? ==> groups[i].replicas.Some?)
    && forall n | n in existing && n == StatefulSetName(stone, i, groups[i].name) :: existing[n].rolling.Some?
  }

  lemma FineMeans(
    stone: string, strategy: Strategy, groups: seq<Group>, existing: map<string, SetSpec>, works: nat -> bool)
    ensures forall i | 0 <= i < |groups| ::
      VerdictOf(stone, strategy, groups, i, existing, works).Fine? <==>
        CanBeServed(stone, strategy, groups, i, existing, works)
  {
    hide StatefulSetName;
  }

  /** The set a group gets, given the sets that exist by name. */
  function SetFor(
    stone: string, strategy: Strategy, groups: seq<Group>, i: nat, containers: string, template: string,
    existing: map<string, SetSpec>): SetSpec
    requires i < |groups|
    requires
      var name := StatefulSetName(stone, i, groups[i].name);
      name in existing ==> existing[name].rolling.Some?
  {
    var name := StatefulSetName(stone, i, groups[i].name);
    Overwritten(
      if name in existing then existing[name] else NewSet(name, template), GroupSize(strategy, groups[i]), containers)
  }

  /** What a set of a Stone is, field by field: its name and the Stone's containers; one pod, or under Omega one
      for each coordinate of the group, or under Release as many as the group asks for; one pod updated at a
      time, all of them. A new set is Parallel with the readiness gate, and updates in place if possible;
      an existing one keeps everything else. */
  predicate SetOf(
    stone: string, strategy: Strategy, g: Group, i: nat, containers: string, template: string,
    existing: map<string, SetSpec>, s: SetSpec)
  {
    && s.name == StatefulSetName(stone, i, g.name) && s.containers == containers
    && (strategy.Omega? ==> s.replicas == |g.zoneset|)
    && (strategy.Release? ==> g.replicas == Some(s.replicas))
    && (!strategy.Omega? && !strategy.Release? ==> s.replicas == 1)
    && s.rolling.Some? && s.rolling.value.partition == 0 && s.rolling.value.maxUnavailable == Some(IntVal(1))
    && if s.name in existing then
         var was := existing[s.name];
         && s.template == was.template && s.gate == was.gate && s.parallel == was.parallel
         && s.strategy == was.strategy && was.rolling.Some?
         && s.rolling.value.policy == was.rolling.value.policy && s.rolling.value.paused == was.rolling.value.paused
       else
         && s.template == template && s.gate && s.parallel && s.strategy == RollingType
         && s.rolling.value.policy == InPlaceIfPossible && !s.rolling.value.paused
  }

  /** The sets of a Stone; an unknown strategy is replaced by Alpha on the way. `works` tells which reads
      succeed. The first group that is not fine decides: it ends the call with an error or a panic. */
  method GetStatefulSets(
    stone: string, strategy: Strategy, groups: seq<Group>, containers: string, template: string,
    existing: map<string, SetSpec>, works: nat -> bool)
    returns (verdict: Verdict, sets: seq<SetSpec>, strategy': Strategy)
    requires forall n | n in existing :: existing[n].name == n
    ensures verdict.Fine? <==>
      forall i | 0 <= i < Groups(strategy, groups) :: VerdictOf(stone, strategy, groups, i, existing, works).Fine?
    ensures !verdict.Fine? ==>
      && sets == []
      && exists i | 0 <= i < Groups(strategy, groups) ::
           && VerdictOf(stone, strategy, groups, i, existing, works) == verdict
           && forall j | 0 <= j < i :: VerdictOf(stone, strategy, groups, j, existing, works).Fine?
    ensures verdict.Fine? <==>
      forall i | 0 <= i < Groups(strategy, groups) :: CanBeServed(stone, strategy, groups, i, existing, works)
    ensures verdict.Fine? ==> strategy' == if strategy.OtherStrategy? && groups != [] then Alpha else strategy
    ensures verdict.Fine? ==> |sets| == Groups(strategy, groups)
    ensures verdict.Fine? ==> forall i | 0 <= i < |sets| ::
      && VerdictOf(stone, strategy, groups, i, existing, works).Fine?
      && sets[i] == SetFor(stone, strategy, groups, i, containers, template, existing)
    ensures verdict.Fine? ==> forall i | 0 <= i < |sets| ::
      SetOf(stone, strategy, groups[i], i, containers, template, existing, sets[i])
    ensures verdict.Fine? ==> (strategy.Beta? || strategy.Omega? || strategy.Release? ==> |sets| == |groups|)
    ensures verdict.Fine? ==> (strategy.Alpha? || strategy.OtherStrategy? ==>
      |sets| == if groups == [] then 0 else 1)
    ensures verdict.Fine? ==> forall i, j | 0 <= i < j < |sets| :: sets[i].name != sets[j].name
  {
    hide StatefulSetName, CanBeServed;
    FineMeans(stone, strategy, groups, existing, works);
    verdict, sets, strategy' := Fine, [], strategy;
    for i := 0 to |groups|
      invariant strategy' == if strategy.OtherStrategy? && i > 0 then Alpha else strategy
      invariant |sets| == if i < Groups(strategy, groups) then i else Groups(strategy, groups)
      invariant verdict.Fine? && forall k | 0 <= k < |sets| ::
        && VerdictOf(stone, strategy, groups, k, existing, works).Fine?
        && sets[k] == SetFor(stone, strategy, groups, k, containers, template, existing)
        && sets[k].name == StatefulSetName(stone, k, groups[k].name)
    {
      var size := 1;
      match strategy' {
        case Alpha =>
          if i > 0 {
            continue;
          }
        case Beta =>
        case Omega =>
          size := |groups[i].zoneset|;
        case Release =>
          if groups[i].replicas.None? {
            assert VerdictOf(stone, strategy, groups, i, existing, works) == Panics;
            return Panics, [], strategy';
          }
          size := groups[i].replicas.value;
        case OtherStrategy =>
          strategy' := Alpha;
      }
      if !works(i) {
        assert VerdictOf(stone, strategy, groups, i, existing, works) == Fails;
        return Fails, [], strategy';
      }
      var name := StatefulSetName(stone, i, groups[i].name);
      var s := if name in existing then existing[name] else NewSet(name, template);
      if s.rolling.None? {
        assert VerdictOf(stone, strategy, groups, i, existing, works) == Panics;
        return Panics, [], strategy';
      }
      sets := sets + [Overwritten(s, size, containers)];
    }
    forall i, j | 0 <= i < j < |sets|
      ensures sets[i].name != sets[j].name
    {
      SetNamesAreDistinct(stone, i, groups[i].name, j, groups[j].name);
    }
  }

  /** The spec the set's own controller sees. */
  predicate Sees(sts: StatefulSet, s: SetSpec) {
    && sts.replicas == s.replicas && sts.parallel == s.parallel && !sts.deleting
    && sts.strategy == s.strategy && sts.rolling == s.rolling
  }

  /** A new set of a Stone meets the conditions of convergence; and whatever a user changed in an existing
      one, each round of its controller acts on at most one stale pod, on any listing and with any outcomes. */
  lemma StoneSetsRollOneByOne(
    stone: string, strategy: Strategy, groups: seq<Group>, i: nat, containers: string, template: string,
    existing: map<string, SetSpec>, works: nat -> bool, job: Job, pods: seq<Pod>, store: Store)
    requires i < |groups|
    requires VerdictOf(stone, strategy, groups, i, existing, works).Fine?
    requires Sees(job.sts, SetFor(stone, strategy, groups, i, containers, template, existing))
    ensures
      var b := RoundRolling.BeforeRoll(job, Start(job, pods, store));
      && b.log <= Round(job, pods, store).log
      && var calls := Round(job, pods, store).log[|b.log|..];
         && RoundRolling.CountTouched(b.replicas, calls, 0) <= 1
         && forall c, d | c in calls && d in calls :: c.action.pod == d.action.pod
    ensures
      StatefulSetName(stone, i, groups[i].name) !in existing ==>
        Convergence.Updating(job.sts) && job.sts.parallel
        && SetFor(stone, strategy, groups, i, containers, template, existing).gate
  {
    hide StatefulSetName;
    RoundRolling.RollingIsBounded(job, pods, store);
    var b := RoundRolling.BeforeRoll(job, Start(job, pods, store));
    var calls := Round(job, pods, store).log[|b.log|..];
    forall c, d | c in calls && d in calls
      ensures c.action.pod == d.action.pod
    {
      OneTouched(job, b.replicas, calls, c, d);
    }
  }

  lemma OneTouched(job: Job, slots: seq<Pod>, calls: seq<Call>, c: Call, d: Call)
    requires c in calls && d in calls && RoundRolling.CountTouched(slots, calls, 0) <= 1
    requires RoundRolling.RollsAbove(job, slots, 0, c) && RoundRolling.RollsAbove(job, slots, 0, d)
    ensures c.action.pod == d.action.pod
  {
    var i: nat :| i < |slots| && RoundRolling.RollsWithin(job, slots, i, c);
    var j: nat :| j < |slots| && RoundRolling.RollsWithin(job, slots, j, d);
    if i < j {
      TouchedTwice(slots, calls, i, j, 0);
    } else if j < i {
      TouchedTwice(slots, calls, j, i, 0);
    }
  }

  lemma {:induction false} TouchedTwice(slots: seq<Pod>, calls: seq<Call>, i: nat, j: nat, t: nat)
    requires t <= i < j < |slots| && RoundRolling.Touched(calls, slots[i]) && RoundRolling.Touched(calls, slots[j])
    ensures RoundRolling.CountTouched(slots, calls, t) >= 2
    decreases i - t
  {
    if t < i {
      TouchedTwice(slots, calls, i, j, t + 1);
    } else {
      TouchedOnce(slots, calls, j, t + 1);
    }
  }

  lemma {:induction false} TouchedOnce(slots: seq<Pod>, calls: seq<Call>, j: nat, t: nat)
    requires t <= j < |slots| && RoundRolling.Touched(calls, slots[j])
    ensures RoundRolling.CountTouched(slots, calls, t) >= 1
    decreases j - t
  {
    if t < j {
      TouchedOnce(slots, calls, j, t + 1);
    }
  }

  /** Under Omega the set of a group has one pod for each of the group's coordinates. */
  lemma OmegaPlacesOnePodPerCoordinate(g: Group, c: nat)
    requires c < |g.zoneset|
    ensures Assigned(GroupSize(Omega, g), |g.zoneset|, c) == 1
  {
    var m := |g.zoneset|;
    PlacementIsBalanced(m, m, c);
    DivModUnique(m, m, 1, 0);
  }
}
