/** What the status counters count: the in-memory pods mirror the API server, and the counters are those of
    the API server less exactly the pods the code lowers them for without losing one
    (controllers/stateful_set_control.go:303-344, 389-427, 518-526, 598-600). */
module RoundLedger {
  import opened Pods
  import opened RoundSpec
  import opened RoundOrder
  import opened RoundRolling
  import opened RoundCompletion
  import RoundSnapshot

  // ---------- listings and mirrors ----------

  /** `pods` lists the API server's pods of the set: every one once. */
  ghost predicate Lists(pods: seq<Pod>, store: Store) {
    && (forall i, j | 0 <= i < j < |pods| :: pods[i].key != pods[j].key)
    && (forall p | p in pods :: p.key in store && store[p.key] == p)
    && (forall k | k in store :: store[k] in pods && store[k].key == k)
  }

  ghost predicate FaultFree(job: Job) {
    forall k: nat :: job.oracle(k).Ok?
  }

  /** The API server's copy differs at most in the fields upkeep writes. */
  predicate Copied(store: Store, p: Pod) {
    p.key in store && store[p.key] == p.(cond := store[p.key].cond, conforms := store[p.key].conforms)
  }

  /** A slot is either empty here and there, or its pod is stored. */
  predicate SlotMirrored(store: Store, p: Pod) {
    if Created(p) then Copied(store, p) else p.key !in store && !p.terminating
  }

  /** Replacing a failed pod needs the canonical name of the slot to be free. */
  predicate CanReplace(store: Store, p: Pod) {
    p.phase.Failed? ==> p.key == Slot(p.key.ordinal) || Slot(p.key.ordinal) !in store
  }

  predicate CondemnedKeys(job: Job) {
    && (forall j | 0 <= j < |job.condemned| :: job.condemned[j].key.ordinal >= job.sts.replicas)
    && (forall i, j | 0 <= i < j < |job.condemned| :: job.condemned[i].key != job.condemned[j].key)
  }

  predicate CondemnedMirrored(job: Job, store: Store, left: nat) {
    left <= |job.condemned|
    && forall j | 0 <= j < left :: Created(job.condemned[j]) && Copied(store, job.condemned[j])
  }

  function PatchedKeys(log: seq<Call>): set<Key> {
    set c | c in log && c.action.Patch? && c.outcome.Ok? :: c.action.pod.key
  }

  ghost predicate Mirrors(job: Job, m: Machine) {
    && Indexed(m.replicas) && CondemnedKeys(job)
    && match m.pc
       case AtSlot(i) =>
         && PatchedKeys(m.log) == {}
         && (forall j | 0 <= j < |m.replicas| :: SlotMirrored(m.store, m.replicas[j]))
         && (forall j | i <= j < |m.replicas| :: CanReplace(m.store, m.replicas[j]))
         && (forall j | 0 <= j < i <= |m.replicas| :: Created(m.replicas[j]))
         && CondemnedMirrored(job, m.store, |job.condemned|)
       case AtScale(left) =>
         && PatchedKeys(m.log) == {}
         && (forall j | 0 <= j < |m.replicas| :: Created(m.replicas[j]) && Copied(m.store, m.replicas[j]))
         && CondemnedMirrored(job, m.store, left)
       case AtGate =>
         && PatchedKeys(m.log) == {}
         && (forall j | 0 <= j < |m.replicas| :: Created(m.replicas[j]) && Copied(m.store, m.replicas[j]))
       case AtRoll(left, _) =>
         && (forall j | 0 <= j < left <= |m.replicas| :: Created(m.replicas[j]) && Copied(m.store, m.replicas[j]))
         && (forall j | 0 <= j < left <= |m.replicas| :: m.replicas[j].key !in PatchedKeys(m.log))
       case Done(_) => true
  }

  // ---------- what the counters count ----------

  /** Surviving non-terminating pods with this label that were not patched this round. */
  function Holding(store: Store, log: seq<Call>, rev: string): set<Key> {
    set k | k in store && Live(store[k]) && store[k].revision == rev && k !in PatchedKeys(log)
  }

  /** Slots filled, less slots emptied. */
  function CountFilled(slots: seq<Pod>, replicas: seq<Pod>, i: nat): int
    requires i <= |slots| == |replicas|
  {
    if i == 0 then 0
    else CountFilled(slots, replicas, i - 1) + Bit(Created(replicas[i - 1])) - Bit(Created(slots[i - 1]))
  }

  /** The outcomes of an in-place attempt after which the pod stays as it was. */
  predicate FailedAttempt(job: Job, o: Outcome) {
    o.Conflict? || (o.Error? && IsInPlaceOnly(job.sts))
  }

  /** The call lowers the counter of its pod's revision although that pod was never counted, because it is
      failed and terminating, or still counts, because the in-place attempt failed. */
  predicate Miscounted(job: Job, c: Call) {
    match c.action
    case Delete(p) => c.outcome.Ok? && p.phase.Failed? && p.terminating
    case SetCondition(_, value) => value.IsFalse? && FailedAttempt(job, c.outcome)
    case Patch(_, _, _) => FailedAttempt(job, c.outcome)
    case _ => false
  }

  function Miscounts(job: Job, log: seq<Call>, rev: string): nat {
    if log == [] then 0
    else
      var c := log[|log| - 1];
      Miscounts(job, log[..|log| - 1], rev) + if Miscounted(job, c) && c.action.pod.revision == rev then 1 else 0
  }

  lemma MiscountsAppend(job: Job, log: seq<Call>, c: Call, rev: string)
    ensures Miscounts(job, log + [c], rev) ==
      Miscounts(job, log, rev) + Bit(Miscounted(job, c) && c.action.pod.revision == rev)
  {
    assert (log + [c])[..|log|] == log;
  }

  /** What the counter of a revision should be, as far as the code goes. */
  function Counted(job: Job, m: Machine, rev: string): int {
    |Holding(m.store, m.log, rev)| - Miscounts(job, m.log, rev)
  }

  ghost predicate Ledger(job: Job, slots: seq<Pod>, n: nat, m: Machine) {
    && |slots| == |m.replicas|
    && m.status.replicas == n + CountFilled(slots, m.replicas, |slots|)
    && m.status.current == Counted(job, m, job.cur)
    && m.status.updated == Counted(job, m, job.upd)
    && |m.store| <= m.status.replicas
    && (m.pc.AtSlot? ==> forall j | m.pc.i <= j < |slots| :: m.replicas[j] == slots[j])
  }

  function Bit(b: bool): int {
    if b then 1 else 0
  }

  lemma OffOne<T>(a: set<T>, b: set<T>, k: T)
    requires a - {k} == b - {k}
    ensures |b| == |a| - Bit(k in a) + Bit(k in b)
  {
    assert k in a ==> a == (a - {k}) + {k};
    assert k !in a ==> a == a - {k};
    assert k in b ==> b == (b - {k}) + {k};
    assert k !in b ==> b == b - {k};
  }

  lemma ApplyFrame(store: Store, call: Call)
    ensures forall k | k != call.action.pod.key ::
      (k in store <==> k in Apply(store, call)) && (k in store ==> Apply(store, call)[k] == store[k])
  {
  }

  lemma PatchedAppend(log: seq<Call>, call: Call)
    ensures PatchedKeys(log + [call]) ==
      PatchedKeys(log) + (if call.action.Patch? && call.outcome.Ok? then {call.action.pod.key} else {})
  {
    var log' := log + [call];
    assert forall c | c in log' :: c in log || c == call;
    assert forall c | c in log :: c in log';
    assert call in log';
  }

  /** One call moves the counted sets only at the pod it is about. */
  lemma CallCounts(job: Job, m: Machine, a: Action, rev: string)
    ensures
      var m', k := Do(job, m, a), a.pod.key;
      |Holding(m'.store, m'.log, rev)| ==
        |Holding(m.store, m.log, rev)|
        - Bit(k in Holding(m.store, m.log, rev)) + Bit(k in Holding(m'.store, m'.log, rev))
  {
    hide Apply, PatchedKeys, Holding;
    var m', k := Do(job, m, a), a.pod.key;
    HoldingOff(job, m, a, rev);
    OffOne(Holding(m.store, m.log, rev), Holding(m'.store, m'.log, rev), k);
  }

  lemma HoldingOff(job: Job, m: Machine, a: Action, rev: string)
    ensures
      var m', k := Do(job, m, a), a.pod.key;
      Holding(m.store, m.log, rev) - {k} == Holding(m'.store, m'.log, rev) - {k}
  {
    hide Apply, PatchedKeys, Live;
    var call, k := Call(a, job.oracle(|m.log|)), a.pod.key;
    ApplyFrame(m.store, call);
    PatchedAppend(m.log, call);
    var m' := Do(job, m, a);
    forall k' | k' != k
      ensures k' in Holding(m.store, m.log, rev) <==> k' in Holding(m'.store, m'.log, rev)
    {
      assert k' in PatchedKeys(m.log) <==> k' in PatchedKeys(m'.log);
    }
  }

  lemma {:induction false} CountFilledUpdate(slots: seq<Pod>, replicas: seq<Pod>, i: nat, p: Pod, n: nat)
    requires i < |slots| == |replicas| && n <= |slots|
    ensures
      CountFilled(slots, replicas[i := p], n) == CountFilled(slots, replicas, n)
        + (if i < n then Bit(Created(p)) - Bit(Created(replicas[i])) else 0)
  {
    if n > 0 {
      CountFilledUpdate(slots, replicas, i, p, n - 1);
    }
  }

  // ---------- effect of the steps ----------

  ghost predicate AgreeOff(store: Store, store': Store, o: int) {
    forall k: Key | k.ordinal != o :: (k in store <==> k in store') && (k in store ==> store'[k] == store[k])
  }

  predicate Balanced(job: Job, m: Machine, m': Machine) {
    && m'.status.current - Counted(job, m', job.cur) == m.status.current - Counted(job, m, job.cur)
    && m'.status.updated - Counted(job, m', job.upd) == m.status.updated - Counted(job, m, job.upd)
    && |m'.store| - |m.store| <= m'.status.replicas - m.status.replicas
  }

  /** A step about slot i alone, with the counters following. */
  ghost predicate SlotEffect(job: Job, m: Machine, m': Machine, i: nat)
    requires i < |m.replicas|
  {
    && |m'.replicas| == |m.replicas| && m'.replicas == m.replicas[i := m'.replicas[i]]
    && m'.replicas[i].key.ordinal == i && SlotMirrored(m'.store, m'.replicas[i])
    && AgreeOff(m.store, m'.store, i) && PatchedKeys(m'.log) == {}
    && Balanced(job, m, m')
    && m'.status.replicas - m.status.replicas == Bit(Created(m'.replicas[i])) - Bit(Created(m.replicas[i]))
  }

  /** A call that fails leaves everything that is counted alone. */
  lemma FailedCallKeeps(job: Job, m: Machine, a: Action)
    requires !job.oracle(|m.log|).Ok?
    ensures
      var m', c := Do(job, m, a), Call(a, job.oracle(|m.log|));
      && m'.store == m.store && PatchedKeys(m'.log) == PatchedKeys(m.log)
      && forall rev :: Counted(job, m', rev) ==
           Counted(job, m, rev) - Bit(Miscounted(job, c) && a.pod.revision == rev)
  {
    hide PatchedKeys, Miscounts, Miscounted;
    var c := Call(a, job.oracle(|m.log|));
    PatchedAppend(m.log, c);
    forall rev
      ensures Miscounts(job, m.log + [c], rev) ==
        Miscounts(job, m.log, rev) + Bit(Miscounted(job, c) && a.pod.revision == rev)
    {
      MiscountsAppend(job, m.log, c, rev);
    }
  }

  /** A successful call moves the count of a revision at its pod only. */
  lemma CallCounted(job: Job, m: Machine, a: Action, rev: string)
    requires job.oracle(|m.log|).Ok?
    ensures
      var m', k, c := Do(job, m, a), a.pod.key, Call(a, Ok);
      && Counted(job, m', rev) ==
           Counted(job, m, rev) - Bit(k in Holding(m.store, m.log, rev)) + Bit(k in Holding(m'.store, m'.log, rev))
           - Bit(Miscounted(job, c) && a.pod.revision == rev)
      && PatchedKeys(m'.log) == PatchedKeys(m.log) + (if a.Patch? then {k} else {})
  {
    hide Apply, PatchedKeys, Holding, Miscounts, Miscounted;
    CallCounts(job, m, a, rev);
    PatchedAppend(m.log, Call(a, Ok));
    MiscountsAppend(job, m.log, Call(a, Ok), rev);
  }

  /** A failed pod is deleted from the API server at once, and its slot is empty again; its counter falls by
      one, also if it was terminating and not counted. */
  lemma FailedGoes(job: Job, m: Machine, p: Pod)
    requires job.oracle(|m.log|).Ok? && PatchedKeys(m.log) == {} && p.phase.Failed? && Copied(m.store, p)
    ensures
      var m' := Do(job, m, Delete(p));
      && m'.store == m.store - {p.key} && |m'.store| == |m.store| - 1 && PatchedKeys(m'.log) == {}
      && Counted(job, m', job.cur) == Counted(job, m, job.cur) - Bit(p.revision == job.cur)
      && Counted(job, m', job.upd) == Counted(job, m, job.upd) - Bit(p.revision == job.upd)
  {
    hide PatchedKeys, Miscounts, Counted;
    CallCounted(job, m, Delete(p), job.cur);
    CallCounted(job, m, Delete(p), job.upd);
    assert |m.store - {p.key}| == |m.store| - 1 by {
      assert (m.store - {p.key}).Keys == m.store.Keys - {p.key};
    }
  }

  lemma RecreateEffect(job: Job, m: Machine, i: nat)
    requires i < |m.replicas| && !m.pc.Done? && PatchedKeys(m.log) == {}
    requires m.replicas[i].key.ordinal == i
    requires SlotMirrored(m.store, m.replicas[i]) && CanReplace(m.store, m.replicas[i])
    ensures SlotEffect(job, m, RecreateFailed(job, m, i), i)
    ensures
      var m' := RecreateFailed(job, m, i);
      m'.pc == Done(false) || (m'.pc == m.pc && !m'.replicas[i].phase.Failed?)
  {
    hide PatchedKeys, Holding, Miscounts, Apply;
    var p := m.replicas[i];
    if p.phase.Failed? {
      if job.oracle(|m.log|).Ok? {
        FailedGoes(job, m, p);
      } else {
        FailedCallKeeps(job, m, Delete(p));
      }
    }
  }

  lemma CreateEffect(job: Job, m: Machine, i: nat)
    requires i < |m.replicas| && PatchedKeys(m.log) == {}
    requires m.replicas[i].key.ordinal == i
    requires SlotMirrored(m.store, m.replicas[i]) && m.replicas[i].phase.Unset?
    ensures SlotEffect(job, m, CreateSlot(job, m, i), i)
    ensures CreateSlot(job, m, i).pc != Done(false) ==> Created(CreateSlot(job, m, i).replicas[i])
  {
    hide PatchedKeys, Miscounts;
    var p := m.replicas[i];
    if job.oracle(|m.log|).Ok? {
      CallCounted(job, m, Create(p), job.cur);
      CallCounted(job, m, Create(p), job.upd);
    } else {
      FailedCallKeeps(job, m, Create(p));
    }
  }

  /** Upkeep changes no counted field. */
  lemma UpkeepEffect(job: Job, m: Machine, i: nat, a: Action)
    requires i < |m.replicas| && PatchedKeys(m.log) == {}
    requires m.replicas[i].key.ordinal == i && a.pod == m.replicas[i] && Upkeep(Call(a, Ok))
    requires Created(m.replicas[i]) && SlotMirrored(m.store, m.replicas[i])
    ensures SlotEffect(job, m, Do(job, m, a), i)
  {
    hide PatchedKeys, Counted, Miscounts;
    if job.oracle(|m.log|).Ok? {
      CallCounted(job, m, a, job.cur);
      CallCounted(job, m, a, job.upd);
    } else {
      FailedCallKeeps(job, m, a);
    }
  }

  lemma EffectsCompose(job: Job, a: Machine, b: Machine, c: Machine, i: nat)
    requires i < |a.replicas| && SlotEffect(job, a, b, i) && SlotEffect(job, b, c, i)
    ensures SlotEffect(job, a, c, i)
  {
    hide Counted, PatchedKeys, SlotMirrored;
  }

  lemma EffectIgnoresPC(job: Job, m: Machine, m': Machine, pc: PC, i: nat)
    requires i < |m.replicas| && SlotEffect(job, m, m', i)
    ensures SlotEffect(job, m, m'.(pc := pc), i)
  {
    hide Holding, PatchedKeys, SlotMirrored, Miscounts;
  }

  lemma NoEffect(job: Job, m: Machine, i: nat)
    requires i < |m.replicas| && m.replicas[i].key.ordinal == i && SlotMirrored(m.store, m.replicas[i])
    requires PatchedKeys(m.log) == {}
    ensures SlotEffect(job, m, m, i)
  {
  }

  lemma KeepEffect(job: Job, m: Machine, i: nat)
    requires i < |m.replicas| && PatchedKeys(m.log) == {}
    requires m.replicas[i].key.ordinal == i
    requires Created(m.replicas[i]) && SlotMirrored(m.store, m.replicas[i])
    ensures SlotEffect(job, m, KeepSlot(job, m, i), i) && Created(KeepSlot(job, m, i).replicas[i])
  {
    hide PatchedKeys, Counted, Do, SlotMirrored, ShouldMarkReady, SlotEffect;
    var p := m.replicas[i];
    var marked := Do(job, m, SetCondition(p, IsTrue));
    NoEffect(job, m, i);
    UpkeepEffect(job, m, i, SetCondition(p, IsTrue));
    var m1 := MarkReady(job, m, i);
    DoKeepsReplicas(job, m, SetCondition(p, IsTrue));
    EffectIgnoresPC(job, m, marked, m1.pc, i);
    EffectIgnoresPC(job, m, m, m1.pc, i);
    assert m1 == marked.(pc := m1.pc) || m1 == m;
    assert SlotEffect(job, m, m1, i);
    EffectFacts(job, m, m1, i);
    DoKeepsReplicas(job, m1, Repair(p));
    UpkeepEffect(job, m1, i, Repair(p));
    var repaired, m' := Do(job, m1, Repair(p)), KeepSlot(job, m, i);
    EffectsCompose(job, m, m1, repaired, i);
    EffectIgnoresPC(job, m, m, m'.pc, i);
    EffectIgnoresPC(job, m, m1, m'.pc, i);
    EffectIgnoresPC(job, m, repaired, m'.pc, i);
    assert m' == m.(pc := m'.pc) || m' == m1.(pc := m'.pc) || m' == repaired.(pc := m'.pc);
  }

  lemma DoKeepsReplicas(job: Job, m: Machine, a: Action)
    ensures Do(job, m, a).replicas == m.replicas && Do(job, m, a).status == m.status
  {
  }

  lemma SlotStepEffect(job: Job, m: Machine, i: nat)
    requires i < |m.replicas| && m.pc == AtSlot(i) && PatchedKeys(m.log) == {}
    requires m.replicas[i].key.ordinal == i
    requires SlotMirrored(m.store, m.replicas[i]) && CanReplace(m.store, m.replicas[i])
    ensures SlotEffect(job, m, SlotStep(job, m, i), i)
    ensures SlotStep(job, m, i).pc != Done(false) ==> Created(SlotStep(job, m, i).replicas[i])
  {
    hide RecreateFailed, CreateSlot, KeepSlot, SlotMirrored, SlotEffect;
    RecreateEffect(job, m, i);
    var m1 := RecreateFailed(job, m, i);
    assert m1.replicas[i].key.ordinal == i && SlotMirrored(m1.store, m1.replicas[i]) && PatchedKeys(m1.log) == {}
      && |m1.replicas| == |m.replicas| by { EffectFacts(job, m, m1, i); }
    if m1.pc != Done(false) {
      if Created(m1.replicas[i]) {
        KeepEffect(job, m1, i);
      } else {
        CreateEffect(job, m1, i);
      }
      EffectsCompose(job, m, m1, SlotStep(job, m, i), i);
    }
  }

  lemma EffectFacts(job: Job, m: Machine, m': Machine, i: nat)
    requires i < |m.replicas| && SlotEffect(job, m, m', i)
    ensures |m'.replicas| == |m.replicas| && m'.replicas[i].key.ordinal == i
    ensures SlotMirrored(m'.store, m'.replicas[i]) && PatchedKeys(m'.log) == {}
  {
  }

  lemma SlotLedger(job: Job, slots: seq<Pod>, n: nat, m: Machine)
    requires InRange(job, m) && m.pc.AtSlot? && m.pc.i < |m.replicas|
    requires Mirrors(job, m) && Ledger(job, slots, n, m)
    ensures Mirrors(job, SlotStep(job, m, m.pc.i)) && Ledger(job, slots, n, SlotStep(job, m, m.pc.i))
  {
    hide SlotStep, Counted, PatchedKeys;
    var i := m.pc.i;
    var m' := SlotStep(job, m, i);
    SlotStepEffect(job, m, i);
    SlotNext(job, m, i);
    CountFilledUpdate(slots, m.replicas, i, m'.replicas[i], |slots|);
  }

  lemma SlotNext(job: Job, m: Machine, i: nat)
    requires m.pc == AtSlot(i) && i < |m.replicas|
    ensures SlotStep(job, m, i).pc == AtSlot(i + 1) || SlotStep(job, m, i).pc.Done?
  {
    hide Apply;
  }

  // ---------- scale-down and rolling steps ----------

  lemma DeleteEffect(job: Job, m: Machine, p: Pod)
    requires job.oracle(|m.log|).Ok? && Live(p) && Copied(m.store, p) && p.key !in PatchedKeys(m.log)
    ensures
      var m' := Do(job, m, Delete(p));
      && PatchedKeys(m'.log) == PatchedKeys(m.log) && |m'.store| <= |m.store|
      && Counted(job, m', job.cur) == Counted(job, m, job.cur) - Bit(p.revision == job.cur)
      && Counted(job, m', job.upd) == Counted(job, m, job.upd) - Bit(p.revision == job.upd)
  {
    hide PatchedKeys, Miscounts, Counted;
    CallCounted(job, m, Delete(p), job.cur);
    CallCounted(job, m, Delete(p), job.upd);
    assert (m.store - {p.key}).Keys == m.store.Keys - {p.key};
  }

  lemma ScaleLedger(job: Job, slots: seq<Pod>, n: nat, m: Machine)
    requires InRange(job, m) && m.pc.AtScale? && m.pc.left > 0
    requires Mirrors(job, m) && Ledger(job, slots, n, m)
    ensures Mirrors(job, ScaleStep(job, m, m.pc.left - 1)) && Ledger(job, slots, n, ScaleStep(job, m, m.pc.left - 1))
  {
    hide PatchedKeys, Counted, Apply, CountFilled;
    var p, m' := job.condemned[m.pc.left - 1], ScaleStep(job, m, m.pc.left - 1);
    if !p.terminating {
      if job.oracle(|m.log|).Ok? {
        DeleteEffect(job, m, p);
      } else {
        FailedCallKeeps(job, m, Delete(p));
      }
      ApplyFrame(m.store, Call(Delete(p), job.oracle(|m.log|)));
    }
    var done := Do(job, m, Delete(p));
    CountedIgnoresStatus(job, if m'.log == done.log then done else m, m');
  }

  /** The calls about a stale pod touch no other one, and the counters follow them but for `missed`. */
  ghost predicate StaleMoves(job: Job, m: Machine, m': Machine, k: Key, missed: int) {
    && (m'.pc == m.pc || m'.pc == Done(false)) && m'.replicas == m.replicas && |m'.store| <= |m.store|
    && m'.status.replicas == m.status.replicas
    && m'.status.current - Counted(job, m', job.cur) == m.status.current - Counted(job, m, job.cur) - missed
    && m'.status.updated - Counted(job, m', job.upd) == m.status.updated - Counted(job, m, job.upd)
    && PatchedKeys(m'.log) <= PatchedKeys(m.log) + {k}
    && forall k' | k' != k :: (k' in m.store <==> k' in m'.store) && (k' in m.store ==> m'.store[k'] == m.store[k'])
  }

  ghost predicate StaleEffect(job: Job, m: Machine, m': Machine, k: Key) {
    StaleMoves(job, m, m', k, 0)
  }

  lemma MovesCompose(job: Job, a: Machine, b: Machine, c: Machine, k: Key, x: int, y: int)
    requires StaleMoves(job, a, b, k, x) && StaleMoves(job, b, c, k, y)
    ensures StaleMoves(job, a, c, k, x + y)
  {
    hide Counted, PatchedKeys;
  }

  lemma DeleteStaleMoves(job: Job, m: Machine, p: Pod)
    requires Live(p) && Stale(job, p) && Copied(m.store, p) && p.key !in PatchedKeys(m.log)
    ensures StaleMoves(job, m, DeleteStale(job, m, p), p.key, 0)
  {
    hide PatchedKeys, Holding, Miscounts, Apply;
    if job.oracle(|m.log|).Ok? {
      DeleteEffect(job, m, p);
    } else {
      FailedCallKeeps(job, m, Delete(p));
    }
    ApplyFrame(m.store, Call(Delete(p), job.oracle(|m.log|)));
  }

  /** After a failed attempt the counter is lowered although the pod stays. */
  lemma SettleMoves(job: Job, m: Machine, p: Pod, o: Outcome)
    requires !o.Ok? && Live(p) && Stale(job, p) && Copied(m.store, p) && p.key !in PatchedKeys(m.log)
    ensures StaleMoves(job, m, Settle(job, m, p, o), p.key, Bit(FailedAttempt(job, o) && p.revision == job.cur))
  {
    hide DeleteStale, PatchedKeys, Holding, Miscounts;
    if o.Error? && !IsInPlaceOnly(job.sts) {
      DeleteStaleMoves(job, m, p);
    }
  }

  /** A failed write of an attempt: what it miscounts is made up for when the attempt is settled. */
  lemma FailedWriteMoves(job: Job, m: Machine, p: Pod, a: Action)
    requires !job.oracle(|m.log|).Ok? && a.pod == p && Stale(job, p) && !m.pc.Done?
    requires a == SetCondition(p, IsFalse) || a.Patch?
    ensures
      var missed := Bit(FailedAttempt(job, job.oracle(|m.log|)) && p.revision == job.cur);
      StaleMoves(job, m, Do(job, m, a), p.key, -missed)
  {
    hide PatchedKeys, Counted, Apply;
    FailedCallKeeps(job, m, a);
  }

  lemma BusyMoves(job: Job, m: Machine, p: Pod)
    requires job.oracle(|m.log|).Ok? && Live(p) && Copied(m.store, p) && p.key !in PatchedKeys(m.log)
    ensures
      var m' := Do(job, m, SetCondition(p, IsFalse));
      StaleMoves(job, m, m', p.key, 0) && Copied(m'.store, p) && p.key !in PatchedKeys(m'.log)
  {
    hide PatchedKeys, Counted, Miscounts;
    CallCounted(job, m, SetCondition(p, IsFalse), job.cur);
    CallCounted(job, m, SetCondition(p, IsFalse), job.upd);
  }

  /** The counter of the old revision falls with the label. */
  lemma PatchMoves(job: Job, m: Machine, p: Pod, images: map<string, string>)
    requires job.oracle(|m.log|).Ok? && Live(p) && Stale(job, p) && Copied(m.store, p) && p.key !in PatchedKeys(m.log)
    ensures StaleMoves(job, m, Dropped(job, Do(job, m, Patch(p, job.upd, images)), p), p.key, 0)
  {
    hide PatchedKeys, Counted, Miscounts, Recorded;
    var m' := Do(job, m, Patch(p, job.upd, images));
    CallCounted(job, m, Patch(p, job.upd, images), job.cur);
    CallCounted(job, m, Patch(p, job.upd, images), job.upd);
    CountedIgnoresStatus(job, m', Dropped(job, m', p));
  }

  lemma CountedIgnoresStatus(job: Job, m: Machine, m': Machine)
    requires m'.store == m.store && m'.log == m.log
    ensures forall rev :: Counted(job, m', rev) == Counted(job, m, rev)
  {
  }

  lemma PatchEffect(job: Job, m: Machine, p: Pod, images: map<string, string>)
    requires !m.pc.Done? && Live(p) && Stale(job, p) && Copied(m.store, p) && p.key !in PatchedKeys(m.log)
    ensures StaleEffect(job, m, PatchStale(job, m, p, images), p.key)
  {
    hide PatchedKeys, Counted, Copied, StaleMoves, Settle, Do;
    var r1 := job.oracle(|m.log|);
    var m1 := Do(job, m, SetCondition(p, IsFalse));
    DoKeepsPC(job, m, SetCondition(p, IsFalse));
    if r1.Ok? {
      BusyMoves(job, m, p);
      var r2, m2 := job.oracle(|m1.log|), Do(job, m1, Patch(p, job.upd, images));
      if r2.Ok? {
        PatchMoves(job, m1, p, images);
        MovesCompose(job, m, m1, Dropped(job, m2, p), p.key, 0, 0);
        assert PatchStale(job, m, p, images) == Dropped(job, m2, p) by { SettleOk(job, m2, p); }
      } else {
        FailedAttemptMoves(job, m1, p, Patch(p, job.upd, images));
        MovesCompose(job, m, m1, Settle(job, m2, p, r2), p.key, 0, 0);
      }
    } else {
      FailedAttemptMoves(job, m, p, SetCondition(p, IsFalse));
    }
  }

  lemma SettleOk(job: Job, m: Machine, p: Pod)
    ensures Settle(job, m, p, Ok) == Dropped(job, m, p)
  {
  }

  lemma DoKeepsPC(job: Job, m: Machine, a: Action)
    ensures Do(job, m, a).pc == m.pc
  {
  }

  lemma FailedAttemptMoves(job: Job, m: Machine, p: Pod, a: Action)
    requires !job.oracle(|m.log|).Ok? && a.pod == p && !m.pc.Done?
    requires a == SetCondition(p, IsFalse) || a.Patch?
    requires Live(p) && Stale(job, p) && Copied(m.store, p) && p.key !in PatchedKeys(m.log)
    ensures StaleMoves(job, m, Settle(job, Do(job, m, a), p, job.oracle(|m.log|)), p.key, 0)
  {
    hide PatchedKeys, Counted, StaleMoves, Settle;
    var o, m1 := job.oracle(|m.log|), Do(job, m, a);
    FailedCallKeeps(job, m, a);
    FailedWriteMoves(job, m, p, a);
    SettleMoves(job, m1, p, o);
    var x := Bit(FailedAttempt(job, o) && p.revision == job.cur);
    MovesCompose(job, m, m1, Settle(job, m1, p, o), p.key, -x, x);
  }

  lemma ReplaceEffect(job: Job, m: Machine, p: Pod)
    requires !m.pc.Done?
    requires Created(p) && Stale(job, p) && Copied(m.store, p) && p.key !in PatchedKeys(m.log)
    ensures StaleEffect(job, m, Replace(job, m, p), p.key)
  {
    hide PatchedKeys, PatchStale, DeleteStale, Holding, Miscounts, Copied;
    match InPlacePlan(job, p.revision)
    case None => DeleteStaleMoves(job, m, p);
    case Some(images) =>
      if Completed(p) {
        PatchEffect(job, m, p, images);
      }
  }

  lemma RollLedger(job: Job, slots: seq<Pod>, n: nat, m: Machine)
    requires InRange(job, m) && m.pc.AtRoll? && m.pc.left > UpdateMin(job.sts)
    requires Mirrors(job, m) && Ledger(job, slots, n, m)
    ensures
      var m' := RollStep(job, m, m.pc.left - 1, m.pc.unavailable);
      Mirrors(job, m') && Ledger(job, slots, n, m')
  {
    hide PatchedKeys, Replace, Holding, Miscounts, Completed;
    var p := m.replicas[m.pc.left - 1];
    if Stale(job, p) {
      ReplaceEffect(job, m, p);
    }
  }

  lemma StepLedger(job: Job, slots: seq<Pod>, n: nat, m: Machine)
    requires InRange(job, m) && !m.pc.Done?
    requires Mirrors(job, m) && Ledger(job, slots, n, m)
    ensures Mirrors(job, Step(job, m)) && Ledger(job, slots, n, Step(job, m))
  {
    hide SlotStep, ScaleStep, RollStep, PatchedKeys, Holding, Miscounts, Copied;
    match m.pc
    case AtSlot(i) =>
      if i < |m.replicas| {
        SlotLedger(job, slots, n, m);
      } else {
        assert forall j | 0 <= j < |m.replicas| :: SlotMirrored(m.store, m.replicas[j]);
      }
    case AtScale(left) => if left > 0 { ScaleLedger(job, slots, n, m); }
    case AtGate =>
    case AtRoll(left, u) => if left > UpdateMin(job.sts) { RollLedger(job, slots, n, m); }
    case Done(_) =>
  }

  lemma {:induction false} RunLedger(job: Job, slots: seq<Pod>, n: nat, m: Machine)
    requires InRange(job, m)
    requires Mirrors(job, m) && Ledger(job, slots, n, m)
    ensures Ledger(job, slots, n, Run(job, m))
    decreases Rank(m.pc), Left(job, m.pc)
  {
    if !m.pc.Done? {
      StepLedger(job, slots, n, m);
      RunLedger(job, slots, n, Step(job, m));
    }
  }

  // ---------- the start of a round ----------

  lemma TwiceInMultiset<T>(s: seq<T>, i: nat, j: nat)
    requires i < j < |s| && s[i] == s[j]
    ensures multiset(s)[s[i]] >= 2
  {
    assert s == s[..j] + [s[j]] + s[j + 1..];
    assert s[i] in s[..j];
    assert s[i] in multiset(s[..j]);
  }

  lemma {:induction false} OnceInMultiset(pods: seq<Pod>, p: Pod)
    requires forall i, j | 0 <= i < j < |pods| :: pods[i].key != pods[j].key
    ensures multiset(pods)[p] <= 1
  {
    if pods != [] {
      var n := |pods| - 1;
      assert pods == pods[..n] + [pods[n]];
      OnceInMultiset(pods[..n], p);
      assert p == pods[n] ==> p !in pods[..n];
      assert p in multiset(pods[..n]) <==> p in pods[..n];
    }
  }

  lemma {:induction false} BeyondFacts(pods: seq<Pod>, n: int)
    ensures multiset(Beyond(pods, n)) <= multiset(pods)
    ensures forall p | p in Beyond(pods, n) :: p.key.ordinal >= n
    ensures forall p | p in pods && p.key.ordinal >= n :: p in Beyond(pods, n)
  {
    if pods != [] {
      assert pods == pods[..|pods| - 1] + [pods[|pods| - 1]];
      BeyondFacts(pods[..|pods| - 1], n);
    }
  }

  lemma CondemnedExactly(job: Job, pods: seq<Pod>)
    requires FromListing(job, pods)
    ensures forall p :: p in job.condemned <==> p in pods && p.key.ordinal >= job.sts.replicas
  {
    var far := Beyond(pods, job.sts.replicas);
    BeyondFacts(pods, job.sts.replicas);
    BeyondListed(pods, job.sts.replicas);
    forall p
      ensures p in job.condemned <==> p in far
    {
      assert p in multiset(job.condemned) <==> p in multiset(far);
    }
  }

  lemma CondemnedDistinct(job: Job, pods: seq<Pod>, store: Store)
    requires FromListing(job, pods) && Lists(pods, store)
    ensures CondemnedKeys(job)
    ensures forall p | p in job.condemned :: p in pods
  {
    var far := Beyond(pods, job.sts.replicas);
    BeyondFacts(pods, job.sts.replicas);
    CondemnedListed(job, pods);
    forall j | 0 <= j < |job.condemned|
      ensures job.condemned[j].key.ordinal >= job.sts.replicas
    {
      assert job.condemned[j] in multiset(job.condemned);
      assert job.condemned[j] in multiset(far);
    }
    forall i, j | 0 <= i < j < |job.condemned|
      ensures job.condemned[i].key != job.condemned[j].key
    {
      if job.condemned[i].key == job.condemned[j].key {
        assert job.condemned[i] in pods && job.condemned[j] in pods;
        OnceInMultiset(pods, job.condemned[i]);
        assert multiset(far)[job.condemned[i]] <= multiset(pods)[job.condemned[i]];
        TwiceInMultiset(job.condemned, i, j);
        assert false;
      }
    }
  }

  function LiveKeys(pods: seq<Pod>, rev: string): set<Key> {
    set p | p in pods && Live(p) && p.revision == rev :: p.key
  }

  lemma LiveKeysAppend(pods: seq<Pod>, p: Pod, rev: string)
    requires forall q | q in pods :: q.key != p.key
    ensures |LiveKeys(pods + [p], rev)| == |LiveKeys(pods, rev)| + Bit(Live(p) && p.revision == rev)
  {
    var all := pods + [p];
    assert forall q | q in all :: q in pods || q == p;
    assert forall q | q in pods :: q in all;
    assert p in all;
    assert LiveKeys(all, rev) == LiveKeys(pods, rev) + (if Live(p) && p.revision == rev then {p.key} else {});
  }

  lemma {:induction false} TallyCounts(pods: seq<Pod>, cur: string, upd: string)
    requires forall i, j | 0 <= i < j < |pods| :: pods[i].key != pods[j].key
    ensures Tally(pods, cur, upd).current == |LiveKeys(pods, cur)|
    ensures Tally(pods, cur, upd).updated == |LiveKeys(pods, upd)|
  {
    if pods != [] {
      var n := |pods| - 1;
      assert pods == pods[..n] + [pods[n]];
      TallyCounts(pods[..n], cur, upd);
      LiveKeysAppend(pods[..n], pods[n], cur);
      LiveKeysAppend(pods[..n], pods[n], upd);
    }
  }

  lemma {:induction false} KeysCount(pods: seq<Pod>)
    requires forall i, j | 0 <= i < j < |pods| :: pods[i].key != pods[j].key
    ensures |(set p | p in pods :: p.key)| == |pods|
  {
    if pods != [] {
      var n := |pods| - 1;
      assert pods == pods[..n] + [pods[n]];
      KeysCount(pods[..n]);
      assert forall q | q in pods :: q in pods[..n] || q == pods[n];
      assert (set p | p in pods :: p.key) == (set p | p in pods[..n] :: p.key) + {pods[n].key};
    }
  }

  /** A fresh listing of accepted pods, where the canonical name is free for each failed pod's replacement. */
  ghost predicate Accountable(job: Job, pods: seq<Pod>, store: Store) {
    && Lists(pods, store)
    && forall p | p in pods ::
         Created(p) && (0 <= p.key.ordinal < job.sts.replicas ==> CanReplace(store, p))
  }

  /** The listings for which fault-free counting is exact: no replica is both failed and terminating. */
  ghost predicate Countable(job: Job, pods: seq<Pod>, store: Store) {
    && Accountable(job, pods, store)
    && forall p | p in pods && 0 <= p.key.ordinal < job.sts.replicas :: p.phase.Failed? ==> !p.terminating
  }

  lemma StartMirrors(job: Job, pods: seq<Pod>, store: Store)
    requires FromListing(job, pods) && Accountable(job, pods, store)
    ensures Mirrors(job, Start(job, pods, store))
  {
    CondemnedDistinct(job, pods, store);
    SlotsIndexed(job, pods);
    var slots := Slots(job, pods);
    forall j | 0 <= j < |slots|
      ensures SlotMirrored(store, slots[j]) && CanReplace(store, slots[j])
    {
      SlotPodHasOrdinal(pods, j);
    }
    assert PatchedKeys([]) == {};
  }

  lemma {:induction false} NothingFilled(slots: seq<Pod>, i: nat)
    requires i <= |slots|
    ensures CountFilled(slots, slots, i) == 0
  {
    if i > 0 {
      NothingFilled(slots, i - 1);
    }
  }

  lemma StartLedger(job: Job, pods: seq<Pod>, store: Store)
    requires Accountable(job, pods, store)
    ensures Ledger(job, Slots(job, pods), |pods|, Start(job, pods, store))
  {
    TallyBounds(job, pods);
    TallyCounts(pods, job.cur, job.upd);
    assert PatchedKeys([]) == {};
    assert Holding(store, [], job.cur) == LiveKeys(pods, job.cur);
    assert Holding(store, [], job.upd) == LiveKeys(pods, job.upd);
    KeysCount(pods);
    assert store.Keys == (set p | p in pods :: p.key);
    NothingFilled(Slots(job, pods), job.sts.replicas);
  }

  /** The counters of any round, whatever its outcomes. Replicas counts the listed pods and the slots filled,
      less those emptied. ReadyReplicas counts the listed pods that run and are ready. CurrentReplicas and
      UpdatedReplicas count the surviving non-terminating pods of their revision that this round did not patch,
      less exactly the failed and terminating replicas of that revision it deleted and, for CurrentReplicas, the
      failed in-place attempts. */
  lemma CountersMissExactly(job: Job, pods: seq<Pod>, store: Store)
    requires FromListing(job, pods) && Accountable(job, pods, store)
    ensures
      var m, slots := Round(job, pods, store), Slots(job, pods);
      && |m.replicas| == |slots|
      && m.status.replicas == |pods| + CountFilled(slots, m.replicas, |slots|)
      && m.status.ready == |RoundSnapshot.ReadyOnes(pods)|
      && m.status.current == |Holding(m.store, m.log, job.cur)| - Miscounts(job, m.log, job.cur)
      && m.status.updated == |Holding(m.store, m.log, job.upd)| - Miscounts(job, m.log, job.upd)
      && |m.store| <= m.status.replicas
  {
    var s := Start(job, pods, store);
    StartMirrors(job, pods, store);
    StartLedger(job, pods, store);
    RunLedger(job, Slots(job, pods), |pods|, s);
    RoundSnapshot.ReadyIsListed(job, pods, store);
  }

  // ---------- fault-free rounds ----------

  /** No call so far was miscounted, and no failed pod to come is terminating. */
  predicate Tame(job: Job, m: Machine) {
    && (forall j | 0 <= j < |m.log| :: !Miscounted(job, m.log[j]))
    && (m.pc.AtSlot? ==> forall j | m.pc.i <= j < |m.replicas| ::
          m.replicas[j].phase.Failed? ==> !m.replicas[j].terminating)
  }

  lemma KeepTame(job: Job, m: Machine, i: nat)
    requires FaultFree(job) && i < |m.replicas| && forall j | 0 <= j < |m.log| :: !Miscounted(job, m.log[j])
    ensures
      var m' := KeepSlot(job, m, i);
      m'.replicas == m.replicas && forall j | 0 <= j < |m'.log| :: !Miscounted(job, m'.log[j])
  {
    hide Apply, ShouldMarkReady;
  }

  lemma SlotTame(job: Job, m: Machine, i: nat)
    requires FaultFree(job) && m.pc == AtSlot(i) && i < |m.replicas| && Tame(job, m)
    ensures Tame(job, SlotStep(job, m, i))
  {
    hide Apply, KeepSlot;
    KeepTame(job, RecreateFailed(job, m, i), i);
  }

  lemma ReplaceTame(job: Job, m: Machine, p: Pod)
    requires FaultFree(job) && Stale(job, p) && forall j | 0 <= j < |m.log| :: !Miscounted(job, m.log[j])
    ensures var m' := Replace(job, m, p); forall j | 0 <= j < |m'.log| :: !Miscounted(job, m'.log[j])
  {
    hide Apply, Completed;
  }

  lemma {:induction false} RunTame(job: Job, m: Machine)
    requires FaultFree(job) && InRange(job, m) && Tame(job, m)
    ensures Tame(job, Run(job, m))
    decreases Rank(m.pc), Left(job, m.pc)
  {
    if !m.pc.Done? {
      StepTame(job, m);
      RunTame(job, Step(job, m));
    }
  }

  lemma StepTame(job: Job, m: Machine)
    requires FaultFree(job) && InRange(job, m) && !m.pc.Done? && Tame(job, m)
    ensures Tame(job, Step(job, m))
  {
    hide Apply, SlotStep, Replace, Unavailable, MaxUnavailable;
    match m.pc
    case AtSlot(i) => if i < |m.replicas| { SlotTame(job, m, i); }
    case AtRoll(left, u) =>
      if left > UpdateMin(job.sts) && Stale(job, m.replicas[left - 1]) {
        ReplaceTame(job, m, m.replicas[left - 1]);
      }
    case _ =>
  }

  lemma {:induction false} NothingMiscounted(job: Job, log: seq<Call>, rev: string)
    requires forall j | 0 <= j < |log| :: !Miscounted(job, log[j])
    ensures Miscounts(job, log, rev) == 0
  {
    if log != [] {
      NothingMiscounted(job, log[..|log| - 1], rev);
    }
  }

  /** Counters of a fault-free round without a replica both failed and terminating: CurrentReplicas and
      UpdatedReplicas count the surviving non-terminating pods of their revision that this round did not
      patch, so both lie between zero and Replicas. */
  lemma CountersMatchTheCluster(job: Job, pods: seq<Pod>, store: Store)
    requires FaultFree(job) && FromListing(job, pods) && Countable(job, pods, store)
    ensures
      var m, slots := Round(job, pods, store), Slots(job, pods);
      && |m.replicas| == |slots|
      && m.status.replicas == |pods| + CountFilled(slots, m.replicas, |slots|)
      && m.status.current == |Holding(m.store, m.log, job.cur)|
      && m.status.updated == |Holding(m.store, m.log, job.upd)|
      && 0 <= m.status.current <= m.status.replicas
      && 0 <= m.status.updated <= m.status.replicas
  {
    var s := Start(job, pods, store);
    CountersMissExactly(job, pods, store);
    forall j | 0 <= j < job.sts.replicas
      ensures Slots(job, pods)[j].phase.Failed? ==> !Slots(job, pods)[j].terminating
    {
      SlotPodHasOrdinal(pods, j);
    }
    RunTame(job, s);
    var m := Run(job, s);
    NothingMiscounted(job, m.log, job.cur);
    NothingMiscounted(job, m.log, job.upd);
    SubsetCount(Holding(m.store, m.log, job.cur), m.store.Keys);
    SubsetCount(Holding(m.store, m.log, job.upd), m.store.Keys);
  }

  /** When UpdatedReplicas or CurrentReplicas is right, for any outcomes. */
  lemma CountersRightIff(job: Job, pods: seq<Pod>, store: Store)
    requires FromListing(job, pods) && Accountable(job, pods, store)
    ensures
      var m := Round(job, pods, store);
      (m.status.current == |Holding(m.store, m.log, job.cur)| && m.status.updated == |Holding(m.store, m.log, job.upd)|)
      <==> forall c | c in m.log && Miscounted(job, c) :: c.action.pod.revision !in {job.cur, job.upd}
  {
    hide Round, Holding;
    CountersMissExactly(job, pods, store);
    var log := Round(job, pods, store).log;
    NoneMiscountedIff(job, log, job.cur);
    NoneMiscountedIff(job, log, job.upd);
  }

  lemma {:induction false} NoneMiscountedIff(job: Job, log: seq<Call>, rev: string)
    ensures Miscounts(job, log, rev) == 0 <==>
      forall c | c in log && Miscounted(job, c) :: c.action.pod.revision != rev
  {
    hide Miscounted;
    if log != [] {
      var init, last := log[..|log| - 1], log[|log| - 1];
      assert log == init + [last];
      NoneMiscountedIff(job, init, rev);
      assert forall c | c in init :: c in log;
      assert last in log;
    }
  }

  lemma SubsetCount<T>(a: set<T>, b: set<T>)
    requires a <= b
    ensures |a| <= |b|
  {
    assert b == a + (b - a);
  }
}
