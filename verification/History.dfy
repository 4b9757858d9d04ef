/** The revision history of a StatefulSet: finding, bumping, creating and truncating revisions
    (controllers/stateful_set_control.go:161-258, controllers/revision_control.go:35-107,
    controllers/stateful_set_utils.go:360-369). */
module History {
  import opened Pods

  datatype Revision = Revision(name: string, content: string, number: int)

  /** The stored revisions of one set, by name. */
  type Revisions = map<string, Revision>

  /** The name a content hashes to under a collision count. */
  type Hash = (string, nat) -> string

  ghost predicate Injective(hash: Hash) {
    forall c, i, j :: hash(c, i) == hash(c, j) ==> i == j
  }

  // ---------- listings ----------

  ghost predicate ListsAll(revs: seq<Revision>, items: Revisions) {
    && (forall i, j | 0 <= i < j < |revs| :: revs[i].name != revs[j].name)
    && (forall r | r in revs :: r.name in items && items[r.name] == r)
    && (forall n | n in items :: items[n] in revs && items[n].name == n)
  }

  predicate Sorted(revs: seq<Revision>) {
    forall i, j | 0 <= i < j < |revs| :: revs[i].number <= revs[j].number
  }

  /** Names are keys; contents and numbers are pairwise distinct. */
  ghost predicate HistoryOk(items: Revisions) {
    && (forall n | n in items :: items[n].name == n)
    && forall a, b | a in items && b in items && a != b ::
         items[a].content != items[b].content && items[a].number != items[b].number
  }

  function NextNumber(revs: seq<Revision>): int {
    if revs == [] then 1 else revs[|revs| - 1].number + 1
  }

  /** The last revision of the listing with this content. */
  function LastEqual(revs: seq<Revision>, content: string): Option<Revision> {
    if revs == [] then None
    else if revs[|revs| - 1].content == content then Some(revs[|revs| - 1])
    else LastEqual(revs[..|revs| - 1], content)
  }

  function LastNamed(revs: seq<Revision>, name: string): Option<Revision> {
    if revs == [] then None
    else if revs[|revs| - 1].name == name then Some(revs[|revs| - 1])
    else LastNamed(revs[..|revs| - 1], name)
  }

  // ---------- creating a revision ----------

  /** The first collision count, from k on, whose name is free or holds this content. A probed name is
      never probed again. */
  function Probe(items: Revisions, hash: Hash, content: string, k: nat): nat
    decreases |items|
  {
    var name := hash(content, k);
    if name in items && items[name].content != content then
      Shrinks(items, name);
      Probe(items - {name}, hash, content, k + 1)
    else k
  }

  lemma Shrinks(items: Revisions, name: string)
    requires name in items
    ensures |items - {name}| == |items| - 1
  {
    assert (items - {name}).Keys == items.Keys - {name};
  }

  predicate Collides(items: Revisions, hash: Hash, content: string, k: nat) {
    hash(content, k) in items && items[hash(content, k)].content != content
  }

  /** If names never repeat, probing meets true collisions only, at most one per stored revision, and
      stops at a name that is free or holds the content. */
  lemma {:induction false} ProbeStops(items: Revisions, hash: Hash, content: string, k: nat)
    requires Injective(hash)
    ensures
      var e := Probe(items, hash, content, k);
      && k <= e <= k + |items|
      && (forall j: nat | k <= j < e :: Collides(items, hash, content, j))
      && !Collides(items, hash, content, e)
    decreases |items|
  {
    var name := hash(content, k);
    if Collides(items, hash, content, k) {
      Shrinks(items, name);
      ProbeStops(items - {name}, hash, content, k + 1);
      forall j: nat | j > k
        ensures Collides(items - {name}, hash, content, j) <==> Collides(items, hash, content, j)
      {
        assert hash(content, j) != name;
      }
    }
  }

  // ---------- getStatefulSetRevisions ----------

  datatype Advanced = Advanced(items: Revisions, upd: Revision, collisions: nat)

  function CreateRevision(items: Revisions, hash: Hash, content: string, number: int, collisions: nat): Advanced {
    var e := Probe(items, hash, content, collisions);
    var name := hash(content, e);
    if name in items then Advanced(items, items[name], e)
    else var r := Revision(name, content, number); Advanced(items[name := r], r, e)
  }

  /** The update revision for a template: the newest if it already holds it, an older one moved to the
      top, or a new one. */
  function Advance(items: Revisions, revs: seq<Revision>, hash: Hash, content: string, collisions: nat): Advanced {
    var equal := LastEqual(revs, content);
    if equal.None? then CreateRevision(items, hash, content, NextNumber(revs), collisions)
    else if revs[|revs| - 1].content == equal.value.content then Advanced(items, revs[|revs| - 1], collisions)
    else
      var r := equal.value.(number := NextNumber(revs));
      Advanced(items[r.name := r], r, collisions)
  }

  function CurrentRevision(revs: seq<Revision>, name: string, upd: Revision): Revision {
    match LastNamed(revs, name) case Some(r) => r case None => upd
  }

  /** The current revision is the stored one of the recorded name, whatever the template; the update revision
      stands in only if that name is gone. */
  lemma CurrentIsRecorded(revs: seq<Revision>, name: string, upd: Revision)
    ensures
      var current := CurrentRevision(revs, name, upd);
      if exists r :: r in revs && r.name == name then current in revs && current.name == name else current == upd
  {
    LastNamedFacts(revs, name);
  }

  lemma {:induction false} LastEqualFacts(revs: seq<Revision>, content: string)
    ensures LastEqual(revs, content).Some? ==>
      LastEqual(revs, content).value in revs && LastEqual(revs, content).value.content == content
    ensures LastEqual(revs, content).None? ==> forall r | r in revs :: r.content != content
    ensures revs != [] && revs[|revs| - 1].content == content ==> LastEqual(revs, content) == Some(revs[|revs| - 1])
  {
    if revs != [] {
      assert revs == revs[..|revs| - 1] + [revs[|revs| - 1]];
      LastEqualFacts(revs[..|revs| - 1], content);
    }
  }

  lemma {:induction false} LastNamedFacts(revs: seq<Revision>, name: string)
    ensures LastNamed(revs, name).Some? ==>
      LastNamed(revs, name).value in revs && LastNamed(revs, name).value.name == name
    ensures LastNamed(revs, name).None? ==> forall r | r in revs :: r.name != name
  {
    if revs != [] {
      assert revs == revs[..|revs| - 1] + [revs[|revs| - 1]];
      LastNamedFacts(revs[..|revs| - 1], name);
    }
  }

  /** The update revision is stored with the template, and stored contents stay. */
  lemma AdvanceKeepsContents(items: Revisions, revs: seq<Revision>, hash: Hash, content: string, collisions: nat)
    requires Injective(hash) && ListsAll(revs, items)
    ensures
      var a := Advance(items, revs, hash, content, collisions);
      && a.upd.content == content && a.upd.name in a.items && a.items[a.upd.name].content == content
      && forall n | n in items :: n in a.items && a.items[n].content == items[n].content
  {
    LastEqualFacts(revs, content);
    ProbeStops(items, hash, content, collisions);
  }

  predicate Newest(items: Revisions, r: Revision) {
    r.name in items && items[r.name] == r && forall n | n in items && n != r.name :: items[n].number < r.number
  }

  lemma NextNumberIsGreatest(items: Revisions, revs: seq<Revision>)
    requires ListsAll(revs, items) && Sorted(revs)
    ensures forall n | n in items :: items[n].number < NextNumber(revs)
  {
    forall n | n in items
      ensures items[n].number < NextNumber(revs)
    {
      var i :| 0 <= i < |revs| && revs[i] == items[n];
      assert i < |revs| - 1 ==> revs[i].number <= revs[|revs| - 1].number;
    }
  }

  lemma LastIsNewest(items: Revisions, revs: seq<Revision>)
    requires HistoryOk(items) && ListsAll(revs, items) && Sorted(revs) && revs != []
    ensures Newest(items, revs[|revs| - 1])
  {
    var last := revs[|revs| - 1];
    assert last in revs;
    forall n | n in items && n != last.name
      ensures items[n].number < last.number
    {
      var i :| 0 <= i < |revs| && revs[i] == items[n];
      assert i < |revs| - 1;
      assert revs[i].number <= last.number;
    }
  }

  ghost predicate Holds(items: Revisions, content: string) {
    exists n :: n in items && items[n].content == content
  }

  /** `b` is the history `a` after an edit to `content` that made `upd` the update revision. */
  ghost predicate Extends(a: Revisions, content: string, b: Revisions, upd: Revision) {
    && HistoryOk(b) && Newest(b, upd) && upd.content == content
    && |b| == |a| + (if Holds(a, content) then 0 else 1)
    && (forall n | n in a :: n in b && b[n].content == a[n].content)
    && (forall n | n in a && n != upd.name :: b[n] == a[n])
    && (forall n | n in b :: n in a || n == upd.name)
  }

  lemma CreateExtends(items: Revisions, hash: Hash, content: string, number: int, collisions: nat)
    requires HistoryOk(items) && Injective(hash) && !Holds(items, content)
    requires forall n | n in items :: items[n].number < number
    ensures
      var a := CreateRevision(items, hash, content, number, collisions);
      Extends(items, content, a.items, a.upd)
  {
    hide CreateRevision, Injective;
    CreatedRevision(items, hash, content, number, collisions);
  }

  lemma MoveExtends(items: Revisions, r: Revision, number: int)
    requires HistoryOk(items) && r.name in items && items[r.name] == r
    requires forall n | n in items :: items[n].number < number
    ensures Extends(items, r.content, items[r.name := r.(number := number)], r.(number := number))
  {
    var b := items[r.name := r.(number := number)];
    assert |b| == |items| by {
      assert b.Keys == items.Keys;
    }
    assert Holds(items, r.content);
    forall m, n | m in b && n in b && m != n
      ensures b[m].content != b[n].content && b[m].number != b[n].number
    {
      assert items[m].content != items[n].content;
    }
  }

  /** One step of the history: it stays distinct, the update revision holds the template and is the
      newest, the store grows by one exactly when no revision held the template, and every stored
      revision keeps its name and content. */
  lemma AdvanceKeepsHistory(items: Revisions, revs: seq<Revision>, hash: Hash, content: string, collisions: nat)
    requires HistoryOk(items) && ListsAll(revs, items) && Sorted(revs) && Injective(hash)
    ensures
      var a := Advance(items, revs, hash, content, collisions);
      Extends(items, content, a.items, a.upd)
  {
    hide CreateRevision, Extends, Newest;
    LastEqualFacts(revs, content);
    NextNumberIsGreatest(items, revs);
    var equal := LastEqual(revs, content);
    if equal.None? {
      assert forall n | n in items :: items[n] in revs;
      CreateExtends(items, hash, content, NextNumber(revs), collisions);
    } else {
      MoveExtends(items, equal.value, NextNumber(revs));
      if revs[|revs| - 1].content == content {
        StayExtends(items, revs);
      }
    }
  }

  lemma StayExtends(items: Revisions, revs: seq<Revision>)
    requires HistoryOk(items) && ListsAll(revs, items) && Sorted(revs) && revs != []
    ensures var last := revs[|revs| - 1]; Extends(items, last.content, items, last)
  {
    LastIsNewest(items, revs);
    assert Holds(items, revs[|revs| - 1].content) by {
      assert revs[|revs| - 1] in revs;
    }
  }

  /** Without an edit in between, the next reconcile changes nothing. */
  lemma AdvanceIsIdempotent(
    items: Revisions, revs: seq<Revision>, revs': seq<Revision>, hash: Hash, content: string, collisions: nat)
    requires HistoryOk(items) && ListsAll(revs, items) && Sorted(revs) && Injective(hash)
    requires
      var a := Advance(items, revs, hash, content, collisions);
      ListsAll(revs', a.items) && Sorted(revs')
    ensures
      var a := Advance(items, revs, hash, content, collisions);
      Advance(a.items, revs', hash, content, a.collisions) == a
  {
    var a := Advance(items, revs, hash, content, collisions);
    AdvanceKeepsHistory(items, revs, hash, content, collisions);
    assert a.upd in revs';
    LastIsNewest(a.items, revs');
    LastEqualFacts(revs', content);
    var last := revs'[|revs'| - 1];
    assert last in revs' && last.name in a.items;
    assert last == a.upd;
  }

  // ---------- truncation ----------

  function NonLive(revs: seq<Revision>, live: set<string>): seq<Revision> {
    if revs == [] then []
    else NonLive(revs[..|revs| - 1], live) + (if revs[|revs| - 1].name in live then [] else [revs[|revs| - 1]])
  }

  /** The oldest non-live revisions beyond the limit. */
  function Doomed(revs: seq<Revision>, live: set<string>, limit: nat): seq<Revision> {
    var old' := NonLive(revs, live);
    if |old'| <= limit then [] else old'[..|old'| - limit]
  }

  function Names(revs: seq<Revision>): set<string> {
    set r | r in revs :: r.name
  }

  lemma {:induction false} NonLiveFacts(revs: seq<Revision>, live: set<string>)
    requires forall i, j | 0 <= i < j < |revs| :: revs[i].name != revs[j].name
    requires Sorted(revs)
    ensures forall r :: r in NonLive(revs, live) <==> r in revs && r.name !in live
    ensures Sorted(NonLive(revs, live))
    ensures forall i, j | 0 <= i < j < |NonLive(revs, live)| ::
      NonLive(revs, live)[i].name != NonLive(revs, live)[j].name
  {
    if revs != [] {
      var n := |revs| - 1;
      assert revs == revs[..n] + [revs[n]];
      NonLiveFacts(revs[..n], live);
    }
  }

  lemma SplitOrdered(all: seq<Revision>, k: nat)
    requires Sorted(all) && k <= |all|
    requires forall i, j | 0 <= i < j < |all| :: all[i].name != all[j].name
    ensures forall x, y | x in all[..k] && y in all[k..] :: x.number <= y.number && x.name != y.name
  {
    forall x, y | x in all[..k] && y in all[k..]
      ensures x.number <= y.number && x.name != y.name
    {
      var i :| 0 <= i < k && all[i] == x;
      var j :| k <= j < |all| && all[j] == y;
    }
  }

  lemma DoomedSplit(revs: seq<Revision>, live: set<string>, limit: nat) returns (rest: seq<Revision>)
    requires forall i, j | 0 <= i < j < |revs| :: revs[i].name != revs[j].name
    requires Sorted(revs)
    ensures NonLive(revs, live) == Doomed(revs, live, limit) + rest
    ensures |rest| == (if |NonLive(revs, live)| <= limit then |NonLive(revs, live)| else limit)
    ensures Names(NonLive(revs, live)) - Names(Doomed(revs, live, limit)) == Names(rest) && |Names(rest)| == |rest|
    ensures forall x, y | x in Doomed(revs, live, limit) && y in rest :: x.number <= y.number && x.name != y.name
  {
    hide NonLive, Sorted, Names;
    NonLiveFacts(revs, live);
    var all, doomed := NonLive(revs, live), Doomed(revs, live, limit);
    rest := all[|doomed|..];
    assert doomed == all[..|doomed|];
    assert all == doomed + rest;
    NamesSplit(doomed, rest);
    SplitOrdered(all, |doomed|);
  }

  /** Truncation deletes no live revision, leaves exactly min(limit, non-live) of the others, and what it
      leaves is newer than what it deletes: also after this round moved the update revision to the top,
      which the listing, taken before, does not show. */
  lemma TruncationIsExact(
    items: Revisions, revs: seq<Revision>, hash: Hash, content: string, collisions: nat, live: set<string>, limit: nat)
    requires HistoryOk(items) && ListsAll(revs, items) && Sorted(revs) && Injective(hash)
    requires Advance(items, revs, hash, content, collisions).upd.name in live
    ensures
      var before := Advance(items, revs, hash, content, collisions).items;
      var gone := Names(Doomed(revs, live, limit));
      var kept := Names(NonLive(revs, live)) - gone;
      && gone !! live && gone <= before.Keys
      && (forall n | n in before :: n !in live ==> n in gone + kept)
      && |kept| == (if |NonLive(revs, live)| <= limit then |NonLive(revs, live)| else limit)
      && (forall a, b | a in gone && b in kept :: b in before && before[a].number < before[b].number)
  {
    var a := Advance(items, revs, hash, content, collisions);
    AdvanceKeepsHistory(items, revs, hash, content, collisions);
    hide Advance, NonLive, Doomed;
    var all, doomed := NonLive(revs, live), Doomed(revs, live, limit);
    NonLiveFacts(revs, live);
    var rest := DoomedSplit(revs, live, limit);
    assert forall r | r in all :: r.name in items && items[r.name] == r && a.items[r.name] == r;
    assert forall r | r in doomed :: r in all;
    assert forall r | r in rest :: r in all;
    forall x, y | x in doomed && y in rest
      ensures x.number < y.number
    {
      assert items[x.name].number != items[y.name].number;
    }
    forall n | n in a.items && n !in live
      ensures n in Names(all)
    {
      assert n in items && items[n] in revs;
    }
  }

  /** Lists of distinct names: the names of the rest are the names that are left. */
  lemma NamesSplit(a: seq<Revision>, b: seq<Revision>)
    requires forall i, j | 0 <= i < j < |a + b| :: (a + b)[i].name != (a + b)[j].name
    ensures Names(a + b) - Names(a) == Names(b) && |Names(b)| == |b|
  {
    forall n | n in Names(b)
      ensures n !in Names(a) && n in Names(a + b)
    {
      var j :| 0 <= j < |b| && b[j].name == n;
      assert (a + b)[|a| + j] == b[j];
      assert forall i | 0 <= i < |a| :: (a + b)[i] == a[i];
    }
    forall n | n in Names(a + b)
      ensures n in Names(a) || n in Names(b)
    {
      var k :| 0 <= k < |a + b| && (a + b)[k].name == n;
      assert if k < |a| then a[k] == (a + b)[k] else b[k - |a|] == (a + b)[k];
    }
    NamesCount(a, b, |b|);
  }

  lemma {:induction false} NamesCount(a: seq<Revision>, b: seq<Revision>, n: nat)
    requires forall i, j | 0 <= i < j < |a + b| :: (a + b)[i].name != (a + b)[j].name
    requires n <= |b|
    ensures |Names(b[..n])| == n
    ensures n == |b| ==> b[..n] == b
  {
    if n > 0 {
      NamesCount(a, b, n - 1);
      assert b[..n] == b[..n - 1] + [b[n - 1]];
      assert Names(b[..n]) == Names(b[..n - 1]) + {b[n - 1].name};
      assert b[n - 1].name !in Names(b[..n - 1]) by {
        assert forall i | 0 <= i < |b| :: (a + b)[|a| + i] == b[i];
      }
    }
  }

  // ---------- whole runs ----------

  /** One reconcile for a template: the history advances from some sorted listing, or the write that moves
      an old revision to the top gets lost; then the first few doomed revisions may be truncated, never the
      update revision. */
  ghost predicate Evolves(hash: Hash, a: Revisions, content: string, b: Revisions, upd: Revision) {
    exists revs: seq<Revision>, collisions: nat, live: set<string>, limit: nat, n: nat ::
      EvolvesBy(hash, a, content, b, upd, revs, collisions, live, limit, n)
  }

  ghost predicate EvolvesBy(
    hash: Hash, a: Revisions, content: string, b: Revisions, upd: Revision,
    revs: seq<Revision>, collisions: nat, live: set<string>, limit: nat, n: nat)
  {
    var adv := Advance(a, revs, hash, content, collisions);
    && ListsAll(revs, a) && Sorted(revs) && adv.upd == upd && upd.name in live
    && n <= |Doomed(revs, live, limit)|
    && exists mid: Revisions ::
         && (mid == adv.items || (mid == a && upd.name in a))
         && b == mid - Names(Doomed(revs, live, limit)[..n])
  }

  lemma {:induction false} DoomedAreNotLive(revs: seq<Revision>, live: set<string>, limit: nat, n: nat)
    requires n <= |Doomed(revs, live, limit)|
    ensures Names(Doomed(revs, live, limit)[..n]) !! live
  {
    NonLiveNames(revs, live);
    forall r | r in Doomed(revs, live, limit)[..n]
      ensures r.name !in live
    {
      assert r in NonLive(revs, live);
    }
  }

  lemma {:induction false} NonLiveNames(revs: seq<Revision>, live: set<string>)
    ensures forall r | r in NonLive(revs, live) :: r.name !in live
  {
    if revs != [] {
      NonLiveNames(revs[..|revs| - 1], live);
    }
  }

  /** What one reconcile keeps: the history stays distinct; the update revision is stored under its name with
      the template, and is the newest unless its move was lost; stored revisions keep their contents; a
      stored revision of the template is reused, a new one gets a name that was free. */
  ghost predicate Kept(a: Revisions, content: string, b: Revisions, upd: Revision) {
    && HistoryOk(b) && upd.content == content
    && upd.name in b && b[upd.name].content == content && (b[upd.name] == upd ==> Newest(b, upd))
    && (forall n | n in a && n in b :: b[n].content == a[n].content)
    && (forall n | n in a && a[n].content == content :: upd.name == n)
    && (forall n | n in b :: n in a || n == upd.name)
  }

  lemma EvolvesKeeps(hash: Hash, a: Revisions, content: string, b: Revisions, upd: Revision)
    requires Injective(hash) && HistoryOk(a) && Evolves(hash, a, content, b, upd)
    ensures Kept(a, content, b, upd)
  {
    var revs: seq<Revision>, collisions: nat, live: set<string>, limit: nat, n: nat :|
      EvolvesBy(hash, a, content, b, upd, revs, collisions, live, limit, n);
    EvolvesByKeeps(hash, a, content, b, upd, revs, collisions, live, limit, n);
  }

  lemma EvolvesByKeeps(
    hash: Hash, a: Revisions, content: string, b: Revisions, upd: Revision,
    revs: seq<Revision>, collisions: nat, live: set<string>, limit: nat, n: nat)
    requires Injective(hash) && HistoryOk(a)
    requires EvolvesBy(hash, a, content, b, upd, revs, collisions, live, limit, n)
    ensures Kept(a, content, b, upd)
  {
    hide Advance, Doomed, Names, ListsAll, Sorted, HistoryOk, Extends, Kept, Injective;
    AdvanceKeepsHistory(a, revs, hash, content, collisions);
    DoomedAreNotLive(revs, live, limit, n);
    var gone := Names(Doomed(revs, live, limit)[..n]);
    var adv := Advance(a, revs, hash, content, collisions).items;
    var mid: Revisions :| (mid == adv || (mid == a && upd.name in a)) && b == mid - gone;
    if mid == adv {
      ExtendedIsKept(a, adv, content, upd);
    } else {
      LostIsKept(a, adv, content, upd);
    }
    TruncatedIsKept(a, mid, content, upd, gone);
  }

  lemma ExtendedIsKept(a: Revisions, adv: Revisions, content: string, upd: Revision)
    requires HistoryOk(a) && Extends(a, content, adv, upd)
    ensures Kept(a, content, adv, upd)
  {
    ReusesStored(a, adv, content, upd);
  }

  /** If the move is lost, the stored copy differs from the returned one or is the newest. */
  lemma LostIsKept(a: Revisions, adv: Revisions, content: string, upd: Revision)
    requires HistoryOk(a) && Extends(a, content, adv, upd) && upd.name in a
    ensures Kept(a, content, a, upd)
  {
    ReusesStored(a, adv, content, upd);
  }

  lemma TruncatedIsKept(a: Revisions, mid: Revisions, content: string, upd: Revision, gone: set<string>)
    requires Kept(a, content, mid, upd) && upd.name !in gone
    ensures Kept(a, content, mid - gone, upd)
  {
  }

  lemma ReusesStored(a: Revisions, adv: Revisions, content: string, upd: Revision)
    requires HistoryOk(a) && Extends(a, content, adv, upd)
    ensures forall n | n in a && a[n].content == content :: upd.name == n
  {
    forall n | n in a && a[n].content == content
      ensures upd.name == n
    {
      assert adv[n].content == adv[upd.name].content;
    }
  }

  /** A run: template by template, each reconcile with its listing, failures and truncation. */
  ghost predicate Evolution(hash: Hash, templates: seq<string>, states: seq<Revisions>, upds: seq<Revision>) {
    && Injective(hash) && |states| == |templates| + 1 && |upds| == |templates| && HistoryOk(states[0])
    && forall j | 0 <= j < |templates| :: Evolves(hash, states[j], templates[j], states[j + 1], upds[j])
  }

  /** Over any run the history stays distinct and each update revision holds its template. */
  lemma {:induction false} HistoryOverRuns(
    hash: Hash, templates: seq<string>, states: seq<Revisions>, upds: seq<Revision>, i: nat)
    requires Evolution(hash, templates, states, upds) && i <= |templates|
    ensures HistoryOk(states[i])
    ensures i > 0 ==> Kept(states[i - 1], templates[i - 1], states[i], upds[i - 1])
  {
    hide Evolves, Kept, Injective;
    if i > 0 {
      HistoryOverRuns(hash, templates, states, upds, i - 1);
      EvolvesKeeps(hash, states[i - 1], templates[i - 1], states[i], upds[i - 1]);
      assert HistoryOk(states[i]) by { KeptIsOk(states[i - 1], templates[i - 1], states[i], upds[i - 1]); }
    }
  }

  lemma KeptIsOk(a: Revisions, content: string, b: Revisions, upd: Revision)
    requires Kept(a, content, b, upd)
    ensures HistoryOk(b)
  {
  }

  /** The name is stored in every state from i to j. */
  predicate Survives(states: seq<Revisions>, i: nat, j: nat, n: string) {
    i <= j < |states| && forall k | i <= k <= j :: n in states[k]
  }

  /** As long as a revision is stored, its content is the same. */
  lemma {:induction false} RevisionsStay(
    hash: Hash, templates: seq<string>, states: seq<Revisions>, upds: seq<Revision>, i: nat, j: nat, n: string)
    requires Evolution(hash, templates, states, upds) && Survives(states, i, j, n)
    ensures states[j][n].content == states[i][n].content
  {
    hide Evolution, HistoryOk, Newest;
    if i < j {
      RevisionsStay(hash, templates, states, upds, i, j - 1, n);
      assert j <= |templates| by { EvolutionLengths(hash, templates, states, upds); }
      HistoryOverRuns(hash, templates, states, upds, j);
    }
  }

  lemma EvolutionLengths(hash: Hash, templates: seq<string>, states: seq<Revisions>, upds: seq<Revision>)
    requires Evolution(hash, templates, states, upds)
    ensures |states| == |templates| + 1 && |upds| == |templates|
  {
  }

  /** Returning to an earlier template gives the revision name it had then, if that revision has been stored
      all along. */
  lemma RollbackReusesName(
    hash: Hash, templates: seq<string>, states: seq<Revisions>, upds: seq<Revision>, i: nat, j: nat)
    requires Evolution(hash, templates, states, upds)
    requires i < j < |templates| && templates[i] == templates[j]
    requires |states| == |templates| + 1 && |upds| == |templates| && Survives(states, i + 1, j, upds[i].name)
    ensures upds[i].name == upds[j].name
  {
    hide Evolution, HistoryOk, Newest;
    HistoryOverRuns(hash, templates, states, upds, i + 1);
    HistoryOverRuns(hash, templates, states, upds, j + 1);
    RevisionsStay(hash, templates, states, upds, i + 1, j, upds[i].name);
    assert states[j][upds[i].name].content == templates[j];
  }

  lemma CreatedRevision(items: Revisions, hash: Hash, content: string, number: int, collisions: nat)
    requires Injective(hash) && !Holds(items, content)
    ensures
      var c := CreateRevision(items, hash, content, number, collisions);
      && c.upd == Revision(hash(content, c.collisions), content, number) && c.items == items[c.upd.name := c.upd]
      && collisions <= c.collisions && c.upd.name !in items
      && forall j: nat | collisions <= j < c.collisions :: hash(content, j) in items
  {
    hide Probe;
    ProbeStops(items, hash, content, collisions);
    var p := Probe(items, hash, content, collisions);
    assert !Collides(items, hash, content, p);
    forall j: nat | collisions <= j < p
      ensures hash(content, j) in items
    {
      assert Collides(items, hash, content, j);
    }
  }

  /** If no stored revision holds the template any more, the one created gets the name of count e if and only
      if that name is free and all names from the recorded count up to it are taken. */
  lemma RecreatedNameIff(items: Revisions, hash: Hash, content: string, number: int, collisions: nat, e: nat)
    requires Injective(hash) && !Holds(items, content)
    ensures
      CreateRevision(items, hash, content, number, collisions).upd.name == hash(content, e) <==>
        && collisions <= e && hash(content, e) !in items
        && forall j: nat | collisions <= j < e :: hash(content, j) in items
  {
    hide CreateRevision;
    CreatedRevision(items, hash, content, number, collisions);
  }

  /** Why the rollback needs its condition: here template a is followed by one whose first name collides with
      a's, a's revision is truncated, and the return to a gives it another name. */
  lemma TruncatedRollbackRenames(hash: Hash, a: string, b: string)
    requires Injective(hash) && a != b && hash(b, 0) == hash(a, 0)
    ensures
      var first := Advance(map[], [], hash, a, 0);
      var second := Advance(first.items, [first.upd], hash, b, first.collisions);
      var left := second.items - Names(Doomed([first.upd, second.upd], {second.upd.name}, 0));
      var again := Advance(left, [second.upd], hash, a, second.collisions);
      && left == map[second.upd.name := second.upd]
      && again.upd.content == first.upd.content == a && again.upd.name != first.upd.name
  {
    hide Probe, NonLive, Doomed, CreateRevision, LastEqual;
    LastEqualFacts([], a);
    var first := Advance(map[], [], hash, a, 0);
    CreatedRevision(map[], hash, a, 1, 0);
    LastEqualFacts([first.upd], b);
    var second := Advance(first.items, [first.upd], hash, b, 0);
    CreatedRevision(first.items, hash, b, 2, 0);
    OneDoomed(first.upd, second.upd);
    LastEqualFacts([second.upd], a);
    CreatedRevision(map[second.upd.name := second.upd], hash, a, 3, second.collisions);
    assert second.items - Names([first.upd]) == map[second.upd.name := second.upd];
  }

  lemma OneDoomed(a: Revision, b: Revision)
    requires a.name != b.name
    ensures Doomed([a, b], {b.name}, 0) == [a]
  {
    assert [a, b][..1] == [a] && [a][..0] == [];
    assert NonLive([a], {b.name}) == [a];
  }
}
