/** The revision store as the controller works on it (controllers/revision_control.go:58-107,
    controllers/stateful_set_control.go:161-258). */
module RevisionControl {
  import opened Pods
  import opened History
  import RoundLedger

  class RevisionStore {
    var items: Revisions

    constructor (items: Revisions)
      ensures this.items == items
    {
      this.items := items;
    }

    /** Probes names until one is free or holds the same content. Ends within |items| + 1 probes, never
        overwrites a revision, and counts exactly the true collisions. `works` tells whether the calls about
        the name of a count succeed, apart from a taken name; the first failure ends it with nothing stored. */
    method CreateControllerRevision(
      hash: Hash, content: string, number: int, collisions: nat, works: nat -> bool)
      returns (ok: bool, revision: Revision, collisions': nat)
      requires Injective(hash) && forall n | n in items :: items[n].name == n
      modifies this
      ensures ok ==>
        Advanced(items, revision, collisions') == CreateRevision(old(items), hash, content, number, collisions)
      ensures ok <==> works(collisions')
      ensures !ok ==> items == old(items)
      ensures collisions <= collisions' <= collisions + |old(items)|
      ensures forall j: nat | collisions <= j < collisions' :: Collides(old(items), hash, content, j)
      ensures forall j: nat | collisions <= j < collisions' :: works(j)
      ensures ok ==> revision.name == hash(content, collisions')
      ensures ok ==>
        if revision.name in old(items) then
          items == old(items) && revision == items[revision.name] && revision.content == content
        else
          revision == Revision(revision.name, content, number) && items == old(items)[revision.name := revision]
    {
      ghost var seen: set<string> := {};
      collisions', revision := collisions, Revision("", content, number);
      while true
        invariant collisions <= collisions' && |seen| == collisions' - collisions
        invariant seen <= items.Keys && items == old(items)
        invariant forall n :: n in seen <==> exists j: nat :: collisions <= j < collisions' && n == hash(content, j)
        invariant forall j: nat | collisions <= j < collisions' :: Collides(items, hash, content, j) && works(j)
        decreases |items| - |seen|
      {
        var name := hash(content, collisions');
        RoundLedger.SubsetCount(seen, items.Keys);
        if !works(collisions') {
          return false, revision, collisions';
        }
        if name !in items {
          revision := Revision(name, content, number);
          ProbeIs(items, hash, content, collisions, collisions');
          items := items[name := revision];
          return true, revision, collisions';
        }
        if items[name].content == content {
          ProbeIs(items, hash, content, collisions, collisions');
          return true, items[name], collisions';
        }
        assert name !in seen;
        seen := seen + {name};
        RoundLedger.SubsetCount(seen, items.Keys);
        collisions' := collisions' + 1;
      }
    }

    /** Writes a new number; a failed write is swallowed and the bumped copy returned all the same. */
    method UpdateControllerRevision(revision: Revision, number: int, written: bool) returns (clone: Revision)
      modifies this
      ensures clone == revision.(number := number)
      ensures items ==
        if revision.number != number && written && revision.name in old(items) then old(items)[clone.name := clone]
        else old(items)
    {
      clone := revision;
      if clone.number == number {
        return;
      }
      clone := clone.(number := number);
      if written && clone.name in items {
        items := items[clone.name := clone];
      }
    }

    /** Deletes one revision; false is an error of the API server. */
    method DeleteControllerRevision(name: string, works: bool) returns (ok: bool)
      modifies this
      ensures ok == works
      ensures items == if works then old(items) - {name} else old(items)
    {
      if works {
        items := items - {name};
      }
      return works;
    }

    /** The last revision of this name, or the update revision. */
    method FindCurrent(revs: seq<Revision>, currentName: string, update: Revision) returns (current: Revision)
      ensures current == CurrentRevision(revs, currentName, update)
      ensures
        if exists r :: r in revs && r.name == currentName then current in revs && current.name == currentName
        else current == update
    {
      CurrentIsRecorded(revs, currentName, update);
      var found: Option<Revision> := None;
      var i := 0;
      while i < |revs|
        invariant i <= |revs| && found == LastNamed(revs[..i], currentName)
      {
        assert revs[..i + 1][..i] == revs[..i];
        if revs[i].name == currentName {
          found := Some(revs[i]);
        }
        i := i + 1;
      }
      assert revs[..i] == revs;
      current := if found.Some? then found.value else update;
    }

    /** The current and the update revision. The history advances unless the write that moves an old revision
        is lost (`written`) or a new one cannot be created, which is an error that leaves the store alone. */
    method GetStatefulSetRevisions(
      revs: seq<Revision>, content: string, hash: Hash, currentName: string, collisions: nat, written: bool,
      works: nat -> bool)
      returns (ok: bool, current: Revision, update: Revision, collisions': nat)
      requires Injective(hash) && ListsAll(revs, items) && Sorted(revs)
      modifies this
      ensures !ok ==> items == old(items) && LastEqual(revs, content).None? && !works(collisions')
      ensures ok ==>
        var a := Advance(old(items), revs, hash, content, collisions);
        && update == a.upd && collisions' == a.collisions
        && (items == a.items || (!written && items == old(items) && update.name in items))
        && (written ==> items == a.items)
      ensures ok ==>
        || (revs != [] && update == revs[|revs| - 1])
        || update.number == if revs == [] then 1 else revs[|revs| - 1].number + 1
      ensures ok ==> current == CurrentRevision(revs, currentName, update)
      ensures ok ==>
        if exists r :: r in revs && r.name == currentName then current in revs && current.name == currentName
        else current == update
    {
      hide CreateRevision, CurrentRevision;
      ok, collisions' := true, collisions;
      var number := NextNumber(revs);
      var equal := LastEqual(revs, content);
      LastEqualFacts(revs, content);
      NextNumberIsGreatest(items, revs);
      if equal.Some? && revs[|revs| - 1].content == equal.value.content {
        update := revs[|revs| - 1];
      } else if equal.Some? {
        update := UpdateControllerRevision(equal.value, number, written);
      } else {
        ok, update, collisions' := CreateControllerRevision(hash, content, number, collisions, works);
        if !ok {
          return false, update, update, collisions';
        }
      }
      current := FindCurrent(revs, currentName, update);
    }

    method CollectNonLive(revs: seq<Revision>, live: set<string>) returns (history: seq<Revision>)
      ensures history == NonLive(revs, live)
    {
      history := [];
      var i := 0;
      while i < |revs|
        invariant i <= |revs| && history == NonLive(revs[..i], live)
      {
        assert revs[..i + 1][..i] == revs[..i];
        if revs[i].name !in live {
          history := history + [revs[i]];
        }
        i := i + 1;
      }
      assert revs[..i] == revs;
    }

    /** Deletes revisions in order up to the first error. */
    method DeleteInOrder(doomed: seq<Revision>, works: nat -> bool) returns (ok: bool, ghost deleted: nat)
      modifies this
      ensures deleted <= |doomed| && items == old(items) - Names(doomed[..deleted])
      ensures ok ==> deleted == |doomed|
      ensures (forall k: nat :: works(k)) ==> ok
    {
      hide Names;
      deleted := 0;
      NamesPrefix(doomed, 0);
      var i := 0;
      while i < |doomed|
        invariant i <= |doomed| && i == deleted
        invariant items == old(items) - Names(doomed[..i])
      {
        ok := DeleteControllerRevision(doomed[i].name, works(i));
        if !ok {
          return;
        }
        NamesPrefix(doomed, i + 1);
        i, deleted := i + 1, deleted + 1;
      }
      ok := true;
    }

    /** Collects the non-live revisions and deletes the oldest beyond the limit, stopping at the first
        error. */
    method TruncateHistory(revs: seq<Revision>, labels: seq<string>, current: string, update: string, limit: nat,
                           works: nat -> bool)
      returns (ok: bool, ghost deleted: nat)
      modifies this
      ensures
        var doomed := Doomed(revs, {current, update} + (set l | l in labels), limit);
        && deleted <= |doomed| && items == old(items) - Names(doomed[..deleted])
        && (ok ==> deleted == |doomed|)
        && ((forall k: nat :: works(k)) ==> ok)
    {
      hide Names;
      var live := {current, update};
      var i := 0;
      while i < |labels|
        invariant i <= |labels| && live == {current, update} + (set l | l in labels[..i])
      {
        assert labels[..i + 1] == labels[..i] + [labels[i]];
        live := live + {labels[i]};
        i := i + 1;
      }
      assert labels[..i] == labels;
      var history := CollectNonLive(revs, live);
      if |history| <= limit {
        NamesPrefix(history, 0);
        return true, 0;
      }
      ok, deleted := DeleteInOrder(history[..|history| - limit], works);
    }
  }

  lemma NamesPrefix(revs: seq<Revision>, n: nat)
    requires n <= |revs|
    ensures Names(revs[..n]) == if n == 0 then {} else Names(revs[..n - 1]) + {revs[n - 1].name}
  {
    if n > 0 {
      assert revs[..n] == revs[..n - 1] + [revs[n - 1]];
    }
  }

  /** The probe sequence that met only true collisions up to e, and none at e, is the specified one. */
  lemma {:induction false} ProbeIs(items: Revisions, hash: Hash, content: string, k: nat, e: nat)
    requires Injective(hash) && k <= e
    requires forall j: nat | k <= j < e :: Collides(items, hash, content, j)
    requires !Collides(items, hash, content, e)
    ensures Probe(items, hash, content, k) == e
  {
    ProbeStops(items, hash, content, k);
  }
}
