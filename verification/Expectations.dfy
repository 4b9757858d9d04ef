/** The cache of pods whose in-place patch has been written but not yet seen in a listing
    (controllers/util.go:31-113). */
module Expectations {

  datatype Entry<O> = Entry(revision: string, objs: set<O>)

  type Cache<O> = map<string, Entry<O>>

  /** The operations on the cache; an observation carries the revision label of the observed pod. */
  datatype Op<O> =
    | Expect(key: string, revision: string, obj: O)
    | Observe(key: string, revision: string, obj: O, carried: string)
    | Forget(key: string)

  function Perform<O(==)>(cache: Cache<O>, op: Op<O>): Cache<O> {
    match op
    case Expect(k, r, o) =>
      var objs := if k in cache && cache[k].revision == r then cache[k].objs else {};
      cache[k := Entry(r, objs + {o})]
    case Observe(k, r, o, carried) =>
      if k !in cache then cache
      else
        var objs := if cache[k].revision == r && carried == r then cache[k].objs - {o} else cache[k].objs;
        if cache[k].revision != r || objs == {} then cache - {k} else cache[k := Entry(r, objs)]
    case Forget(k) => cache - {k}
  }

  function Replay<O(==)>(ops: seq<Op<O>>): Cache<O> {
    if ops == [] then map[] else Perform(Replay(ops[..|ops| - 1]), ops[|ops| - 1])
  }

  /** The pods an update of `key` to `revision` still waits for; empty means satisfied. */
  function Pending<O(==)>(cache: Cache<O>, key: string, revision: string): set<O> {
    if key in cache && cache[key].revision == revision then cache[key].objs else {}
  }

  // ---------- reference: read off the history ----------

  /** The operation resets the key, or sees the pod carrying the revision. */
  predicate Settles<O(==)>(op: Op<O>, key: string, revision: string, obj: O) {
    && op.key == key
    && match op
       case Expect(_, r, _) => r != revision
       case Observe(_, r, o, carried) => r != revision || (o == obj && carried == revision)
       case Forget(_) => true
  }

  /** The pod was expected at some time and nothing has settled it since. */
  predicate Awaited<O(==)>(ops: seq<Op<O>>, key: string, revision: string, obj: O) {
    exists i | 0 <= i < |ops| ::
      ops[i] == Expect(key, revision, obj) && forall j | i < j < |ops| :: !Settles(ops[j], key, revision, obj)
  }

  lemma AwaitedAfter<O>(ops: seq<Op<O>>, op: Op<O>, key: string, revision: string, obj: O)
    ensures Awaited(ops + [op], key, revision, obj) <==>
      op == Expect(key, revision, obj) || (Awaited(ops, key, revision, obj) && !Settles(op, key, revision, obj))
  {
    var all := ops + [op];
    assert all[|ops|] == op;
    if Awaited(all, key, revision, obj) {
      var i :| 0 <= i < |all| && all[i] == Expect(key, revision, obj)
        && forall j | i < j < |all| :: !Settles(all[j], key, revision, obj);
      if i < |ops| {
        assert !Settles(all[|ops|], key, revision, obj);
        assert forall j | i < j < |ops| :: all[j] == ops[j];
      }
    }
    if Awaited(ops, key, revision, obj) && !Settles(op, key, revision, obj) {
      var i :| 0 <= i < |ops| && ops[i] == Expect(key, revision, obj)
        && forall j | i < j < |ops| :: !Settles(ops[j], key, revision, obj);
      assert all[i] == Expect(key, revision, obj);
      assert forall j | i < j < |all| :: j < |ops| ==> all[j] == ops[j];
    }
  }

  /** After any sequence of operations the cache holds exactly the awaited pods, under no key an empty
      entry. */
  lemma {:induction false} CacheIsHistory<O>(ops: seq<Op<O>>, key: string, revision: string, obj: O)
    ensures obj in Pending(Replay(ops), key, revision) <==> Awaited(ops, key, revision, obj)
    ensures key in Replay(ops) ==> Replay(ops)[key].objs != {}
  {
    if ops != [] {
      var before, op := ops[..|ops| - 1], ops[|ops| - 1];
      assert ops == before + [op];
      CacheIsHistory(before, key, revision, obj);
      AwaitedAfter(before, op, key, revision, obj);
    }
  }

  /** Updates are blocked exactly while some pod is awaited, and the pods reported are those. */
  lemma SatisfiedIffNothingAwaited<O(!new)>(ops: seq<Op<O>>, key: string, revision: string)
    ensures Pending(Replay(ops), key, revision) == {} <==> forall o: O :: !Awaited(ops, key, revision, o)
    ensures forall o: O :: o in Pending(Replay(ops), key, revision) <==> Awaited(ops, key, revision, o)
  {
    forall o: O
      ensures o in Pending(Replay(ops), key, revision) <==> Awaited(ops, key, revision, o)
    {
      CacheIsHistory(ops, key, revision, o);
    }
  }

  function ForKey<O>(ops: seq<Op<O>>, key: string): seq<Op<O>> {
    if ops == [] then []
    else ForKey(ops[..|ops| - 1], key) + (if ops[|ops| - 1].key == key then [ops[|ops| - 1]] else [])
  }

  /** What one key sees does not depend on the operations on other keys. */
  lemma {:induction false} KeysAreIndependent<O>(ops: seq<Op<O>>, key: string)
    ensures key in Replay(ops) <==> key in Replay(ForKey(ops, key))
    ensures key in Replay(ops) ==> Replay(ops)[key] == Replay(ForKey(ops, key))[key]
  {
    if ops != [] {
      var n := |ops| - 1;
      KeysAreIndependent(ops[..n], key);
      if ops[n].key == key {
        var mine := ForKey(ops, key);
        assert mine[..|mine| - 1] == ForKey(ops[..n], key);
      } else {
        assert ForKey(ops, key) == ForKey(ops[..n], key);
      }
    }
  }

  /** realUpdateExpectations; each method is one critical section. */
  class UpdateExpectations<O(==)> {
    var cache: Cache<O>
    ghost var ops: seq<Op<O>>

    ghost predicate Valid()
      reads this
    {
      cache == Replay(ops)
    }

    constructor ()
      ensures Valid() && ops == []
    {
      cache, ops := map[], [];
    }

    method ExpectUpdated(key: string, revision: string, obj: O)
      requires Valid()
      modifies this
      ensures Valid() && ops == old(ops) + [Expect(key, revision, obj)]
      ensures obj in Pending(cache, key, revision)
      ensures forall k | k != key :: (k in cache <==> k in old(cache)) && (k in cache ==> cache[k] == old(cache)[k])
    {
      if key !in cache || cache[key].revision != revision {
        cache := cache[key := Entry(revision, {})];
      }
      cache := cache[key := cache[key].(objs := cache[key].objs + {obj})];
      ops := ops + [Expect(key, revision, obj)];
      assert ops[..|ops| - 1] == old(ops);
    }

    method ObserveUpdated(key: string, revision: string, obj: O, carried: string)
      requires Valid()
      modifies this
      ensures Valid() && ops == old(ops) + [Observe(key, revision, obj, carried)]
      ensures forall k | k != key :: (k in cache <==> k in old(cache)) && (k in cache ==> cache[k] == old(cache)[k])
    {
      ops := ops + [Observe(key, revision, obj, carried)];
      assert ops[..|ops| - 1] == old(ops);
      if key !in cache {
        return;
      }
      var entry := cache[key];
      if entry.revision == revision && obj in entry.objs && carried == revision {
        entry := entry.(objs := entry.objs - {obj});
        cache := cache[key := entry];
      }
      assert entry.revision == revision && carried == revision ==> entry.objs == old(cache)[key].objs - {obj};
      if entry.revision != revision || entry.objs == {} {
        cache := map k | k in cache && k != key :: cache[k];
        assert cache == old(cache) - {key};
      } else {
        assert cache == old(cache)[key := entry];
      }
    }

    method SatisfiedExpectations(key: string, revision: string) returns (satisfied: bool, dirty: set<O>)
      requires Valid()
      ensures dirty == Pending(cache, key, revision)
      ensures satisfied <==> dirty == {}
    {
      if key !in cache || cache[key].revision != revision {
        return true, {};
      }
      return cache[key].objs == {}, cache[key].objs;
    }

    method DeleteExpectations(key: string)
      requires Valid()
      modifies this
      ensures Valid() && ops == old(ops) + [Forget(key)]
      ensures key !in cache
    {
      cache := map k | k in cache && k != key :: cache[k];
      ops := ops + [Forget(key)];
      assert ops[..|ops| - 1] == old(ops);
    }
  }
}
