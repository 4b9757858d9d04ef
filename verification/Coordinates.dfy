/** Coordinates and their comparison (api/v1/coordinate.go:29-102). */
module Coordinates {

  datatype Coordinate = Coordinate(zone: string, rack: string, host: string, replicas: int)

  /** Equality does not look at the replica count. */
  predicate Equal(a: Coordinate, b: Coordinate) {
    a.zone == b.zone && a.rack == b.rack && a.host == b.host
  }

  predicate Among(cs: seq<Coordinate>, c: Coordinate) {
    exists d | d in cs :: Equal(d, c)
  }

  /** The coordinates of `a` that are not among `b`, in order. */
  function Missing(a: seq<Coordinate>, b: seq<Coordinate>): seq<Coordinate> {
    if a == [] then []
    else Missing(a[..|a| - 1], b) + (if Among(b, a[|a| - 1]) then [] else [a[|a| - 1]])
  }

  method In(cs: seq<Coordinate>, c: Coordinate) returns (found: bool)
    ensures found <==> Among(cs, c)
  {
    for i := 0 to |cs|
      invariant !Among(cs[..i], c)
    {
      if Equal(cs[i], c) {
        return true;
      }
      assert cs[..i + 1] == cs[..i] + [cs[i]];
    }
    assert cs[..|cs|] == cs;
    return false;
  }

  /** Two passes with the lists swapped in between: first what left, then what came. */
  method Difference(slice1: seq<Coordinate>, slice2: seq<Coordinate>) returns (diff: seq<Coordinate>)
    ensures diff == Missing(slice1, slice2) + Missing(slice2, slice1)
  {
    var a, b := slice1, slice2;
    diff := [];
    for pass := 0 to 2
      invariant pass == 0 ==> a == slice1 && b == slice2 && diff == []
      invariant pass == 1 ==> a == slice2 && b == slice1 && diff == Missing(slice1, slice2)
      invariant pass == 2 ==> diff == Missing(slice1, slice2) + Missing(slice2, slice1)
    {
      ghost var before := diff;
      for i := 0 to |a|
        invariant diff == before + Missing(a[..i], b)
      {
        assert a[..i + 1][..i] == a[..i];
        var found := In(b, a[i]);
        if !found {
          diff := diff + [a[i]];
        }
      }
      assert a[..|a|] == a;
      if pass == 0 {
        a, b := b, a;
      }
    }
  }

  lemma {:induction false} MissingFacts(a: seq<Coordinate>, b: seq<Coordinate>, c: Coordinate)
    ensures c in Missing(a, b) <==> c in a && !Among(b, c)
  {
    if a != [] {
      assert a == a[..|a| - 1] + [a[|a| - 1]];
      MissingFacts(a[..|a| - 1], b, c);
    }
  }

  /** Difference is the symmetric difference, and it is empty exactly when each list covers the other. */
  lemma DifferenceIsSymmetric(a: seq<Coordinate>, b: seq<Coordinate>)
    ensures
      var diff := Missing(a, b) + Missing(b, a);
      && (forall c :: c in diff <==> (c in a && !Among(b, c)) || (c in b && !Among(a, c)))
      && (diff == [] <==> (forall c | c in a :: Among(b, c)) && (forall c | c in b :: Among(a, c)))
  {
    forall c
      ensures c in Missing(a, b) <==> c in a && !Among(b, c)
      ensures c in Missing(b, a) <==> c in b && !Among(a, c)
    {
      MissingFacts(a, b, c);
      MissingFacts(b, a, c);
    }
    var diff := Missing(a, b) + Missing(b, a);
    if diff != [] {
      assert diff[0] in diff;
    }
  }
}
