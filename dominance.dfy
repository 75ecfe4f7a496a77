/** Dominance under minimisation, the relation all three skyline
    implementations are built on, and the brute-force front it defines. */
module Dominance {
  import opened Wrappers

  /** A point's coordinates. */
  type Coords = seq<int>

  /** `a` dominates `b`: same arity, no coordinate of `a` is larger than the
      matching one of `b`, and at least one is strictly smaller. */
  predicate Dominates(a: Coords, b: Coords) {
    && |a| == |b|
    && (forall i :: 0 <= i < |a| ==> a[i] <= b[i])
    && (exists i :: 0 <= i < |a| && a[i] < b[i])
  }

  lemma DominatesIrreflexive(a: Coords)
    ensures !Dominates(a, a)
  {
  }

  lemma DominatesAsymmetric(a: Coords, b: Coords)
    requires Dominates(a, b)
    ensures !Dominates(b, a)
  {
    var i :| 0 <= i < |a| && a[i] < b[i];
    assert b[i] > a[i];
  }

  lemma DominatesTransitive(a: Coords, b: Coords, c: Coords)
    requires Dominates(a, b) && Dominates(b, c)
    ensures Dominates(a, c)
  {
    var i :| 0 <= i < |a| && a[i] < b[i];
    assert a[i] < c[i];
  }

  /** The brute-force front of a set of coordinate vectors: those that no
      member of the set dominates. Duplicates collapse because it is a set. */
  ghost function BruteFront(keys: set<Coords>): (front: set<Coords>)
    ensures front <= keys
  {
    set k | k in keys && forall k' | k' in keys :: !Dominates(k', k)
  }

  /** Raised by the two prototypes' comparators when the second tuple is
      shorter than the first: they index it by the first one's positions. */
  datatype IndexError = IndexError

  /** The prototypes' three-way comparison: only the first `|t1|`
      coordinates of `t2` are looked at, equal prefixes give 0. */
  function PrefixVerdict(t1: Coords, t2: Coords): Result<int, IndexError> {
    if |t2| < |t1| then Failure(IndexError)
    else if Dominates(t1, t2[..|t1|]) then Success(1)
    else if Dominates(t2[..|t1|], t1) then Success(-1)
    else Success(0)
  }

  /** The prototypes' comparison is antisymmetric on equal-length tuples and
      gives 0 exactly when neither dominates the other. */
  lemma PrefixVerdictMirror(t1: Coords, t2: Coords)
    requires |t1| == |t2|
    ensures PrefixVerdict(t1, t2).Success? && PrefixVerdict(t2, t1).Success?
    ensures PrefixVerdict(t2, t1).value == -PrefixVerdict(t1, t2).value
  {
    assert t2[..|t1|] == t2;
    assert t1[..|t2|] == t1;
    if Dominates(t1, t2) {
      DominatesAsymmetric(t1, t2);
    }
  }
}
