/** What the engine of skyline/skyline.py computes over a whole run: fed
    points of one arity from an empty front, the front it keeps is exactly
    the brute-force skyline of their coordinates, without duplicates; fed a
    mix of arities, it raises. */
module SkylineFront {
  import opened Dominance
  import opened SkylineEngine

  /** `a` dominates or equals `b`: what stops a scan for `b` at `a`. */
  predicate Covers(a: Coords, b: Coords) {
    a == b || Dominates(a, b)
  }

  lemma {:induction false} CoversTransitive(a: Coords, b: Coords, c: Coords)
    requires Covers(a, b) && Covers(b, c)
    ensures Covers(a, c)
  {
    if Dominates(a, b) && Dominates(b, c) {
      DominatesTransitive(a, b, c);
    }
  }

  /** A cover followed by a strict domination is a strict domination. */
  lemma {:induction false} CoversDominates(a: Coords, b: Coords, c: Coords)
    requires (Covers(a, b) && Dominates(b, c)) || (Dominates(a, b) && Covers(b, c))
    ensures Dominates(a, c)
  {
    if Dominates(a, b) && Dominates(b, c) {
      DominatesTransitive(a, b, c);
    }
  }

  ghost predicate SameArity(seen: set<Point>, n: nat) {
    forall x | x in seen :: |x.data| == n
  }

  /** Every member of `sky` is in `seen`. Stated by recursion so that it is
      unfolded only on demand (`AllInMeaning`): next to the covering clause
      of `FrontInv` its quantified form would feed itself. */
  predicate AllIn(sky: seq<Point>, seen: set<Point>) {
    sky == [] || (sky[0] in seen && AllIn(sky[1..], seen))
  }

  lemma {:induction false} AllInMeaning(sky: seq<Point>, seen: set<Point>)
    ensures AllIn(sky, seen) <==> forall x | x in sky :: x in seen
  {
    if sky != [] {
      AllInMeaning(sky[1..], seen);
      assert sky == [sky[0]] + sky[1..];
    }
  }

  /** `sky` is the front of the points `seen`: it holds only seen points, it
      is an antichain, no seen point dominates a member, and every seen
      point is covered by a member. */
  ghost predicate FrontInv(seen: set<Point>, sky: seq<Point>) {
    && AllIn(sky, seen)
    && Antichain(sky)
    && (forall y, x | y in seen && x in sky :: !Dominates(y.data, x.data))
    && (forall y | y in seen :: exists x | x in sky :: Covers(x.data, y.data))
  }

  /** The front invariant pins the front's coordinates down: they are the
      brute-force skyline of the seen coordinates. */
  lemma FrontIsBrute(seen: set<Point>, sky: seq<Point>)
    requires FrontInv(seen, sky)
    ensures DataSet(sky) == BruteFront(set y | y in seen :: y.data)
  {
    var keys := set y | y in seen :: y.data;
    forall d | d in BruteFront(keys) ensures d in DataSet(sky) {
      var y :| y in seen && y.data == d;
      var x :| x in sky && Covers(x.data, y.data);
      assert x in seen by {
        AllInMeaning(sky, seen);
      }
      assert x.data in keys;
    }
    forall d | d in DataSet(sky) ensures d in BruteFront(keys) {
      var x :| x in sky && x.data == d;
      assert x in seen by {
        AllInMeaning(sky, seen);
      }
      forall k | k in keys ensures !Dominates(k, d) {
        var y :| y in seen && y.data == k;
      }
    }
  }

  /** What one non-raising call leaves in the front `r`, compared with the
      old front `q`: only old members and `p`; every old member is either
      still there or dominated by `p`; and some member covers `p`. */
  ghost predicate ScanResult(p: Point, q: seq<Point>, r: seq<Point>) {
    && (forall x | x in r :: x in q || x == p)
    && (forall z | z in q :: z in r || Dominates(p.data, z.data))
    && (exists c | c in r :: Covers(c.data, p.data))
  }

  /** Members of an antichain do not dominate each other. */
  lemma AntichainNoDominance(s: seq<Point>, x: Point, y: Point)
    requires Antichain(s) && x in s && y in s
    ensures !Dominates(x.data, y.data)
  {
    if x == y {
      DominatesIrreflexive(x.data);
    } else {
      VerdictMeaning(x.data, y.data, true);
    }
  }

  lemma FrontStepAllIn(p: Point, q: seq<Point>, r: seq<Point>, seen: set<Point>)
    requires AllIn(q, seen) && ScanResult(p, q, r)
    ensures AllIn(r, seen + {p})
  {
    AllInMeaning(q, seen);
    AllInMeaning(r, seen + {p});
  }

  lemma FrontStepUndominated(p: Point, q: seq<Point>, r: seq<Point>, seen: set<Point>)
    requires FrontInv(seen, q) && Antichain(r) && ScanResult(p, q, r)
    ensures forall y, x | y in seen + {p} && x in r :: !Dominates(y.data, x.data)
  {
    var c :| c in r && Covers(c.data, p.data);
    forall y, x | y in seen + {p} && x in r ensures !Dominates(y.data, x.data) {
      if y == p {
        if Dominates(p.data, x.data) {
          CoversDominates(c.data, p.data, x.data);
          AntichainNoDominance(r, c, x);
        }
      } else if x !in q {
        if Dominates(y.data, p.data) {
          var z :| z in q && Covers(z.data, y.data);
          CoversDominates(z.data, y.data, p.data);
          if z in r {
            AntichainNoDominance(r, z, p);
          } else {
            DominatesAsymmetric(z.data, p.data);
          }
        }
      }
    }
  }

  lemma FrontStepCovered(p: Point, q: seq<Point>, r: seq<Point>, seen: set<Point>)
    requires FrontInv(seen, q) && ScanResult(p, q, r)
    ensures forall y | y in seen + {p} :: exists x | x in r :: Covers(x.data, y.data)
  {
    var c :| c in r && Covers(c.data, p.data);
    forall y | y in seen + {p} ensures exists x | x in r :: Covers(x.data, y.data) {
      if y == p {
        assert Covers(c.data, y.data);
      } else {
        var z :| z in q && Covers(z.data, y.data);
        if z !in r {
          CoversDominates(p.data, z.data, y.data);
          CoversDominates(c.data, p.data, y.data);
          assert Covers(c.data, y.data);
        }
      }
    }
  }

  /** Any call that ends with a front of this shape keeps the front
      invariant, whether it accepted or rejected `p`. */
  lemma FrontStep(p: Point, q: seq<Point>, r: seq<Point>, seen: set<Point>)
    requires FrontInv(seen, q) && Antichain(r) && ScanResult(p, q, r)
    ensures FrontInv(seen + {p}, r)
  {
    FrontStepAllIn(p, q, r, seen);
    FrontStepUndominated(p, q, r, seen);
    FrontStepCovered(p, q, r, seen);
  }

  /** An accepting call leaves a front of that shape. */
  lemma AcceptedScanResult(p: Point, e: Engine)
    requires e.skyline != [] && StopIndex(p, e.skyline) == |e.skyline|
    ensures ScanResult(p, e.skyline, Insert(p, e).engine.skyline)
  {
    var q := e.skyline;
    assert q[..|q|] == q;
    var r := Kept(p, q) + [p];
    assert Insert(p, e).engine.skyline == r;
    KeptMembers(p, q);
    EvictedMembers(p, q);
    StopIndexSpec(p, q, |q|);
    forall z | z in q ensures z in r || Dominates(p.data, z.data) {
      var j :| 0 <= j < |q| && q[j] == z;
      assert Passes(p, q[j]);
      VerdictMeaning(p.data, z.data, true);
    }
    assert Covers(p.data, p.data);
  }

  /** A rejecting call leaves a front of that shape. */
  lemma RejectedScanResult(p: Point, e: Engine)
    requires e.skyline != [] && Insert(p, e).outcome == Rejected
    ensures ScanResult(p, e.skyline, Insert(p, e).engine.skyline)
  {
    var q := e.skyline;
    var k := StopIndex(p, q);
    RejectedFront(p, q, k, Insert(p, e).engine.skyline);
  }

  /** The front a rejecting scan stopped at `k` leaves behind: the unscanned
      tail, the kept members of the scanned prefix, and the blocking member. */
  lemma RejectedFront(p: Point, q: seq<Point>, k: nat, r: seq<Point>)
    requires k < |q| && StopIndex(p, q) == k && Verdict(p.data, q[k].data, true).Success?
    requires r == q[k + 1..] + Kept(p, q[..k]) + [q[k]]
    ensures ScanResult(p, q, r)
  {
    var c := q[k];
    StopIndexSpec(p, q, k);
    VerdictMeaning(p.data, c.data, true);
    assert Covers(c.data, p.data);
    KeptMembers(p, q[..k]);
    assert q == q[..k] + [c] + q[k + 1..];
    forall z | z in q ensures z in r || Dominates(p.data, z.data) {
      if z in q[..k] {
        var j :| 0 <= j < k && q[..k][j] == z;
        assert Passes(p, q[j]);
        VerdictMeaning(p.data, z.data, true);
      }
    }
  }

  /** With every front member of `p`'s arity, inserting `p` does not raise. */
  lemma InsertSameArity(p: Point, e: Engine)
    requires forall x | x in e.skyline :: |x.data| == |p.data|
    ensures Insert(p, e).outcome != Raised
  {
    var q := e.skyline;
    if q != [] {
      var k := StopIndex(p, q);
      if k < |q| {
        assert q[k] in q;
      }
    }
  }

  /** Every call that does not raise leaves a front of that shape. */
  lemma InsertScanResult(p: Point, e: Engine)
    requires Insert(p, e).outcome != Raised
    ensures ScanResult(p, e.skyline, Insert(p, e).engine.skyline)
  {
    if e.skyline == [] {
      assert Covers(p.data, p.data);
    } else if StopIndex(p, e.skyline) == |e.skyline| {
      AcceptedScanResult(p, e);
    } else {
      RejectedScanResult(p, e);
    }
  }

  /** Members of the front all have the seen points' arity. */
  lemma FrontArity(seen: set<Point>, q: seq<Point>, n: nat)
    requires AllIn(q, seen) && SameArity(seen, n)
    ensures forall x | x in q :: |x.data| == n
  {
    AllInMeaning(q, seen);
  }

  /** One call of `update_sky_for_point` with a point of the seen points'
      arity never raises and keeps the front invariant. */
  lemma UpdateKeepsFront(p: Point, e: Engine, seen: set<Point>, n: nat)
    requires FrontInv(seen, e.skyline) && SameArity(seen, n) && |p.data| == n
    ensures Update(p, e).outcome != Raised
    ensures FrontInv(seen + {p}, Update(p, e).engine.skyline)
  {
    UpdateIsInsert(p, e);
    FrontArity(seen, e.skyline, n);
    InsertSameArity(p, e);
    InsertScanResult(p, e);
    InsertKeepsAntichain(p, e);
    FrontStep(p, e.skyline, Insert(p, e).engine.skyline, seen);
  }

  lemma SameArityAdd(seen: set<Point>, p: Point, n: nat)
    requires SameArity(seen, n) && |p.data| == n
    ensures SameArity(seen + {p}, n)
  {
  }

  lemma EmptyUnion<T>(s: set<T>)
    ensures {} + s == s
  {
  }

  lemma SetOfCons<T>(s: set<T>, ps: seq<T>)
    requires ps != []
    ensures s + {ps[0]} + (set x | x in ps[1..]) == s + (set x | x in ps)
  {
    assert ps == [ps[0]] + ps[1..];
  }

  /** `compute_all_sky` over points of one arity keeps the front invariant
      over everything fed so far, and never raises. */
  lemma {:induction false} UpdateAllKeepsFront(ps: seq<Point>, e: Engine, seen: set<Point>, n: nat)
    requires FrontInv(seen, e.skyline) && SameArity(seen, n)
    requires forall i | 0 <= i < |ps| :: |ps[i].data| == n
    ensures var r := UpdateAll(ps, e);
      !r.raised && FrontInv(seen + (set x | x in ps), r.engine.skyline)
    decreases |ps|
  {
    if ps == [] {
      assert seen + (set x | x in ps) == seen;
    } else {
      UpdateKeepsFront(ps[0], e, seen, n);
      var e' := Update(ps[0], e).engine;
      SameArityAdd(seen, ps[0], n);
      assert forall i | 0 <= i < |ps[1..]| :: |ps[1..][i].data| == n by {
        forall i | 0 <= i < |ps[1..]| ensures |ps[1..][i].data| == n {
          assert ps[1..][i] == ps[i + 1];
        }
      }
      UpdateAllKeepsFront(ps[1..], e', seen + {ps[0]}, n);
      SetOfCons(seen, ps);
    }
  }

  /** The main theorem: from an empty front, a run over points of one arity
      does not raise and leaves a front without duplicates whose
      coordinates are exactly the brute-force skyline of the input. */
  lemma BruteForceFront(ps: seq<Point>, nonSky: seq<Point>)
    requires forall i | 0 <= i < |ps| :: |ps[i].data| == |ps[0].data|
    ensures var r := UpdateAll(ps, Engine([], nonSky));
      && !r.raised
      && Antichain(r.engine.skyline)
      && DataSet(r.engine.skyline) == BruteFront(set x | x in ps :: x.data)
  {
    var n := if ps == [] then 0 else |ps[0].data|;
    UpdateAllKeepsFront(ps, Engine([], nonSky), {}, n);
    var sky := UpdateAll(ps, Engine([], nonSky)).engine.skyline;
    var seen := set x | x in ps;
    EmptyUnion(seen);
    FrontIsBrute(seen, sky);
  }

  /** Against a non-empty front of arity `n`, a point of arity `n` does not
      raise and leaves a non-empty front of arity `n`; a point of any other
      arity raises at the very first comparison. */
  lemma UpdateArity(p: Point, e: Engine, n: nat)
    requires e.skyline != [] && forall x | x in e.skyline :: |x.data| == n
    ensures |p.data| == n ==>
      && Update(p, e).outcome != Raised
      && Update(p, e).engine.skyline != []
      && forall x | x in Update(p, e).engine.skyline :: |x.data| == n
    ensures |p.data| != n ==> Update(p, e).outcome == Raised
  {
    UpdateIsInsert(p, e);
    var q := e.skyline;
    if |p.data| == n {
      InsertSameArity(p, e);
      InsertScanResult(p, e);
    } else {
      assert !Passes(p, q[0]);
      StopIndexNext(p, q, 0);
    }
  }

  lemma {:induction false} UpdateAllArity(ps: seq<Point>, e: Engine, n: nat)
    requires e.skyline != [] && forall x | x in e.skyline :: |x.data| == n
    ensures UpdateAll(ps, e).raised <==> exists i | 0 <= i < |ps| :: |ps[i].data| != n
    decreases |ps|
  {
    if ps != [] {
      UpdateArity(ps[0], e, n);
      if |ps[0].data| == n {
        UpdateAllArity(ps[1..], Update(ps[0], e).engine, n);
        assert forall i | 0 <= i < |ps[1..]| :: ps[1..][i] == ps[i + 1];
        if exists i | 0 <= i < |ps| :: |ps[i].data| != n {
          var i :| 0 <= i < |ps| && |ps[i].data| != n;
          assert |ps[1..][i - 1].data| != n;
        }
      }
    }
  }

  /** From an empty front, `compute_all_sky` ends on an exception exactly
      when the input mixes arities: the front always has the first point's
      arity, and the first point of another arity raises. */
  lemma RaisesIffMixedArity(ps: seq<Point>, nonSky: seq<Point>)
    ensures UpdateAll(ps, Engine([], nonSky)).raised <==>
      exists i | 0 <= i < |ps| :: |ps[i].data| != |ps[0].data|
  {
    if ps != [] {
      var e := Update(ps[0], Engine([], nonSky)).engine;
      assert e.skyline == [ps[0]];
      UpdateAllArity(ps[1..], e, |ps[0].data|);
      assert forall i | 0 <= i < |ps[1..]| :: ps[1..][i] == ps[i + 1];
      if exists i | 0 <= i < |ps| :: |ps[i].data| != |ps[0].data| {
        var i :| 0 <= i < |ps| && |ps[i].data| != |ps[0].data|;
        assert |ps[1..][i - 1].data| != |ps[0].data|;
      }
    }
  }
}
