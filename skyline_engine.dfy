/** The incremental block-nested-loop skyline engine of skyline/skyline.py.
    A `Skyline` object holds two FIFO queues, the current front `skyline`
    and the retained dominated points `nonSky`; both are modelled as
    sequences whose head is the queue's next `get_nowait`. */
module SkylineEngine {
  import opened Wrappers
  import opened Dominance

  /** A point as workers and the master exchange it. Whole-record equality
      (`item in removed`) compares all three fields; dictionaries key it by
      `data` alone. */
  datatype Point = Point(data: Coords, step: int, workerId: string)

  /** `SkylineException`, raised by `check_dominated` on unequal arity. */
  datatype SkylineException = UnequalDimensions

  /** What `check_dominated(p1, p2, remove_dups)` answers for the two
      coordinate vectors: 1 if the first dominates, -1 if the second
      dominates or (under `removeDups`) they are equal, 0 otherwise. */
  function Verdict(d1: Coords, d2: Coords, removeDups: bool): Result<int, SkylineException> {
    if |d1| != |d2| then Failure(UnequalDimensions)
    else if Dominates(d1, d2) then Success(1)
    else if Dominates(d2, d1) || (removeDups && d1 == d2) then Success(-1)
    else Success(0)
  }

  /** Two points that the engine leaves side by side in the front. */
  predicate Incomparable(p: Point, q: Point) {
    Verdict(p.data, q.data, true) == Success(0)
  }

  /** Exchanging the arguments mirrors the answer; with `removeDups` an exact
      tie is "dominated" from both sides. */
  lemma VerdictMirror(d1: Coords, d2: Coords, removeDups: bool)
    requires |d1| == |d2|
    ensures Verdict(d1, d2, false).value == -Verdict(d2, d1, false).value
    ensures d1 == d2 ==> Verdict(d1, d2, true) == Verdict(d2, d1, true) == Success(-1)
    ensures d1 != d2 ==>
      Verdict(d1, d2, removeDups).value == -Verdict(d2, d1, removeDups).value
  {
    if Dominates(d1, d2) {
      DominatesAsymmetric(d1, d2);
    }
    if Dominates(d2, d1) {
      DominatesAsymmetric(d2, d1);
    }
  }

  /** What the answers of `check_dominated` mean: it raises exactly on
      unequal arity; 1 exactly when the first point dominates; -1 exactly
      when the second dominates or `removeDups` holds and they are equal. */
  lemma VerdictMeaning(d1: Coords, d2: Coords, removeDups: bool)
    ensures Verdict(d1, d2, removeDups).Failure? <==> |d1| != |d2|
    ensures Verdict(d1, d2, removeDups) == Success(1) <==>
      && |d1| == |d2|
      && (forall i :: 0 <= i < |d1| ==> d1[i] <= d2[i])
      && (exists i :: 0 <= i < |d1| && d1[i] < d2[i])
    ensures Verdict(d1, d2, removeDups) == Success(-1) <==>
      Dominates(d2, d1) || (removeDups && d1 == d2)
    ensures Verdict(d1, d2, removeDups) == Success(0) <==>
      && |d1| == |d2|
      && !Dominates(d1, d2) && !Dominates(d2, d1)
      && !(removeDups && d1 == d2)
  {
    if Dominates(d2, d1) {
      DominatesAsymmetric(d2, d1);
    }
  }

  lemma IncomparableSymmetric(p: Point, q: Point)
    requires Incomparable(p, q)
    ensures Incomparable(q, p) && p.data != q.data
  {
    VerdictMirror(p.data, q.data, true);
  }

  /** The front's invariant: no point twice, and every two distinct members
      incomparable (neither dominates, and they are not tied). */
  ghost predicate Antichain(s: seq<Point>) {
    && (forall x :: multiset(s)[x] <= 1)
    && (forall x, y | x in s && y in s && x != y :: Incomparable(x, y))
  }

  lemma {:induction false} AntichainOfSubMultiset(s: seq<Point>, t: seq<Point>)
    requires Antichain(s) && multiset(t) <= multiset(s)
    ensures Antichain(t)
  {
    forall x | x in t ensures x in s {
      assert x in multiset(t);
    }
  }

  /** Coordinates of the members of `s`. */
  ghost function DataSet(s: seq<Point>): set<Coords> {
    set x | x in s :: x.data
  }

  /** A scanned front member lets the scan go on: the new point dominates
      it (1) or is incomparable to it (0). */
  predicate Passes(p: Point, c: Point) {
    Verdict(p.data, c.data, true) == Success(1) || Verdict(p.data, c.data, true) == Success(0)
  }

  /** Position of the first member of `q` that stops a scan for `p`: it
      dominates or ties `p`, or the comparison raises; `|q|` if none does. */
  function StopIndex(p: Point, q: seq<Point>): (k: nat)
    ensures k <= |q|
  {
    if q == [] then 0
    else if Passes(p, q[0]) then 1 + StopIndex(p, q[1..])
    else 0
  }

  /** Every member before the stop index passes, the one at it does not; and
      these two facts pin the index down. */
  lemma {:induction false} StopIndexSpec(p: Point, q: seq<Point>, k: nat)
    requires k <= |q|
    ensures StopIndex(p, q) == k <==>
      (forall j :: 0 <= j < k ==> Passes(p, q[j])) && (k < |q| ==> !Passes(p, q[k]))
  {
    if q != [] {
      if k > 0 {
        StopIndexSpec(p, q[1..], k - 1);
        assert forall j :: 1 <= j < k ==> q[1..][j - 1] == q[j];
      }
    }
  }

  /** One more step of a scan: the member at `k` either passes, and the
      stop index lies beyond it, or it is the stop index. */
  lemma {:induction false} StopIndexNext(p: Point, q: seq<Point>, k: nat)
    requires k < |q| && StopIndex(p, q) >= k
    ensures Passes(p, q[k]) ==> StopIndex(p, q) > k
    ensures !Passes(p, q[k]) ==> StopIndex(p, q) == k
  {
    if k > 0 {
      StopIndexNext(p, q[1..], k - 1);
    }
  }

  /** Extending the scanned prefix by the member at `k`. */
  lemma ScanOneMore(p: Point, q: seq<Point>, k: nat)
    requires k < |q|
    ensures Kept(p, q[..k + 1]) == Kept(p, q[..k]) + (if Incomparable(p, q[k]) then [q[k]] else [])
    ensures Evicted(p, q[..k + 1])
      == Evicted(p, q[..k]) + (if Verdict(p.data, q[k].data, true) == Success(1) then [q[k]] else [])
  {
    assert q[..k + 1][..k] == q[..k];
  }

  /** The members of `s` that a scan for `p` puts back into the queue. */
  function Kept(p: Point, s: seq<Point>): seq<Point> {
    if s == [] then []
    else Kept(p, s[..|s| - 1]) + (if Incomparable(p, s[|s| - 1]) then [s[|s| - 1]] else [])
  }

  /** The members of `s` that a scan for `p` evicts to `non_sky`. */
  function Evicted(p: Point, s: seq<Point>): seq<Point> {
    if s == [] then []
    else
      var last := s[|s| - 1];
      Evicted(p, s[..|s| - 1]) + (if Verdict(p.data, last.data, true) == Success(1) then [last] else [])
  }

  /** `Kept` keeps, in order, exactly the members incomparable to `p`. */
  lemma {:induction false} KeptMembers(p: Point, s: seq<Point>)
    ensures forall x :: x in Kept(p, s) <==> x in s && Incomparable(p, x)
    ensures multiset(Kept(p, s)) <= multiset(s)
  {
    if s != [] {
      KeptMembers(p, s[..|s| - 1]);
      assert s == s[..|s| - 1] + [s[|s| - 1]];
    }
  }

  /** `Evicted` holds exactly the members `p` dominates. */
  lemma {:induction false} EvictedMembers(p: Point, s: seq<Point>)
    ensures forall x :: x in Evicted(p, s) <==> x in s && Verdict(p.data, x.data, true) == Success(1)
    ensures multiset(Evicted(p, s)) <= multiset(s)
  {
    if s != [] {
      EvictedMembers(p, s[..|s| - 1]);
      assert s == s[..|s| - 1] + [s[|s| - 1]];
    }
  }

  /** When every member passes, each one is either kept or evicted. */
  lemma {:induction false} KeptEvictedPartition(p: Point, s: seq<Point>)
    requires forall j :: 0 <= j < |s| ==> Passes(p, s[j])
    ensures multiset(Kept(p, s)) + multiset(Evicted(p, s)) == multiset(s)
    ensures |Kept(p, s)| + |Evicted(p, s)| == |s|
  {
    if s != [] {
      KeptEvictedPartition(p, s[..|s| - 1]);
      assert s == s[..|s| - 1] + [s[|s| - 1]];
    }
  }

  /** What `update_sky_for_point` returns: `None` when the front was empty,
      `True` when the point joined the front, `False` when it was dominated
      or tied; `Raised` when `check_dominated` raised. */
  datatype Outcome = ReturnedNone | Accepted | Rejected | Raised

  /** The two queues of a `Skyline` object. */
  datatype Engine = Engine(skyline: seq<Point>, nonSky: seq<Point>)

  datatype Step = Step(engine: Engine, outcome: Outcome)

  /** One `update_sky_for_point(p)`: the front is scanned once from its head;
      members `p` dominates go to `nonSky`, incomparable members rotate to
      the back, the first member that dominates or ties `p` is put back and
      `p` goes to `nonSky`. A raise leaves the member being compared out of
      both queues (it was dequeued before the comparison). */
  function Insert(p: Point, e: Engine): Step {
    if e.skyline == [] then Step(Engine([p], e.nonSky), ReturnedNone)
    else
      var q := e.skyline;
      var k := StopIndex(p, q);
      var kept, evicted := Kept(p, q[..k]), Evicted(p, q[..k]);
      if k == |q| then Step(Engine(kept + [p], e.nonSky + evicted), Accepted)
      else if Verdict(p.data, q[k].data, true).Success? then
        Step(Engine(q[k + 1..] + kept + [q[k]], e.nonSky + evicted + [p]), Rejected)
      else Step(Engine(q[k + 1..] + kept, e.nonSky + evicted), Raised)
  }

  /** Up to the stop index every member passes, so the scanned prefix
      splits into kept and evicted members. */
  lemma ScanPrefix(p: Point, q: seq<Point>)
    ensures var k := StopIndex(p, q);
      && multiset(Kept(p, q[..k])) + multiset(Evicted(p, q[..k])) == multiset(q[..k])
      && |Kept(p, q[..k])| + |Evicted(p, q[..k])| == k
  {
    var k := StopIndex(p, q);
    StopIndexSpec(p, q, k);
    KeptEvictedPartition(p, q[..k]);
  }

  /** Bookkeeping for a scan that accepts: the kept and evicted members
      together with the new point account for everything. */
  lemma RegroupAccepted<T>(p: T, q: seq<T>, n: seq<T>, kept: seq<T>, ev: seq<T>)
    requires multiset(kept) + multiset(ev) == multiset(q)
    ensures multiset(kept + [p]) + multiset(n + ev) == multiset(q) + multiset(n) + multiset{p}
  {
  }

  /** Bookkeeping for a scan that stops at position `k`. */
  lemma RegroupStopped<T>(p: T, q: seq<T>, k: nat, n: seq<T>, kept: seq<T>, ev: seq<T>)
    requires k < |q| && multiset(kept) + multiset(ev) == multiset(q[..k])
    ensures multiset(q[k + 1..] + kept + [q[k]]) + multiset(n + ev + [p])
      == multiset(q) + multiset(n) + multiset{p}
    ensures |q[k + 1..] + kept| + |n + ev| + 1 == |q| + |n|
  {
    assert q == q[..k] + [q[k]] + q[k + 1..];
    assert |multiset(kept)| + |multiset(ev)| == |multiset(q[..k])|;
  }

  /** Every call places the point in exactly one queue, so the two queues
      together grow by exactly `p`; only a raise loses a point (the member
      being compared) and places nothing. */
  lemma InsertConserves(p: Point, e: Engine)
    ensures var s := Insert(p, e);
      s.outcome != Raised ==>
        multiset(s.engine.skyline) + multiset(s.engine.nonSky)
          == multiset(e.skyline) + multiset(e.nonSky) + multiset{p}
    ensures var s := Insert(p, e);
      s.outcome == Raised ==>
        |s.engine.skyline| + |s.engine.nonSky| + 1 == |e.skyline| + |e.nonSky|
  {
    var q, n := e.skyline, e.nonSky;
    if q != [] {
      var k := StopIndex(p, q);
      ScanPrefix(p, q);
      if k == |q| {
        assert q[..k] == q;
        RegroupAccepted(p, q, n, Kept(p, q), Evicted(p, q));
      } else {
        RegroupStopped(p, q, k, n, Kept(p, q[..k]), Evicted(p, q[..k]));
      }
    }
  }

  /** A point that passes every member joins an antichain as an antichain. */
  lemma AcceptedKeepsAntichain(p: Point, q: seq<Point>)
    requires Antichain(q) && StopIndex(p, q) == |q|
    ensures Antichain(Kept(p, q) + [p])
  {
    var kept := Kept(p, q);
    var r := kept + [p];
    KeptMembers(p, q);
    AntichainOfSubMultiset(q, kept);
    forall x, y | x in r && y in r && x != y ensures Incomparable(x, y) {
      if x == p {
        IncomparableSymmetric(p, y);
      } else if y == p {
        IncomparableSymmetric(p, x);
        IncomparableSymmetric(x, p);
      }
    }
    assert p !in kept by {
      VerdictMirror(p.data, p.data, true);
    }
  }

  /** The front stays an antichain under every call, including a raise. */
  lemma InsertKeepsAntichain(p: Point, e: Engine)
    requires Antichain(e.skyline)
    ensures Antichain(Insert(p, e).engine.skyline)
  {
    var q := e.skyline;
    if q != [] {
      var k := StopIndex(p, q);
      if k == |q| {
        assert q[..k] == q;
        AcceptedKeepsAntichain(p, q);
      } else {
        var kept := Kept(p, q[..k]);
        KeptMembers(p, q[..k]);
        assert q == q[..k] + [q[k]] + q[k + 1..];
        if Verdict(p.data, q[k].data, true).Success? {
          AntichainOfSubMultiset(q, q[k + 1..] + kept + [q[k]]);
        } else {
          AntichainOfSubMultiset(q, q[k + 1..] + kept);
        }
      }
    }
  }

  /** The meaning of `True`: `p` is in the front next to members it is
      incomparable to, and every old member `p` dominates is in `nonSky`. */
  lemma InsertAccepted(p: Point, e: Engine)
    requires Insert(p, e).outcome == Accepted
    ensures var s := Insert(p, e);
      && p in s.engine.skyline
      && (forall x | x in s.engine.skyline && x != p :: x in e.skyline && Incomparable(p, x))
      && (forall x | x in e.skyline && Verdict(p.data, x.data, true) == Success(1) :: x in s.engine.nonSky)
  {
    var q := e.skyline;
    assert q[..|q|] == q;
    KeptMembers(p, q);
    EvictedMembers(p, q);
  }

  /** The meaning of `False`: an old member that dominates or ties `p` is
      still in the front, and `p` is the newest entry of `nonSky`. */
  lemma InsertRejected(p: Point, e: Engine)
    requires Insert(p, e).outcome == Rejected
    ensures var s := Insert(p, e);
      && s.engine.nonSky[|s.engine.nonSky| - 1] == p
      && (exists c | c in s.engine.skyline && c in e.skyline ::
            Dominates(c.data, p.data) || c.data == p.data)
  {
    var q := e.skyline;
    var k := StopIndex(p, q);
    StopIndexSpec(p, q, k);
    var c := q[k];
    assert c in Insert(p, e).engine.skyline;
    VerdictMirror(p.data, c.data, true);
  }

  /** The queues of `update_sky_for_point` after it has scanned the first
      `k` members of the old front `q`: the unscanned rest, then the members
      put back; `nonSky` has grown by the evicted ones. */
  ghost function ScanState(p: Point, q: seq<Point>, n: seq<Point>, k: nat): Engine
    requires k <= |q|
  {
    Engine(q[k..] + Kept(p, q[..k]), n + Evicted(p, q[..k]))
  }

  /** One scanned member that passes: it leaves the head of the queue and
      goes to the back (incomparable) or to `nonSky` (dominated). */
  lemma ScanStatePasses(p: Point, q: seq<Point>, n: seq<Point>, k: nat)
    requires k < |q| && Passes(p, q[k])
    ensures var s := ScanState(p, q, n, k);
      ScanState(p, q, n, k + 1) ==
        if Verdict(p.data, q[k].data, true) == Success(1)
        then Engine(s.skyline[1..], s.nonSky + [q[k]])
        else Engine(s.skyline[1..] + [q[k]], s.nonSky)
  {
    ScanOneMore(p, q, k);
    assert q[k..] == [q[k]] + q[k + 1..];
  }

  /** The scan stops at position `k`: `Insert` is the scan state with the
      head dequeued, the head put back and `p` evicted unless it raised. */
  lemma ScanStateStops(p: Point, q: seq<Point>, n: seq<Point>, k: nat)
    requires k < |q| && StopIndex(p, q) == k
    ensures var s := ScanState(p, q, n, k);
      Insert(p, Engine(q, n)) ==
        if Verdict(p.data, q[k].data, true).Success?
        then Step(Engine(s.skyline[1..] + [q[k]], s.nonSky + [p]), Rejected)
        else Step(Engine(s.skyline[1..], s.nonSky), Raised)
  {
    assert q[k..] == [q[k]] + q[k + 1..];
  }

  /** One step of the scan loop of `update_sky_for_point`, by the answer
      `v` of comparing `p` with the member at `k`. */
  lemma ScanStep(p: Point, q: seq<Point>, n: seq<Point>, k: nat, v: Result<int, SkylineException>)
    requires k < |q| && StopIndex(p, q) >= k && v == Verdict(p.data, q[k].data, true)
    ensures var s := ScanState(p, q, n, k);
      && s.skyline != [] && s.skyline[0] == q[k]
      && (v.Failure? ==> Insert(p, Engine(q, n)) == Step(Engine(s.skyline[1..], s.nonSky), Raised))
      && (v.Success? ==> v.value in {-1, 0, 1})
      && (v == Success(1) ==>
            StopIndex(p, q) > k && ScanState(p, q, n, k + 1) == Engine(s.skyline[1..], s.nonSky + [q[k]]))
      && (v == Success(0) ==>
            StopIndex(p, q) > k && ScanState(p, q, n, k + 1) == Engine(s.skyline[1..] + [q[k]], s.nonSky))
      && (v == Success(-1) ==>
            Insert(p, Engine(q, n)) == Step(Engine(s.skyline[1..] + [q[k]], s.nonSky + [p]), Rejected))
  {
    assert q[k..] == [q[k]] + q[k + 1..];
    StopIndexNext(p, q, k);
    if Passes(p, q[k]) {
      ScanStatePasses(p, q, n, k);
    } else {
      ScanStateStops(p, q, n, k);
    }
  }

  /** A scan that passed every member accepts `p`. */
  lemma ScanAccepts(p: Point, q: seq<Point>, n: seq<Point>)
    requires q != [] && StopIndex(p, q) >= |q|
    ensures var s := ScanState(p, q, n, |q|);
      Insert(p, Engine(q, n)) == Step(Engine(s.skyline + [p], s.nonSky), Accepted)
  {
    assert q[..|q|] == q;
  }

  /** The loop of `update_sky_for_point`, one dequeued member at a time:
      `toSee` members of `sky` are still to be compared with `p`. */
  function Scan(p: Point, sky: seq<Point>, non: seq<Point>, toSee: nat): Step
    requires toSee <= |sky|
    decreases toSee
  {
    if toSee == 0 then Step(Engine(sky + [p], non), Accepted)
    else
      var c, rest := sky[0], sky[1..];
      match Verdict(p.data, c.data, true)
      case Failure(_) => Step(Engine(rest, non), Raised)
      case Success(v) =>
        if v == 1 then Scan(p, rest, non + [c], toSee - 1)
        else if v == 0 then Scan(p, rest + [c], non, toSee - 1)
        else if v == -1 then Step(Engine(rest + [c], non + [p]), Rejected)
        else Scan(p, rest, non, toSee - 1)
  }

  /** `update_sky_for_point` as a function of the two queues. */
  function Update(p: Point, e: Engine): Step {
    if e.skyline == [] then Step(Engine([p], e.nonSky), ReturnedNone)
    else Scan(p, e.skyline, e.nonSky, |e.skyline|)
  }

  /** From the state after scanning `k` members, the rest of the loop ends
      where `Insert` says. */
  lemma {:induction false} ScanFromState(p: Point, q: seq<Point>, n: seq<Point>, k: nat)
    requires q != [] && k <= |q| && StopIndex(p, q) >= k
    ensures var s := ScanState(p, q, n, k);
      |q| - k <= |s.skyline| && Scan(p, s.skyline, s.nonSky, |q| - k) == Insert(p, Engine(q, n))
    decreases |q| - k
  {
    if k == |q| {
      ScanAccepts(p, q, n);
    } else {
      var v := Verdict(p.data, q[k].data, true);
      ScanStep(p, q, n, k, v);
      if v == Success(1) || v == Success(0) {
        ScanFromState(p, q, n, k + 1);
      }
    }
  }

  /** The one-pass loop computes the partition that `Insert` describes:
      kept members rotated behind the unscanned ones, dominated members
      evicted in scan order, and `p` placed by the first member that stops
      the scan. */
  lemma UpdateIsInsert(p: Point, e: Engine)
    ensures Update(p, e) == Insert(p, e)
  {
    var q := e.skyline;
    if q != [] {
      ScanFromState(p, q, e.nonSky, 0);
      assert ScanState(p, q, e.nonSky, 0) == e by {
        assert q[..0] == [] && q[0..] == q;
      }
    }
  }

  /** The result of feeding several points: the final queues, and whether
      the run stopped on a raised exception. */
  datatype Run = Run(engine: Engine, raised: bool)

  /** `compute_all_sky`: update with the points in order; an exception ends
      it. */
  function UpdateAll(ps: seq<Point>, e: Engine): Run
    decreases |ps|
  {
    if ps == [] then Run(e, false)
    else
      var s := Update(ps[0], e);
      if s.outcome == Raised then Run(s.engine, true)
      else UpdateAll(ps[1..], s.engine)
  }

  /** Feeding one more point to a run: nothing happens after a raise,
      otherwise the run continues with one more `update_sky_for_point`. */
  lemma {:induction false} UpdateAllSnoc(ps: seq<Point>, p: Point, e: Engine)
    ensures var r := UpdateAll(ps, e);
      UpdateAll(ps + [p], e) ==
        if r.raised then r
        else var s := Update(p, r.engine); Run(s.engine, s.outcome == Raised)
    decreases |ps|
  {
    if ps == [] {
      assert [p][1..] == [];
    } else {
      assert (ps + [p])[1..] == ps[1..] + [p];
      var s := Update(ps[0], e);
      if s.outcome != Raised {
        UpdateAllSnoc(ps[1..], p, s.engine);
      }
    }
  }

  /** A run that does not raise places every input point: the two queues
      together hold what they held before plus the whole input. */
  lemma {:induction false} UpdateAllConserves(ps: seq<Point>, e: Engine)
    ensures var r := UpdateAll(ps, e);
      !r.raised ==>
        multiset(r.engine.skyline) + multiset(r.engine.nonSky)
          == multiset(e.skyline) + multiset(e.nonSky) + multiset(ps)
    decreases |ps|
  {
    if ps != [] {
      UpdateIsInsert(ps[0], e);
      InsertConserves(ps[0], e);
      UpdateAllConserves(ps[1..], Update(ps[0], e).engine);
      assert ps == [ps[0]] + ps[1..];
    }
  }

  /** A `Skyline` object: its two queues are fields updated in place. */
  class Skyline {
    var skyline: seq<Point>
    var nonSky: seq<Point>

    function State(): Engine
      reads this
    {
      Engine(skyline, nonSky)
    }

    /** `Skyline(skyline=None, non_sky=None)`: a given queue is adopted, a
        missing one starts empty. */
    constructor (skyline: Option<seq<Point>>, nonSky: Option<seq<Point>>)
      ensures this.skyline == (if skyline.Some? then skyline.value else [])
      ensures this.nonSky == (if nonSky.Some? then nonSky.value else [])
    {
      this.skyline := if skyline.Some? then skyline.value else [];
      this.nonSky := if nonSky.Some? then nonSky.value else [];
    }

    /** `check_dominated`: the answer `Verdict` gives (see `VerdictMeaning`
        for what it says about the two points). */
    static method CheckDominated(point1: Point, point2: Point, removeDups: bool)
      returns (r: Result<int, SkylineException>)
      ensures r == Verdict(point1.data, point2.data, removeDups)
    {
      var dominates, dominated := false, false;
      var data1, data2 := point1.data, point2.data;
      if |data1| != |data2| {
        return Failure(UnequalDimensions);
      }
      for idx := 0 to |data1|
        invariant dominated <==> exists j :: 0 <= j < idx && data1[j] > data2[j]
        invariant dominates <==> exists j :: 0 <= j < idx && data1[j] < data2[j]
      {
        if data1[idx] > data2[idx] {
          dominated := true;
        } else if data1[idx] < data2[idx] {
          dominates := true;
        }
      }
      if !dominates && !dominated {
        assert data1 == data2;
      }
      if dominates && !dominated {
        return Success(1);
      } else if !dominates && dominated {
        return Success(-1);
      }
      if removeDups && !dominates {
        return Success(-1);
      }
      return Success(0);
    }

    /** `update_sky_for_point`: the queues become what `Update` says, which
        is the partition `Insert` describes (`UpdateIsInsert`). */
    method UpdateSkyForPoint(point: Point) returns (outcome: Outcome)
      modifies this
      ensures Step(State(), outcome) == Update(point, old(State()))
    {
      if skyline == [] {
        skyline := skyline + [point];
        return ReturnedNone;
      }
      ghost var goal := Update(point, State());
      var isDominated := false;
      var toSee := |skyline|;
      while toSee > 0
        invariant 0 <= toSee <= |skyline| && !isDominated
        invariant Scan(point, skyline, nonSky, toSee) == goal
      {
        var cmpTup := skyline[0];
        skyline := skyline[1..];
        toSee := toSee - 1;
        var isDom := CheckDominated(point, cmpTup, true);
        if isDom.Failure? {
          return Raised;
        }
        if isDom.value == 1 {
          nonSky := nonSky + [cmpTup];
        } else if isDom.value == 0 {
          skyline := skyline + [cmpTup];
        } else if isDom.value == -1 {
          skyline := skyline + [cmpTup];
          nonSky := nonSky + [point];
          isDominated := true;
          assert Step(State(), Rejected) == goal;
          break;
        }
      }
      if !isDominated {
        skyline := skyline + [point];
      }
      return if isDominated then Rejected else Accepted;
    }

    /** `compute_all_sky`: the queues become what `UpdateAll` says, and
        `raised` tells whether an exception ended the loop. */
    method ComputeAllSky(inTuples: seq<Point>) returns (raised: bool)
      modifies this
      ensures UpdateAll(inTuples, old(State())) == Run(State(), raised)
    {
      for i := 0 to |inTuples|
        invariant UpdateAll(inTuples, old(State())) == UpdateAll(inTuples[i..], State())
      {
        assert inTuples[i..][1..] == inTuples[i + 1..];
        var outcome := UpdateSkyForPoint(inTuples[i]);
        if outcome == Raised {
          return true;
        }
      }
      return false;
    }
  }
}
