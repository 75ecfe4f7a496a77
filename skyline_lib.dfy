/** The queue-based block-nested-loop prototype of skyline/skylineLib.py.
    Tuples are bare coordinate vectors; `dominated` compares them over the
    first tuple's positions only, and ties are incomparable, so duplicates
    stay side by side in the window. */
module SkylineLib {
  import opened Wrappers
  import opened Dominance

  /** A `Queue.Queue` of tuples, modelled by its contents, head first. */
  class TupleQueue {
    var items: seq<Coords>

    constructor (items: seq<Coords>)
      ensures this.items == items
    {
      this.items := items;
    }
  }

  /** `dominated(tuple1, tuple2)`: the answer `PrefixVerdict` gives; it
      raises `IndexError` exactly when `tuple2` is shorter than `tuple1`. */
  method Dominated(tuple1: Coords, tuple2: Coords) returns (r: Result<int, IndexError>)
    ensures r == PrefixVerdict(tuple1, tuple2)
  {
    var dimLength := |tuple1|;
    var dominates, dominated := false, false;
    var index := 0;
    while index < dimLength
      invariant 0 <= index <= dimLength && index <= |tuple2|
      invariant dominated <==> exists j :: 0 <= j < index && tuple1[j] > tuple2[j]
      invariant dominates <==> exists j :: 0 <= j < index && tuple1[j] < tuple2[j]
    {
      if index >= |tuple2| {
        return Failure(IndexError);
      }
      if tuple1[index] > tuple2[index] {
        dominated := true;
      } else if tuple1[index] < tuple2[index] {
        dominates := true;
      }
      index := index + 1;
    }
    ghost var head := tuple2[..dimLength];
    assert forall j :: 0 <= j < dimLength ==> head[j] == tuple2[j];
    if dominates && !dominated {
      return Success(1);
    } else if !dominates && dominated {
      assert !Dominates(tuple1, head);
      return Success(-1);
    }
    assert !Dominates(tuple1, head) && !Dominates(head, tuple1);
    return Success(0);
  }

  /** What the answers of `dominated` mean: it raises exactly when the
      second tuple is shorter; 1 exactly when the first tuple is nowhere
      larger and somewhere smaller over its own positions; -1 for the
      mirrored case; 0 when neither holds, in particular on equal tuples. */
  lemma PrefixVerdictMeaning(t1: Coords, t2: Coords)
    ensures PrefixVerdict(t1, t2).Failure? <==> |t2| < |t1|
    ensures PrefixVerdict(t1, t2) == Success(1) <==>
      && |t1| <= |t2|
      && (forall i :: 0 <= i < |t1| ==> t1[i] <= t2[i])
      && (exists i :: 0 <= i < |t1| && t1[i] < t2[i])
    ensures PrefixVerdict(t1, t2) == Success(-1) <==>
      && |t1| <= |t2|
      && (forall i :: 0 <= i < |t1| ==> t2[i] <= t1[i])
      && (exists i :: 0 <= i < |t1| && t2[i] < t1[i])
    ensures |t1| <= |t2| && t2[..|t1|] == t1 ==> PrefixVerdict(t1, t2) == Success(0)
  {
    if |t1| <= |t2| {
      var head := t2[..|t1|];
      assert forall i :: 0 <= i < |t1| ==> head[i] == t2[i];
      if Dominates(t1, head) {
        DominatesAsymmetric(t1, head);
      }
    }
  }

  /** `dominated` has no arity check: coordinates of the second tuple past
      the first tuple's length are never looked at. */
  lemma PrefixOnly(t1: Coords, t2: Coords, extra: Coords)
    requires |t1| <= |t2|
    ensures PrefixVerdict(t1, t2 + extra) == PrefixVerdict(t1, t2)
  {
    assert (t2 + extra)[..|t1|] == t2[..|t1|];
  }

  /** The window and the non-skyline queue. */
  datatype Queues = Queues(window: seq<Coords>, nonSky: seq<Coords>)

  /** The queues after one input tuple, and whether `dominated` raised. */
  datatype Placed = Placed(queues: Queues, raised: bool)

  /** The inner loop of `skylineBNL` for the tuple `cur`: `toSee` window
      members are still to be dequeued and compared. A dominated member
      goes to the non-skyline queue, an incomparable one back to the
      window; the first member dominating `cur` goes back and `cur` goes to
      the non-skyline queue; a raise loses the member being compared. */
  function Scan(cur: Coords, window: seq<Coords>, nonSky: seq<Coords>, toSee: nat): Placed
    requires toSee <= |window|
    decreases toSee
  {
    if toSee == 0 then Placed(Queues(window + [cur], nonSky), false)
    else
      var cmp, rest := window[0], window[1..];
      match PrefixVerdict(cur, cmp)
      case Failure(_) => Placed(Queues(rest, nonSky), true)
      case Success(v) =>
        if v == 1 then Scan(cur, rest, nonSky + [cmp], toSee - 1)
        else if v == 0 then Scan(cur, rest + [cmp], nonSky, toSee - 1)
        else if v == -1 then Placed(Queues(rest + [cmp], nonSky + [cur]), false)
        else Scan(cur, rest, nonSky, toSee - 1)
  }

  /** One pass of the outer loop: a tuple meeting an empty window is put
      there without any comparison; otherwise the window is scanned once. */
  function Insert(cur: Coords, q: Queues): Placed {
    if q.window == [] then Placed(Queues([cur], q.nonSky), false)
    else Scan(cur, q.window, q.nonSky, |q.window|)
  }

  /** The three queues when `skylineBNL` returns or raises: what is left of
      the input, the window and the non-skyline queue. */
  datatype Drained = Drained(input: seq<Coords>, queues: Queues, raised: bool)

  /** `skylineBNL` on the queues' contents: every input tuple in order,
      until the input is empty or a comparison raises. */
  function Drain(input: seq<Coords>, q: Queues): Drained
    decreases |input|
  {
    if input == [] then Drained([], q, false)
    else
      var s := Insert(input[0], q);
      if s.raised then Drained(input[1..], s.queues, true)
      else Drain(input[1..], s.queues)
  }

  /** The inner loop of `skylineBNL` for one dequeued tuple. */
  method ScanWindow(cur: Coords, window: TupleQueue, nonSkylinePts: TupleQueue) returns (raised: bool)
    requires window != nonSkylinePts && window.items != []
    modifies window, nonSkylinePts
    ensures Placed(Queues(window.items, nonSkylinePts.items), raised)
      == Insert(cur, Queues(old(window.items), old(nonSkylinePts.items)))
  {
    ghost var goal := Insert(cur, Queues(window.items, nonSkylinePts.items));
    var isDominated := false;
    var toSee := |window.items|;
    while toSee > 0
      invariant 0 <= toSee <= |window.items|
      invariant Scan(cur, window.items, nonSkylinePts.items, toSee) == goal
    {
      var cmpTup := window.items[0];
      window.items := window.items[1..];
      toSee := toSee - 1;
      var isDom := Dominated(cur, cmpTup);
      if isDom.Failure? {
        return true;
      }
      if isDom.value == 1 {
        nonSkylinePts.items := nonSkylinePts.items + [cmpTup];
      } else if isDom.value == 0 {
        window.items := window.items + [cmpTup];
      } else if isDom.value == -1 {
        window.items := window.items + [cmpTup];
        nonSkylinePts.items := nonSkylinePts.items + [cur];
        isDominated := true;
        break;
      }
    }
    if !isDominated {
      window.items := window.items + [cur];
    }
    return false;
  }

  /** `skylineBNL(in_tuples, window, nonSkylinePts)`: the three queues end
      as `Drain` says. Unless a comparison raised, the input is drained and
      the very window object passed in is returned. */
  method SkylineBNL(inTuples: TupleQueue, window: TupleQueue, nonSkylinePts: TupleQueue)
    returns (result: Result<TupleQueue, IndexError>)
    requires inTuples != window && inTuples != nonSkylinePts && window != nonSkylinePts
    modifies inTuples, window, nonSkylinePts
    ensures Drain(old(inTuples.items), Queues(old(window.items), old(nonSkylinePts.items)))
      == Drained(inTuples.items, Queues(window.items, nonSkylinePts.items), result.Failure?)
    ensures result.Success? ==> result.value == window && inTuples.items == []
  {
    ghost var goal := Drain(inTuples.items, Queues(window.items, nonSkylinePts.items));
    while inTuples.items != []
      invariant Drain(inTuples.items, Queues(window.items, nonSkylinePts.items)) == goal
      decreases |inTuples.items|
    {
      var curTup := inTuples.items[0];
      ghost var q0 := Queues(window.items, nonSkylinePts.items);
      ghost var s := Insert(curTup, q0);
      assert goal == if s.raised then Drained(inTuples.items[1..], s.queues, true)
                     else Drain(inTuples.items[1..], s.queues);
      inTuples.items := inTuples.items[1..];
      if window.items == [] {
        window.items := window.items + [curTup];
        continue;
      }
      var raised := ScanWindow(curTup, window, nonSkylinePts);
      if raised {
        return Failure(IndexError);
      }
    }
    return Success(window);
  }

  /** The first tuple meeting an empty window joins it without being
      compared, whatever its arity. */
  lemma FirstTupleAccepted(t: Coords, rest: seq<Coords>, nonSky: seq<Coords>)
    ensures Drain([t] + rest, Queues([], nonSky)) == Drain(rest, Queues([t], nonSky))
  {
    assert ([t] + rest)[1..] == rest;
  }

  /** The queues part way through a scan: the unscanned members `w[k..]`
      followed by the `k` scanned ones, all of them incomparable to `cur`. */
  lemma {:induction false} ScanIncomparable(cur: Coords, w: seq<Coords>, nonSky: seq<Coords>, k: nat)
    requires k <= |w|
    requires forall c | c in w :: PrefixVerdict(cur, c) == Success(0)
    ensures Scan(cur, w[k..] + w[..k], nonSky, |w| - k) == Placed(Queues(w + [cur], nonSky), false)
    decreases |w| - k
  {
    if k == |w| {
      assert w[k..] + w[..k] == w;
    } else {
      var s := w[k..] + w[..k];
      assert s[0] == w[k];
      assert s[1..] + [s[0]] == w[k + 1..] + w[..k + 1];
      ScanIncomparable(cur, w, nonSky, k + 1);
    }
  }

  /** A tuple incomparable to every window member is appended to the
      window; an equal tuple is incomparable, so a duplicate is kept
      beside the original. */
  lemma IncomparableAppended(cur: Coords, q: Queues)
    requires forall c | c in q.window :: PrefixVerdict(cur, c) == Success(0)
    ensures Insert(cur, q) == Placed(Queues(q.window + [cur], q.nonSky), false)
  {
    if q.window != [] {
      ScanIncomparable(cur, q.window, q.nonSky, 0);
      assert q.window[0..] + q.window[..0] == q.window;
    }
  }

  /** Two equal tuples both end in the window. */
  lemma DuplicatesKept(t: Coords, nonSky: seq<Coords>)
    ensures Drain([t, t], Queues([], nonSky)) == Drained([], Queues([t, t], nonSky), false)
  {
    PrefixVerdictMeaning(t, t);
    assert t[..|t|] == t;
    IncomparableAppended(t, Queues([t], nonSky));
    assert [t, t][1..] == [t] && [t][1..] == [] && [t] + [t] == [t, t];
    assert Drain([t, t], Queues([], nonSky)) == Drain([t], Queues([t], nonSky));
    assert Drain([t], Queues([t], nonSky)) == Drain([], Queues([t, t], nonSky));
  }

  /** The inner loop conserves tuples: unless it raises, the window and the
      non-skyline queue together gain exactly `cur`. */
  lemma {:induction false} ScanConserves(cur: Coords, w: seq<Coords>, n: seq<Coords>, toSee: nat)
    requires toSee <= |w|
    ensures var s := Scan(cur, w, n, toSee);
      !s.raised ==>
        multiset(s.queues.window) + multiset(s.queues.nonSky) == multiset(w) + multiset(n) + multiset{cur}
    decreases toSee
  {
    if toSee > 0 {
      var cmp, rest := w[0], w[1..];
      assert w == [cmp] + rest;
      assert multiset(w) == multiset(rest) + multiset{cmp};
      var v := PrefixVerdict(cur, cmp);
      if v.Success? {
        if v.value == 1 {
          ScanConserves(cur, rest, n + [cmp], toSee - 1);
          assert multiset(n + [cmp]) == multiset(n) + multiset{cmp};
        } else if v.value == 0 {
          ScanConserves(cur, rest + [cmp], n, toSee - 1);
          assert multiset(rest + [cmp]) == multiset(w);
        } else if v.value != -1 {
          PrefixVerdictMeaning(cur, cmp);
          assert false;
        }
      }
    }
  }

  /** Every input tuple ends in exactly one of the window and the
      non-skyline queue, and evicted window members move to the latter:
      unless a comparison raised, the two queues together hold what they
      held before plus the whole input. */
  lemma {:induction false} DrainConserves(input: seq<Coords>, q: Queues)
    ensures var d := Drain(input, q);
      !d.raised ==>
        && d.input == []
        && multiset(d.queues.window) + multiset(d.queues.nonSky)
           == multiset(q.window) + multiset(q.nonSky) + multiset(input)
    decreases |input|
  {
    if input != [] {
      var s := Insert(input[0], q);
      if q.window != [] {
        ScanConserves(input[0], q.window, q.nonSky, |q.window|);
      }
      assert input == [input[0]] + input[1..];
      DrainConserves(input[1..], s.queues);
    }
  }

  /** No member of the window strictly dominates another. */
  ghost predicate NoneDominated(w: seq<Coords>) {
    forall x, y | x in w && y in w :: !Dominates(x, y)
  }

  /** Strict domination, read through `dominated`'s answer for `cur`
      against a member of at least its length. */
  lemma ZeroMeansNeither(cur: Coords, c: Coords)
    requires PrefixVerdict(cur, c) == Success(0)
    ensures !Dominates(cur, c) && !Dominates(c, cur)
  {
    if |cur| == |c| {
      assert c[..|cur|] == c;
    }
  }

  /** The inner loop keeps the window free of strict domination: what
      stays is a subset of the old window plus, when accepted, `cur`, which
      is incomparable to every member that stays. */
  lemma {:induction false} ScanKeepsNoneDominated(cur: Coords, w: seq<Coords>, n: seq<Coords>, toSee: nat)
    requires toSee <= |w| && NoneDominated(w)
    requires forall c | c in w[toSee..] :: !Dominates(cur, c) && !Dominates(c, cur)
    ensures NoneDominated(Scan(cur, w, n, toSee).queues.window)
    decreases toSee
  {
    if toSee == 0 {
      var r := w + [cur];
      forall x, y | x in r && y in r ensures !Dominates(x, y) {
        if x == cur && y == cur {
          DominatesIrreflexive(cur);
        }
      }
    } else {
      var cmp, rest := w[0], w[1..];
      var v := PrefixVerdict(cur, cmp);
      assert forall c | c in rest :: c in w;
      if v.Success? {
        if v.value == 1 {
          assert rest[toSee - 1..] == w[toSee..];
          ScanKeepsNoneDominated(cur, rest, n + [cmp], toSee - 1);
        } else if v.value == 0 {
          ZeroMeansNeither(cur, cmp);
          var r := rest + [cmp];
          assert forall c | c in r :: c in w;
          assert r[toSee - 1..] == w[toSee..] + [cmp];
          ScanKeepsNoneDominated(cur, r, n, toSee - 1);
        } else if v.value == -1 {
          var r := rest + [cmp];
          assert forall c | c in r :: c in w;
        }
      }
    }
  }

  /** On return, no window member strictly dominates another, provided the
      window passed in had that property (an empty one has). */
  lemma {:induction false} DrainKeepsNoneDominated(input: seq<Coords>, q: Queues)
    requires NoneDominated(q.window)
    ensures NoneDominated(Drain(input, q).queues.window)
    decreases |input|
  {
    if input != [] {
      var cur := input[0];
      if q.window != [] {
        ScanKeepsNoneDominated(cur, q.window, q.nonSky, |q.window|);
      }
      DrainKeepsNoneDominated(input[1..], Insert(cur, q).queues);
    }
  }

  /** All tuples of one arity. */
  ghost predicate Arity(s: seq<Coords>, k: nat) {
    forall t | t in s :: |t| == k
  }

  lemma {:induction false} ScanKeepsArity(cur: Coords, w: seq<Coords>, n: seq<Coords>, toSee: nat, k: nat)
    requires toSee <= |w| && |cur| == k && Arity(w, k)
    ensures var s := Scan(cur, w, n, toSee); !s.raised && Arity(s.queues.window, k)
    decreases toSee
  {
    if toSee > 0 {
      var cmp, rest := w[0], w[1..];
      PrefixVerdictMeaning(cur, cmp);
      assert forall c | c in rest + [cmp] :: c in w;
      if PrefixVerdict(cur, cmp) == Success(1) {
        ScanKeepsArity(cur, rest, n + [cmp], toSee - 1, k);
      } else if PrefixVerdict(cur, cmp) == Success(0) {
        ScanKeepsArity(cur, rest + [cmp], n, toSee - 1, k);
      }
    }
  }

  /** Comparisons can only raise on tuples of different lengths: a run over
      tuples all of one arity, into a window of that arity, never raises. */
  lemma {:induction false} UniformArityNeverRaises(input: seq<Coords>, q: Queues, k: nat)
    requires Arity(input, k) && Arity(q.window, k)
    ensures !Drain(input, q).raised
    decreases |input|
  {
    if input != [] {
      var cur := input[0];
      if q.window != [] {
        ScanKeepsArity(cur, q.window, q.nonSky, |q.window|, k);
      }
      assert forall t | t in input[1..] :: t in input;
      UniformArityNeverRaises(input[1..], Insert(cur, q).queues, k);
    }
  }
}
