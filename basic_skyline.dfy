/** The list-based block-nested-loop prototype of skyline/BasicSkyline.py:
    a bounded window, a temporary file for tuples that do not fit, and
    several passes told apart by timestamps. Every list the function works
    on is a local sequence here; `fuel` bounds the number of passes that
    start over from the temporary file. */
module BasicSkyline {
  import opened Wrappers
  import opened Dominance
  import opened SkylineLib

  /** `Tuple(dataPoint, timeStamp)`. */
  datatype Tuple = Tuple(data: Coords, timeStamp: int)

  /** An element of `inputFile`: a bare list on the first pass, a `Tuple`
      read back from the temporary file on later ones. */
  datatype Entry = Raw(data: Coords) | Reread(tuple: Tuple)

  /** `compare(tuple1, tuple2)`: the answer `PrefixVerdict` gives, the same
      rule as `dominated` in skyline/skylineLib.py; equal tuples give 0. */
  method Compare(tuple1: Coords, tuple2: Coords) returns (r: Result<int, IndexError>)
    ensures r == PrefixVerdict(tuple1, tuple2)
  {
    var dimLength := |tuple1|;
    var dominates, neutral, dominated := false, false, false;
    var index := 0;
    while index < dimLength
      invariant 0 <= index <= dimLength && index <= |tuple2|
      invariant dominated <==> exists j :: 0 <= j < index && tuple1[j] > tuple2[j]
      invariant dominates <==> exists j :: 0 <= j < index && tuple1[j] < tuple2[j]
    {
      if index >= |tuple2| {
        return Failure(IndexError);
      }
      if tuple1[index] > tuple2[index] {
        dominated := true;
      } else if tuple1[index] < tuple2[index] {
        dominates := true;
      } else {
        neutral := true;
      }
      index := index + 1;
    }
    ghost var head := tuple2[..dimLength];
    assert forall j :: 0 <= j < dimLength ==> head[j] == tuple2[j];
    // The `neutral` flag never matters: both tests accept either value.
    if dominates && !dominated {
      return Success(1);
    } else if !dominates && dominated {
      assert !Dominates(tuple1, head);
      return Success(-1);
    }
    assert !Dominates(tuple1, head) && !Dominates(head, tuple1);
    return Success(0);
  }

  /** How the window scan moves on after removing a dominated member: as
      written it still advances the index, which skips the member shifted
      into the freed slot; corrected, it stays on that slot. */
  datatype ScanRule = AsWritten | Corrected

  /** Where a scan of the window for `cur` ended: the window after the
      removals, whether `compare` raised, and the three flags. */
  datatype ScanEnd = ScanEnd(window: seq<Tuple>, raised: bool, dominated: bool, dominates: bool, neutral: bool)

  /** The window loop from index `i`: a member `cur` dominates is removed,
      an incomparable one sets `neutral`, and the first member dominating
      `cur` stops the scan. */
  function ScanFrom(cur: Tuple, w: seq<Tuple>, i: nat, dominates: bool, neutral: bool, rule: ScanRule): ScanEnd
    requires i <= |w| + 1
    decreases |w| + 1 - i
  {
    if i >= |w| then ScanEnd(w, false, false, dominates, neutral)
    else match PrefixVerdict(cur.data, w[i].data)
      case Failure(_) => ScanEnd(w, true, false, dominates, neutral)
      case Success(v) =>
        if v == -1 then ScanEnd(w, false, true, dominates, neutral)
        else if v == 1 then
          ScanFrom(cur, w[..i] + w[i + 1..], if rule == AsWritten then i + 1 else i, true, neutral, rule)
        else ScanFrom(cur, w, i + 1, dominates, true, rule)
  }

  /** The local lists of `skylineBNL` and its counter `time`. */
  datatype State = State(input: seq<Entry>, window: seq<Tuple>, temp: seq<Tuple>,
                         skyline: seq<Coords>, nonSky: seq<Coords>, time: int)

  /** The tuple made of the head of the input: a bare list is wrapped with
      the counter as timestamp, a read-back `Tuple` is restamped. */
  function Stamp(e: Entry, time: int): (t: Tuple)
    ensures t.timeStamp == time
    ensures t.data == if e.Raw? then e.data else e.tuple.data
  {
    match e
    case Raw(data) => Tuple(data, time)
    case Reread(t) => t.(timeStamp := time)
  }

  datatype Consumed = Consumed(st: State, raised: bool)

  /** One input tuple: it is stamped and dequeued and the counter advances;
      an empty window takes it unchecked; otherwise, after the scan, a
      dominated tuple's data goes to `nonSkylinePts`, and an undominated
      one goes to the window if it has room, else to the temporary file. */
  function Consume(st: State, windowSize: int, rule: ScanRule): Consumed
    requires st.input != []
  {
    var cur := Stamp(st.input[0], st.time);
    var s := st.(input := st.input[1..], time := st.time + 1);
    if s.window == [] then Consumed(s.(window := [cur]), false)
    else
      var e := ScanFrom(cur, s.window, 0, false, false, rule);
      if e.raised then Consumed(s.(window := e.window), true)
      else if e.dominated then Consumed(s.(window := e.window, nonSky := s.nonSky + [cur.data]), false)
      else if e.dominates || e.neutral then
        if |e.window| < windowSize then Consumed(s.(window := e.window + [cur]), false)
        else Consumed(s.(window := e.window, temp := s.temp + [cur]), false)
      else Consumed(s.(window := e.window), false)
  }

  /** Window members stamped before `smallest`, as output data. */
  function Emitted(w: seq<Tuple>, smallest: int): seq<Coords> {
    if w == [] then []
    else
      var last := w[|w| - 1];
      Emitted(w[..|w| - 1], smallest) + (if last.timeStamp < smallest then [last.data] else [])
  }

  /** Window members stamped at or after `smallest`, restamped 0. */
  function Carried(w: seq<Tuple>, smallest: int): seq<Tuple> {
    if w == [] then []
    else
      var last := w[|w| - 1];
      Carried(w[..|w| - 1], smallest) + (if last.timeStamp < smallest then [] else [last.(timeStamp := 0)])
  }

  function DataOf(w: seq<Tuple>): seq<Coords> {
    if w == [] then [] else DataOf(w[..|w| - 1]) + [w[|w| - 1].data]
  }

  /** The temporary file turned into the input of the next pass. */
  function Rereads(temp: seq<Tuple>): (r: seq<Entry>)
    ensures |r| == |temp|
  {
    if temp == [] then [] else Rereads(temp[..|temp| - 1]) + [Reread(temp[|temp| - 1])]
  }

  /** The end of a pass, once the input is used up: with an empty
      temporary file the whole window is output; otherwise the members
      stamped before the temporary file's first tuple are output, the rest
      stay restamped 0, and the temporary file becomes the input of a new
      pass whose counter starts at 0. */
  function EndPass(s: State): State {
    if s.temp == [] then State([], [], [], s.skyline + DataOf(s.window), s.nonSky, 0)
    else
      var smallest := s.temp[0].timeStamp;
      State(Rereads(s.temp), Carried(s.window, smallest), [], s.skyline + Emitted(s.window, smallest), s.nonSky, 0)
  }

  /** How `skylineBNL` ends: falling off its loop (an empty input, giving
      `None`), returning `skylinePts`, raising `IndexError`, or — in the
      model only — running out of fuel for further passes. */
  datatype Ending = FellThrough | ReturnedSkyline | RaisedIndexError | FuelSpent

  datatype Finish = Finish(ending: Ending, st: State)

  /** `skylineBNL` as a function of its lists: one input tuple per loop
      iteration; when the input runs out the pass ends, and the function
      returns once both the input and the temporary file are empty. */
  function Run(st: State, windowSize: int, fuel: nat, rule: ScanRule): Finish
    decreases fuel, |st.input|
  {
    if st.input == [] then Finish(FellThrough, st)
    else
      var c := Consume(st, windowSize, rule);
      var s := c.st;
      if c.raised then Finish(RaisedIndexError, s)
      else if s.input != [] then Run(s, windowSize, fuel, rule)
      else if s.temp == [] then Finish(ReturnedSkyline, EndPass(s))
      else if fuel == 0 then Finish(FuelSpent, s)
      else Run(EndPass(s), windowSize, fuel - 1, rule)
  }

  /** The window loop of `skylineBNL` for one tuple. Under `AsWritten` the
      index advances after every comparison, as the source does; under
      `Corrected` it stays put after a removal. */
  method ScanWindow(cur: Tuple, window: seq<Tuple>, rule: ScanRule) returns (e: ScanEnd)
    ensures e == ScanFrom(cur, window, 0, false, false, rule)
  {
    ghost var goal := ScanFrom(cur, window, 0, false, false, rule);
    var w := window;
    var windowIndex := 0;
    var dominates, neutral := false, false;
    while windowIndex < |w|
      invariant windowIndex <= |w| + 1
      invariant ScanFrom(cur, w, windowIndex, dominates, neutral, rule) == goal
      decreases |w| + 1 - windowIndex
    {
      var result := Compare(cur.data, w[windowIndex].data);
      if result.Failure? {
        return ScanEnd(w, true, false, dominates, neutral);
      }
      var removed := false;
      if result.value == -1 {
        return ScanEnd(w, false, true, dominates, neutral);
      } else if result.value == 1 {
        w := w[..windowIndex] + w[windowIndex + 1..];
        dominates, removed := true, true;
      } else {
        neutral := true;
      }
      if rule == AsWritten || !removed {
        windowIndex := windowIndex + 1;
      }
    }
    return ScanEnd(w, false, false, dominates, neutral);
  }

  /** The end of a pass in `skylineBNL`, from the test for an exhausted
      input to the swap of the input and the temporary file. */
  method EndOfPass(window: seq<Tuple>, tempFile: seq<Tuple>, skylinePts: seq<Coords>)
    returns (input: seq<Entry>, newWindow: seq<Tuple>, newTemp: seq<Tuple>, newSkyline: seq<Coords>, time: int)
    ensures forall input0, nonSky, time0 {:trigger EndPass(State(input0, window, tempFile, skylinePts, nonSky, time0))} ::
      EndPass(State(input0, window, tempFile, skylinePts, nonSky, time0)) == State(input, newWindow, newTemp, newSkyline, nonSky, time)
  {
    if |tempFile| > 0 {
      newWindow, newSkyline := EmitOlder(window, tempFile[0].timeStamp, skylinePts);
    } else {
      newSkyline := EmitAll(window, skylinePts);
      newWindow := [];
    }
    input, newTemp, time := Rereads(tempFile), [], 0;
  }

  /** The window loop at the end of a pass with a non-empty temporary
      file: members stamped before `smallestTime` are output and removed,
      the others are restamped 0. */
  method EmitOlder(window: seq<Tuple>, smallestTime: int, skylinePts: seq<Coords>)
    returns (newWindow: seq<Tuple>, newSkyline: seq<Coords>)
    ensures newWindow == Carried(window, smallestTime)
    ensures newSkyline == skylinePts + Emitted(window, smallestTime)
  {
    newWindow, newSkyline := window, skylinePts;
    var index := 0;
    ghost var k := 0;
    while index < |newWindow|
      invariant 0 <= k <= |window| && index <= |newWindow|
      invariant newWindow[..index] == Carried(window[..k], smallestTime)
      invariant newWindow[index..] == window[k..]
      invariant newSkyline == skylinePts + Emitted(window[..k], smallestTime)
      decreases |newWindow| - index
    {
      var point := newWindow[index];
      assert point == window[k] && window[..k + 1][..k] == window[..k];
      assert newWindow[index + 1..] == window[k + 1..];
      if point.timeStamp < smallestTime {
        newSkyline := newSkyline + [point.data];
        newWindow := newWindow[..index] + newWindow[index + 1..];
      } else {
        newWindow := newWindow[index := point.(timeStamp := 0)];
        index := index + 1;
      }
      k := k + 1;
    }
    assert window[..k] == window;
    assert newWindow == newWindow[..index];
  }

  /** The window loop at the end of a pass with an empty temporary file:
      every member is output. */
  method EmitAll(window: seq<Tuple>, skylinePts: seq<Coords>) returns (newSkyline: seq<Coords>)
    ensures newSkyline == skylinePts + DataOf(window)
  {
    var w := window;
    newSkyline := skylinePts;
    ghost var k := 0;
    while |w| != 0
      invariant 0 <= k <= |window| && w == window[k..]
      invariant newSkyline == skylinePts + DataOf(window[..k])
      decreases |w|
    {
      var point := w[0];
      assert window[..k + 1][..k] == window[..k];
      newSkyline := newSkyline + [point.data];
      w := w[1..];
      k := k + 1;
    }
    assert window[..k] == window;
  }

  /** One iteration's work on the head of `inputFile` (the loop body of
      `skylineBNL` up to the end-of-pass test), with the window scan of
      `rule`. */
  method ConsumeTuple(inputFile: seq<Entry>, window: seq<Tuple>, tempFile: seq<Tuple>, skylinePts: seq<Coords>,
                      nonSkylinePts: seq<Coords>, time: int, windowSize: int, rule: ScanRule)
    returns (input: seq<Entry>, win: seq<Tuple>, temp: seq<Tuple>, nonSky: seq<Coords>, t: int, raised: bool)
    requires inputFile != []
    ensures Consume(State(inputFile, window, tempFile, skylinePts, nonSkylinePts, time), windowSize, rule)
         == Consumed(State(input, win, temp, skylinePts, nonSky, t), raised)
  {
    var curTuple := if inputFile[0].Raw? then Tuple(inputFile[0].data, time) else inputFile[0].tuple.(timeStamp := time);
    input, win, temp, nonSky, t, raised := inputFile[1..], window, tempFile, nonSkylinePts, time + 1, false;
    if |win| == 0 {
      win := win + [curTuple];
      return;
    }
    var e := ScanWindow(curTuple, win, rule);
    win := e.window;
    if e.raised {
      raised := true;
    } else if e.dominated {
      nonSky := nonSky + [curTuple.data];
    } else if e.dominates || e.neutral {
      if |win| < windowSize {
        win := win + [curTuple];
      } else {
        temp := temp + [curTuple];
      }
    }
  }

  /** `skylineBNL(inputFile, window, tempFile, window_size, skylinePts,
      nonSkylinePts, time)` with the window scan of `rule` (`AsWritten` is
      the source's, `Corrected` the fixed one), allowed `fuel` passes over
      a non-empty temporary file: it ends as `Run` says. */
  method SkylineBNL(inputFile: seq<Entry>, window: seq<Tuple>, tempFile: seq<Tuple>, windowSize: int,
                    skylinePts: seq<Coords>, nonSkylinePts: seq<Coords>, time: int, fuel: nat, rule: ScanRule)
    returns (f: Finish)
    ensures f == Run(State(inputFile, window, tempFile, skylinePts, nonSkylinePts, time), windowSize, fuel, rule)
  {
    var input, win, temp, sky, nonSky, t, passes := inputFile, window, tempFile, skylinePts, nonSkylinePts, time, fuel;
    ghost var goal := Run(State(input, win, temp, sky, nonSky, t), windowSize, passes, rule);
    while |input| != 0
      invariant Run(State(input, win, temp, sky, nonSky, t), windowSize, passes, rule) == goal
      decreases passes, |input|
    {
      var raised;
      input, win, temp, nonSky, t, raised := ConsumeTuple(input, win, temp, sky, nonSky, t, windowSize, rule);
      if raised {
        return Finish(RaisedIndexError, State(input, win, temp, sky, nonSky, t));
      }
      if |input| == 0 {
        if |temp| > 0 && passes == 0 {
          return Finish(FuelSpent, State(input, win, temp, sky, nonSky, t));
        }
        input, win, temp, sky, t := EndOfPass(win, temp, sky);
        if |input| > 0 {
          passes := passes - 1;
        }
      }
      if |input| == 0 && |temp| == 0 {
        return Finish(ReturnedSkyline, State(input, win, temp, sky, nonSky, t));
      }
    }
    return Finish(FellThrough, State(input, win, temp, sky, nonSky, t));
  }

  /** A window member that keeps `cur` out of the window: `compare`
      raises on it or it dominates `cur`. */
  predicate Blocks(cur: Tuple, x: Tuple) {
    var v := PrefixVerdict(cur.data, x.data);
    v.Failure? || v.value == -1
  }

  /** The corrected window scan from index `i`, all members before which
      are incomparable to `cur`: it stops (raising, or with `cur`
      dominated) exactly when some member blocks `cur`; otherwise it
      removes exactly the members `cur` dominates, keeps the incomparable
      ones, and has set a flag as soon as it compared anything. */
  lemma {:induction false} CorrectedScanFrom(cur: Tuple, w: seq<Tuple>, i: nat, dominates: bool, neutral: bool)
    requires i <= |w|
    requires forall j | 0 <= j < i :: PrefixVerdict(cur.data, w[j].data) == Success(0)
    ensures var e := ScanFrom(cur, w, i, dominates, neutral, Corrected);
      && (forall x | x in e.window :: x in w)
      && ((e.raised || e.dominated) <==> exists x | x in w :: Blocks(cur, x))
      && (e.dominated ==> exists x | x in w :: PrefixVerdict(cur.data, x.data) == Success(-1))
      && (!e.raised && !e.dominated ==>
            && (forall x | x in e.window :: PrefixVerdict(cur.data, x.data) == Success(0))
            && (forall x | x in w && x !in e.window :: PrefixVerdict(cur.data, x.data) == Success(1))
            && (e.dominates || e.neutral <==> dominates || neutral || i < |w|))
    decreases |w| - i
  {
    if i < |w| {
      var v := PrefixVerdict(cur.data, w[i].data);
      if v.Success? && v.value == 1 {
        var w' := w[..i] + w[i + 1..];
        assert forall j | 0 <= j < i :: w'[j] == w[j];
        CorrectedScanFrom(cur, w', i, true, neutral);
        assert forall x | x in w' :: x in w;
        assert forall x | x in w :: x in w' || x == w[i];
      } else if v.Success? && v.value != -1 {
        CorrectedScanFrom(cur, w, i + 1, dominates, true);
      } else {
        assert Blocks(cur, w[i]);
      }
    } else {
      assert forall x | x in w :: !Blocks(cur, x);
    }
  }

  /** One input tuple under the corrected scan: it is dequeued and stamped
      with the counter, which advances; the output is untouched. A tuple
      some window member blocks never enters the window or the temporary
      file: `compare` raises, or its data go to `nonSkylinePts`. Otherwise
      it evicts exactly the members it dominates and then joins the window
      when there is room, else the temporary file. */
  lemma ConsumeCorrected(st: State, windowSize: int)
    requires st.input != []
    ensures var c := Consume(st, windowSize, Corrected);
      var cur := Stamp(st.input[0], st.time);
      var kept := ScanFrom(cur, st.window, 0, false, false, Corrected).window;
      && c.st.input == st.input[1..] && c.st.time == st.time + 1 && c.st.skyline == st.skyline
      && (st.window == [] ==> c == Consumed(st.(input := st.input[1..], time := st.time + 1, window := [cur]), false))
      && ((exists x | x in st.window :: Blocks(cur, x)) ==>
            && c.st.temp == st.temp && (forall x | x in c.st.window :: x in st.window)
            && (c.raised || c.st.nonSky == st.nonSky + [cur.data]))
      && (st.window != [] && (forall x | x in st.window :: !Blocks(cur, x)) ==>
            && !c.raised && c.st.nonSky == st.nonSky
            && (forall x | x in kept :: x in st.window && PrefixVerdict(cur.data, x.data) == Success(0))
            && (forall x | x in st.window && x !in kept :: PrefixVerdict(cur.data, x.data) == Success(1))
            && (if |kept| < windowSize then c.st.window == kept + [cur] && c.st.temp == st.temp
                else c.st.window == kept && c.st.temp == st.temp + [cur]))
  {
    var cur := Stamp(st.input[0], st.time);
    CorrectedScanFrom(cur, st.window, 0, false, false);
  }

  /** No window member strictly dominates another. */
  ghost predicate WindowClean(w: seq<Tuple>) {
    forall x, y | x in w && y in w :: !Dominates(x.data, y.data)
  }

  lemma ConsumeKeepsClean(st: State, windowSize: int)
    requires st.input != [] && WindowClean(st.window)
    ensures WindowClean(Consume(st, windowSize, Corrected).st.window)
  {
    var cur := Stamp(st.input[0], st.time);
    DominatesIrreflexive(cur.data);
    if st.window != [] {
      CorrectedScanFrom(cur, st.window, 0, false, false);
      var e := ScanFrom(cur, st.window, 0, false, false, Corrected);
      if !e.raised && !e.dominated {
        forall x | x in e.window
          ensures !Dominates(cur.data, x.data) && !Dominates(x.data, cur.data)
        {
          ZeroMeansNeither(cur.data, x.data);
        }
        assert forall x | x in e.window + [cur] :: x in e.window || x == cur;
      }
    }
  }

  /** The end-of-pass split of the window at timestamp `smallest`: every
      member stamped earlier is output, every other member stays
      restamped 0, and nothing else is output or stays. */
  lemma {:induction false} SplitByTimestamp(w: seq<Tuple>, smallest: int)
    ensures |Emitted(w, smallest)| + |Carried(w, smallest)| == |w|
    ensures forall y | y in w && y.timeStamp < smallest :: y.data in Emitted(w, smallest)
    ensures forall y | y in w && y.timeStamp >= smallest :: y.(timeStamp := 0) in Carried(w, smallest)
    ensures forall d | d in Emitted(w, smallest) :: exists y | y in w :: y.data == d && y.timeStamp < smallest
    ensures forall x | x in Carried(w, smallest) ::
      x.timeStamp == 0 && exists y | y in w :: y.data == x.data && y.timeStamp >= smallest
  {
    if w != [] {
      var init := w[..|w| - 1];
      SplitByTimestamp(init, smallest);
      assert w == init + [w[|w| - 1]];
      assert forall y | y in w :: y in init || y == w[|w| - 1];
    }
  }

  /** `DataOf` lists the window's data in order. */
  lemma {:induction false} DataOfMeaning(w: seq<Tuple>)
    ensures |DataOf(w)| == |w|
    ensures forall i | 0 <= i < |w| :: DataOf(w)[i] == w[i].data
  {
    if w != [] {
      DataOfMeaning(w[..|w| - 1]);
    }
  }

  /** The end of a pass: the next pass reads the temporary file back in
      order, with the counter at 0 and an empty temporary file; the output
      only grows, by as many points as leave the window, and
      `nonSkylinePts` is untouched. With an empty temporary file the whole
      window is output; otherwise `SplitByTimestamp` says which members
      are output and which stay. */
  lemma EndPassMeaning(s: State)
    ensures var s' := EndPass(s);
      && s'.temp == [] && s'.time == 0 && s'.nonSky == s.nonSky
      && |s'.input| == |s.temp| && (forall i | 0 <= i < |s.temp| :: s'.input[i] == Reread(s.temp[i]))
      && s.skyline <= s'.skyline && |s'.skyline| - |s.skyline| + |s'.window| == |s.window|
      && (s.temp == [] ==>
            && s'.input == [] && s'.window == []
            && (forall i | 0 <= i < |s.window| :: s'.skyline[|s.skyline| + i] == s.window[i].data))
      && (s.temp != [] ==>
            && s'.skyline == s.skyline + Emitted(s.window, s.temp[0].timeStamp)
            && s'.window == Carried(s.window, s.temp[0].timeStamp))
  {
    RereadsMeaning(s.temp);
    DataOfMeaning(s.window);
    if s.temp != [] {
      SplitByTimestamp(s.window, s.temp[0].timeStamp);
    }
  }

  lemma {:induction false} RereadsMeaning(temp: seq<Tuple>)
    ensures forall i | 0 <= i < |temp| :: Rereads(temp)[i] == Reread(temp[i])
  {
    if temp != [] {
      RereadsMeaning(temp[..|temp| - 1]);
    }
  }

  lemma EndPassKeepsClean(s: State)
    requires WindowClean(s.window)
    ensures WindowClean(EndPass(s).window)
  {
    if s.temp != [] {
      SplitByTimestamp(s.window, s.temp[0].timeStamp);
    }
  }

  /** How a run ends: it falls through, returning `None`, exactly when it
      starts on an empty input; it returns the output only with the
      input, the temporary file and the window all empty; it runs out of
      fuel only with a pass pending. Neither output list ever shrinks. */
  lemma {:induction false} RunEndings(st: State, windowSize: int, fuel: nat, rule: ScanRule)
    ensures var f := Run(st, windowSize, fuel, rule);
      && (f.ending == FellThrough <==> st.input == [])
      && (f.ending == ReturnedSkyline ==> f.st.input == [] && f.st.temp == [] && f.st.window == [])
      && (f.ending == FuelSpent ==> f.st.input == [] && f.st.temp != [])
      && st.skyline <= f.st.skyline && st.nonSky <= f.st.nonSky
    decreases fuel, |st.input|
  {
    if st.input != [] {
      var c := Consume(st, windowSize, rule);
      var s := c.st;
      assert s.skyline == st.skyline && st.nonSky <= s.nonSky;
      if !c.raised {
        if s.input != [] {
          RunEndings(s, windowSize, fuel, rule);
        } else if s.temp != [] && fuel > 0 {
          RunEndings(EndPass(s), windowSize, fuel - 1, rule);
        }
      }
    }
  }

  /** Under the corrected scan a run never lets a window member dominate
      another. */
  lemma {:induction false} RunKeepsClean(st: State, windowSize: int, fuel: nat)
    requires WindowClean(st.window)
    ensures WindowClean(Run(st, windowSize, fuel, Corrected).st.window)
    decreases fuel, |st.input|
  {
    if st.input != [] {
      ConsumeKeepsClean(st, windowSize);
      var s := Consume(st, windowSize, Corrected).st;
      EndPassKeepsClean(s);
      if s.input != [] {
        RunKeepsClean(s, windowSize, fuel);
      } else if s.temp != [] && fuel > 0 {
        RunKeepsClean(EndPass(s), windowSize, fuel - 1);
      }
    }
  }

  /** Under the corrected scan, a run that returns at the end of its first
      pass outputs no point dominated by another output point. */
  lemma {:induction false} SinglePassOutputClean(st: State, windowSize: int)
    requires st.skyline == [] && WindowClean(st.window)
    ensures var f := Run(st, windowSize, 0, Corrected);
      f.ending == ReturnedSkyline ==> forall a, b | a in f.st.skyline && b in f.st.skyline :: !Dominates(a, b)
    decreases |st.input|
  {
    if st.input != [] {
      ConsumeKeepsClean(st, windowSize);
      var s := Consume(st, windowSize, Corrected).st;
      if s.input != [] {
        SinglePassOutputClean(s, windowSize);
      } else if s.temp == [] {
        DataOfMeaning(s.window);
        assert EndPass(s).skyline == DataOf(s.window);
        assert forall a | a in DataOf(s.window) :: exists x | x in s.window :: x.data == a;
      }
    }
  }

  /** `compare`'s answers on the points of the counterexample below. */
  lemma SkipExampleVerdicts()
    ensures PrefixVerdict([3, 2], [2, 3]) == Success(0)
    ensures PrefixVerdict([1, 1], [2, 3]) == Success(1)
    ensures PrefixVerdict([1, 1], [3, 2]) == Success(1)
    ensures Dominates([1, 1], [3, 2])
  {
    var p, q, r := [1, 1], [2, 3], [3, 2];
    assert q[..2] == q && r[..2] == r;
    assert p[0] < q[0] && p[0] < r[0];
    assert r[0] > q[0] && r[1] < q[1];
  }

  /** The first two tuples of the counterexample below are incomparable
      and both enter the window, under either scan rule. */
  lemma SkipExampleOpening(rule: ScanRule)
    ensures Consume(State([Raw([2, 3]), Raw([3, 2]), Raw([1, 1])], [], [], [], [], 0), 5, rule)
         == Consumed(State([Raw([3, 2]), Raw([1, 1])], [Tuple([2, 3], 0)], [], [], [], 1), false)
    ensures Consume(State([Raw([3, 2]), Raw([1, 1])], [Tuple([2, 3], 0)], [], [], [], 1), 5, rule)
         == Consumed(State([Raw([1, 1])], [Tuple([2, 3], 0), Tuple([3, 2], 1)], [], [], [], 2), false)
  {
    SkipExampleVerdicts();
    var w := [Tuple([2, 3], 0)];
    assert ScanFrom(Tuple([3, 2], 1), w, 0, false, false, rule) == ScanEnd(w, false, false, false, true);
  }

  /** The third tuple dominates both window members. As written, the scan
      removes the first one and then skips the second, which shifted into
      the freed slot; corrected, it removes both. */
  lemma SkipExampleThird()
    ensures ScanFrom(Tuple([1, 1], 2), [Tuple([2, 3], 0), Tuple([3, 2], 1)], 0, false, false, AsWritten)
         == ScanEnd([Tuple([3, 2], 1)], false, false, true, false)
    ensures ScanFrom(Tuple([1, 1], 2), [Tuple([2, 3], 0), Tuple([3, 2], 1)], 0, false, false, Corrected)
         == ScanEnd([], false, false, true, false)
  {
    SkipExampleVerdicts();
    var w := [Tuple([2, 3], 0), Tuple([3, 2], 1)];
    assert w[..0] + w[1..] == [Tuple([3, 2], 1)];
    assert [Tuple([3, 2], 1)][..0] + [Tuple([3, 2], 1)][1..] == [];
  }

  /** As written, the scan skips the member shifted into the slot of a
      removed one: on this input the run returns `[3, 2]` beside `[1, 1]`,
      which dominates it. */
  lemma SkipReturnsDominatedPoint()
    ensures Run(State([Raw([2, 3]), Raw([3, 2]), Raw([1, 1])], [], [], [], [], 0), 5, 0, AsWritten)
         == Finish(ReturnedSkyline, State([], [], [], [[3, 2], [1, 1]], [], 0))
    ensures Dominates([1, 1], [3, 2])
  {
    SkipExampleVerdicts();
    SkipExampleOpening(AsWritten);
    SkipExampleThird();
    var s0 := State([Raw([2, 3]), Raw([3, 2]), Raw([1, 1])], [], [], [], [], 0);
    var s1 := State([Raw([3, 2]), Raw([1, 1])], [Tuple([2, 3], 0)], [], [], [], 1);
    var s2 := State([Raw([1, 1])], [Tuple([2, 3], 0), Tuple([3, 2], 1)], [], [], [], 2);
    var s3 := State([], [Tuple([3, 2], 1), Tuple([1, 1], 2)], [], [], [], 3);
    assert Consume(s2, 5, AsWritten) == Consumed(s3, false);
    RunContinues(s0, s1, 5, 0, AsWritten);
    RunContinues(s1, s2, 5, 0, AsWritten);
    RunEndsPass(s2, s3, 5, 0, AsWritten);
    assert DataOf(s3.window) == [[3, 2], [1, 1]];
  }

  /** The corrected scan on the same input returns `[1, 1]` alone. */
  lemma CorrectedDropsDominatedPoint()
    ensures Run(State([Raw([2, 3]), Raw([3, 2]), Raw([1, 1])], [], [], [], [], 0), 5, 0, Corrected)
         == Finish(ReturnedSkyline, State([], [], [], [[1, 1]], [], 0))
  {
    SkipExampleOpening(Corrected);
    SkipExampleThird();
    var s0 := State([Raw([2, 3]), Raw([3, 2]), Raw([1, 1])], [], [], [], [], 0);
    var s1 := State([Raw([3, 2]), Raw([1, 1])], [Tuple([2, 3], 0)], [], [], [], 1);
    var s2 := State([Raw([1, 1])], [Tuple([2, 3], 0), Tuple([3, 2], 1)], [], [], [], 2);
    var s3 := State([], [Tuple([1, 1], 2)], [], [], [], 3);
    assert Consume(s2, 5, Corrected) == Consumed(s3, false);
    RunContinues(s0, s1, 5, 0, Corrected);
    RunContinues(s1, s2, 5, 0, Corrected);
    RunEndsPass(s2, s3, 5, 0, Corrected);
    assert DataOf(s3.window) == [[1, 1]];
  }

  /** A run moves on to the next tuple of the same pass. */
  lemma RunContinues(st: State, s: State, windowSize: int, fuel: nat, rule: ScanRule)
    requires st.input != [] && Consume(st, windowSize, rule) == Consumed(s, false) && s.input != []
    ensures Run(st, windowSize, fuel, rule) == Run(s, windowSize, fuel, rule)
  {
  }

  /** A run whose last tuple leaves the temporary file empty returns the
      window as the rest of the skyline. */
  lemma RunEndsPass(st: State, s: State, windowSize: int, fuel: nat, rule: ScanRule)
    requires st.input != [] && Consume(st, windowSize, rule) == Consumed(s, false)
    requires s.input == [] && s.temp == []
    ensures Run(st, windowSize, fuel, rule) == Finish(ReturnedSkyline, EndPass(s))
  {
  }

  /** A run at the end of a pass with a non-empty temporary file starts
      the next pass, paying one unit of fuel. */
  lemma RunNextPass(st: State, s: State, windowSize: int, fuel: nat, rule: ScanRule)
    requires st.input != [] && Consume(st, windowSize, rule) == Consumed(s, false)
    requires s.input == [] && s.temp != [] && fuel > 0
    ensures Run(st, windowSize, fuel, rule) == Run(EndPass(s), windowSize, fuel - 1, rule)
  {
  }

  /** A run at the end of a pass with a non-empty temporary file and no
      fuel left stops there. */
  lemma RunSpendsFuel(st: State, s: State, windowSize: int, rule: ScanRule)
    requires st.input != [] && Consume(st, windowSize, rule) == Consumed(s, false)
    requires s.input == [] && s.temp != []
    ensures Run(st, windowSize, 0, rule) == Finish(FuelSpent, s)
  {
  }

  /** A pass that reproduces its own start repeats until the fuel runs
      out. */
  lemma {:induction false} FixpointSpendsFuel(st: State, s: State, windowSize: int, fuel: nat, rule: ScanRule)
    requires st.input != [] && Consume(st, windowSize, rule) == Consumed(s, false)
    requires s.input == [] && s.temp != [] && EndPass(s) == st
    ensures Run(st, windowSize, fuel, rule) == Finish(FuelSpent, s)
  {
    if fuel > 0 {
      FixpointSpendsFuel(st, s, windowSize, fuel - 1, rule);
    }
  }

  /** A window of one holding `c`, carried over and stamped 0, meets `b`,
      incomparable to it, stamped `time`: the window is full, so `b` goes
      to the temporary file. */
  lemma MeetsCarriedOver(b: Coords, c: Coords, time: int, input: seq<Entry>, rule: ScanRule)
    requires PrefixVerdict(b, c) == Success(0)
    requires input != [] && input[0].Reread? && input[0].tuple.data == b
    ensures Consume(State(input, [Tuple(c, 0)], [], [], [], time), 1, rule)
         == Consumed(State(input[1..], [Tuple(c, 0)], [Tuple(b, time)], [], [], time + 1), false)
  {
    var w := [Tuple(c, 0)];
    assert ScanFrom(Tuple(b, time), w, 0, false, false, rule) == ScanEnd(w, false, false, false, true);
  }

  /** The end of such a pass, with `b` stamped 0: `c`, stamped 0 too, is
      not older and stays, and `b` is read again. */
  lemma CarriedOverStays(b: Coords, c: Coords)
    ensures EndPass(State([], [Tuple(c, 0)], [Tuple(b, 0)], [], [], 1))
         == State([Reread(Tuple(b, 0))], [Tuple(c, 0)], [], [], [], 0)
  {
    var w, t := [Tuple(c, 0)], [Tuple(b, 0)];
    assert w[..0] == [] && t[..0] == [];
    assert Carried(w, 0) == w && Emitted(w, 0) == [];
    assert Rereads(t) == [Reread(Tuple(b, 0))];
  }

  /** The first pass over `a`, `b`, `c` with a window of one: `b`, which
      `a` does not dominate, finds the window full and goes to the
      temporary file; `c` evicts `a` and takes its place, stamped after
      `b`. */
  lemma RepeatingRunFirstPass(a: Coords, b: Coords, c: Coords, rule: ScanRule)
    requires PrefixVerdict(b, a) == Success(0) && PrefixVerdict(c, a) == Success(1)
    ensures Consume(State([Raw(a), Raw(b), Raw(c)], [], [], [], [], 0), 1, rule)
         == Consumed(State([Raw(b), Raw(c)], [Tuple(a, 0)], [], [], [], 1), false)
    ensures Consume(State([Raw(b), Raw(c)], [Tuple(a, 0)], [], [], [], 1), 1, rule)
         == Consumed(State([Raw(c)], [Tuple(a, 0)], [Tuple(b, 1)], [], [], 2), false)
    ensures Consume(State([Raw(c)], [Tuple(a, 0)], [Tuple(b, 1)], [], [], 2), 1, rule)
         == Consumed(State([], [Tuple(c, 2)], [Tuple(b, 1)], [], [], 3), false)
  {
    var w := [Tuple(a, 0)];
    assert [Raw(a), Raw(b), Raw(c)][1..] == [Raw(b), Raw(c)];
    assert [Raw(b), Raw(c)][1..] == [Raw(c)];
    assert ScanFrom(Tuple(b, 1), w, 0, false, false, rule) == ScanEnd(w, false, false, false, true);
    assert w[..0] + w[1..] == [];
    assert ScanFrom(Tuple(c, 2), w, 0, false, false, rule) == ScanEnd([], false, false, true, false);
  }

  /** The end of the first pass: `c` is younger than `b`, so it stays,
      restamped 0. */
  lemma RepeatingRunFirstEnd(b: Coords, c: Coords)
    ensures EndPass(State([], [Tuple(c, 2)], [Tuple(b, 1)], [], [], 3))
         == State([Reread(Tuple(b, 1))], [Tuple(c, 0)], [], [], [], 0)
  {
    var w, t := [Tuple(c, 2)], [Tuple(b, 1)];
    assert w[..0] == [] && t[..0] == [];
    assert Carried(w, 1) == [Tuple(c, 0)] && Emitted(w, 1) == [];
    assert Rereads(t) == [Reread(Tuple(b, 1))];
  }

  /** From the second pass on, every pass starts from the same state. */
  lemma RepeatingRunSecondPass(b: Coords, c: Coords, fuel: nat, rule: ScanRule)
    requires PrefixVerdict(b, c) == Success(0)
    ensures Run(State([Reread(Tuple(b, 1))], [Tuple(c, 0)], [], [], [], 0), 1, fuel, rule)
         == Finish(FuelSpent, State([], [Tuple(c, 0)], [Tuple(b, 0)], [], [], 1))
  {
    var s1 := State([Reread(Tuple(b, 1))], [Tuple(c, 0)], [], [], [], 0);
    var s2 := State([Reread(Tuple(b, 0))], [Tuple(c, 0)], [], [], [], 0);
    var q := State([], [Tuple(c, 0)], [Tuple(b, 0)], [], [], 1);
    MeetsCarriedOver(b, c, 0, s1.input, rule);
    if fuel == 0 {
      RunSpendsFuel(s1, q, 1, rule);
    } else {
      CarriedOverStays(b, c);
      MeetsCarriedOver(b, c, 0, s2.input, rule);
      RunNextPass(s1, q, 1, fuel, rule);
      FixpointSpendsFuel(s2, q, 1, fuel - 1, rule);
    }
  }

  /** The pass loop need not end. With a window of one tuple, input
      `a, b, c` where `b` is incomparable to `a` and `c`, and `c`
      dominates `a`: `c` replaces `a` after `b` has overflowed, is carried
      over restamped 0, and from then on is never older than `b`, which
      the new pass also stamps 0 — under either scan rule every amount of
      fuel is spent. */
  lemma PassLoopRepeats(a: Coords, b: Coords, c: Coords, fuel: nat, rule: ScanRule)
    requires PrefixVerdict(b, a) == Success(0) && PrefixVerdict(c, a) == Success(1)
    requires PrefixVerdict(b, c) == Success(0)
    ensures Run(State([Raw(a), Raw(b), Raw(c)], [], [], [], [], 0), 1, fuel, rule).ending == FuelSpent
  {
    var s0 := State([Raw(a), Raw(b), Raw(c)], [], [], [], [], 0);
    var c1 := State([Raw(b), Raw(c)], [Tuple(a, 0)], [], [], [], 1);
    var c2 := State([Raw(c)], [Tuple(a, 0)], [Tuple(b, 1)], [], [], 2);
    var p := State([], [Tuple(c, 2)], [Tuple(b, 1)], [], [], 3);
    RepeatingRunFirstPass(a, b, c, rule);
    RunContinues(s0, c1, 1, fuel, rule);
    RunContinues(c1, c2, 1, fuel, rule);
    if fuel == 0 {
      RunSpendsFuel(c2, p, 1, rule);
    } else {
      RepeatingRunFirstEnd(b, c);
      RunNextPass(c2, p, 1, fuel, rule);
      RepeatingRunSecondPass(b, c, fuel - 1, rule);
    }
  }

  /** Such points exist: `[2, 2]`, `[1, 3]`, `[2, 1]`. */
  lemma RepeatExample()
    ensures PrefixVerdict([1, 3], [2, 2]) == Success(0)
    ensures PrefixVerdict([2, 1], [2, 2]) == Success(1)
    ensures PrefixVerdict([1, 3], [2, 1]) == Success(0)
  {
    var a, b, c := [2, 2], [1, 3], [2, 1];
    assert a[..2] == a && b[..2] == b && c[..2] == c;
    assert b[0] < a[0] && b[1] > a[1] && c[1] < a[1] && b[0] < c[0] && b[1] > c[1];
  }
}
