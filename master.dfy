/** The master node of skyline/master.py: a `Master` object whose fields the
    background `run_loop` and the web handlers update. Each handler and each
    pass of the run loop is one atomic step (the two locks of the source
    make them so for the fields they touch); the clock and the two timing
    constants are parameters. */
module SkylineMaster {
  import opened Wrappers
  import opened Dominance
  import opened SkylineEngine
  import opened SkylineFront
  import opened MasterRound

  /** One line of the output file: the step and the `skyline` field. */
  datatype LogRecord = LogRecord(step: int, data: seq<Point>)

  /** What one pass of the `run_loop` loop does: leave the loop, sleep for
      lack of data, compute a round, or go round again at once. */
  datatype Action = EndLoop | Sleep | Compute | Spin

  /** The decision at the top of the `run_loop` loop, from the worker count,
      the new-data flag, the number of uploads received, the time since the
      last upload and the end-of-run timeout. */
  function NextAction(numWorkers: int, haveNewData: bool, skyReceived: int, sinceUpdate: int, timeoutToEnd: int): (a: Action)
    ensures a == Compute <==> numWorkers > 0 && haveNewData && skyReceived == numWorkers
    ensures a == EndLoop <==> numWorkers <= 0 || (!haveNewData && sinceUpdate > timeoutToEnd)
    ensures haveNewData ==> (a == EndLoop <==> numWorkers <= 0)
  {
    if numWorkers <= 0 then EndLoop
    else if !haveNewData then (if sinceUpdate > timeoutToEnd then EndLoop else Sleep)
    else if skyReceived == numWorkers then Compute
    else Spin
  }

  /** The `<step>` part of a `/get_skyline` URL: absent, an integer, or text
      that `int()` rejects. */
  datatype StepArg = Latest | Given(n: int) | Malformed

  /** What `/get_skyline` answers: an error status, the 400 that names the
      last processed step, or 200 with that step and the worker's delta. */
  datatype SkylineResponse = Refused(status: int) | WrongStep(lastStep: int) | Served(step: int, changes: Changes)

  /** The HTTP status of a `/get_skyline` answer. */
  function StatusCode(r: SkylineResponse): int {
    match r
    case Refused(status) => status
    case WrongStep(_) => 400
    case Served(_, _) => 200
  }

  /** The body of `/step` and of `/worker_done` (the latter has no window). */
  datatype StepInfo = StepInfo(step: int, stepSize: int, startTime: int, windowTime: int, stepWindow: Option<int>)

  /** The body of `/status`, without the thread count. */
  datatype StatusInfo = StatusInfo(isRunning: bool, isComputing: bool, isWaiting: bool, numWorkers: int, numReceived: int)

  class Master {
    var numWorkers: int
    /** Never reassigned after construction: every output line carries it. */
    var skyline: seq<Point>
    var skyReceived: int
    var unprocessedSky: seq<Upload>
    var recvWorkers: set<WorkerId>
    var startTime: int
    var windowTime: int
    var winSize: int
    var step: int
    var stepSize: int
    var lastReceivedTime: int
    var isRunning: bool
    var isWaiting: bool
    var isComputing: bool
    var haveNewData: bool
    var sky: Skyline
    var skylines: map<WorkerId, seq<Point>>
    var skylineChanges: map<WorkerId, Changes>
    var log: seq<LogRecord>

    /** The invariant every handler keeps: the received-worker set is the
        set of uploaders still buffered and the counter never exceeds the
        buffer; replies exist only for workers with a stored queue and are
        addressed to them; the window follows the step; and the output
        carries an empty skyline. */
    ghost predicate Valid()
      reads this
    {
      BufferValid() && RepliesValid() && WindowValid() && OutputValid()
    }

    ghost predicate BufferValid()
      reads this`recvWorkers, this`unprocessedSky, this`skyReceived
    {
      BufferInv(recvWorkers, unprocessedSky, skyReceived)
    }

    static ghost predicate BufferInv(recv: set<WorkerId>, ups: seq<Upload>, received: int) {
      recv == WorkersOf(ups) && 0 <= received <= |ups|
    }

    ghost predicate RepliesValid()
      reads this`skylineChanges, this`skylines
    {
      RepliesInv(skylineChanges, skylines)
    }

    static ghost predicate RepliesInv(changes: map<WorkerId, Changes>, stores: map<WorkerId, seq<Point>>) {
      changes.Keys <= stores.Keys && Tagged(changes)
    }

    ghost predicate WindowValid()
      reads this`windowTime, this`startTime, this`step, this`stepSize
    {
      windowTime == startTime + step * stepSize
    }

    ghost predicate OutputValid()
      reads this`skyline, this`log
    {
      skyline == [] && forall i | 0 <= i < |log| :: log[i].data == []
    }

    /** `Master(outfile, start_time, step_size, win_size, num_workers)`;
        `now` is the clock reading stored as the last upload time. */
    constructor (startTime: int, stepSize: int, winSize: int, numWorkers: int, now: int)
      ensures Valid()
      ensures this.numWorkers == numWorkers && this.startTime == startTime
      ensures this.stepSize == stepSize && this.winSize == winSize
      ensures step == 0 && windowTime == startTime && lastReceivedTime == now
      ensures skyReceived == 0 && unprocessedSky == [] && recvWorkers == {}
      ensures !isRunning && !isWaiting && !isComputing && !haveNewData
      ensures skylines == map[] && skylineChanges == map[] && log == []
      ensures fresh(sky) && sky.skyline == [] && sky.nonSky == []
    {
      this.numWorkers := numWorkers;
      skyline := [];
      skyReceived := 0;
      unprocessedSky := [];
      recvWorkers := {};
      this.startTime := startTime;
      windowTime := startTime;
      this.winSize := winSize;
      step := 0;
      this.stepSize := stepSize;
      lastReceivedTime := now;
      isRunning := false;
      isWaiting := false;
      isComputing := false;
      haveNewData := false;
      sky := new Skyline(None, None);
      skylines := map[];
      skylineChanges := map[];
      log := [];
    }

    /** The set-up at the head of `run_loop`: the output is opened afresh,
        the master is running and waiting, at step 0. */
    method Start()
      requires Valid()
      modifies this`log, this`isRunning, this`isWaiting, this`isComputing, this`step, this`windowTime
      ensures Valid()
      ensures log == [] && isRunning && isWaiting && !isComputing
      ensures step == 0 && windowTime == startTime
    {
      log := [];
      isRunning := true;
      isWaiting := true;
      isComputing := false;
      step := 0;
      windowTime := startTime;
    }

    /** The first phase of `process_skyline` for one upload: the worker's
        queue is scanned once, dropping removed entries and rotating the
        rest to the back, then the added entries are enqueued; every kept
        or added entry is filed by `data` into the worker's `work_seen`
        entry and into the global pool. */
    static method MergeUploadInto(queue: seq<Point>, upload: Upload, globalSeen: map<Coords, Point>)
      returns (newQueue: seq<Point>, workSeen: map<Coords, Point>, newGlobal: map<Coords, Point>)
      ensures newQueue == Contribution(queue, upload)
      ensures workSeen == KeyedBy(newQueue)
      ensures newGlobal == globalSeen + KeyedBy(newQueue)
    {
      newQueue, workSeen, newGlobal := DropRemoved(queue, upload.removed, globalSeen);
      newQueue, workSeen, newGlobal := EnqueueAdded(newQueue, upload.added, workSeen, globalSeen, newGlobal);
    }

    /** The rotation loop: each queued entry is taken from the head and put
        back at the tail unless it is removed, and filed when kept. */
    static method DropRemoved(queue: seq<Point>, removed: seq<Point>, globalSeen: map<Coords, Point>)
      returns (newQueue: seq<Point>, workSeen: map<Coords, Point>, newGlobal: map<Coords, Point>)
      ensures newQueue == Filter(queue, removed)
      ensures workSeen == KeyedBy(newQueue)
      ensures Overlays(newGlobal, globalSeen, workSeen)
    {
      newQueue, workSeen, newGlobal := queue, map[], globalSeen;
      for idx := 0 to |queue|
        invariant DropState(queue, removed, globalSeen, idx, newQueue, workSeen, newGlobal)
      {
        var item := newQueue[0];
        DropStep(queue, removed, globalSeen, idx, newQueue, workSeen, newGlobal);
        newQueue := newQueue[1..];
        if item in removed {
          continue;
        }
        newQueue := newQueue + [item];
        workSeen := workSeen[item.data := item];
        newGlobal := newGlobal[item.data := item];
      }
      assert queue[..|queue|] == queue && queue[|queue|..] == [];
    }

    /** The loop over `added`: each entry is enqueued and filed. */
    static method EnqueueAdded(kept: seq<Point>, added: seq<Point>, keptSeen: map<Coords, Point>,
                               globalSeen: map<Coords, Point>, keptGlobal: map<Coords, Point>)
      returns (newQueue: seq<Point>, workSeen: map<Coords, Point>, newGlobal: map<Coords, Point>)
      requires keptSeen == KeyedBy(kept) && Overlays(keptGlobal, globalSeen, keptSeen)
      ensures newQueue == kept + added
      ensures workSeen == KeyedBy(newQueue)
      ensures Overlays(newGlobal, globalSeen, workSeen)
    {
      newQueue, workSeen, newGlobal := kept, keptSeen, keptGlobal;
      for j := 0 to |added|
        invariant newQueue == kept + added[..j]
        invariant workSeen == KeyedBy(newQueue)
        invariant Overlays(newGlobal, globalSeen, workSeen)
      {
        var item := added[j];
        assert added[..j + 1] == added[..j] + [item];
        KeyedBySnoc(newQueue, item);
        newQueue := newQueue + [item];
        OverlayUpdate(newGlobal, globalSeen, workSeen, item.data, item);
        workSeen := workSeen[item.data := item];
        newGlobal := newGlobal[item.data := item];
      }
      assert added[..|added|] == added;
    }

    /** The rotation loop after `idx` entries. */
    static ghost predicate DropState(queue: seq<Point>, removed: seq<Point>, globalSeen: map<Coords, Point>,
                                     idx: int, newQueue: seq<Point>, workSeen: map<Coords, Point>, newGlobal: map<Coords, Point>)
    {
      && 0 <= idx <= |queue|
      && newQueue == queue[idx..] + Filter(queue[..idx], removed)
      && workSeen == KeyedBy(Filter(queue[..idx], removed))
      && Overlays(newGlobal, globalSeen, workSeen)
    }

    /** One pass of the rotation loop keeps its state. */
    static lemma DropStep(queue: seq<Point>, removed: seq<Point>, globalSeen: map<Coords, Point>,
                          idx: int, newQueue: seq<Point>, workSeen: map<Coords, Point>, newGlobal: map<Coords, Point>)
      requires DropState(queue, removed, globalSeen, idx, newQueue, workSeen, newGlobal) && idx < |queue|
      ensures newQueue != [] && newQueue[0] == queue[idx]
      ensures var item := newQueue[0];
        if item in removed then
          DropState(queue, removed, globalSeen, idx + 1, newQueue[1..], workSeen, newGlobal)
        else
          DropState(queue, removed, globalSeen, idx + 1, newQueue[1..] + [item], workSeen[item.data := item], newGlobal[item.data := item])
    {
      var kept := Filter(queue[..idx], removed);
      FilterStep(queue, idx, removed);
      RotateStep(queue, idx, kept);
      var item := queue[idx];
      if item !in removed {
        KeyedBySnoc(kept, item);
        OverlayUpdate(newGlobal, globalSeen, workSeen, item.data, item);
        assert newQueue[1..] + [item] == queue[idx + 1..] + (kept + [item]);
      } else {
        assert kept + [] == kept;
      }
    }

    /** Taking the head of the unscanned part and the rest of the queue. */
    static lemma RotateStep(q: seq<Point>, idx: nat, kept: seq<Point>)
      requires idx < |q|
      ensures (q[idx..] + kept)[0] == q[idx]
      ensures (q[idx..] + kept)[1..] == q[idx + 1..] + kept
    {
    }

    /** The second phase of `process_skyline`: a fresh `Skyline` fed every
        pool entry, in the dictionary's (arbitrary) key order. It raises
        exactly when the pool mixes arities; otherwise its front is the
        brute-force front of the pool's keys, made of pool entries. */
    static method RebuildGlobal(globalSeen: map<Coords, Point>) returns (engine: Skyline, raised: bool)
      requires KeyedByData(globalSeen)
      ensures fresh(engine)
      ensures raised <==> !UniformArity(globalSeen.Keys)
      ensures !raised ==>
        && Antichain(engine.skyline)
        && DataSet(engine.skyline) == BruteFront(globalSeen.Keys)
        && (forall x | x in engine.skyline :: x.data in globalSeen && globalSeen[x.data] == x)
    {
      engine := new Skyline(None, None);
      var keys := globalSeen.Keys;
      ghost var order: seq<Point> := [];
      while keys != {}
        invariant fresh(engine)
        invariant RebuildState(globalSeen, keys, order)
        invariant Run(engine.State(), false) == UpdateAll(order, Engine([], []))
        decreases |keys|
      {
        var key :| key in keys;
        keys := keys - {key};
        var item := globalSeen[key];
        RebuildStep(globalSeen, keys + {key}, order, key);
        var outcome := engine.UpdateSkyForPoint(item);
        UpdateAllSnoc(order, item, Engine([], []));
        order := order + [item];
        if outcome == Raised {
          RebuildRaised(globalSeen, order);
          return engine, true;
        }
      }
      RebuildFinished(globalSeen, order);
      return engine, false;
    }

    /** Progress of the rebuild loop: the keys fed so far are the pool's
        keys not yet taken, each fed as the pool entry under its key. */
    static ghost predicate RebuildState(globalSeen: map<Coords, Point>, keys: set<Coords>, order: seq<Point>) {
      && keys <= globalSeen.Keys
      && DataOfSeq(order) == globalSeen.Keys - keys
      && (forall x | x in order :: x.data in globalSeen && globalSeen[x.data] == x)
    }

    static lemma RebuildStep(globalSeen: map<Coords, Point>, keys: set<Coords>, order: seq<Point>, key: Coords)
      requires KeyedByData(globalSeen)
      requires RebuildState(globalSeen, keys, order) && key in keys
      ensures RebuildState(globalSeen, keys - {key}, order + [globalSeen[key]])
    {
      DataOfSeqSnoc(order, globalSeen[key]);
    }

    /** The snapshot loop of `process_skyline`: the front is drained from its
        head into a `data`-keyed dictionary; `non_sky` is left alone. */
    static method DrainFront(engine: Skyline) returns (skys: map<Coords, Point>)
      modifies engine
      ensures engine.skyline == [] && engine.nonSky == old(engine.nonSky)
      ensures skys == KeyedBy(old(engine.skyline))
    {
      skys := map[];
      ghost var front := engine.skyline;
      while engine.skyline != []
        invariant engine.nonSky == old(engine.nonSky)
        invariant |engine.skyline| <= |front|
        invariant engine.skyline == front[|front| - |engine.skyline|..]
        invariant skys == KeyedBy(front[..|front| - |engine.skyline|])
        decreases |engine.skyline|
      {
        ghost var n := |front| - |engine.skyline|;
        assert front[..n + 1][..n] == front[..n];
        var item := engine.skyline[0];
        engine.skyline := engine.skyline[1..];
        skys := skys[item.data := item];
      }
      assert front[..|front|] == front;
    }

    /** The first phase of `process_skyline` over the whole buffer. */
    static method MergeRound(stores: map<WorkerId, seq<Point>>, ups: seq<Upload>)
      returns (newStores: map<WorkerId, seq<Point>>, workSeen: map<WorkerId, map<Coords, Point>>, globalSeen: map<Coords, Point>)
      ensures Pools(newStores, workSeen, globalSeen) == RoundPools(stores, ups)
    {
      newStores, workSeen, globalSeen := stores, map[], map[];
      for i := 0 to |ups|
        invariant Pools(newStores, workSeen, globalSeen) == RoundPools(stores, ups[..i])
      {
        RoundPoolsStep(stores, ups, i);
        var upload := ups[i];
        var worker := upload.workerId;
        // a worker seen for the first time gets an empty queue
        var stored := if worker in newStores then newStores[worker] else [];
        var queue, seen, pool := MergeUploadInto(stored, upload, globalSeen);
        MergeUploadFields(Pools(newStores, workSeen, globalSeen), upload, queue, seen, pool);
        newStores, workSeen, globalSeen := newStores[worker := queue], workSeen[worker := seen], pool;
      }
      assert ups[..|ups|] == ups;
    }

    /** The reply loop of `process_skyline`: each reporting worker's delta
        against the snapshot of the front is filed under the worker. */
    static method FileReplies(step: int, workSeen: map<WorkerId, map<Coords, Point>>, skys: map<Coords, Point>,
                              changes: map<WorkerId, Changes>)
      returns (newChanges: map<WorkerId, Changes>)
      ensures newChanges == changes + RepliesFor(step, workSeen, skys, workSeen.Keys)
    {
      newChanges := changes;
      var workers := workSeen.Keys;
      RepliesStart(step, workSeen, skys, changes);
      while workers != {}
        invariant RepliesState(step, workSeen, skys, changes, workers, newChanges)
        decreases |workers|
      {
        var worker :| worker in workers;
        RepliesStep(step, workSeen, skys, changes, workers, newChanges, worker);
        newChanges := newChanges[worker := Reply(step, worker, workSeen[worker], skys)];
        workers := workers - {worker};
      }
      RepliesDone(step, workSeen, skys, changes, newChanges);
    }

    /** Before the reply loop nothing has been filed. */
    static lemma RepliesStart(step: int, workSeen: map<WorkerId, map<Coords, Point>>, skys: map<Coords, Point>,
                              changes: map<WorkerId, Changes>)
      ensures RepliesState(step, workSeen, skys, changes, workSeen.Keys, changes)
    {
      assert RepliesFor(step, workSeen, skys, workSeen.Keys - workSeen.Keys) == map[];
    }

    /** After the reply loop every reporting worker has its reply. */
    static lemma RepliesDone(step: int, workSeen: map<WorkerId, map<Coords, Point>>, skys: map<Coords, Point>,
                             changes: map<WorkerId, Changes>, newChanges: map<WorkerId, Changes>)
      requires RepliesState(step, workSeen, skys, changes, {}, newChanges)
      ensures newChanges == changes + RepliesFor(step, workSeen, skys, workSeen.Keys)
    {
      assert workSeen.Keys - {} == workSeen.Keys;
    }

    /** The reply loop with `workers` still to answer. */
    static ghost predicate RepliesState(step: int, workSeen: map<WorkerId, map<Coords, Point>>, skys: map<Coords, Point>,
                                        changes: map<WorkerId, Changes>, workers: set<WorkerId>, newChanges: map<WorkerId, Changes>)
    {
      && workers <= workSeen.Keys
      && newChanges == changes + RepliesFor(step, workSeen, skys, workSeen.Keys - workers)
    }

    /** Answering one more worker keeps the reply loop's state. */
    static lemma RepliesStep(step: int, workSeen: map<WorkerId, map<Coords, Point>>, skys: map<Coords, Point>,
                             changes: map<WorkerId, Changes>, workers: set<WorkerId>, newChanges: map<WorkerId, Changes>,
                             worker: WorkerId)
      requires RepliesState(step, workSeen, skys, changes, workers, newChanges) && worker in workers
      ensures worker in workSeen
      ensures RepliesState(step, workSeen, skys, changes, workers - {worker},
                           newChanges[worker := Reply(step, worker, workSeen[worker], skys)])
    {
      var done := workSeen.Keys - workers;
      RepliesForOneMore(step, workSeen, skys, done, worker, changes);
      assert done + {worker} == workSeen.Keys - (workers - {worker});
    }

    /** The computation of `process_skyline` on values: the stored queues
        after the round, whether the rebuild got through, the replies, and
        the rebuilt engine with its front drained. */
    static method ComputeRound(step: int, skylines: map<WorkerId, seq<Point>>, ups: seq<Upload>, changes: map<WorkerId, Changes>)
      returns (stores: map<WorkerId, seq<Point>>, engine: Skyline, ok: bool, newChanges: map<WorkerId, Changes>)
      ensures RoundResult(stores, ok, newChanges) == RoundOutcome(step, skylines, ups, changes)
      ensures RepliesInv(changes, skylines) ==> RepliesInv(newChanges, stores)
      ensures fresh(engine) && (ok ==> engine.skyline == [])
    {
      RoundFacts(step, skylines, ups, changes);
      var workSeen, globalSeen;
      stores, workSeen, globalSeen := MergeRound(skylines, ups);
      RoundPoolsKeyed(skylines, ups);
      engine, ok := RebuildGlobal(globalSeen);
      ok := !ok;
      if !ok {
        return stores, engine, false, changes;
      }
      ghost var front := engine.skyline;
      var skys := DrainFront(engine);
      KeyedFrontIsFrontOf(globalSeen, front);
      newChanges := FileReplies(step, workSeen, skys, changes);
    }

    /** `process_skyline`. Every buffered upload rebuilds its worker's
        stored queue; the global front is recomputed from scratch over the
        pool; and each reporting worker's reply is its delta against that
        front. The rebuild raises exactly on a pool of mixed arity: the
        exception is swallowed, the stored queues stay updated, and the
        buffer, replies and counters are left as they were. */
    method ProcessSkyline() returns (ok: bool)
      requires Valid()
      modifies this`skylines, this`sky, this`skylineChanges, this`unprocessedSky, this`recvWorkers, this`skyReceived
      ensures Valid()
      ensures RoundResult(skylines, ok, skylineChanges) == RoundOutcome(step, old(skylines), old(unprocessedSky), old(skylineChanges))
      ensures fresh(sky)
      ensures ok ==> unprocessedSky == [] && recvWorkers == {} && skyReceived == 0 && sky.skyline == []
      ensures !ok ==> unprocessedSky == old(unprocessedSky) && recvWorkers == old(recvWorkers) && skyReceived == old(skyReceived)
    {
      var stores0, ups, changes0 := skylines, unprocessedSky, skylineChanges;
      var stores, engine, changes;
      stores, engine, ok, changes := ComputeRound(step, stores0, ups, changes0);
      skylines, sky, skylineChanges := stores, engine, changes;
      if ok {
        ClearBuffer();
      }
    }

    /** The reset at the end of a round that got through: the buffer, the
        received-worker set and the counter start afresh. */
    method ClearBuffer()
      requires Valid()
      modifies this`unprocessedSky, this`recvWorkers, this`skyReceived
      ensures Valid()
      ensures unprocessedSky == [] && recvWorkers == {} && skyReceived == 0
    {
      WorkersOfEmpty();
      unprocessedSky := [];
      recvWorkers := {};
      skyReceived := 0;
    }

    /** `write_out_skyline`: one output line with the previous step and the
        `skyline` field, which is always empty. */
    method WriteOutSkyline()
      requires Valid()
      modifies this`log
      ensures Valid()
      ensures log == old(log) + [LogRecord(step - 1, [])]
    {
      log := log + [LogRecord(step - 1, skyline)];
    }

    /** The effect of a computing pass of the `run_loop` loop: the step
        advances by one and the window with it, the round is processed
        (its replies tagged with the new step) and its line written, and the
        master is waiting again. The counter is reset before processing, so
        it is 0 afterwards whether or not the rebuild got through. */
    twostate predicate RoundComputed()
      reads this
    {
      && step == old(step) + 1
      && var r := RoundOutcome(step, old(skylines), old(unprocessedSky), old(skylineChanges));
      && skylines == r.stores && skylineChanges == r.changes
      && (if r.ok
          then unprocessedSky == [] && recvWorkers == {}
          else unprocessedSky == old(unprocessedSky) && recvWorkers == old(recvWorkers))
      && skyReceived == 0
      && log == old(log) + [LogRecord(old(step), [])]
      && !isComputing && isWaiting
    }

    /** The computing branch of the `run_loop` loop. */
    method ComputeRoundStep()
      requires Valid()
      modifies this`isComputing, this`skyReceived, this`step, this`windowTime, this`skylines, this`sky,
               this`skylineChanges, this`unprocessedSky, this`recvWorkers, this`log, this`isWaiting
      ensures Valid() && RoundComputed()
    {
      OpenRound();
      var ok := ProcessSkyline();
      WriteOutSkyline();
      CloseRound();
    }

    /** The status section that opens a computing pass: computing, the
        counter reset, the step advanced and the window moved with it. */
    method OpenRound()
      requires Valid()
      modifies this`isComputing, this`skyReceived, this`step, this`windowTime
      ensures Valid()
      ensures isComputing && skyReceived == 0 && step == old(step) + 1
    {
      isComputing := true;
      skyReceived := 0;
      step := step + 1;
      windowTime := startTime + step * stepSize;
    }

    /** The status section that closes a computing pass. */
    method CloseRound()
      requires Valid()
      modifies this`isComputing, this`isWaiting
      ensures Valid()
      ensures !isComputing && isWaiting
    {
      isComputing := false;
      isWaiting := true;
    }

    /** One pass of the `run_loop` loop at clock reading `now`: it ends the
        loop when no worker is left or when nothing has arrived within the
        timeout, computes a round exactly when every worker has reported,
        and otherwise changes nothing. */
    method RunLoopIteration(now: int, timeoutToEnd: int) returns (keepRunning: bool)
      requires Valid()
      modifies this`isComputing, this`skyReceived, this`step, this`windowTime, this`skylines, this`sky,
               this`skylineChanges, this`unprocessedSky, this`recvWorkers, this`log, this`isWaiting
      ensures Valid()
      ensures var a := NextAction(old(numWorkers), old(haveNewData), old(skyReceived), now - old(lastReceivedTime), timeoutToEnd);
        && (keepRunning <==> a != EndLoop)
        && (a == Compute ==> RoundComputed())
        && (a != Compute ==> unchanged(this))
    {
      if numWorkers <= 0 {
        return false;
      }
      if !haveNewData {
        var sinceUpdate := now - lastReceivedTime;
        if sinceUpdate > timeoutToEnd {
          return false;
        }
        return true;
      }
      if skyReceived == numWorkers {
        ComputeRoundStep();
      }
      return true;
    }

    /** What `run_loop` does once the loop is left: a last round is
        processed with the step unchanged, its line written, and the master
        stops running. */
    method FinishRun()
      requires Valid()
      modifies this`skylines, this`sky, this`skylineChanges, this`unprocessedSky, this`recvWorkers, this`skyReceived,
               this`log, this`isRunning
      ensures Valid()
      ensures var ok := RoundGoesThrough(old(skylines), old(unprocessedSky));
        && RoundResult(skylines, ok, skylineChanges) == RoundOutcome(step, old(skylines), old(unprocessedSky), old(skylineChanges))
        && (ok ==> unprocessedSky == [] && recvWorkers == {} && skyReceived == 0)
        && (!ok ==> unprocessedSky == old(unprocessedSky) && recvWorkers == old(recvWorkers) && skyReceived == old(skyReceived))
        && log == old(log) + [LogRecord(step - 1, [])]
        && !isRunning
    {
      var ok := ProcessSkyline();
      WriteOutSkyline();
      isRunning := false;
    }

    /** `/update_master`. A missing body, or one whose `step` is not the
        current step, is refused with 400 and changes nothing. Otherwise
        the upload is buffered, counted and its worker marked, new data is
        flagged and the clock reading kept as the last upload time. */
    method AcceptData(body: Option<Upload>, now: int) returns (status: int)
      requires Valid()
      modifies this`unprocessedSky, this`skyReceived, this`recvWorkers, this`haveNewData, this`lastReceivedTime
      ensures Valid()
      ensures status == 200 <==> body.Some? && body.value.step == Some(old(step))
      ensures status != 200 ==> status == 400 && unchanged(this)
      ensures status == 200 ==>
        && unprocessedSky == old(unprocessedSky) + [body.value]
        && skyReceived == old(skyReceived) + 1
        && recvWorkers == old(recvWorkers) + {body.value.workerId}
        && haveNewData && lastReceivedTime == now
    {
      if body.None? {
        return 400;
      }
      var upload := body.value;
      if upload.step != Some(step) {
        return 400;
      }
      WorkersOfSnoc(unprocessedSky, upload);
      unprocessedSky := unprocessedSky + [upload];
      skyReceived := skyReceived + 1;
      recvWorkers := recvWorkers + {upload.workerId};
      haveNewData := true;
      lastReceivedTime := now;
      return 200;
    }

    /** `/worker_done`: one worker fewer, answered with the step fields
        read before the decrement (without the window size). */
    method RemoveWorker() returns (info: StepInfo)
      requires Valid()
      modifies this`numWorkers
      ensures Valid()
      ensures numWorkers == old(numWorkers) - 1
      ensures info == StepInfo(step, stepSize, startTime, windowTime, None)
      ensures info.windowTime == info.startTime + info.step * info.stepSize
    {
      info := StepInfo(step, stepSize, startTime, windowTime, None);
      numWorkers := numWorkers - 1;
    }

    /** `/step`: the step fields and the window size; the window time it
        reports is always the start of the current step's window. */
    function GetStep(): (info: StepInfo)
      reads this
      ensures Valid() ==> info.windowTime == info.startTime + info.step * info.stepSize
      ensures info.step == step && info.stepWindow == Some(winSize)
    {
      StepInfo(step, stepSize, startTime, windowTime, Some(winSize))
    }

    /** `/status`, without the thread count: the number received never
        exceeds the uploads waiting to be processed. */
    function CheckStatus(): (st: StatusInfo)
      reads this
      ensures Valid() ==> 0 <= st.numReceived <= |unprocessedSky|
      ensures st.numWorkers == numWorkers && st.isRunning == isRunning && st.isComputing == isComputing
    {
      StatusInfo(isRunning, isComputing, isWaiting, numWorkers, skyReceived)
    }

    /** `/get_skyline[/<step>]?worker_id=...`: 400 when not running, 423
        while computing, 500 when the step is not an integer; a step other
        than the last processed one gets 423 from a worker that already
        reported this round and otherwise the 400 naming the last step; an
        unknown or missing worker gets 500 (the `KeyError`); otherwise 200
        with the last step and that worker's reply. */
    function GetSkyline(requested: StepArg, workerId: Option<WorkerId>): (r: SkylineResponse)
      reads this
      ensures r == Refused(400) <==> !isRunning
      ensures r == Refused(423) <==>
        isRunning && (isComputing || (requested.Given? && requested.n != step - 1 && workerId.Some? && workerId.value in recvWorkers))
      ensures r.WrongStep? <==>
        isRunning && !isComputing && requested.Given? && requested.n != step - 1 && !(workerId.Some? && workerId.value in recvWorkers)
      ensures r.Served? <==>
        isRunning && !isComputing && !requested.Malformed? && (requested.Given? ==> requested.n == step - 1) &&
        workerId.Some? && workerId.value in skylineChanges
      ensures r.WrongStep? ==> r.lastStep == step - 1
      ensures r.Served? ==> r.step == step - 1 && r.changes == skylineChanges[workerId.value]
      ensures Valid() && r.Served? ==> r.changes.workerId == workerId.value
    {
      if !isRunning then Refused(400)
      else if isComputing then Refused(423)
      else if requested.Malformed? then Refused(500)
      else if requested.Given? && requested.n != step - 1 then
        (if workerId.Some? && workerId.value in recvWorkers then Refused(423) else WrongStep(step - 1))
      else if workerId.None? || workerId.value !in skylineChanges then Refused(500)
      else Served(step - 1, skylineChanges[workerId.value])
    }
  }
}
