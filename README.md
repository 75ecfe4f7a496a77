# Distributed skyline: master and skyline kernels in Dafny

The repository computes the skyline of streamed multi-dimensional points.
A point belongs to the skyline when no other point dominates it. Smaller
is better: `a` dominates `b` when `a` is no larger in every coordinate and
strictly smaller in at least one. Workers each keep a local skyline and
upload the changes to a master once per time step. The master rebuilds a
global skyline from every worker's contribution and tells each worker how
its contribution differs from the global result.

This project models four source files and proves properties of them.

- **`skyline/skyline.py`** is the incremental skyline engine.
  - `Skyline` is a class holding two FIFO queues, `skyline` and `non_sky`.
  - `check_dominated` compares two points. Duplicates count as dominated
    by default, and unequal dimensions raise `SkylineException`.
  - `update_sky_for_point` makes one rotation through the skyline queue.
  - `compute_all_sky` folds that update over a list of points.
- **`skyline/master.py`** is the master node.
  - `Master` is a class whose fields the background `run_loop` and the web
    handlers update.
  - `process_skyline` merges the buffered uploads into per-worker queues,
    rebuilds the global skyline and files a reply delta per worker.
  - The handlers are `accept_data`, `get_skyline`, `remove_worker`,
    `get_step` and `check_status`.
- **`skyline/skylineLib.py`** holds a queue-based block-nested-loops
  skyline `skylineBNL` and its comparator `dominated`.
- **`skyline/BasicSkyline.py`** holds the windowed block-nested-loops
  prototype.
  - Its `skylineBNL` works with a bounded window, a temp file of
    overflowing tuples and timestamps that decide when a window member may
    be output.
  - Its comparator is `compare`.
  - The records it works on are `Tuple`s.

Files of this project:

| file | module | contents |
|---|---|---|
| `wrappers.dfy` | `Wrappers` | `Option` and `Result` |
| `dominance.dfy` | `Dominance` | `Dominates` and its order laws; the brute-force front `BruteFront`; `PrefixVerdict`, which is the verdict of both prototype comparators |
| `skyline_engine.dfy` | `SkylineEngine` | the verdict `Verdict`; the closed form of one update (`Insert`) and its operational form (`Update`, `UpdateAll`); `class Skyline` with `seq` fields for the two queues |
| `skyline_front.dfy` | `SkylineFront` | the theorem that `compute_all_sky` over points of one arity computes exactly the brute-force skyline |
| `master_round.dfy` | `MasterRound` | one round of `process_skyline` as values: `RoundPools` and `RoundReplies` |
| `master.dfy` | `SkylineMaster` | `class Master`, its handlers and the run loop |
| `skyline_lib.dfy` | `SkylineLib` | `class TupleQueue` and the queue-based BNL |
| `basic_skyline.dfy` | `BasicSkyline` | the windowed BNL: its states, the `Run` function that specifies it, and the methods proved against `Run` |

How the model is built:

- **Queues.** Python `Queue.Queue` objects are `seq` fields. `get_nowait`
  drops the head and `put` appends.
- **Dictionaries.**
  - The per-worker and global "seen" dictionaries are `map`s keyed by the
    coordinate sequence.
  - The reply lists are sets, because the source builds them by iterating
    a set.
  - A point is the record `Point(data, step, workerId)`.
- **Master fields.** `Master.Valid()` is the invariant every handler keeps.
  - The received-worker set is the set of uploaders in the buffer.
  - The receive counter never exceeds the buffer.
  - Every stored reply is tagged with its worker and has a queue.
  - The window time is `start_time + step * step_size`.
- **Methods and specifications.** Every method is proved against a
  specification function of its inputs or its old state:
  - `UpdateSkyForPoint` against `Update`;
  - `ComputeAllSky` against `UpdateAll`;
  - `ProcessSkyline` against `RoundOutcome`;
  - `SkylineLib.SkylineBNL` against `Drain`;
  - `BasicSkyline.SkylineBNL` against `Run`.

  Lemmas then prove what the source promises about those functions.

## Model

| member | source | states |
|---|---|---|
| Dominance.DominatesIrreflexive | skyline/skyline.py:57-73 | no point dominates itself |
| Dominance.DominatesAsymmetric | skyline/skyline.py:57-73 | if `a` dominates `b`, then `b` does not dominate `a` |
| Dominance.DominatesTransitive | skyline/skyline.py:57-73 | dominance is transitive |
| Dominance.BruteFront | skyline/master.py:107-118 | the reference skyline of a key set is a subset of that set |
| Dominance.PrefixVerdictMirror | skyline/skylineLib.py:74-94 | on equal-length tuples both directions succeed; the verdict swaps sign when the arguments swap |
| SkylineEngine.VerdictMirror | skyline/skyline.py:46-73 | without duplicate removal the verdict is antisymmetric; with it, equal points get -1 both ways; distinct points still get opposite verdicts |
| SkylineEngine.VerdictMeaning | skyline/skyline.py:46-73 | raises iff the dimensions differ; 1 iff `point1` dominates `point2`; -1 iff `point2` dominates `point1` or the points are equal under `remove_dups`; 0 iff neither holds |
| SkylineEngine.IncomparableSymmetric | skyline/skyline.py:46-73 | a verdict of 0 is symmetric and implies the coordinates differ |
| SkylineEngine.AntichainOfSubMultiset | skyline/skyline.py:89-113 | any sub-multiset of a skyline queue with no dominance (or duplicate) inside it has none either |
| SkylineEngine.StopIndex | skyline/skyline.py:90-110 | the rotation stops at or before the end of the queue |
| SkylineEngine.StopIndexSpec | skyline/skyline.py:90-110 | the rotation stops at `k` iff every earlier member lets the point pass and member `k` (if any) does not |
| SkylineEngine.StopIndexNext | skyline/skyline.py:90-110 | a passing member moves the stop further; a blocking one is the stop |
| SkylineEngine.ScanOneMore | skyline/skyline.py:101-105 | one more compared member is kept iff incomparable and evicted iff the verdict is 1 |
| SkylineEngine.KeptMembers | skyline/skyline.py:104-105 | the members put back are exactly the compared members incomparable to the point |
| SkylineEngine.EvictedMembers | skyline/skyline.py:102-103 | the members moved to `non_sky` are exactly those the point dominates |
| SkylineEngine.KeptEvictedPartition | skyline/skyline.py:101-105 | before the stop, every compared member is either kept or evicted, and none is lost |
| SkylineEngine.ScanPrefix | skyline/skyline.py:90-110 | the compared prefix splits into kept and evicted members |
| SkylineEngine.InsertConserves | skyline/skyline.py:75-115 | a completed update moves points between the two queues and adds only the new point; a raising update loses the member taken out for comparison |
| SkylineEngine.AcceptedKeepsAntichain | skyline/skyline.py:112-113 | appending an accepted point keeps the queue free of dominance and duplicates |
| SkylineEngine.InsertKeepsAntichain | skyline/skyline.py:75-115 | an update keeps the skyline queue free of dominance and duplicates |
| SkylineEngine.InsertAccepted | skyline/skyline.py:89-115 | an accepted point is in the skyline; every other member was there before and is incomparable to it; every member it dominates moved to `non_sky` |
| SkylineEngine.InsertRejected | skyline/skyline.py:106-110 | a rejected point ends `non_sky`, and a surviving member dominates or equals it |
| SkylineEngine.ScanStatePasses | skyline/skyline.py:91-105 | one loop turn with a passing member: rotate it back, or move it to `non_sky` on verdict 1 |
| SkylineEngine.ScanStateStops | skyline/skyline.py:101-110 | the turn at the stop either rejects the point (verdict -1) or raises |
| SkylineEngine.ScanStep | skyline/skyline.py:91-110 | each verdict (raise, 1, 0, -1) has its effect on the queues at that turn |
| SkylineEngine.ScanAccepts | skyline/skyline.py:112-113 | a rotation that reaches the end appends the point and accepts it |
| SkylineEngine.ScanFromState | skyline/skyline.py:91-113 | running the loop from any reachable turn gives the closed-form update |
| SkylineEngine.UpdateIsInsert | skyline/skyline.py:75-115 | the operational update equals the closed-form update on every input, including the empty queue |
| SkylineEngine.UpdateAllSnoc | skyline/skyline.py:41-44 | folding one more point is one more update, unless an earlier one raised |
| SkylineEngine.UpdateAllConserves | skyline/skyline.py:41-44 | without an exception, the fold's two queues hold the old points plus the input as a multiset |
| SkylineEngine.Skyline.constructor | skyline/skyline.py:33-39 | a queue passed in is used; an absent one starts empty |
| SkylineEngine.Skyline.CheckDominated | skyline/skyline.py:46-73 | returns the verdict (or raises `SkylineException`) that `VerdictMeaning` characterises |
| SkylineEngine.Skyline.UpdateSkyForPoint | skyline/skyline.py:75-115 | the new queues and the returned outcome (None, True, False or the exception) are those of `Update` on the old queues |
| SkylineEngine.Skyline.ComputeAllSky | skyline/skyline.py:41-44 | the new queues are `UpdateAll` of the input over the old queues, stopping at an exception |
| SkylineFront.CoversTransitive | skyline/skyline.py:57-73 | "dominates or equals" is transitive |
| SkylineFront.CoversDominates | skyline/skyline.py:57-73 | "dominates or equals" composed with dominance is dominance |
| SkylineFront.AllInMeaning | skyline/skyline.py:89-113 | the recursive membership check means every queue member was seen |
| SkylineFront.FrontIsBrute | skyline/skyline.py:41-44 | a queue that keeps the front invariant holds exactly the brute-force skyline of the points seen |
| SkylineFront.AntichainNoDominance | skyline/skyline.py:89-113 | no member of a duplicate-free antichain dominates another |
| SkylineFront.FrontStepAllIn | skyline/skyline.py:89-113 | after an update, every queue member has been seen |
| SkylineFront.FrontStepUndominated | skyline/skyline.py:89-113 | after an update, no seen point dominates a queue member |
| SkylineFront.FrontStepCovered | skyline/skyline.py:89-113 | after an update, every seen point is dominated or equalled by a queue member |
| SkylineFront.FrontStep | skyline/skyline.py:75-115 | one update keeps the front invariant |
| SkylineFront.AcceptedScanResult | skyline/skyline.py:112-113 | an accepted point's result is a kept subset plus the point |
| SkylineFront.RejectedScanResult | skyline/skyline.py:106-110 | a rejected point's result keeps a member that dominates or equals it |
| SkylineFront.InsertSameArity | skyline/skyline.py:59-60 | an update never raises when every queue member has the point's arity |
| SkylineFront.InsertScanResult | skyline/skyline.py:75-115 | every non-raising update is an accept or a reject result |
| SkylineFront.FrontArity | skyline/skyline.py:89-113 | queue members have the arity of the seen points |
| SkylineFront.UpdateKeepsFront | skyline/skyline.py:75-115 | with uniform arity, an update does not raise and keeps the front invariant |
| SkylineFront.UpdateAllKeepsFront | skyline/skyline.py:41-44 | with uniform arity, the fold does not raise and keeps the front invariant |
| SkylineFront.BruteForceFront | skyline/skyline.py:41-44 | from an empty skyline, `compute_all_sky` on points of one arity does not raise and returns exactly the brute-force skyline, with no dominance and no duplicates |
| SkylineFront.UpdateArity | skyline/skyline.py:59-60 | on a non-empty queue of arity `n`: a point of arity `n` never raises; any other arity always raises |
| SkylineFront.UpdateAllArity | skyline/skyline.py:41-44 | the fold over a non-empty queue raises iff some input point has another arity |
| SkylineFront.RaisesIffMixedArity | skyline/skyline.py:41-44 | from an empty skyline, the fold raises iff the input mixes arities |
| MasterRound.WorkersOfSnoc | skyline/master.py:360-362 | one more upload adds its worker to the received set |
| MasterRound.FilterMembers | skyline/master.py:93-97 | the rotation keeps exactly the queue members not listed in `removed` |
| MasterRound.ContributionMembers | skyline/master.py:82-105 | a worker's new queue holds its old members not removed, plus the added ones |
| MasterRound.FilterStep | skyline/master.py:93-97 | one more rotated member is kept iff it is not in `removed` |
| MasterRound.KeyedBySnoc | skyline/master.py:98-105 | entering one more point overwrites its key |
| MasterRound.KeyedByMembers | skyline/master.py:98-105 | the keyed dictionary has exactly the queue's coordinates as keys, each mapping to a queue member with that key |
| MasterRound.KeyedByLastWins | skyline/master.py:98-105 | the last point entered under a key is the one kept |
| MasterRound.MergeUploadFields | skyline/master.py:82-105 | the three pools after one upload are those of `MergeUpload` |
| MasterRound.RoundPoolsStep | skyline/master.py:82-105 | the merge loop handles one upload per turn, in buffer order |
| MasterRound.RoundWorkSeenKeys | skyline/master.py:82-105 | `work_seen` has exactly the round's uploaders as keys |
| MasterRound.RoundStores | skyline/master.py:82-105 | queues exist for old workers and uploaders; workers that did not upload keep their queue |
| MasterRound.RoundPoolsKeyed | skyline/master.py:82-105 | each worker's `work_seen` is its queue keyed by coordinates; `global_seen` maps each key to a point with that key |
| MasterRound.ReplyRoundTrip | skyline/master.py:120-129 | `added` is the worker's keys minus the global front's; `removed` is the front's keys minus the worker's; applying the reply to the front yields the worker's keys |
| MasterRound.RepliesForOneMore | skyline/master.py:121-129 | filing one more worker's reply extends the reply map by that worker |
| MasterRound.KeyedFrontIsFrontOf | skyline/master.py:113-118 | the snapshot of the rebuilt skyline is the pool restricted to the brute-force front |
| MasterRound.RebuildFinished | skyline/master.py:107-111 | a rebuild that does not raise means uniform arity; it yields exactly the brute-force front of the pool, duplicate-free, each point taken from the pool |
| MasterRound.RebuildRaised | skyline/master.py:107-111 | a rebuild that raises means the pool mixes arities |
| MasterRound.QueuesFromUploads | skyline/master.py:82-105 | every stored queue after a round holds only the worker's old points and the points it added in the round |
| MasterRound.PoolFromUploads | skyline/master.py:82-105 | only reporting workers feed `global_seen`: each key comes from an uploader's stored queue or from an upload's `added` list |
| MasterRound.ContributedOffered | skyline/master.py:101-105 | each point of an upload's contribution was offered by that round |
| MasterRound.QueuesInPool | skyline/master.py:82-105 | every key of a reporting worker's new queue is in `global_seen` |
| MasterRound.PoolInQueues | skyline/master.py:82-105 | when every worker reports at most once, `global_seen` holds only keys of the reporting workers' new queues |
| MasterRound.PoolIsUnion | skyline/master.py:82-105 | `global_seen` contains the union of the reporting workers' contributions, and equals it when every worker reports at most once |
| MasterRound.ReplyFrontOverUnion | skyline/master.py:107-129 | when every worker reports once, the front the replies are measured against is the brute-force skyline of the union of the contributions |
| MasterRound.RoundFacts | skyline/master.py:82-129 | after a round, queues and replies exist for every previous worker and every uploader; replies stay tagged with their worker |
| SkylineMaster.NextAction | skyline/master.py:161-213 | compute iff workers remain, new data arrived and every worker uploaded; end iff no workers remain or the timeout passed without new data |
| SkylineMaster.Master.constructor | skyline/master.py:42-68 | the initial field values and a fresh, empty engine |
| SkylineMaster.Master.Start | skyline/master.py:143-154 | running, waiting, not computing, step 0, window at the start time, empty output |
| SkylineMaster.Master.MergeUploadInto | skyline/master.py:83-105 | one upload's new queue, its keyed dictionary and the grown global pool |
| SkylineMaster.Master.DropRemoved | skyline/master.py:92-99 | the rotation keeps the members not removed and records them in both dictionaries |
| SkylineMaster.Master.EnqueueAdded | skyline/master.py:101-105 | added points are appended and recorded in both dictionaries |
| SkylineMaster.Master.DropStep | skyline/master.py:93-99 | one rotation turn keeps its invariant |
| SkylineMaster.Master.RebuildGlobal | skyline/master.py:107-111 | raises iff the pool mixes arities; otherwise the engine holds exactly the brute-force front, duplicate-free, taken from the pool |
| SkylineMaster.Master.RebuildStep | skyline/master.py:109-111 | one rebuild turn keeps its invariant |
| SkylineMaster.Master.DrainFront | skyline/master.py:113-118 | the snapshot is the engine's queue keyed by coordinates, and the queue is emptied |
| SkylineMaster.Master.MergeRound | skyline/master.py:82-105 | the merge loop computes `RoundPools` |
| SkylineMaster.Master.FileReplies | skyline/master.py:120-129 | every worker in `work_seen` gets its reply; other replies stay |
| SkylineMaster.Master.RepliesStep | skyline/master.py:121-129 | one reply turn keeps its invariant |
| SkylineMaster.Master.RepliesDone | skyline/master.py:120-129 | the finished reply loop has filed `RepliesFor` |
| SkylineMaster.Master.ComputeRound | skyline/master.py:78-130 | the queues, success flag and replies are `RoundOutcome`; replies stay valid |
| SkylineMaster.Master.ProcessSkyline | skyline/master.py:70-137 | the fields become `RoundOutcome`; on success the buffer is cleared; when the rebuild raises, the buffer stays and the merged queues remain |
| SkylineMaster.Master.ClearBuffer | skyline/master.py:131-133 | buffer, received set and counter are reset |
| SkylineMaster.Master.WriteOutSkyline | skyline/master.py:139-141 | one output line with the previous step and the (always empty) `skyline` field |
| SkylineMaster.Master.OpenRound | skyline/master.py:190-197 | computing, counter reset, step advanced, window time moved with it |
| SkylineMaster.Master.CloseRound | skyline/master.py:206-209 | not computing, waiting |
| SkylineMaster.Master.ComputeRoundStep | skyline/master.py:190-210 | a round is computed, written out and closed, keeping the invariant |
| SkylineMaster.Master.RunLoopIteration | skyline/master.py:161-213 | the loop continues iff `NextAction` does not end it; computes a round iff `NextAction` says so; otherwise changes nothing; it never touches the worker count, the new-data flag, the last upload time, the running flag or the step constants |
| SkylineMaster.Master.FinishRun | skyline/master.py:214-226 | a final round (buffer cleared if it got through, kept if the rebuild raised), one more output line and `is_running` false; the step, the counters of workers and the status flags other than `is_running` are unchanged |
| SkylineMaster.Master.AcceptData | skyline/master.py:335-370 | 200 iff a body came with the current step: it is buffered, counted and its worker recorded, and the clock is noted; otherwise 400 and nothing changes |
| SkylineMaster.Master.RemoveWorker | skyline/master.py:270-279 | the worker count drops by one and the step information is returned |
| SkylineMaster.Master.GetStep | skyline/master.py:260-267 | the step, window size and a window time consistent with the step |
| SkylineMaster.Master.CheckStatus | skyline/master.py:247-257 | the status flags and counts as stored |
| SkylineMaster.Master.GetSkyline | skyline/master.py:282-332 | 400 iff not running; 423 iff computing, or a wrong step from a worker that already uploaded; the step-naming 400 iff a wrong step from any other worker; 200 with the worker's stored delta iff the step is right and a delta exists; otherwise the `KeyError` becomes a 500 |
| SkylineLib.TupleQueue.constructor | skyline/skylineLib.py:32-37 | a queue holding the given tuples |
| SkylineLib.Dominated | skyline/skylineLib.py:74-94 | returns `PrefixVerdict`: compares over `tuple1`'s length and raises an index error when `tuple2` is shorter |
| SkylineLib.PrefixVerdictMeaning | skyline/skylineLib.py:74-94 | raises iff `tuple2` is shorter; 1 iff `tuple1` is no larger on its coordinates and smaller on one; -1 for the converse; 0 for equal prefixes |
| SkylineLib.PrefixOnly | skyline/skylineLib.py:79-88 | coordinates of `tuple2` beyond `tuple1`'s length are ignored |
| SkylineLib.ScanWindow | skyline/skylineLib.py:45-69 | the queues after one rotation are those of `Insert` |
| SkylineLib.SkylineBNL | skyline/skylineLib.py:32-71 | the queues after the run are those of `Drain`; when nothing is raised, the window is returned and the input is empty |
| SkylineLib.FirstTupleAccepted | skyline/skylineLib.py:40-43 | the first tuple enters an empty window without comparison |
| SkylineLib.ScanIncomparable | skyline/skylineLib.py:47-69 | a rotation over members all incomparable to the tuple ends with the window in its original order plus the tuple |
| SkylineLib.IncomparableAppended | skyline/skylineLib.py:45-69 | an incomparable tuple is appended to the window |
| SkylineLib.DuplicatesKept | skyline/skylineLib.py:32-71 | unlike the engine, two equal tuples both stay in the window |
| SkylineLib.ScanConserves | skyline/skylineLib.py:47-69 | without an error, a rotation only moves tuples between the window and `nonSkylinePts` and adds the current tuple |
| SkylineLib.DrainConserves | skyline/skylineLib.py:32-71 | without an error, the input is consumed and every tuple ends in the window or `nonSkylinePts` |
| SkylineLib.ZeroMeansNeither | skyline/skylineLib.py:90-94 | a verdict of 0 means neither tuple dominates the other |
| SkylineLib.ScanKeepsNoneDominated | skyline/skylineLib.py:47-69 | a rotation keeps the window free of dominance |
| SkylineLib.DrainKeepsNoneDominated | skyline/skylineLib.py:32-71 | the returned window has no member dominating another |
| SkylineLib.ScanKeepsArity | skyline/skylineLib.py:47-69 | with one arity throughout, a rotation does not raise and keeps that arity |
| SkylineLib.UniformArityNeverRaises | skyline/skylineLib.py:32-71 | input and window of one arity never raise |
| BasicSkyline.Compare | skyline/BasicSkyline.py:132-154 | returns `PrefixVerdict`, the same verdict as `dominated`, including the index error |
| BasicSkyline.Stamp | skyline/BasicSkyline.py:44-51 | a raw point or a reread tuple takes the current time and keeps its data |
| BasicSkyline.Rereads | skyline/BasicSkyline.py:118 | the next pass reads as many tuples as the temp file held |
| BasicSkyline.ScanWindow | skyline/BasicSkyline.py:56-74 | the window scan computes `ScanFrom` under the given rule: `AsWritten` advances the index after a removal as the source does, `Corrected` does not |
| BasicSkyline.EndOfPass | skyline/BasicSkyline.py:95-123 | the state after the end-of-pass block is `EndPass` |
| BasicSkyline.EmitOlder | skyline/BasicSkyline.py:98-110 | members older than the first temp tuple are output in order; the rest stay, restamped 0 |
| BasicSkyline.EmitAll | skyline/BasicSkyline.py:111-116 | the whole window is output in order |
| BasicSkyline.ConsumeTuple | skyline/BasicSkyline.py:41-92 | one loop turn's stamping, scan and placement are `Consume` under the given rule |
| BasicSkyline.SkylineBNL | skyline/BasicSkyline.py:28-126 | the outcome (returned skyline, fall-through, index error, or the pass bound reached) and the final state are `Run` under the given rule; with `AsWritten` it is the source's loop |
| BasicSkyline.CorrectedScanFrom | skyline/BasicSkyline.py:56-74 | the kept window is a subset; the scan stops iff some member dominates the tuple or raises; a tuple that passes left only incomparable members and removed only those it dominates; the flags record whether anything was compared |
| BasicSkyline.ConsumeCorrected | skyline/BasicSkyline.py:44-92 | one turn consumes the head and advances time; an empty window takes the tuple; a blocked tuple goes to `nonSkylinePts` (or raises) and leaves the temp file; a passing tuple goes to the window when there is room, otherwise to the temp file |
| BasicSkyline.ConsumeKeepsClean | skyline/BasicSkyline.py:44-92 | with the corrected scan, a turn keeps the window free of dominance |
| BasicSkyline.SplitByTimestamp | skyline/BasicSkyline.py:98-110 | every window member is either output (older than the first temp tuple) or carried over restamped 0, and nothing else appears |
| BasicSkyline.DataOfMeaning | skyline/BasicSkyline.py:113-116 | the drained window's data is output in window order |
| BasicSkyline.RereadsMeaning | skyline/BasicSkyline.py:118 | the next pass rereads the temp tuples in order |
| BasicSkyline.EndPassMeaning | skyline/BasicSkyline.py:95-123 | at the end of a pass the temp file moves to the input, time resets to 0, the skyline only grows by the members leaving the window; with no temp tuple the window is output whole, otherwise split by timestamp |
| BasicSkyline.EndPassKeepsClean | skyline/BasicSkyline.py:95-123 | the end of a pass keeps the window free of dominance |
| BasicSkyline.RunEndings | skyline/BasicSkyline.py:37-126 | falls through (returns None) iff the input starts empty; a returned skyline leaves input, temp and window empty; a spent pass bound leaves tuples in the temp file; the skyline and non-skyline lists only grow |
| BasicSkyline.RunKeepsClean | skyline/BasicSkyline.py:37-126 | with the corrected scan, the window never holds a dominated member |
| BasicSkyline.SinglePassOutputClean | skyline/BasicSkyline.py:37-126 | with the corrected scan, a run that finishes in one pass outputs no point dominating another |
| BasicSkyline.SkipExampleOpening | skyline/BasicSkyline.py:44-92 | the first two tuples of the example enter the window |
| BasicSkyline.SkipExampleThird | skyline/BasicSkyline.py:56-74 | as written, the scan for `[1,1]` removes `[2,3]` and skips `[3,2]`; corrected, it removes both |
| BasicSkyline.SkipReturnsDominatedPoint | skyline/BasicSkyline.py:68-74 | as written, `[[2,3],[3,2],[1,1]]` returns `[[3,2],[1,1]]`, although `[1,1]` dominates `[3,2]` |
| BasicSkyline.CorrectedDropsDominatedPoint | skyline/BasicSkyline.py:56-74 | corrected, the same input returns `[[1,1]]` |
| BasicSkyline.MeetsCarriedOver | skyline/BasicSkyline.py:56-92 | a reread tuple incomparable to a carried-over window member goes back to the full window's temp file |
| BasicSkyline.CarriedOverStays | skyline/BasicSkyline.py:98-123 | a member restamped 0 is never older than a temp tuple stamped 0, so it stays |
| BasicSkyline.PassLoopRepeats | skyline/BasicSkyline.py:95-123 | with window size 1 and tuples `a`, `b`, `c` where `c` dominates `a` and `b` is incomparable to both, the pass loop repeats the same state under either rule until any pass bound is spent |

## Left out

- Threads and locks. Each handler and each pass of `run_loop` is one
  atomic step, and the interleavings the two locks allow inside a round
  are not modelled.
- The clock, `time.sleep`, `MASTER_TIMEOUT_TO_END` and `MASTER_WAIT_TIME`
  are parameters (`now`, `timeoutToEnd`). A sleeping pass changes nothing.
- File I/O, `print`, JSON and Flask:
  - the output file is a `log` sequence of records;
  - request bodies are datatypes;
  - the thread count in `/status` is left out.
- `self.skyline_changes` is never initialised in the source's `__init__`
  (the first round would raise `AttributeError`). It is modelled as an
  empty map created with the object.
- `traceback.print_exc()` in `process_skyline`: the swallowed exception
  (a rebuild over mixed arities) leaves the buffer intact and the merged
  queues in place.
  `SystemExit` / `KeyboardInterrupt` are not modelled.
- `accept_data` with a body that has no `worker_id` (a `KeyError` in the
  source) is not modelled. Every upload carries a worker id.
- Coordinates are integers. The source accepts any comparable values,
  including floats.
- Coordinates are used as dictionary keys (master.py:98, 104 and 117), as
  if they were hashable values such as tuples. If `data` arrives as a JSON
  array, it decodes to a Python list, which is unhashable. The first keyed
  point then raises `TypeError` after it has been put back in its queue
  (master.py:97 or 103), and master.py:136-137 swallows the error. This
  failure path is not modelled.
- A point is only `Point(data, step, workerId)`. Any other fields of an
  uploaded point are left out. In the source they take part in the
  whole-dictionary equality of `item in removed` (master.py:95). The model
  compares only these three fields.
- `SkylineLib.SkylineBNL` requires its three queues to be distinct
  objects. Aliased queues are not modelled.
- `BasicSkyline.SkylineBNL` takes a `fuel` bound on the number of extra
  passes.
  - The source's pass loop need not terminate: carried-over window members
    are restamped 0 and time restarts at 0 for every pass.
  - `PassLoopRepeats` shows an input on which the state repeats forever.
  - A run that spends its fuel ends with `FuelSpent`.
- `BasicSkyline.Tuple` is a value. The in-place timestamp writes of lines
  48 and 109 are value updates, which is the same because no `Tuple`
  object is held by two lists at once.
  - After the first pass, `inputFile = tempFile` makes the caller's
    `tempFile` list the input. The mutation of the caller's list is not
    modelled; the model returns the final state instead.
- `BasicSkyline.ScanWindow`, `BasicSkyline.ConsumeTuple` and
  `BasicSkyline.SkylineBNL` take the scan rule as a parameter: with
  `AsWritten` they are the source's loop, including the skip (see
  Findings); the lemmas about a clean window hold for `Corrected` only.
- `SkylineBasic`, `readFile`, `test_skyline`, `skyline_basic`, `parse_args`
  and `reset_updates` are demo or unused code and are not modelled.
- Where the documented design and the code differ, the model follows the
  code:
  - The reply's `added` list holds the worker's points missing from the
    global front, and `removed` holds the global points the worker lacks.
    This is the reverse of the documented direction.
  - Worker queues are updated before the global rebuild. A rebuild that
    raises therefore leaves the merged queues in place.
  - `write_out_skyline` runs after a failed round too.
  - `run_loop` writes `self.waiting`, not `self.is_waiting`, so
    `is_waiting` never becomes false.
  - `have_new_data` is never reset, so the timeout can end the loop only
    before the first upload.
  - `self.skyline` is never reassigned, so every output line carries an
    empty list.

## Findings

| source | as written | input that shows it | evidently intended | confidence | as-written member | corrected member |
|---|---|---|---|---|---|---|
| skyline/BasicSkyline.py:68-74 | after `window.remove(window[windowIndex])` the index still advances. The member that moves into the freed slot is never compared, and a dominated point can be output. | `[[2,3],[3,2],[1,1]]` with `window_size` 5 returns `[[3,2],[1,1]]`, although `[1,1]` dominates `[3,2]` | advance the index only when no member was removed, so every window member is compared; a single-pass run then outputs no dominated point | not executed | BasicSkyline.SkipReturnsDominatedPoint | BasicSkyline.SinglePassOutputClean |
