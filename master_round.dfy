/** The round computation of the master in skyline/master.py, as values:
    how one round of uploads rebuilds each worker's contribution, the
    global pool keyed by coordinates, and the reply delta each worker is
    sent. The `Master` class in master.dfy is proved against these. */
module MasterRound {
  import opened Wrappers
  import opened Dominance
  import opened SkylineEngine
  import opened SkylineFront

  /** Workers are told apart by the `worker_id` they send. */
  type WorkerId = string

  /** One body posted to `/update_master`. A body without a `step` field
      carries `None`, which no current step equals. */
  datatype Upload = Upload(step: Option<int>, added: seq<Point>, removed: seq<Point>, workerId: WorkerId)

  /** The reply delta kept for a worker in `skyline_changes`. The Python
      lists are built by iterating a set, so their order is arbitrary and
      they are modelled as sets. */
  datatype Changes = Changes(step: int, added: set<Point>, removed: set<Point>, workerId: WorkerId)

  /** The workers that uploaded in `ups`. */
  function WorkersOf(ups: seq<Upload>): set<WorkerId> {
    set u | u in ups :: u.workerId
  }

  lemma WorkersOfEmpty()
    ensures WorkersOf([]) == {}
  {
  }

  lemma WorkersOfSnoc(ups: seq<Upload>, u: Upload)
    ensures WorkersOf(ups + [u]) == WorkersOf(ups) + {u.workerId}
  {
    assert (ups + [u])[..|ups|] == ups;
    WorkersOfInit(ups + [u]);
  }

  lemma WorkersOfInit(ups: seq<Upload>)
    requires ups != []
    ensures WorkersOf(ups) == WorkersOf(ups[..|ups| - 1]) + {ups[|ups| - 1].workerId}
  {
    assert ups == ups[..|ups| - 1] + [ups[|ups| - 1]];
  }

  /** The stored queue with every member equal to an entry of `removed`
      dropped; the order of the rest is kept. */
  function Filter(q: seq<Point>, removed: seq<Point>): seq<Point> {
    if q == [] then []
    else
      var last := q[|q| - 1];
      Filter(q[..|q| - 1], removed) + (if last in removed then [] else [last])
  }

  lemma {:induction false} FilterMembers(q: seq<Point>, removed: seq<Point>)
    ensures forall x :: x in Filter(q, removed) <==> x in q && x !in removed
  {
    if q != [] {
      FilterMembers(q[..|q| - 1], removed);
      assert q == q[..|q| - 1] + [q[|q| - 1]];
    }
  }

  /** A worker's new contribution: its stored queue without the removed
      entries, then the added entries. */
  function Contribution(stored: seq<Point>, u: Upload): seq<Point> {
    Filter(stored, u.removed) + u.added
  }

  /** What a contribution holds: no removed entry survives unless it is
      added again, and every added entry is there. */
  lemma ContributionMembers(stored: seq<Point>, u: Upload)
    ensures forall x :: x in Contribution(stored, u) <==>
      (x in stored && x !in u.removed) || x in u.added
  {
    FilterMembers(stored, u.removed);
  }

  /** Filtering one entry more: the entry is appended unless it is removed. */
  lemma FilterStep(q: seq<Point>, idx: nat, removed: seq<Point>)
    requires idx < |q|
    ensures Filter(q[..idx + 1], removed) ==
      Filter(q[..idx], removed) + (if q[idx] in removed then [] else [q[idx]])
  {
    assert q[..idx + 1][..idx] == q[..idx];
  }

  /** A dictionary filled from `s` in order, keyed by each point's `data`:
      a later point with the same coordinates overwrites an earlier one. */
  function KeyedBy(s: seq<Point>): map<Coords, Point> {
    if s == [] then map[]
    else
      var last := s[|s| - 1];
      KeyedBy(s[..|s| - 1])[last.data := last]
  }

  /** Filing one point more overwrites its coordinates' entry. */
  lemma KeyedBySnoc(s: seq<Point>, x: Point)
    ensures KeyedBy(s + [x]) == KeyedBy(s)[x.data := x]
  {
    assert (s + [x])[..|s|] == s;
  }

  /** Every entry of a `data`-keyed dictionary sits under its own `data`. */
  ghost predicate KeyedByData(m: map<Coords, Point>) {
    forall k | k in m :: m[k].data == k
  }

  /** The keys are the coordinates in `s`, and each entry is a member of `s`
      filed under its own coordinates. */
  lemma {:induction false} KeyedByMembers(s: seq<Point>)
    ensures KeyedBy(s).Keys == DataSet(s)
    ensures KeyedByData(KeyedBy(s))
    ensures forall k | k in KeyedBy(s) :: KeyedBy(s)[k] in s
  {
    if s != [] {
      KeyedByMembers(s[..|s| - 1]);
      assert s == s[..|s| - 1] + [s[|s| - 1]];
    }
  }

  /** The last point with given coordinates is the one the dictionary keeps. */
  lemma {:induction false} KeyedByLastWins(s: seq<Point>, i: nat)
    requires i < |s| && forall j | i < j < |s| :: s[j].data != s[i].data
    ensures s[i].data in KeyedBy(s) && KeyedBy(s)[s[i].data] == s[i]
  {
    if i < |s| - 1 {
      var init := s[..|s| - 1];
      forall j | i < j < |init| ensures init[j].data != init[i].data {
        assert init[j] == s[j];
      }
      KeyedByLastWins(init, i);
    }
  }

  /** `g` is `base` overlaid with the entries of `m`. */
  ghost predicate Overlays<K, V>(g: map<K, V>, base: map<K, V>, m: map<K, V>) {
    g == base + m
  }

  /** Filling one more entry into both the overlay and its top layer keeps
      the one the overlay of the other. */
  lemma OverlayUpdate<K, V>(g: map<K, V>, base: map<K, V>, m: map<K, V>, k: K, v: V)
    requires Overlays(g, base, m)
    ensures Overlays(g[k := v], base, m[k := v])
  {
    assert (base + m)[k := v] == base + m[k := v];
  }

  /** The three dictionaries one round of `process_skyline` builds: each
      worker's stored queue, each reporting worker's `work_seen` entry and
      the global pool `global_seen`. */
  datatype Pools = Pools(
    stores: map<WorkerId, seq<Point>>,
    workSeen: map<WorkerId, map<Coords, Point>>,
    globalSeen: map<Coords, Point>)

  /** A worker's stored queue; a worker never seen before starts empty. */
  function Stored(stores: map<WorkerId, seq<Point>>, w: WorkerId): seq<Point> {
    if w in stores then stores[w] else []
  }

  /** One upload merged into the pools: the worker's queue becomes its
      contribution, its `work_seen` entry is rebuilt from scratch, and the
      contribution is filed into the global pool over what is there. */
  function MergeUpload(p: Pools, u: Upload): Pools {
    var c := Contribution(Stored(p.stores, u.workerId), u);
    Pools(p.stores[u.workerId := c], p.workSeen[u.workerId := KeyedBy(c)], p.globalSeen + KeyedBy(c))
  }

  /** The three results of merging one upload, put back together. */
  lemma MergeUploadFields(p: Pools, u: Upload, queue: seq<Point>, seen: map<Coords, Point>, pool: map<Coords, Point>)
    requires queue == Contribution(Stored(p.stores, u.workerId), u)
    requires seen == KeyedBy(queue) && Overlays(pool, p.globalSeen, seen)
    ensures Pools(p.stores[u.workerId := queue], p.workSeen[u.workerId := seen], pool) == MergeUpload(p, u)
  {
  }

  /** The pools after merging the uploads in order, from the stored queues
      `stores` and empty `work_seen` and `global_seen`. */
  function RoundPools(stores: map<WorkerId, seq<Point>>, ups: seq<Upload>): Pools {
    if ups == [] then Pools(stores, map[], map[])
    else MergeUpload(RoundPools(stores, ups[..|ups| - 1]), ups[|ups| - 1])
  }

  /** The pools after one upload more. */
  lemma RoundPoolsStep(stores: map<WorkerId, seq<Point>>, ups: seq<Upload>, i: nat)
    requires i < |ups|
    ensures RoundPools(stores, ups[..i + 1]) == MergeUpload(RoundPools(stores, ups[..i]), ups[i])
  {
    assert ups[..i + 1][..i] == ups[..i];
  }

  /** Exactly the reporting workers get a `work_seen` entry. */
  lemma {:induction false} RoundWorkSeenKeys(stores: map<WorkerId, seq<Point>>, ups: seq<Upload>)
    ensures RoundPools(stores, ups).workSeen.Keys == WorkersOf(ups)
  {
    if ups != [] {
      var init := ups[..|ups| - 1];
      RoundWorkSeenKeys(stores, init);
      WorkersOfInit(ups);
    }
  }

  /** The reporting workers get a (possibly new) stored queue; everyone
      else's queue is as it was. */
  lemma {:induction false} RoundStores(stores: map<WorkerId, seq<Point>>, ups: seq<Upload>)
    ensures var p := RoundPools(stores, ups);
      && p.stores.Keys == stores.Keys + WorkersOf(ups)
      && (forall w | w in stores && w !in WorkersOf(ups) :: p.stores[w] == stores[w])
  {
    if ups != [] {
      var init := ups[..|ups| - 1];
      RoundStores(stores, init);
      WorkersOfInit(ups);
    }
  }

  /** Each `work_seen` entry is the keyed form of that worker's new queue,
      and the global pool is keyed by `data`. */
  lemma {:induction false} RoundPoolsKeyed(stores: map<WorkerId, seq<Point>>, ups: seq<Upload>)
    ensures var p := RoundPools(stores, ups);
      && (forall w | w in p.workSeen :: w in p.stores && p.workSeen[w] == KeyedBy(p.stores[w]))
      && KeyedByData(p.globalSeen)
  {
    if ups != [] {
      var init := ups[..|ups| - 1];
      RoundPoolsKeyed(stores, init);
      var u := ups[|ups| - 1];
      var p := RoundPools(stores, init);
      KeyedByMembers(Contribution(Stored(p.stores, u.workerId), u));
    }
  }

  /** The brute-force front of the pool, as the dictionary of pool entries
      under the undominated keys. */
  ghost function FrontOf(gs: map<Coords, Point>): map<Coords, Point> {
    map k | k in BruteFront(gs.Keys) :: gs[k]
  }

  /** The coordinates of a set of points. */
  function DataOf(s: set<Point>): set<Coords> {
    set x | x in s :: x.data
  }

  lemma DataOfSeqSnoc(s: seq<Point>, x: Point)
    ensures DataOfSeq(s + [x]) == DataOfSeq(s) + {x.data}
  {
    assert forall y | y in s + [x] :: y in s || y == x;
  }

  /** The reply for `worker`: `added` are its entries whose key is not in
      the front, `removed` the front entries whose key is not among its
      entries, tagged with the step and the worker. */
  function Reply(step: int, worker: WorkerId, contrib: map<Coords, Point>, front: map<Coords, Point>): Changes {
    Changes(step,
      set k | k in contrib.Keys - front.Keys :: contrib[k],
      set k | k in front.Keys - contrib.Keys :: front[k],
      worker)
  }

  /** What the reply means: applied to the front's keys (drop `removed`,
      add `added`) it gives the worker's own keys; `added` is disjoint from
      the front and `removed` lies in the front outside the worker's keys. */
  lemma ReplyRoundTrip(step: int, worker: WorkerId, contrib: map<Coords, Point>, front: map<Coords, Point>)
    requires KeyedByData(contrib) && KeyedByData(front)
    ensures var r := Reply(step, worker, contrib, front);
      && DataOf(r.added) == contrib.Keys - front.Keys
      && DataOf(r.removed) == front.Keys - contrib.Keys
      && (front.Keys - DataOf(r.removed)) + DataOf(r.added) == contrib.Keys
  {
    var r := Reply(step, worker, contrib, front);
    forall k | k in contrib.Keys - front.Keys ensures k in DataOf(r.added) {
      assert contrib[k] in r.added;
    }
    forall k | k in front.Keys - contrib.Keys ensures k in DataOf(r.removed) {
      assert front[k] in r.removed;
    }
  }

  /** The replies for the workers in `done` that reported this round. */
  function RepliesFor(step: int, ws: map<WorkerId, map<Coords, Point>>, front: map<Coords, Point>, done: set<WorkerId>): map<WorkerId, Changes> {
    map w | w in done && w in ws :: Reply(step, w, ws[w], front)
  }

  lemma RepliesForOneMore(step: int, ws: map<WorkerId, map<Coords, Point>>, front: map<Coords, Point>, done: set<WorkerId>, w: WorkerId, changes: map<WorkerId, Changes>)
    requires w in ws
    ensures (changes + RepliesFor(step, ws, front, done))[w := Reply(step, w, ws[w], front)]
      == changes + RepliesFor(step, ws, front, done + {w})
  {
  }

  /** All keys of one arity: the only pools the global rebuild gets
      through. */
  ghost predicate UniformArity(keys: set<Coords>) {
    forall a, b {:trigger a in keys, b in keys} | a in keys && b in keys :: |a| == |b|
  }

  /** The coordinates of a sequence of points, as a set. */
  function DataOfSeq(s: seq<Point>): set<Coords> {
    set x | x in s :: x.data
  }

  /** Draining the rebuilt front into a `data`-keyed dictionary gives the
      brute-force front of the pool, when the front's keys are the
      brute-force ones and each member is the pool entry under its key. */
  lemma KeyedFrontIsFrontOf(gs: map<Coords, Point>, front: seq<Point>)
    requires DataSet(front) == BruteFront(gs.Keys)
    requires forall x | x in front :: x.data in gs && gs[x.data] == x
    ensures KeyedBy(front) == FrontOf(gs)
  {
    KeyedByMembers(front);
    forall k | k in KeyedBy(front) ensures KeyedBy(front)[k] == gs[k] {
      assert KeyedBy(front)[k] in front;
    }
  }

  /** A rebuild over the pool entries in any order that got through every
      key: the pool has one arity, and the front is the brute-force front,
      an antichain of pool entries. */
  lemma RebuildFinished(gs: map<Coords, Point>, order: seq<Point>)
    requires DataOfSeq(order) == gs.Keys
    requires forall x | x in order :: x.data in gs && gs[x.data] == x
    requires !UpdateAll(order, Engine([], [])).raised
    ensures var sky := UpdateAll(order, Engine([], [])).engine.skyline;
      && UniformArity(gs.Keys)
      && Antichain(sky)
      && DataSet(sky) == BruteFront(gs.Keys)
      && (forall x | x in sky :: x.data in gs && gs[x.data] == x)
  {
    RaisesIffMixedArity(order, []);
    BruteForceFront(order, []);
    UpdateAllConserves(order, Engine([], []));
    var r := UpdateAll(order, Engine([], [])).engine;
    var sky := r.skyline;
    assert multiset(sky) + multiset(r.nonSky) == multiset(order);
    forall x | x in sky ensures x in order {
      assert x in multiset(sky);
      assert x in multiset(order);
    }
    forall a, b | a in gs.Keys && b in gs.Keys ensures |a| == |b| {
      var x :| x in order && x.data == a;
      var y :| y in order && y.data == b;
    }
  }

  /** A rebuild that raised met two pool keys of different arity. */
  lemma RebuildRaised(gs: map<Coords, Point>, order: seq<Point>)
    requires DataOfSeq(order) <= gs.Keys
    requires UpdateAll(order, Engine([], [])).raised
    ensures !UniformArity(gs.Keys)
  {
    RaisesIffMixedArity(order, []);
    var i :| 0 <= i < |order| && |order[i].data| != |order[0].data|;
    assert order[i].data in DataOfSeq(order) && order[0].data in DataOfSeq(order);
  }

  /** The replies kept after a round that got through: the old ones, with
      each reporting worker's delta against the pool's front on top. */
  ghost function RoundReplies(step: int, stores: map<WorkerId, seq<Point>>, ups: seq<Upload>, changes: map<WorkerId, Changes>): map<WorkerId, Changes> {
    var p := RoundPools(stores, ups);
    changes + RepliesFor(step, p.workSeen, FrontOf(p.globalSeen), p.workSeen.Keys)
  }

  /** Whether the global rebuild of a round gets through: exactly when the
      pool it builds has one arity. */
  ghost predicate RoundGoesThrough(stores: map<WorkerId, seq<Point>>, ups: seq<Upload>) {
    UniformArity(RoundPools(stores, ups).globalSeen.Keys)
  }

  /** What one call of `process_skyline` leaves behind: the stored
      queues, whether the rebuild got through, and the replies. */
  datatype RoundResult = RoundResult(stores: map<WorkerId, seq<Point>>, ok: bool, changes: map<WorkerId, Changes>)

  /** The outcome of one call of `process_skyline` on the stored queues,
      the buffered uploads and the replies: the queues always take the
      round's merges; the rebuild gets through exactly when the pool has
      one arity, and only then are the replies replaced. */
  ghost function RoundOutcome(step: int, stores: map<WorkerId, seq<Point>>, ups: seq<Upload>, changes: map<WorkerId, Changes>): RoundResult {
    var ok := RoundGoesThrough(stores, ups);
    RoundResult(RoundPools(stores, ups).stores, ok, if ok then RoundReplies(step, stores, ups, changes) else changes)
  }

  /** Every kept reply is addressed to the worker it is filed under. */
  ghost predicate Tagged(changes: map<WorkerId, Changes>) {
    forall w | w in changes :: changes[w].workerId == w
  }

  /** A round adds stored queues for the reporting workers and replies for
      exactly those workers, each addressed to its worker. */
  lemma RoundFacts(step: int, stores: map<WorkerId, seq<Point>>, ups: seq<Upload>, changes: map<WorkerId, Changes>)
    ensures RoundPools(stores, ups).stores.Keys == stores.Keys + WorkersOf(ups)
    ensures RoundReplies(step, stores, ups, changes).Keys == changes.Keys + WorkersOf(ups)
    ensures Tagged(changes) ==> Tagged(RoundReplies(step, stores, ups, changes))
  {
    RoundWorkSeenKeys(stores, ups);
    RoundStores(stores, ups);
    var p := RoundPools(stores, ups);
    var replies := RepliesFor(step, p.workSeen, FrontOf(p.globalSeen), p.workSeen.Keys);
    var all := RoundReplies(step, stores, ups, changes);
    if Tagged(changes) {
      forall w | w in all ensures all[w].workerId == w {
        if w in replies {
          assert all[w] == Reply(step, w, p.workSeen[w], FrontOf(p.globalSeen));
        }
      }
    }
  }

  /** `k` was offered to the round by some upload: it is the key of a point
      in the uploader's stored queue or in the upload's `added` list. */
  ghost predicate Offered(stores: map<WorkerId, seq<Point>>, ups: seq<Upload>, k: Coords) {
    exists u, x | u in ups && (x in Stored(stores, u.workerId) || x in u.added) :: x.data == k
  }

  /** Every point of a queue `after` is a point of the same worker's queue
      in `stores` or one the worker added in `ups`. */
  ghost predicate QueuesFrom(stores: map<WorkerId, seq<Point>>, ups: seq<Upload>, after: map<WorkerId, seq<Point>>) {
    forall w, x | x in Stored(after, w) ::
      x in Stored(stores, w) || exists u | u in ups :: u.workerId == w && x in u.added
  }

  /** The keys of the stored queues of the workers `ws`. */
  ghost function UnionOfQueues(qs: map<WorkerId, seq<Point>>, ws: set<WorkerId>): set<Coords> {
    set w, x | w in ws && w in qs && x in qs[w] :: x.data
  }

  /** Every worker uploads at most once in `ups`. */
  ghost predicate OncePerWorker(ups: seq<Upload>) {
    forall i, j | 0 <= i < j < |ups| :: ups[i].workerId != ups[j].workerId
  }

  /** Every stored queue after a round is made of the worker's old points
      and the points it added in the round. */
  lemma {:induction false} QueuesFromUploads(stores: map<WorkerId, seq<Point>>, ups: seq<Upload>)
    ensures QueuesFrom(stores, ups, RoundPools(stores, ups).stores)
  {
    if ups != [] {
      var init := ups[..|ups| - 1];
      var u := ups[|ups| - 1];
      QueuesFromUploads(stores, init);
      var p0 := RoundPools(stores, init);
      var p := RoundPools(stores, ups);
      assert p == MergeUpload(p0, u);
      ContributionMembers(Stored(p0.stores, u.workerId), u);
      forall w, x | x in Stored(p.stores, w)
        ensures x in Stored(stores, w) || exists v | v in ups :: v.workerId == w && x in v.added
      {
        if w == u.workerId {
          if x !in u.added {
            assert x in Stored(p0.stores, w);
          }
        } else {
          assert Stored(p.stores, w) == Stored(p0.stores, w);
        }
      }
    }
  }

  /** Only the reporting workers feed the pool: every key of `global_seen`
      comes from an uploader's stored queue or from an upload's `added`
      list. */
  lemma {:induction false} PoolFromUploads(stores: map<WorkerId, seq<Point>>, ups: seq<Upload>)
    ensures forall k | k in RoundPools(stores, ups).globalSeen :: Offered(stores, ups, k)
  {
    if ups != [] {
      var init := ups[..|ups| - 1];
      var u := ups[|ups| - 1];
      PoolFromUploads(stores, init);
      var p0 := RoundPools(stores, init);
      var c := Contribution(Stored(p0.stores, u.workerId), u);
      var p := RoundPools(stores, ups);
      assert p == MergeUpload(p0, u);
      KeyedByMembers(c);
      forall k | k in p.globalSeen ensures Offered(stores, ups, k) {
        if k in p0.globalSeen {
          assert Offered(stores, init, k);
          var v, x :| v in init && (x in Stored(stores, v.workerId) || x in v.added) && x.data == k;
          assert v in ups;
        } else {
          var x :| x in c && x.data == k;
          ContributedOffered(stores, ups, x);
        }
      }
    }
  }

  /** A point of the last upload's contribution was offered by the round. */
  lemma ContributedOffered(stores: map<WorkerId, seq<Point>>, ups: seq<Upload>, x: Point)
    requires ups != []
    requires var u := ups[|ups| - 1];
      x in Contribution(Stored(RoundPools(stores, ups[..|ups| - 1]).stores, u.workerId), u)
    ensures Offered(stores, ups, x.data)
  {
    var init := ups[..|ups| - 1];
    var u := ups[|ups| - 1];
    var p0 := RoundPools(stores, init);
    ContributionMembers(Stored(p0.stores, u.workerId), u);
    assert u in ups;
    if x !in u.added && x !in Stored(stores, u.workerId) {
      QueuesFromUploads(stores, init);
      assert x in Stored(p0.stores, u.workerId);
      var v :| v in init && v.workerId == u.workerId && x in v.added;
      assert v in ups;
    }
  }

  /** Every key of a reporting worker's new queue is in the pool. */
  lemma {:induction false} QueuesInPool(stores: map<WorkerId, seq<Point>>, ups: seq<Upload>)
    ensures var p := RoundPools(stores, ups);
      UnionOfQueues(p.stores, WorkersOf(ups)) <= p.globalSeen.Keys
  {
    if ups != [] {
      var init := ups[..|ups| - 1];
      var u := ups[|ups| - 1];
      QueuesInPool(stores, init);
      WorkersOfInit(ups);
      RoundStores(stores, init);
      var p0 := RoundPools(stores, init);
      var c := Contribution(Stored(p0.stores, u.workerId), u);
      var p := RoundPools(stores, ups);
      assert p == MergeUpload(p0, u);
      KeyedByMembers(c);
      var ws0, ws := WorkersOf(init), WorkersOf(ups);
      forall k | k in UnionOfQueues(p.stores, ws) ensures k in p.globalSeen {
        var w, x :| w in ws && w in p.stores && x in p.stores[w] && x.data == k;
        if w != u.workerId {
          assert w in ws0 && p.stores[w] == p0.stores[w];
          assert k in UnionOfQueues(p0.stores, ws0);
        }
      }
    }
  }

  /** When every worker reports at most once, the pool holds only keys of
      the reporting workers' new queues. */
  lemma {:induction false} PoolInQueues(stores: map<WorkerId, seq<Point>>, ups: seq<Upload>)
    requires OncePerWorker(ups)
    ensures var p := RoundPools(stores, ups);
      p.globalSeen.Keys <= UnionOfQueues(p.stores, WorkersOf(ups))
  {
    if ups != [] {
      var init := ups[..|ups| - 1];
      var u := ups[|ups| - 1];
      assert OncePerWorker(init) by {
        forall i, j | 0 <= i < j < |init| ensures init[i].workerId != init[j].workerId {
          assert init[i] == ups[i] && init[j] == ups[j];
        }
      }
      PoolInQueues(stores, init);
      WorkersOfInit(ups);
      RoundStores(stores, init);
      var p0 := RoundPools(stores, init);
      var c := Contribution(Stored(p0.stores, u.workerId), u);
      var p := RoundPools(stores, ups);
      assert p == MergeUpload(p0, u);
      KeyedByMembers(c);
      var ws0, ws := WorkersOf(init), WorkersOf(ups);
      assert u.workerId !in ws0;
      forall k | k in p.globalSeen ensures k in UnionOfQueues(p.stores, ws) {
        if k in p0.globalSeen {
          assert k in UnionOfQueues(p0.stores, ws0);
          var w, x :| w in ws0 && w in p0.stores && x in p0.stores[w] && x.data == k;
          assert p.stores[w] == p0.stores[w];
        } else {
          var x :| x in c && x.data == k;
          assert p.stores[u.workerId] == c;
        }
      }
    }
  }

  /** The pool holds every key of the reporting workers' new queues, and
      when every worker reports at most once nothing else: it is then the
      union of their contributions. */
  lemma PoolIsUnion(stores: map<WorkerId, seq<Point>>, ups: seq<Upload>)
    ensures var p := RoundPools(stores, ups);
      && UnionOfQueues(p.stores, WorkersOf(ups)) <= p.globalSeen.Keys
      && (OncePerWorker(ups) ==> p.globalSeen.Keys == UnionOfQueues(p.stores, WorkersOf(ups)))
  {
    QueuesInPool(stores, ups);
    if OncePerWorker(ups) {
      PoolInQueues(stores, ups);
    }
  }

  /** When every worker reports once and the rebuild gets through, the
      front each reply is measured against is the brute-force skyline of
      the union of the reporting workers' contributions. */
  lemma ReplyFrontOverUnion(stores: map<WorkerId, seq<Point>>, ups: seq<Upload>)
    requires OncePerWorker(ups)
    ensures var p := RoundPools(stores, ups);
      FrontOf(p.globalSeen).Keys == BruteFront(UnionOfQueues(p.stores, WorkersOf(ups)))
  {
    PoolIsUnion(stores, ups);
    var p := RoundPools(stores, ups);
    assert FrontOf(p.globalSeen).Keys == BruteFront(p.globalSeen.Keys);
  }
}
