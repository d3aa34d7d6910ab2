/**
 The telemetry pipeline end to end: every worker's sampler, buffer and reporter
 (`MetricsCollector` in src/oumigo/service/worker/metrics.py) against the manager's store,
 over a network that may lose a report or only its acknowledgement.
*/
module Pipeline {
  import opened MetricsBuffers
  import opened MetricStores

  /** One worker. `sampled`, `acked` and `evicted` are its history. */
  datatype Collector = Collector(
    buffer: seq<Row>,
    inFlight: seq<Row>,   // the batch a report attempt is sending; [] when there is none
    acked: seq<Row>,
    evicted: seq<Row>,
    sampled: seq<Row>)

  datatype Sys = Sys(
    capacity: int,
    chunk: int,
    workers: map<string, Collector>,
    table: Table,
    cutoff: int,          // the store's latest pruning bound
    delivered: set<Row>)  // rows that reached the store at least once

  datatype Outcome =
    | Lost                       // never reached the manager; the sender sees an error
    | DeliveredUnacked           // ingested, but the sender sees an error
    | DeliveredAcked

  datatype Event =
    | Sample(node: string, epoch: int, metrics: seq<(string, real)>)
    | Drain(node: string)
    | Report(node: string, outcome: Outcome, cutoff: int)

  function RowsOf(node: string, epoch: int, metrics: seq<(string, real)>): (rows: seq<Row>)
    ensures |rows| == |metrics|
    ensures forall i | 0 <= i < |rows| :: rows[i] == Row(node, epoch, metrics[i].0, metrics[i].1)
  {
    seq(|metrics|, i requires 0 <= i < |metrics| => Row(node, epoch, metrics[i].0, metrics[i].1))
  }

  function PointsOf(rows: seq<Row>): (ps: seq<Point>)
    ensures |ps| == |rows|
    ensures forall i | 0 <= i < |rows| :: ps[i] == Point(rows[i].metric, rows[i].epoch, rows[i].value)
  {
    seq(|rows|, i requires 0 <= i < |rows| => Point(rows[i].metric, rows[i].epoch, rows[i].value))
  }

  function RowKey(r: Row): Key {
    Key(r.node, r.metric, r.epoch)
  }

  function Worker(s: Sys, node: string): Collector {
    if node in s.workers then s.workers[node] else Collector([], [], [], [], [])
  }

  ghost function Rows(rows: seq<Row>): set<Row> {
    set r | r in rows
  }

  /** Keep what fits; what does not is evicted for good. */
  function Settle(s: Sys, c: Collector, rows: seq<Row>): Collector {
    c.(buffer := Evicted(rows, s.capacity, s.chunk), evicted := c.evicted + Dropped(rows, s.capacity, s.chunk))
  }

  /** The sampler adds one slot's rows. */
  function Appended(s: Sys, c: Collector, rows: seq<Row>): Collector {
    Settle(s, c, c.buffer + rows).(sampled := c.sampled + rows)
  }

  /** The sampler stamps slots in increasing order, one row per metric; the reporter has at
      most one batch in flight; the manager's clock does not go back. */
  ghost predicate Enabled(s: Sys, e: Event) {
    match e
    case Sample(node, epoch, metrics) =>
      && (forall r | r in Worker(s, node).sampled :: r.epoch < epoch)
      && (forall i, j | 0 <= i < j < |metrics| :: metrics[i].0 != metrics[j].0)
    case Drain(node) => Worker(s, node).inFlight == []
    case Report(node, _, cutoff) => Worker(s, node).inFlight != [] && s.cutoff <= cutoff
  }

  ghost function Next(s: Sys, e: Event): Sys
    requires Enabled(s, e)
  {
    var c := Worker(s, e.node);
    match e
    case Sample(node, epoch, metrics) =>
      var rows := RowsOf(node, epoch, metrics);
      s.(workers := s.workers[node := Appended(s, c, rows)])
    case Drain(node) =>
      s.(workers := s.workers[node := c.(buffer := [], inFlight := c.buffer)])
    case Report(node, outcome, cutoff) =>
      var s' := if outcome.Lost? then s else
        s.(table := Ingested(s.table, node, PointsOf(c.inFlight), cutoff), cutoff := cutoff,
           delivered := s.delivered + Rows(c.inFlight));
      var c' := if outcome.DeliveredAcked? then c.(acked := c.acked + c.inFlight, inFlight := [])
                else Settle(s, c, c.inFlight + c.buffer).(inFlight := []);
      s'.(workers := s.workers[node := c'])
  }

  // ---------- invariants ----------

  /** Sampled rows are distinct points of one node, in slot order. */
  ghost predicate HistoryOk(node: string, sampled: seq<Row>) {
    && Sorted(sampled)
    && (forall r | r in sampled :: r.node == node)
    && (forall i, j | 0 <= i < j < |sampled| :: RowKey(sampled[i]) != RowKey(sampled[j]))
  }

  ghost function Count(rows: seq<Row>, r: Row): nat {
    multiset(rows)[r]
  }

  /** CONSERVATION: the four places partition what was sampled. */
  ghost predicate Partitioned(c: Collector) {
    forall r :: Count(c.buffer, r) + Count(c.inFlight, r) + Count(c.acked, r) + Count(c.evicted, r) == Count(c.sampled, r)
  }

  /** What waits is in slot order, the in-flight batch first, and fits the buffer. */
  ghost predicate BufferOk(s: Sys, c: Collector) {
    Sorted(c.inFlight + c.buffer) && (c.buffer != [] ==> Span(c.buffer) < s.capacity)
  }

  ghost predicate CollectorOk(s: Sys, node: string, c: Collector) {
    HistoryOk(node, c.sampled) && Partitioned(c) && BufferOk(s, c)
  }

  /** The store holds exactly the rows delivered at least once and not yet too old, with
      their sampled values. */
  ghost predicate TableExact(table: Table, delivered: set<Row>, cutoff: int) {
    && (forall r | r in delivered && r.epoch >= cutoff :: RowKey(r) in table && table[RowKey(r)] == r.value)
    && (forall k | k in table :: k.time >= cutoff && exists r :: r in delivered && RowKey(r) == k)
  }

  ghost predicate DeliveredOk(s: Sys) {
    && (forall r | r in s.delivered :: r in Worker(s, r.node).sampled)
    && (forall n, r | n in s.workers && r in s.workers[n].acked :: r in s.delivered)
  }

  ghost predicate Inv(s: Sys) {
    && 0 < s.chunk <= s.capacity
    && (forall n | n in s.workers :: CollectorOk(s, n, s.workers[n]))
    && DeliveredOk(s) && TableExact(s.table, s.delivered, s.cutoff)
  }

  // ---------- rows, sorted and distinct ----------

  lemma MembersByMultiset(c: Collector, r: Row)
    requires Partitioned(c)
    ensures r in c.sampled <==> r in c.buffer || r in c.inFlight || r in c.acked || r in c.evicted
  {
    assert Count(c.buffer, r) + Count(c.inFlight, r) + Count(c.acked, r) + Count(c.evicted, r) == Count(c.sampled, r);
  }

  /** Rows of one history with the same key are the same row. */
  lemma KeyDetermines(node: string, sampled: seq<Row>, a: Row, b: Row)
    requires HistoryOk(node, sampled) && a in sampled && b in sampled && RowKey(a) == RowKey(b)
    ensures a == b
  {
    var i :| 0 <= i < |sampled| && sampled[i] == a;
    var j :| 0 <= j < |sampled| && sampled[j] == b;
  }

  lemma SortedSplice(a: seq<Row>, b: seq<Row>, k: nat)
    requires Sorted(a + b) && k <= |b|
    ensures Sorted(a + b[k..])
  {
    var d := a + b[k..];
    forall i, j | 0 <= i < j < |d| ensures d[i].epoch <= d[j].epoch {
      assert d[i] == (a + b)[if i < |a| then i else i + k];
      assert d[j] == (a + b)[if j < |a| then j else j + k];
    }
  }

  lemma SortedExtend(a: seq<Row>, b: seq<Row>, epoch: int)
    requires Sorted(a) && forall r | r in a :: r.epoch < epoch
    requires forall r | r in b :: r.epoch == epoch
    ensures Sorted(a + b)
  {
    var d := a + b;
    forall i, j | 0 <= i < j < |d| ensures d[i].epoch <= d[j].epoch {
      assert i < |a| ==> d[i] == a[i] && a[i] in a;
      assert i >= |a| ==> d[i] == b[i - |a|] && b[i - |a|] in b;
      assert j >= |a| ==> d[j] == b[j - |a|] && b[j - |a|] in b;
    }
  }

  lemma CountConcat(a: seq<Row>, b: seq<Row>)
    ensures forall r :: Count(a + b, r) == Count(a, r) + Count(b, r)
  {
    assert multiset(a + b) == multiset(a) + multiset(b);
  }

  /** Settling `rows` moves rows between buffer and evicted only. */
  lemma SettlePartitions(s: Sys, c: Collector, rows: seq<Row>)
    ensures var c' := Settle(s, c, rows);
      forall r :: Count(c'.buffer, r) + Count(c'.evicted, r) == Count(rows, r) + Count(c.evicted, r)
  {
    var c' := Settle(s, c, rows);
    var d := Dropped(rows, s.capacity, s.chunk);
    assert rows == d + c'.buffer;
    CountConcat(d, c'.buffer);
    CountConcat(c.evicted, d);
  }

  lemma SuffixSorted(front: seq<Row>, rows: seq<Row>)
    requires Sorted(front + rows)
    ensures Sorted(rows)
  {
    forall i, j | 0 <= i < j < |rows| ensures rows[i].epoch <= rows[j].epoch {
      assert rows[i] == (front + rows)[|front| + i] && rows[j] == (front + rows)[|front| + j];
    }
  }

  lemma SettleFits(s: Sys, c: Collector, front: seq<Row>, rows: seq<Row>)
    requires 0 < s.chunk <= s.capacity && Sorted(front + rows)
    ensures var c' := Settle(s, c, rows);
      Sorted(front + c'.buffer) && (c'.buffer != [] ==> Span(c'.buffer) < s.capacity)
  {
    SuffixSorted(front, rows);
    SortedSplice(front, rows, Drops(rows, s.capacity, s.chunk));
    if rows != [] {
      EvictionKeepsRecent(rows, s.capacity, s.chunk);
    }
  }

  // ---------- steps ----------

  lemma SampleKeepsHistory(node: string, sampled: seq<Row>, epoch: int, metrics: seq<(string, real)>)
    requires HistoryOk(node, sampled) && forall r | r in sampled :: r.epoch < epoch
    requires forall i, j | 0 <= i < j < |metrics| :: metrics[i].0 != metrics[j].0
    ensures HistoryOk(node, sampled + RowsOf(node, epoch, metrics))
  {
    var rows := RowsOf(node, epoch, metrics);
    SortedExtend(sampled, rows, epoch);
    var all := sampled + rows;
    forall i, j | 0 <= i < j < |all| ensures RowKey(all[i]) != RowKey(all[j]) {
      assert i < |sampled| ==> all[i] == sampled[i] && sampled[i] in sampled;
      assert j >= |sampled| ==> all[j] == rows[j - |sampled|];
      assert i >= |sampled| ==> all[i] == rows[i - |sampled|];
    }
  }

  lemma SampleKeepsOrder(c: Collector, rows: seq<Row>, epoch: int)
    requires Partitioned(c) && Sorted(c.inFlight + c.buffer)
    requires forall r | r in c.sampled :: r.epoch < epoch
    requires forall r | r in rows :: r.epoch == epoch
    ensures Sorted(c.inFlight + (c.buffer + rows))
  {
    forall r | r in c.inFlight + c.buffer ensures r.epoch < epoch {
      MembersByMultiset(c, r);
    }
    SortedExtend(c.inFlight + c.buffer, rows, epoch);
    assert c.inFlight + c.buffer + rows == c.inFlight + (c.buffer + rows);
  }

  lemma SampleKeepsCollector(s: Sys, node: string, c: Collector, epoch: int, metrics: seq<(string, real)>)
    requires 0 < s.chunk <= s.capacity && CollectorOk(s, node, c)
    requires forall r | r in c.sampled :: r.epoch < epoch
    requires forall i, j | 0 <= i < j < |metrics| :: metrics[i].0 != metrics[j].0
    ensures CollectorOk(s, node, Appended(s, c, RowsOf(node, epoch, metrics)))
  {
    var rows := RowsOf(node, epoch, metrics);
    SampleKeepsHistory(node, c.sampled, epoch, metrics);
    SampleKeepsOrder(c, rows, epoch);
    CountConcat(c.buffer, rows);
    CountConcat(c.sampled, rows);
    SettlePartitions(s, c, c.buffer + rows);
    SettleFits(s, c, c.inFlight, c.buffer + rows);
  }

  lemma DrainKeepsCollector(s: Sys, node: string, c: Collector)
    requires c.inFlight == [] && CollectorOk(s, node, c)
    ensures CollectorOk(s, node, c.(buffer := [], inFlight := c.buffer))
  {
    assert c.inFlight + c.buffer == c.buffer == c.buffer + [];
  }

  lemma AckKeepsCollector(s: Sys, node: string, c: Collector)
    requires CollectorOk(s, node, c)
    ensures CollectorOk(s, node, c.(acked := c.acked + c.inFlight, inFlight := []))
  {
    SuffixSorted(c.inFlight, c.buffer);
    CountConcat(c.acked, c.inFlight);
    assert [] + c.buffer == c.buffer;
  }

  lemma RestoreKeepsCollector(s: Sys, node: string, c: Collector)
    requires 0 < s.chunk <= s.capacity && CollectorOk(s, node, c)
    ensures CollectorOk(s, node, Settle(s, c, c.inFlight + c.buffer).(inFlight := []))
  {
    assert [] + (c.inFlight + c.buffer) == c.inFlight + c.buffer;
    CountConcat(c.inFlight, c.buffer);
    SettlePartitions(s, c, c.inFlight + c.buffer);
    SettleFits(s, c, [], c.inFlight + c.buffer);
  }

  // ---------- the store ----------

  /** No two delivered rows share a key. */
  lemma DeliveredKeys(s: Sys, a: Row, b: Row)
    requires Inv(s) && RowKey(a) == RowKey(b)
    requires a in Worker(s, a.node).sampled && b in Worker(s, b.node).sampled
    ensures a == b
  {
    KeyDetermines(a.node, Worker(s, a.node).sampled, a, b);
  }

  lemma BatchWasSampled(s: Sys, node: string, r: Row)
    requires Inv(s) && r in Worker(s, node).inFlight
    ensures r.node == node && r in Worker(s, node).sampled
  {
    MembersByMultiset(Worker(s, node), r);
  }

  /** What the store says about one key after a batch arrived. */
  lemma IngestAt(s: Sys, node: string, cutoff: int, k: Key)
    requires Inv(s) && s.cutoff <= cutoff
    ensures var batch := Worker(s, node).inFlight;
      var t := Ingested(s.table, node, PointsOf(batch), cutoff);
      var all := s.delivered + Rows(batch);
      && (k in t ==> k.time >= cutoff && exists r :: r in all && RowKey(r) == k)
      && (forall r | r in all && RowKey(r) == k && r.epoch >= cutoff :: k in t && t[k] == r.value)
  {
    var batch := Worker(s, node).inFlight;
    var points := PointsOf(batch);
    var t := Ingested(s.table, node, points, cutoff);
    UpsertAt(s.table, node, points, k);
    forall i | 0 <= i < |batch| ensures RowKey(batch[i]) == KeyOf(node, points[i]) && batch[i] in Worker(s, node).sampled {
      BatchWasSampled(s, node, batch[i]);
    }
    if exists i | 0 <= i < |batch| :: KeyOf(node, points[i]) == k {
      var i :| 0 <= i < |points| && KeyOf(node, points[i]) == k && Upsert(s.table, node, points)[k] == points[i].value
        && forall j | i < j < |points| :: KeyOf(node, points[j]) != k;
      assert RowKey(batch[i]) == k && batch[i] in Rows(batch);
      forall r | r in s.delivered + Rows(batch) && RowKey(r) == k ensures r == batch[i] {
        assert r in Worker(s, node).sampled by {
          if r in Rows(batch) {
            BatchWasSampled(s, node, r);
          }
        }
        DeliveredKeys(s, r, batch[i]);
      }
    } else {
      forall r | r in Rows(batch) ensures RowKey(r) != k {
        var i :| 0 <= i < |batch| && batch[i] == r;
        assert KeyOf(node, points[i]) != k;
      }
    }
  }

  lemma DeliveryKeepsTable(s: Sys, node: string, cutoff: int, s': Sys)
    requires Inv(s) && s.cutoff <= cutoff
    requires s'.cutoff == cutoff && s'.delivered == s.delivered + Rows(Worker(s, node).inFlight)
    requires s'.table == Ingested(s.table, node, PointsOf(Worker(s, node).inFlight), cutoff)
    ensures TableExact(s'.table, s'.delivered, s'.cutoff)
  {
    forall r | r in s'.delivered && r.epoch >= cutoff
      ensures RowKey(r) in s'.table && s'.table[RowKey(r)] == r.value
    {
      IngestAt(s, node, cutoff, RowKey(r));
    }
    forall k | k in s'.table ensures k.time >= cutoff && exists r :: r in s'.delivered && RowKey(r) == k {
      IngestAt(s, node, cutoff, k);
    }
  }

  /** Changing one worker leaves the others, and what was delivered, as they were. */
  lemma OthersKeep(s: Sys, s': Sys, node: string, c': Collector)
    requires Inv(s) && s'.capacity == s.capacity && s'.chunk == s.chunk
    requires s'.workers == s.workers[node := c'] && CollectorOk(s, node, c')
    requires forall r | r in Worker(s, node).sampled :: r in c'.sampled
    requires s'.delivered == s.delivered || s'.delivered == s.delivered + Rows(Worker(s, node).inFlight)
    requires forall r | r in c'.acked :: r in s'.delivered
    requires TableExact(s'.table, s'.delivered, s'.cutoff)
    ensures Inv(s')
  {
    forall n | n in s'.workers ensures CollectorOk(s', n, s'.workers[n]) {
      if n != node {
        assert CollectorOk(s, n, s.workers[n]);
      }
    }
    forall r | r in s'.delivered ensures r in Worker(s', r.node).sampled {
      if r !in s.delivered {
        BatchWasSampled(s, node, r);
      }
    }
  }

  lemma WorkerOk(s: Sys, node: string)
    requires Inv(s)
    ensures CollectorOk(s, node, Worker(s, node))
  {
  }

  lemma SampleKeeps(s: Sys, node: string, epoch: int, metrics: seq<(string, real)>)
    requires Inv(s) && Enabled(s, Sample(node, epoch, metrics))
    ensures Inv(Next(s, Sample(node, epoch, metrics)))
  {
    var c := Worker(s, node);
    WorkerOk(s, node);
    SampleKeepsCollector(s, node, c, epoch, metrics);
    var c' := Appended(s, c, RowsOf(node, epoch, metrics));
    AckedDelivered(s, node);
    OthersKeep(s, s.(workers := s.workers[node := c']), node, c');
  }

  lemma AckedDelivered(s: Sys, node: string)
    requires Inv(s)
    ensures forall r | r in Worker(s, node).acked :: r in s.delivered
  {
  }

  lemma ReportKeeps(s: Sys, node: string, outcome: Outcome, cutoff: int)
    requires Inv(s) && Enabled(s, Report(node, outcome, cutoff))
    ensures Inv(Next(s, Report(node, outcome, cutoff)))
  {
    var s', c := Next(s, Report(node, outcome, cutoff)), Worker(s, node);
    WorkerOk(s, node);
    AckKeepsCollector(s, node, c);
    RestoreKeepsCollector(s, node, c);
    assert TableExact(s'.table, s'.delivered, s'.cutoff) by {
      if !outcome.Lost? {
        DeliveryKeepsTable(s, node, cutoff, s');
      }
    }
    OthersKeep(s, s', node, s'.workers[node]);
  }

  lemma StepKeeps(s: Sys, e: Event)
    requires Inv(s) && Enabled(s, e)
    ensures Inv(Next(s, e))
  {
    match e
    case Sample(node, epoch, metrics) => SampleKeeps(s, node, epoch, metrics);
    case Drain(node) =>
      WorkerOk(s, node);
      DrainKeepsCollector(s, node, Worker(s, node));
      OthersKeep(s, Next(s, e), node, Next(s, e).workers[node]);
    case Report(node, outcome, cutoff) => ReportKeeps(s, node, outcome, cutoff);
  }

  // ---------- whole runs ----------

  function Init(capacity: int, chunk: int): Sys {
    Sys(capacity, chunk, map[], map[], 0, {})
  }

  ghost predicate Legal(capacity: int, chunk: int, es: seq<Event>)
    decreases |es|, 0
  {
    es == [] || (Legal(capacity, chunk, es[..|es| - 1]) && Enabled(Run(capacity, chunk, es[..|es| - 1]), es[|es| - 1]))
  }

  ghost function Run(capacity: int, chunk: int, es: seq<Event>): Sys
    requires Legal(capacity, chunk, es)
    decreases |es|, 1
  {
    if es == [] then Init(capacity, chunk) else Next(Run(capacity, chunk, es[..|es| - 1]), es[|es| - 1])
  }

  lemma {:induction false} RunKeeps(capacity: int, chunk: int, es: seq<Event>)
    requires 0 < chunk <= capacity && Legal(capacity, chunk, es)
    ensures Inv(Run(capacity, chunk, es))
  {
    if es != [] {
      RunKeeps(capacity, chunk, es[..|es| - 1]);
      StepKeeps(Run(capacity, chunk, es[..|es| - 1]), es[|es| - 1]);
    }
  }

  /** EXACTLY ONE PLACE: in every run, a sampled row is in exactly one of buffered, in
      flight, acknowledged and evicted, and occurs there once. */
  lemma EveryRowInOnePlace(capacity: int, chunk: int, es: seq<Event>, node: string, r: Row)
    requires 0 < chunk <= capacity && Legal(capacity, chunk, es)
    ensures var c := Worker(Run(capacity, chunk, es), node);
      Count(c.buffer, r) + Count(c.inFlight, r) + Count(c.acked, r) + Count(c.evicted, r)
        == if r in c.sampled then 1 else 0
  {
    RunKeeps(capacity, chunk, es);
    var c := Worker(Run(capacity, chunk, es), node);
    if node in Run(capacity, chunk, es).workers {
      assert Count(c.buffer, r) + Count(c.inFlight, r) + Count(c.acked, r) + Count(c.evicted, r) == Count(c.sampled, r);
      DistinctCount(c.sampled, r);
    }
  }

  lemma {:induction false} DistinctCount(rows: seq<Row>, r: Row)
    requires forall i, j | 0 <= i < j < |rows| :: rows[i] != rows[j]
    ensures Count(rows, r) == if r in rows then 1 else 0
  {
    if rows != [] {
      DistinctCount(rows[1..], r);
      assert rows == [rows[0]] + rows[1..];
      CountConcat([rows[0]], rows[1..]);
    }
  }

  /** EXACTLY-ONCE EFFECT: in every run, however often batches were lost, delivered or
      delivered again, the table holds a sampled value for exactly the keys of rows
      delivered at least once that are not older than the last pruning. */
  lemma StoreHoldsDelivered(capacity: int, chunk: int, es: seq<Event>, k: Key)
    requires 0 < chunk <= capacity && Legal(capacity, chunk, es)
    ensures var s := Run(capacity, chunk, es);
      && (k in s.table <==> exists r :: r in s.delivered && RowKey(r) == k && r.epoch >= s.cutoff)
      && (forall r | r in s.delivered && RowKey(r) == k && k in s.table ::
            r in Worker(s, r.node).sampled && s.table[k] == r.value)
  {
    RunKeeps(capacity, chunk, es);
    var s := Run(capacity, chunk, es);
    assert TableExact(s.table, s.delivered, s.cutoff);
    if k in s.table {
      var r :| r in s.delivered && RowKey(r) == k;
    }
  }

  /** NOTHING IS LOST SILENTLY: a sampled row that is neither waiting nor evicted is in the
      store with its value, unless it outlived the store's window. */
  lemma NothingVanishes(capacity: int, chunk: int, es: seq<Event>, node: string, r: Row)
    requires 0 < chunk <= capacity && Legal(capacity, chunk, es)
    requires r in Worker(Run(capacity, chunk, es), node).sampled
    ensures var s := Run(capacity, chunk, es);
      var c := Worker(s, node);
      || r in c.buffer || r in c.inFlight || r in c.evicted
      || r.epoch < s.cutoff
      || (RowKey(r) in s.table && s.table[RowKey(r)] == r.value)
  {
    RunKeeps(capacity, chunk, es);
    MembersByMultiset(Worker(Run(capacity, chunk, es), node), r);
  }

  /** The buffer of every worker in every run: in slot order, span below capacity. */
  lemma BufferBounded(capacity: int, chunk: int, es: seq<Event>, node: string)
    requires 0 < chunk <= capacity && Legal(capacity, chunk, es)
    ensures var c := Worker(Run(capacity, chunk, es), node);
      Sorted(c.inFlight + c.buffer) && (c.buffer != [] ==> Span(c.buffer) < capacity)
  {
    RunKeeps(capacity, chunk, es);
    assert Run(capacity, chunk, es).capacity == capacity by {
      CapacityConstant(capacity, chunk, es);
    }
  }

  lemma {:induction false} CapacityConstant(capacity: int, chunk: int, es: seq<Event>)
    requires Legal(capacity, chunk, es)
    ensures Run(capacity, chunk, es).capacity == capacity && Run(capacity, chunk, es).chunk == chunk
  {
    if es != [] {
      CapacityConstant(capacity, chunk, es[..|es| - 1]);
    }
  }

  // ---------- one report attempt, as the objects make it ----------

  type Slot = (int, seq<(string, real)>)

  /** The sampler's slots, one after the other. */
  ghost predicate CanSample(s: Sys, node: string, slots: seq<Slot>)
    decreases |slots|, 0
  {
    slots == []
    || (var n := |slots| - 1;
        CanSample(s, node, slots[..n]) && Enabled(Sampled(s, node, slots[..n]), Sample(node, slots[n].0, slots[n].1)))
  }

  ghost function Sampled(s: Sys, node: string, slots: seq<Slot>): Sys
    requires CanSample(s, node, slots)
    decreases |slots|, 1
  {
    if slots == [] then s
    else
      var n := |slots| - 1;
      Next(Sampled(s, node, slots[..n]), Sample(node, slots[n].0, slots[n].1))
  }

  function SlotRows(node: string, slots: seq<Slot>): (rows: seq<seq<Row>>)
    ensures |rows| == |slots|
  {
    seq(|slots|, i requires 0 <= i < |slots| => RowsOf(node, slots[i].0, slots[i].1))
  }

  lemma {:induction false} SampledBuffer(s: Sys, node: string, slots: seq<Slot>)
    requires CanSample(s, node, slots) && Worker(s, node).buffer == []
    ensures var s', rows := Sampled(s, node, slots), SlotRows(node, slots);
      && Worker(s', node).buffer == AppendedAll([], rows, s.capacity, s.chunk)
      && Worker(s', node).inFlight == Worker(s, node).inFlight
      && s'.table == s.table && s'.cutoff == s.cutoff && s'.capacity == s.capacity && s'.chunk == s.chunk
  {
    if slots != [] {
      var n := |slots| - 1;
      SampledBuffer(s, node, slots[..n]);
      assert SlotRows(node, slots)[..n] == SlotRows(node, slots[..n]);
    }
  }

  lemma DrainLeaves(s: Sys, node: string)
    requires Enabled(s, Drain(node))
    ensures var s' := Next(s, Drain(node));
      && Worker(s', node).buffer == [] && Worker(s', node).inFlight == Worker(s, node).buffer
      && s'.table == s.table && s'.cutoff == s.cutoff && s'.capacity == s.capacity && s'.chunk == s.chunk
  {
  }

  lemma ReportLeaves(s: Sys, node: string, outcome: Outcome, cutoff: int)
    requires Enabled(s, Report(node, outcome, cutoff))
    ensures var c, s' := Worker(s, node), Next(s, Report(node, outcome, cutoff));
      && Worker(s', node).buffer
         == (if outcome.DeliveredAcked? then c.buffer else Evicted(c.inFlight + c.buffer, s.capacity, s.chunk))
      && s'.table == if outcome.Lost? then s.table else Ingested(s.table, node, PointsOf(c.inFlight), cutoff)
  {
  }

  /** One report attempt: drain, sample what comes meanwhile, and report what was drained. */
  ghost predicate CanFlush(s: Sys, node: string, slots: seq<Slot>, cutoff: int) {
    Enabled(s, Drain(node)) && CanSample(Next(s, Drain(node)), node, slots) && s.cutoff <= cutoff
  }

  ghost function Flushed(s: Sys, node: string, slots: seq<Slot>, outcome: Outcome, cutoff: int): Sys
    requires CanFlush(s, node, slots, cutoff)
  {
    var s2 := Sampled(Next(s, Drain(node)), node, slots);
    if Enabled(s2, Report(node, outcome, cutoff)) then Next(s2, Report(node, outcome, cutoff)) else s2
  }

  /** ONE REPORT ATTEMPT leaves in the runs exactly what the objects' methods do, `FlushOnce` in
      the worker's buffer and `Ingest` in the store: with nothing drained there is no report,
      and a batch goes back in front of what was sampled meanwhile unless it is acknowledged. */
  lemma FlushLeaves(s: Sys, node: string, slots: seq<Slot>, outcome: Outcome, cutoff: int)
    requires CanFlush(s, node, slots, cutoff)
    ensures var batch, s' := Worker(s, node).buffer, Flushed(s, node, slots, outcome, cutoff);
      var sampled := AppendedAll([], SlotRows(node, slots), s.capacity, s.chunk);
      && Worker(s', node).buffer
         == (if batch != [] && !outcome.DeliveredAcked? then Evicted(batch + sampled, s.capacity, s.chunk) else sampled)
      && s'.table == if batch == [] || outcome.Lost? then s.table else Ingested(s.table, node, PointsOf(batch), cutoff)
  {
    DrainLeaves(s, node);
    var s1 := Next(s, Drain(node));
    SampledBuffer(s1, node, slots);
    var s2 := Sampled(s1, node, slots);
    if Enabled(s2, Report(node, outcome, cutoff)) {
      ReportLeaves(s2, node, outcome, cutoff);
    }
  }
}
