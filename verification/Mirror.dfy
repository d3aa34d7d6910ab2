/**
 The dashboard's mirror of the metric store (`MetricMirror` in
 src/oumigo/service/manager/dashboard/source.py) and the store query it pulls with
 (`MetricStore.since` in src/oumigo/service/manager/control/store.py).

 Times are integer seconds: the fixed-width UTC strings both sides compare are a rendering
 of them. The empty watermark string is None.
*/
module Mirror {
  import opened Prelude
  import opened MetricStores

  function Lower(c: char): char {
    if 'A' <= c <= 'Z' then ((c as int) + 32) as char else c
  }

  /** SQLite's `LIKE 'prefix%'`, for a prefix without wildcards: ASCII case is ignored. */
  predicate Like(prefix: string, metric: string) {
    |prefix| <= |metric| && forall i | 0 <= i < |prefix| :: Lower(prefix[i]) == Lower(metric[i])
  }

  /** Letters count alike in both cases, all other characters as they are. */
  lemma LikeIgnoresCase(prefix: string, metric: string)
    ensures Like(prefix, metric) <==>
      |prefix| <= |metric| && forall i | 0 <= i < |prefix| ::
        || prefix[i] == metric[i]
        || ('A' <= prefix[i] <= 'Z' && metric[i] as int == prefix[i] as int + 32)
        || ('A' <= metric[i] <= 'Z' && prefix[i] as int == metric[i] as int + 32)
  {
  }

  predicate Pulled(prefixes: seq<string>, metric: string) {
    prefixes == [] || exists i | 0 <= i < |prefixes| :: Like(prefixes[i], metric)
  }

  /** What `since` selects. */
  function Since(t: Table, after: int, prefixes: seq<string>): Table {
    map k | k in t && k.time > after && Pulled(prefixes, k.metric) :: t[k]
  }

  /** A result set lists a table: every row once or more, nothing else. */
  ghost predicate Lists(points: seq<(Key, real)>, t: Table) {
    && (forall p | p in points :: p.0 in t && t[p.0] == p.1)
    && (forall k | k in t :: (k, t[k]) in points)
  }

  function Latest(mark: Option<int>, time: int): Option<int> {
    if mark.None? || time > mark.value then Some(time) else mark
  }

  /** The watermark after seeing every row of `t`. */
  ghost predicate IsWatermark(old_: Option<int>, t: Table, mark: Option<int>) {
    && (mark.None? <==> old_.None? && t == map[])
    && (mark.Some? && old_.Some? ==> old_.value <= mark.value)
    && (mark.Some? ==> forall k | k in t :: k.time <= mark.value)
    && (mark == old_ || exists k :: k in t && mark == Some(k.time))
  }

  /** What the control plane answered a pull with. */
  datatype Answer = Failed(error: string) | Points(points: seq<(Key, real)>)

  /** A worker's number and name, for the chart. */
  type Info = (int, string)

  class MetricMirror {
    const prefixes: seq<string>
    const retention: int
    const overlap: int
    var rows: Table
    var watermark: Option<int>
    var nodeInfo: map<string, Info>
    var lastOk: Option<int>
    var lastError: Option<string>

    constructor (prefixes: seq<string>, retention: int, overlap: int)
      ensures rows == map[] && watermark == None && nodeInfo == map[] && lastOk == None && lastError == None
      ensures this.prefixes == prefixes && this.retention == retention && this.overlap == overlap
    {
      this.prefixes, this.retention, this.overlap := prefixes, retention, overlap;
      rows, watermark, nodeInfo, lastOk, lastError := map[], None, map[], None, None;
    }

    /** The bound of the next pull: watermark minus overlap, or the window's start. */
    function After(now: int): int
      reads this
    {
      match watermark
      case None => now - retention
      case Some(w) => w - overlap
    }

    /** Ask for what is newer than the watermark minus the overlap, or, before there is a
        watermark, than the window's start; merge it, advance the watermark, prune, and
        refresh the names when they can be had. A failed pull changes nothing but the error
        shown. `t` is what the control plane selected. */
    method Refresh(since: (int, seq<string>) -> Answer, names: Option<map<string, Info>>, ghost t: Table, now: int)
      requires since(After(now), prefixes).Points? ==> Lists(since(After(now), prefixes).points, t)
      modifies this
      ensures var bound := if old(watermark).Some? then old(watermark).value - overlap else now - retention;
        match since(bound, prefixes)
        case Failed(error) =>
          && rows == old(rows) && watermark == old(watermark) && nodeInfo == old(nodeInfo)
          && lastOk == old(lastOk) && lastError == Some(error)
        case Points(_) =>
          && rows == Prune(old(rows) + t, now - retention) && IsWatermark(old(watermark), t, watermark)
          && nodeInfo == names.GetOr(old(nodeInfo)) && lastOk == Some(now) && lastError == None
    {
      var pull := since(After(now), prefixes);
      if pull.Failed? {
        lastError := Some(pull.error);
        return;
      }
      MergePoints(pull.points, t);
      rows := map k | k in rows && k.time >= now - retention :: rows[k];
      if names.Some? {
        nodeInfo := names.value;
      }
      lastOk, lastError := Some(now), None;
    }

    /** The loop over a pull's points. */
    method MergePoints(points: seq<(Key, real)>, ghost t: Table)
      requires Lists(points, t)
      modifies this`rows, this`watermark
      ensures rows == old(rows) + t && IsWatermark(old(watermark), t, watermark)
    {
      for i := 0 to |points|
        invariant forall k | k in rows :: k in old(rows) || k in t
        invariant forall k | k in old(rows) :: k in rows
        invariant forall k | k in rows :: (k in t && rows[k] == t[k]) || (k in old(rows) && rows[k] == old(rows)[k])
        invariant forall j | 0 <= j < i :: points[j].0 in rows && rows[points[j].0] == t[points[j].0]
        invariant forall j | 0 <= j < i :: watermark.Some? && points[j].0.time <= watermark.value
        invariant old(watermark).Some? ==> watermark.Some? && old(watermark).value <= watermark.value
        invariant watermark == old(watermark) || exists j | 0 <= j < i :: watermark == Some(points[j].0.time)
      {
        assert points[i] in points;
        rows := rows[points[i].0 := points[i].1];
        watermark := Latest(watermark, points[i].0.time);
      }
      forall k | k in t ensures k in rows && rows[k] == t[k] && watermark.Some? && k.time <= watermark.value {
        assert (k, t[k]) in points;
        var j :| 0 <= j < |points| && points[j] == (k, t[k]);
      }
      if watermark != old(watermark) {
        var j :| 0 <= j < |points| && watermark == Some(points[j].0.time);
        assert points[j] in points;
        assert points[j].0 in t;
      }
      assert rows == old(rows) + t;
    }
  }
}

/**
 Whole runs of a mirror against the store it pulls from, with reports arriving in between.
*/
module MirrorRuns {
  import opened Prelude
  import opened MetricStores
  import opened Mirror

  /** `lag` bounds how long after a refresh read its clock the store answers it (the HTTP
      timeout): the store must retain that much longer than the mirror. */
  datatype Config = Config(storeRetention: int, mirrorRetention: int, lag: nat, overlap: int, prefixes: seq<string>)

  ghost predicate Sound(c: Config) {
    c.storeRetention >= c.mirrorRetention + c.lag
  }

  datatype Sys = Sys(
    now: int,
    table: Table,
    cutoff: Option<int>,      // the store's latest pruning bound
    rows: Table,              // the mirror
    watermark: Option<int>,
    begun: Option<int>)       // the clock reading of the last successful refresh

  datatype Event =
    | Report(node: string, points: seq<Point>, at: int)
    | Pull(begin: int, at: int, mark: Option<int>)  // a refresh that read its clock at `begin`
    | FailedPull

  /** The bound of a pull that began at `begin`. */
  function After(c: Config, s: Sys, begin: int): int {
    match s.watermark
    case None => begin - c.mirrorRetention
    case Some(w) => w - c.overlap
  }

  /** Clocks do not go back, refreshes do not overlap, and the store answers within the lag. */
  ghost predicate Possible(c: Config, s: Sys, e: Event) {
    match e
    case Report(_, _, at) => s.now <= at
    case Pull(begin, at, mark) =>
      && s.now <= at && begin <= at <= begin + c.lag
      && (s.begun.Some? ==> s.begun.value <= begin)
      && IsWatermark(s.watermark, Since(s.table, After(c, s, begin), c.prefixes), mark)
    case FailedPull => true
  }

  /** What the overlap window is for: no report brings rows stamped at or below the
      watermark minus the overlap. */
  ghost predicate OnTime(c: Config, s: Sys, e: Event) {
    e.Report? && s.watermark.Some? ==> forall p | p in e.points :: p.time > s.watermark.value - c.overlap
  }

  ghost function Next(c: Config, s: Sys, e: Event): Sys
    requires Possible(c, s, e)
  {
    match e
    case Report(node, points, at) =>
      s.(now := at, table := Ingested(s.table, node, points, at - c.storeRetention), cutoff := Some(at - c.storeRetention))
    case Pull(begin, at, mark) =>
      s.(now := at, begun := Some(begin), watermark := mark,
         rows := Prune(s.rows + Since(s.table, After(c, s, begin), c.prefixes), begin - c.mirrorRetention))
    case FailedPull => s
  }

  ghost predicate Retained(s: Sys, time: int) {
    s.cutoff.Some? ==> s.cutoff.value <= time
  }

  /** Mirror and store say the same about one row. */
  ghost predicate AgreeAt(s: Sys, k: Key) {
    (k in s.rows <==> k in s.table) && (k in s.rows && k in s.table ==> s.rows[k] == s.table[k])
  }

  /** AGREEMENT: on every row of the pulled prefixes newer than the mirror's cutoff. */
  ghost predicate Agree(c: Config, s: Sys) {
    s.begun.Some? ==>
      forall k: Key | Pulled(c.prefixes, k.metric) && k.time > s.begun.value - c.mirrorRetention :: AgreeAt(s, k)
  }

  /** The mirror holds pulled rows only, and none the store still retains but lacks. */
  ghost predicate Base(c: Config, s: Sys) {
    && (s.cutoff.Some? ==> s.cutoff.value <= s.now - c.storeRetention)
    && (forall k | k in s.table :: Retained(s, k.time))
    && (forall k | k in s.rows :: Pulled(c.prefixes, k.metric) && (Retained(s, k.time) ==> k in s.table))
    && (s.watermark.Some? ==> s.begun.Some?)
    && (s.watermark.None? ==> s.rows == map[])
  }

  /** What the next pull will not look at again is already in agreement. */
  ghost predicate Settled(c: Config, s: Sys)
    requires s.watermark.Some? ==> s.begun.Some?
  {
    s.watermark.Some? ==>
      forall k: Key | Pulled(c.prefixes, k.metric) && Retained(s, k.time)
        && s.begun.value - c.mirrorRetention < k.time <= s.watermark.value - c.overlap :: AgreeAt(s, k)
  }

  ghost predicate Inv(c: Config, s: Sys) {
    Base(c, s) && Settled(c, s)
  }

  /** What a report changes about one row the store still retains afterwards. */
  lemma ReportAt(c: Config, s: Sys, e: Event, k: Key)
    requires Base(c, s) && e.Report? && Possible(c, s, e)
    ensures var s' := Next(c, s, e);
      && (k in s'.table ==> Retained(s', k.time))
      && (k in s.table && Retained(s', k.time) ==> k in s'.table)
      && ((exists p :: p in e.points && KeyOf(e.node, p) == k) && Retained(s', k.time) ==> k in s'.table)
      && ((forall p | p in e.points :: KeyOf(e.node, p) != k) && Retained(s', k.time) ==>
            (k in s'.table <==> k in s.table) && (k in s.table ==> s'.table[k] == s.table[k]))
  {
    UpsertAt(s.table, e.node, e.points, k);
    if p :| p in e.points && KeyOf(e.node, p) == k {
      var i :| 0 <= i < |e.points| && e.points[i] == p;
      assert KeyOf(e.node, e.points[i]) == k;
    }
  }

  lemma ReportKeepsBase(c: Config, s: Sys, e: Event)
    requires Base(c, s) && e.Report? && Possible(c, s, e)
    ensures Base(c, Next(c, s, e))
    ensures forall k: Key :: Retained(Next(c, s, e), k.time) ==> Retained(s, k.time)
  {
    var s' := Next(c, s, e);
    forall k: Key
      ensures k in s'.table ==> Retained(s', k.time)
      ensures k in s.table && Retained(s', k.time) ==> k in s'.table
    {
      ReportAt(c, s, e, k);
    }
  }

  lemma ReportKeeps(c: Config, s: Sys, e: Event)
    requires Inv(c, s) && e.Report? && Possible(c, s, e) && OnTime(c, s, e)
    ensures Inv(c, Next(c, s, e))
  {
    var s' := Next(c, s, e);
    ReportKeepsBase(c, s, e);
    if s'.watermark.Some? {
      forall k: Key | Pulled(c.prefixes, k.metric) && Retained(s', k.time)
          && s'.begun.value - c.mirrorRetention < k.time <= s'.watermark.value - c.overlap
        ensures AgreeAt(s', k)
      {
        assert AgreeAt(s, k);
        ReportAt(c, s, e, k);
      }
    }
  }

  /** One pull: the rows it can see are copied; the older ones stay as the mirror had them. */
  lemma PullAt(c: Config, s: Sys, e: Event, k: Key)
    requires e.Pull? && Possible(c, s, e) && Sound(c) && Base(c, s)
    requires Pulled(c.prefixes, k.metric) && k.time > e.begin - c.mirrorRetention
    ensures var s' := Next(c, s, e);
      AgreeAt(s', k) <==> k.time > After(c, s, e.begin) || AgreeAt(s, k)
  {
    var got := Since(s.table, After(c, s, e.begin), c.prefixes);
    assert Retained(s, k.time);
    assert k in s.rows ==> k in s.table;
  }

  lemma PullKeeps(c: Config, s: Sys, e: Event)
    requires Inv(c, s) && e.Pull? && Possible(c, s, e) && Sound(c)
    ensures Inv(c, Next(c, s, e)) && Agree(c, Next(c, s, e))
  {
    var s' := Next(c, s, e);
    var got := Since(s.table, After(c, s, e.begin), c.prefixes);
    forall k: Key | Pulled(c.prefixes, k.metric) && k.time > e.begin - c.mirrorRetention ensures AgreeAt(s', k) {
      PullAt(c, s, e, k);
      if s.watermark.Some? && k.time <= s.watermark.value - c.overlap {
        assert Retained(s, k.time);
        assert AgreeAt(s, k);
      }
    }
    assert s'.watermark.None? ==> s.rows + got == map[];
  }

  // ---------- whole runs ----------

  /** An answer on its way to the mirror: what the store selected for it, and (as a history)
      the store as it stood then. */
  datatype Pending = Pending(begin: int, mark: Option<int>, points: Table, asOf: Table)

  /** The store and mirror with a refresh that may be under way. `asOf` is the store as it
      stood when it answered the last refresh that was merged. */
  datatype World = World(base: Sys, pending: Option<Pending>, asOf: Table)

  datatype Step =
    | Reported(e: Event)
    | Answered(begin: int, at: int, mark: Option<int>)  // the store selects the points of a pull
    | Merged                                            // the mirror upserts them and prunes
    | Abandoned                                         // the pull failed on its way

  function Merge(c: Config, s: Sys, p: Pending): Sys {
    s.(begun := Some(p.begin), watermark := p.mark, rows := Prune(s.rows + p.points, p.begin - c.mirrorRetention))
  }

  ghost predicate StepPossible(c: Config, w: World, st: Step) {
    match st
    case Reported(e) => e.Report? && Possible(c, w.base, e)
    case Answered(begin, at, mark) => w.pending.None? && Possible(c, w.base, Pull(begin, at, mark))
    case Merged => w.pending.Some?
    case Abandoned => true
  }

  /** No row written after the store answered a pull is stamped at or below the watermark of
      that pull minus the overlap, whether the pull is merged already or still on its way. */
  ghost predicate StepOnTime(c: Config, w: World, st: Step) {
    st.Reported? ==> OnTime(c, w.base, st.e) && (w.pending.Some? ==> OnTime(c, Merge(c, w.base, w.pending.value), st.e))
  }

  ghost function NextWorld(c: Config, w: World, st: Step): World
    requires StepPossible(c, w, st)
  {
    match st
    case Reported(e) => w.(base := Next(c, w.base, e))
    case Answered(begin, at, mark) =>
      var got := Since(w.base.table, After(c, w.base, begin), c.prefixes);
      w.(base := w.base.(now := at), pending := Some(Pending(begin, mark, got, w.base.table)))
    case Merged => World(Merge(c, w.base, w.pending.value), None, w.pending.value.asOf)
    case Abandoned => w.(pending := None)
  }

  /** The mirror holds exactly the rows of `t` with a pulled prefix that are newer than its
      cutoff, with their values. */
  ghost predicate Mirrors(c: Config, s: Sys, t: Table) {
    s.begun.Some? ==>
      forall k: Key | Pulled(c.prefixes, k.metric) && k.time > s.begun.value - c.mirrorRetention ::
        (k in s.rows <==> k in t) && (k in s.rows && k in t ==> s.rows[k] == t[k])
  }

  ghost predicate WorldInv(c: Config, w: World) {
    && Inv(c, w.base)
    && (w.pending.Some? ==>
          var merged := Merge(c, w.base, w.pending.value);
          Inv(c, merged) && Mirrors(c, merged, w.pending.value.asOf))
  }

  lemma ReportKeepsWorld(c: Config, w: World, e: Event)
    requires WorldInv(c, w) && StepPossible(c, w, Reported(e)) && StepOnTime(c, w, Reported(e))
    ensures WorldInv(c, NextWorld(c, w, Reported(e)))
  {
    ReportKeeps(c, w.base, e);
    if w.pending.Some? {
      var p := w.pending.value;
      ReportKeeps(c, Merge(c, w.base, p), e);
      assert Next(c, Merge(c, w.base, p), e) == Merge(c, Next(c, w.base, e), p);
    }
  }

  lemma AnswerKeepsWorld(c: Config, w: World, begin: int, at: int, mark: Option<int>)
    requires Sound(c) && WorldInv(c, w) && StepPossible(c, w, Answered(begin, at, mark))
    ensures WorldInv(c, NextWorld(c, w, Answered(begin, at, mark)))
  {
    var w' := NextWorld(c, w, Answered(begin, at, mark));
    PullKeeps(c, w.base, Pull(begin, at, mark));
    LaterKeeps(c, w.base, at);
    assert Merge(c, w'.base, w'.pending.value) == Next(c, w.base, Pull(begin, at, mark));
  }

  lemma LaterKeeps(c: Config, s: Sys, at: int)
    requires Inv(c, s) && s.now <= at
    ensures Inv(c, s.(now := at))
  {
    assert forall k: Key :: AgreeAt(s, k) ==> AgreeAt(s.(now := at), k);
  }

  function Init(now: int): World {
    World(Sys(now, map[], None, map[], None, None), None, map[])
  }

  ghost predicate Legal(c: Config, now: int, steps: seq<Step>)
    decreases |steps|, 0
  {
    steps == []
    || (var n := |steps| - 1;
        && Legal(c, now, steps[..n])
        && StepPossible(c, Run(c, now, steps[..n]), steps[n]) && StepOnTime(c, Run(c, now, steps[..n]), steps[n]))
  }

  ghost function Run(c: Config, now: int, steps: seq<Step>): World
    requires Legal(c, now, steps)
    decreases |steps|, 1
  {
    if steps == [] then Init(now) else NextWorld(c, Run(c, now, steps[..|steps| - 1]), steps[|steps| - 1])
  }

  lemma StepKeepsWorld(c: Config, w: World, st: Step)
    requires Sound(c) && WorldInv(c, w) && StepPossible(c, w, st) && StepOnTime(c, w, st)
    ensures WorldInv(c, NextWorld(c, w, st))
    ensures st.Merged? ==> Mirrors(c, NextWorld(c, w, st).base, NextWorld(c, w, st).asOf)
  {
    match st
    case Reported(e) => ReportKeepsWorld(c, w, e);
    case Answered(begin, at, mark) => AnswerKeepsWorld(c, w, begin, at, mark);
    case Merged =>
    case Abandoned =>
  }

  lemma {:induction false} RunKeeps(c: Config, now: int, steps: seq<Step>)
    requires Sound(c) && Legal(c, now, steps)
    ensures WorldInv(c, Run(c, now, steps))
  {
    if steps != [] {
      var n := |steps| - 1;
      RunKeeps(c, now, steps[..n]);
      StepKeepsWorld(c, Run(c, now, steps[..n]), steps[n]);
    }
  }

  /** MIRROR AGREEMENT: in every run whose reports are on time, after every successful
      refresh the mirror holds exactly the rows the store held when it answered, of the
      pulled prefixes and newer than the mirror's cutoff: none missing, none extra, same
      values. Rows reported since the answer are the only difference to the store now. */
  lemma MirrorAgrees(c: Config, now: int, steps: seq<Step>)
    requires Sound(c) && Legal(c, now, steps) && steps != [] && steps[|steps| - 1].Merged?
    ensures var w := Run(c, now, steps);
      && w.base.begun.Some? && Mirrors(c, w.base, w.asOf)
      && (w.asOf == w.base.table ==> Agree(c, w.base))
  {
    var n := |steps| - 1;
    RunKeeps(c, now, steps[..n]);
    StepKeepsWorld(c, Run(c, now, steps[..n]), steps[n]);
  }

  /** So a refresh with no report between the store's answer and the merge agrees with the
      store as it is. */
  lemma QuietRefreshAgrees(c: Config, now: int, steps: seq<Step>, begin: int, at: int, mark: Option<int>)
    requires Sound(c) && Legal(c, now, steps + [Answered(begin, at, mark)] + [Merged])
    ensures Agree(c, Run(c, now, steps + [Answered(begin, at, mark)] + [Merged]).base)
  {
    var asked := steps + [Answered(begin, at, mark)];
    var all := asked + [Merged];
    assert all[..|all| - 1] == asked && asked[..|asked| - 1] == steps;
    MirrorAgrees(c, now, all);
  }

  /** WITHOUT that assumption: a report of any age, then a refresh. They agree if and only if
      every late row the report carried was already mirrored with the value it left in the
      store. So a worker that backfills slots older than the overlap is not mirrored. */
  lemma LateRowsAreMissed(c: Config, s: Sys, report: Event, pull: Event)
    requires Sound(c) && Inv(c, s) && s.watermark.Some?
    requires report.Report? && Possible(c, s, report)
    requires pull.Pull? && Possible(c, Next(c, s, report), pull)
    ensures var s1 := Next(c, s, report);
      var s2 := Next(c, s1, pull);
      Agree(c, s2) <==>
        forall p | p in report.points && Pulled(c.prefixes, p.metric)
            && pull.begin - c.mirrorRetention < p.time <= s.watermark.value - c.overlap ::
          var k := KeyOf(report.node, p);
          k in s1.table && k in s.rows && s1.table[k] == s.rows[k]
  {
    var s1 := Next(c, s, report);
    var s2 := Next(c, s1, pull);
    ReportKeepsBase(c, s, report);
    forall k: Key | Pulled(c.prefixes, k.metric) && k.time > pull.begin - c.mirrorRetention
      ensures AgreeAt(s2, k) <==> k.time > s.watermark.value - c.overlap || AgreeAt(s1, k)
      ensures (forall p | p in report.points :: KeyOf(report.node, p) != k) ==> AgreeAt(s2, k)
      ensures (exists p :: p in report.points && KeyOf(report.node, p) == k) ==> k in s1.table
    {
      PullAt(c, s1, pull, k);
      ReportAt(c, s, report, k);
      assert Retained(s1, k.time);
      if k.time <= s.watermark.value - c.overlap {
        assert AgreeAt(s, k);
      }
    }
    forall p | p in report.points && Pulled(c.prefixes, p.metric)
        && pull.begin - c.mirrorRetention < p.time <= s.watermark.value - c.overlap
      ensures var k := KeyOf(report.node, p);
        k in s1.table && (AgreeAt(s2, k) <==> k in s.rows && s1.table[k] == s.rows[k])
    {
      assert KeyOf(report.node, p).metric == p.metric;
    }
  }

  // ---------- the mirror object runs these steps ----------

  /** The object's settings and state are those of `s`. */
  ghost predicate Shows(m: MetricMirror, c: Config, s: Sys)
    reads m
  {
    && m.prefixes == c.prefixes && m.retention == c.mirrorRetention && m.overlap == c.overlap
    && m.rows == s.rows && m.watermark == s.watermark
  }

  /** A control plane that answers with what the store selects, or fails. */
  ghost predicate AnswersFrom(since: (int, seq<string>) -> Answer, table: Table) {
    forall after, prefixes | since(after, prefixes).Points? ::
      Lists(since(after, prefixes).points, Since(table, after, prefixes))
  }

  /** The store's answer to a pull that begins now. */
  lemma AnswerIs(c: Config, w: World, begin: int, at: int, mark: Option<int>)
    requires w.pending.None? && w.base.now <= at && begin <= at <= begin + c.lag && (w.base.begun.Some? ==> w.base.begun.value <= begin)
    requires IsWatermark(w.base.watermark, Since(w.base.table, After(c, w.base, begin), c.prefixes), mark)
    ensures StepPossible(c, w, Answered(begin, at, mark))
    ensures NextWorld(c, w, Answered(begin, at, mark)).pending
         == Some(Pending(begin, mark, Since(w.base.table, After(c, w.base, begin), c.prefixes), w.base.table))
  {
  }

  /** ONE REFRESH OF THE OBJECT is a step of the runs: against a store holding `w.base.table`
      when it answers at `at`, either the pull fails and the object still shows the same, or
      the store's answer is a possible step and the object shows what merging it gives,
      whatever was reported in between (`later` is the system at the merge). */
  method RefreshIsAStep(m: MetricMirror, c: Config, ghost w: World, ghost later: Sys, since: (int, seq<string>) -> Answer,
                        names: Option<map<string, Info>>, begin: int, ghost at: int)
    returns (ghost mark: Option<int>, ghost failed: bool)
    requires Shows(m, c, w.base) && w.pending.None? && AnswersFrom(since, w.base.table)
    requires w.base.now <= at && begin <= at <= begin + c.lag && (w.base.begun.Some? ==> w.base.begun.value <= begin)
    requires later.rows == w.base.rows
    modifies m
    ensures failed ==> Shows(m, c, w.base) && m.lastError.Some?
    ensures !failed ==> StepPossible(c, w, Answered(begin, at, mark)) && m.lastError.None?
    ensures !failed ==> Shows(m, c, Merge(c, later, NextWorld(c, w, Answered(begin, at, mark)).pending.value))
  {
    ghost var bound := After(c, w.base, begin);
    ghost var got := Since(w.base.table, bound, c.prefixes);
    failed := since(bound, c.prefixes).Failed?;
    m.Refresh(since, names, got, begin);
    mark := m.watermark;
    if !failed {
      AnswerIs(c, w, begin, at, mark);
    }
  }

  lemma OnePoint(t: Table, node: string, p: Point, cutoff: int)
    requires p.time >= cutoff && forall k | k in t :: k.time >= cutoff
    ensures Ingested(t, node, [p], cutoff) == t[KeyOf(node, p) := p.value]
  {
    assert [p][..0] == [];
    assert Upsert(t, node, [p]) == t[KeyOf(node, p) := p.value];
  }

  /** The store and mirror after one row was reported and mirrored. */
  lemma OneRowMirrored(c: Config, p: Point) returns (first: Event, pull: Event)
    requires Sound(c) && c.overlap >= 0 && c.storeRetention > 0 && c.mirrorRetention > 0 && c.prefixes == []
    ensures first == Report("a", [p], p.time) && pull == Pull(p.time, p.time, Some(p.time))
    ensures Possible(c, Init(p.time).base, first)
    ensures Possible(c, Next(c, Init(p.time).base, first), pull)
    ensures var s := Next(c, Next(c, Init(p.time).base, first), pull);
      && Inv(c, s) && Agree(c, s) && s.watermark == Some(p.time) && s.now == p.time && s.begun == Some(p.time)
      && s.rows == map[KeyOf("a", p) := p.value] && s.table == s.rows
  {
    first, pull := Report("a", [p], p.time), Pull(p.time, p.time, Some(p.time));
    var s0 := Init(p.time).base;
    var s1 := Next(c, s0, first);
    OnePoint(map[], "a", p, p.time - c.storeRetention);
    assert Since(s1.table, After(c, s1, p.time), []) == map[KeyOf("a", p) := p.value];
    ReportKeeps(c, s0, first);
    PullKeeps(c, s1, pull);
    assert Next(c, s1, pull).rows == map[KeyOf("a", p) := p.value];
  }

  /** Such a run: a row is mirrored, then a row 100 seconds older is reported, with an overlap
      of 60, and the next refresh does not bring it. */
  lemma LateRowIsMissed() returns (c: Config, first: Event, pull: Event, late: Event, again: Event)
    ensures Sound(c) && Possible(c, Init(1000).base, first) && Possible(c, Next(c, Init(1000).base, first), pull)
    ensures late.Report? && again.Pull?
    ensures var s := Next(c, Next(c, Init(1000).base, first), pull);
      && Agree(c, s) && Possible(c, s, late)
      && Possible(c, Next(c, s, late), again) && !Agree(c, Next(c, Next(c, s, late), again))
  {
    c := Config(5400, 5000, 5, 60, []);
    first, pull := OneRowMirrored(c, Point("m", 1000, 1.0));
    late, again := Report("b", [Point("m", 900, 2.0)], 1001), Pull(1002, 1002, Some(1000));
    var s := Next(c, Next(c, Init(1000).base, first), pull);
    var a, b := Key("a", "m", 1000), Key("b", "m", 900);
    OnePoint(s.table, "b", Point("m", 900, 2.0), 1001 - c.storeRetention);
    var s' := Next(c, s, late);
    assert a in Since(s'.table, After(c, s', 1002), []) && b !in Since(s'.table, After(c, s', 1002), []);
    LateRowsAreMissed(c, s, late, again);
    assert late.points[0] in late.points && Pulled(c.prefixes, "m") && b !in s.rows;
  }
}
