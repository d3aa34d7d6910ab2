/**
 The telemetry path in one piece: the workers' pipeline feeding the store, and the
 dashboard's mirror reading it. A report is prompt when it is delivered within the mirror's
 overlap of the sampling of every row in it; that includes a backlog restored after failed
 reports, so an outage longer than the overlap makes late rows.
*/
module Fleet {
  import opened Prelude
  import opened MetricsBuffers
  import opened MetricStores
  import P = Pipeline
  import M = MirrorRuns
  import Mirror

  /** `asked` and `merged`: the rows delivered to the store by the time it answered the
      refresh under way, and the last one merged. */
  datatype Sys = Sys(p: P.Sys, w: M.World, asked: set<Row>, merged: set<Row>)

  datatype Event =
    | Worker(e: P.Event, at: int)  // `at`: the manager's clock, when it sees the event
    | Dashboard(step: M.Step)

  predicate Delivers(e: P.Event) { e.Report? && !e.outcome.Lost? }

  /** The report the store sees when a batch arrives. */
  function Arrival(s: Sys, e: P.Event, at: int): M.Event
    requires Delivers(e)
  {
    M.Report(e.node, P.PointsOf(P.Worker(s.p, e.node).inFlight), at)
  }

  /** Every row of the batch was sampled less than the overlap ago, and not in the future. */
  ghost predicate Prompt(c: M.Config, rows: seq<Row>, at: int) {
    forall r | r in rows :: at - c.overlap < r.epoch <= at
  }

  ghost predicate Possible(c: M.Config, s: Sys, e: Event) {
    match e
    case Worker(w, at) =>
      && P.Enabled(s.p, w)
      && (Delivers(w) ==>
            && w.cutoff == at - c.storeRetention && s.w.base.now <= at
            && Prompt(c, P.Worker(s.p, w.node).inFlight, at))
    case Dashboard(st) => !st.Reported? && M.StepPossible(c, s.w, st)
  }

  ghost function Next(c: M.Config, s: Sys, e: Event): Sys
    requires Possible(c, s, e)
  {
    match e
    case Worker(w, at) =>
      s.(p := P.Next(s.p, w), w := if Delivers(w) then M.NextWorld(c, s.w, M.Reported(Arrival(s, w, at))) else s.w)
    case Dashboard(st) =>
      s.(w := M.NextWorld(c, s.w, st),
         asked := if st.Answered? then s.p.delivered else s.asked,
         merged := if st.Merged? then s.asked else s.merged)
  }

  // ---------- invariants ----------

  /** Nothing in the store or the watermarks is ahead of the manager's clock. */
  ghost predicate InThePast(w: M.World) {
    && (forall k | k in w.base.table :: k.time <= w.base.now)
    && (w.base.watermark.Some? ==> w.base.watermark.value <= w.base.now)
    && (w.pending.Some? && w.pending.value.mark.Some? ==> w.pending.value.mark.value <= w.base.now)
  }

  /** Both halves speak of the same store. */
  ghost predicate SameStore(s: Sys) {
    && s.p.table == s.w.base.table
    && (s.w.base.cutoff.Some? ==> s.p.cutoff == s.w.base.cutoff.value)
    && (s.w.base.cutoff.None? ==> s.p.delivered == {} && s.p.table == map[])
  }

  /** A store snapshot is exactly the rows of `delivered` above a bound the mirror never sees below. */
  ghost predicate Snapshot(c: M.Config, asOf: Table, delivered: set<Row>, begin: int) {
    exists cut :: cut <= begin - c.mirrorRetention && P.TableExact(asOf, delivered, cut)
  }

  ghost predicate Snapshots(c: M.Config, s: Sys) {
    && (s.w.pending.Some? ==> Snapshot(c, s.w.pending.value.asOf, s.asked, s.w.pending.value.begin))
    && (s.w.base.begun.Some? ==> Snapshot(c, s.w.asOf, s.merged, s.w.base.begun.value))
  }

  ghost predicate Inv(c: M.Config, s: Sys) {
    P.Inv(s.p) && M.WorldInv(c, s.w) && InThePast(s.w) && SameStore(s) && Snapshots(c, s)
  }

  // ---------- each step ----------

  /** PROMPT REPORTS ARE ON TIME: delivered within the overlap, no row is stamped at or below
      a watermark minus the overlap. */
  lemma PromptIsOnTime(c: M.Config, s: Sys, e: P.Event, at: int)
    requires InThePast(s.w) && Possible(c, s, Worker(e, at)) && Delivers(e)
    ensures M.StepOnTime(c, s.w, M.Reported(Arrival(s, e, at)))
  {
    var rows := P.Worker(s.p, e.node).inFlight;
    forall p | p in P.PointsOf(rows)
      ensures p.time > at - c.overlap
    {
      var i :| 0 <= i < |rows| && P.PointsOf(rows)[i] == p;
      assert rows[i] in rows;
    }
  }

  lemma ArrivalInThePast(t: Table, node: string, rows: seq<Row>, cutoff: int, now: int, at: int, k: Key)
    requires (forall q | q in t :: q.time <= now) && now <= at && (forall r | r in rows :: r.epoch <= at)
    ensures k in Ingested(t, node, P.PointsOf(rows), cutoff) ==> k.time <= at
  {
    var ps := P.PointsOf(rows);
    UpsertAt(t, node, ps, k);
    if i :| 0 <= i < |ps| && KeyOf(node, ps[i]) == k {
      assert rows[i] in rows;
    }
  }

  lemma DeliveryKeeps(c: M.Config, s: Sys, e: P.Event, at: int)
    requires M.Sound(c) && Inv(c, s) && Possible(c, s, Worker(e, at)) && Delivers(e)
    ensures Inv(c, Next(c, s, Worker(e, at)))
  {
    var s' := Next(c, s, Worker(e, at));
    P.StepKeeps(s.p, e);
    PromptIsOnTime(c, s, e, at);
    M.StepKeepsWorld(c, s.w, M.Reported(Arrival(s, e, at)));
    var rows := P.Worker(s.p, e.node).inFlight;
    forall k | k in s'.w.base.table
      ensures k.time <= at
    {
      ArrivalInThePast(s.p.table, e.node, rows, e.cutoff, s.w.base.now, at, k);
    }
  }

  lemma QuietKeeps(c: M.Config, s: Sys, e: P.Event, at: int)
    requires Inv(c, s) && Possible(c, s, Worker(e, at)) && !Delivers(e)
    ensures Inv(c, Next(c, s, Worker(e, at)))
  {
    P.StepKeeps(s.p, e);
  }

  /** The store at an answer holds exactly what was delivered, above a bound out of the mirror's sight. */
  lemma AnswerSnapshot(c: M.Config, s: Sys, begin: int, at: int)
    requires M.Sound(c) && Inv(c, s) && s.w.base.now <= at <= begin + c.lag
    ensures Snapshot(c, s.p.table, s.p.delivered, begin)
  {
    var cut := if s.w.base.cutoff.Some? then s.p.cutoff else begin - c.mirrorRetention;
    assert M.Base(c, s.w.base);
    assert P.TableExact(s.p.table, s.p.delivered, cut);
  }

  lemma DashboardKeeps(c: M.Config, s: Sys, st: M.Step)
    requires M.Sound(c) && Inv(c, s) && Possible(c, s, Dashboard(st))
    ensures Inv(c, Next(c, s, Dashboard(st)))
  {
    M.StepKeepsWorld(c, s.w, st);
    if st.Answered? {
      AnswerSnapshot(c, s, st.begin, st.at);
    }
  }

  // ---------- whole runs ----------

  function Init(capacity: int, chunk: int, now: int): Sys {
    Sys(P.Init(capacity, chunk), M.Init(now), {}, {})
  }

  ghost predicate Legal(c: M.Config, start: Sys, es: seq<Event>)
    decreases |es|, 0
  {
    es == [] || (Legal(c, start, es[..|es| - 1]) && Possible(c, Run(c, start, es[..|es| - 1]), es[|es| - 1]))
  }

  ghost function Run(c: M.Config, start: Sys, es: seq<Event>): Sys
    requires Legal(c, start, es)
    decreases |es|, 1
  {
    if es == [] then start else Next(c, Run(c, start, es[..|es| - 1]), es[|es| - 1])
  }

  lemma {:induction false} RunKeeps(c: M.Config, start: Sys, es: seq<Event>)
    requires M.Sound(c) && Legal(c, start, es) && Inv(c, start)
    ensures Inv(c, Run(c, start, es))
  {
    if es != [] {
      var n := |es| - 1;
      RunKeeps(c, start, es[..n]);
      match es[n]
      case Worker(e, at) =>
        if Delivers(e) {
          DeliveryKeeps(c, Run(c, start, es[..n]), e, at);
        } else {
          QuietKeeps(c, Run(c, start, es[..n]), e, at);
        }
      case Dashboard(st) => DashboardKeeps(c, Run(c, start, es[..n]), st);
    }
  }

  /** END TO END: in every run whose reports are prompt, after every merged refresh the mirror
      shows, of the pulled prefixes and newer than its cutoff, exactly the rows delivered at
      least once when the store answered, each with its sampled value. */
  lemma DashboardShowsDelivered(c: M.Config, capacity: int, chunk: int, now: int, es: seq<Event>, k: Key)
    requires M.Sound(c) && 0 < chunk <= capacity && es != [] && es[|es| - 1] == Dashboard(M.Merged)
    requires Legal(c, Init(capacity, chunk, now), es)
    ensures var s := Run(c, Init(capacity, chunk, now), es);
      var mirror := s.w.base;
      && mirror.begun.Some?
      && (Mirror.Pulled(c.prefixes, k.metric) && k.time > mirror.begun.value - c.mirrorRetention ==>
            && (k in mirror.rows <==> exists r :: r in s.merged && P.RowKey(r) == k)
            && (forall r | r in s.merged && P.RowKey(r) == k && k in mirror.rows :: mirror.rows[k] == r.value))
  {
    var start := Init(capacity, chunk, now);
    var before := Run(c, start, es[..|es| - 1]);
    assert Inv(c, start);
    RunKeeps(c, start, es[..|es| - 1]);
    RunKeeps(c, start, es);
    M.StepKeepsWorld(c, before.w, M.Merged);
    var s := Run(c, start, es);
    assert M.Mirrors(c, s.w.base, s.w.asOf);
    var cut :| cut <= s.w.base.begun.value - c.mirrorRetention && P.TableExact(s.w.asOf, s.merged, cut);
  }
}
