/**
 The router's admission control: FIFO slots over the serving workers
 (`WorkerPool` in src/oumigo/service/manager/router/server.py).

 The value-level functions here say what each critical section (the code between two
 `await`s) computes. `WorkerPool` in WorkerPool.dfy is the object that runs them in
 place, and PoolRuns.dfy interleaves them over whole runs.
*/
module Pool {
  import opened Prelude
  import opened States

  type NodeId = string
  type Ticket = nat  // one per call of `acquire`; also names its future. Later calls have larger tickets

  datatype NodeRecord = NodeRecord(
    id: NodeId,
    state: NodeState,
    tunneled: bool,
    maxConcurrent: Option<int>,  // the negotiated cap; None until the worker reports one
    served: Option<string>)      // the model id it answers to

  /** What the registry and the tunnel registry show at one moment: `registry.list()` and
      the number of open tunnel connections per node. */
  datatype View = View(records: seq<NodeRecord>, tunnels: map<NodeId, nat>)

  /** The registry is keyed by node id, so a listing never shows one id twice. */
  ghost predicate DistinctIds(records: seq<NodeRecord>) {
    forall r, q | r in records && q in records && r.id == q.id :: r == q
  }

  /** Which workers a request accepts; None accepts every worker. */
  type Eligible = Option<NodeRecord -> bool>

  predicate Accepts(e: Eligible, r: NodeRecord) {
    e.None? || e.value(r)
  }

  datatype Future = Pending | Resolved(record: NodeRecord) | Cancelled

  predicate Live(futures: map<Ticket, Future>, t: Ticket) {
    t in futures && futures[t].Pending?
  }

  datatype Waiter = Waiter(ticket: Ticket, eligible: Eligible)

  datatype PoolState = PoolState(
    defaultCapacity: int,
    inflight: map<NodeId, int>,
    futures: map<Ticket, Future>,  // asyncio's futures, by the ticket that created them
    waiters: seq<Waiter>)

  function Load(inflight: map<NodeId, int>, n: NodeId): int {
    if n in inflight then inflight[n] else 0
  }

  function Capacity(s: PoolState, r: NodeRecord): int {
    r.maxConcurrent.GetOr(s.defaultCapacity)
  }

  predicate Routable(v: View, r: NodeRecord) {
    r.state.Serving? && (r.tunneled ==> r.id in v.tunnels && v.tunnels[r.id] > 0)
  }

  /** The SERVING (and reachable) workers among `records` that a request accepts. */
  function ServingIn(v: View, records: seq<NodeRecord>, e: Eligible): (rs: seq<NodeRecord>)
    ensures forall r :: r in rs <==> r in records && Routable(v, r) && Accepts(e, r)
  {
    if records == [] then []
    else
      var rest := ServingIn(v, records[1..], e);
      if Routable(v, records[0]) && Accepts(e, records[0]) then [records[0]] + rest else rest
  }

  function BelowCapacity(s: PoolState, records: seq<NodeRecord>): (rs: seq<NodeRecord>)
    ensures forall r :: r in rs <==> r in records && Load(s.inflight, r.id) < Capacity(s, r)
  {
    if records == [] then []
    else
      var rest := BelowCapacity(s, records[1..]);
      if Load(s.inflight, records[0].id) < Capacity(s, records[0]) then [records[0]] + rest else rest
  }

  /** What the registry view must show of `r`: listed, SERVING, with an open connection if it
      is tunneled, and wanted by the request. */
  ghost predicate Wanted(v: View, e: Eligible, r: NodeRecord) {
    && r in v.records && r.state == Serving
    && (r.tunneled ==> r.id in v.tunnels && v.tunnels[r.id] > 0)
    && (e.Some? ==> e.value(r))
  }

  /** ... and its counter is below the cap it negotiated, or the default one. */
  ghost predicate CanUse(v: View, s: PoolState, e: Eligible, r: NodeRecord) {
    && Wanted(v, e, r)
    && (if r.id in s.inflight then s.inflight[r.id] else 0)
         < (if r.maxConcurrent.Some? then r.maxConcurrent.value else s.defaultCapacity)
  }

  /** The workers a request could be given right now. */
  function Available(v: View, s: PoolState, e: Eligible): (rs: seq<NodeRecord>)
    ensures forall r :: r in rs <==> CanUse(v, s, e, r)
  {
    BelowCapacity(s, ServingIn(v, v.records, e))
  }

  /** `rng.choice`: any draw `pick` selects some element. */
  function Choice(records: seq<NodeRecord>, pick: nat): (r: NodeRecord)
    requires records != []
    ensures r in records
  {
    records[pick % |records|]
  }

  /** Every one of them may be drawn. */
  lemma AnyMayBeChosen(records: seq<NodeRecord>, r: NodeRecord) returns (pick: nat)
    requires r in records
    ensures Choice(records, pick) == r
  {
    var i :| 0 <= i < |records| && records[i] == r;
    pick := i;
    assert i % |records| == i;
  }

  function Take(s: PoolState, r: NodeRecord): PoolState {
    s.(inflight := s.inflight[r.id := Load(s.inflight, r.id) + 1])
  }

  /** One turn of the promotion loop: discard, grant, or keep the waiter. In a
      half-finished promotion `waiters` are the ones kept so far. */
  function PromoteOne(v: View, s: PoolState, w: Waiter, pick: nat): PoolState {
    if !Live(s.futures, w.ticket) then s
    else
      var avail := Available(v, s, w.eligible);
      if avail != [] then
        var r := Choice(avail, pick);
        Take(s, r).(futures := s.futures[w.ticket := Resolved(r)])
      else s.(waiters := s.waiters + [w])
  }

  /** The promotion loop over the waiters `ws`, oldest first; `picks` are the draws. */
  function PromoteAll(v: View, s: PoolState, ws: seq<Waiter>, picks: seq<nat>): PoolState
    requires |picks| == |ws|
  {
    if ws == [] then s
    else
      var n := |ws| - 1;
      PromoteOne(v, PromoteAll(v, s, ws[..n], picks[..n]), ws[n], picks[n])
  }

  function Promoted(v: View, s: PoolState, picks: seq<nat>): PoolState
    requires |picks| == |s.waiters|
  {
    PromoteAll(v, s.(waiters := []), s.waiters, picks)
  }

  function GiveBack(s: PoolState, n: NodeId): PoolState {
    if Load(s.inflight, n) > 0 then s.(inflight := s.inflight[n := Load(s.inflight, n) - 1]) else s
  }

  function Released(v: View, s: PoolState, n: NodeId, picks: seq<nat>): PoolState
    requires |picks| == |s.waiters|
  {
    Promoted(v, GiveBack(s, n), picks)
  }

  datatype Admission = Admitted(record: NodeRecord) | NoWorkers | Queued

  /** `acquire` after its promotion pass, up to its `await`: a free slot, else fail fast,
      else join the queue with a fresh future. */
  function Enter(v: View, s: PoolState, t: Ticket, e: Eligible, pick: nat): (PoolState, Admission) {
    var avail := Available(v, s, e);
    if avail != [] then (Take(s, Choice(avail, pick)), Admitted(Choice(avail, pick)))
    else if ServingIn(v, v.records, e) == [] then (s, NoWorkers)
    else (s.(futures := s.futures[t := Pending], waiters := s.waiters + [Waiter(t, e)]), Queued)
  }

  /** Its three ways out, by what the view and the pool show. */
  lemma EnterCases(v: View, p: PoolState, t: Ticket, e: Eligible, pick: nat)
    ensures var (p', adm) := Enter(v, p, t, e, pick);
      && (adm.Admitted? <==> exists r :: CanUse(v, p, e, r)) && (adm.Admitted? ==> CanUse(v, p, e, adm.record))
      && (adm.NoWorkers? <==> forall r :: !Wanted(v, e, r))
      && p'.waiters == p.waiters + (if adm.Queued? then [Waiter(t, e)] else [])
      && (adm.Queued? ==> Live(p'.futures, t))
  {
    var avail, serving := Available(v, p, e), ServingIn(v, v.records, e);
    if avail == [] {
      assert forall r :: r !in avail;
    } else {
      assert avail[0] in avail;
    }
    if serving == [] {
      assert forall r :: r !in serving;
    } else {
      assert serving[0] in serving && Wanted(v, e, serving[0]);
    }
    assert p.waiters + [] == p.waiters;
  }

  function Without(ws: seq<Waiter>, t: Ticket): (rs: seq<Waiter>)
    ensures forall w :: w in rs <==> w in ws && w.ticket != t
  {
    if ws == [] then []
    else if ws[0].ticket == t then Without(ws[1..], t)
    else [ws[0]] + Without(ws[1..], t)
  }

  predicate QueuedTicket(ws: seq<Waiter>, t: Ticket) {
    exists i | 0 <= i < |ws| :: ws[i].ticket == t
  }

  /** The `except` clause of `acquire`: leave the queue, or give back a slot that was
      granted while the timeout or cancellation was on its way. */
  function Abandoned(v: View, s: PoolState, t: Ticket, picks: seq<nat>): PoolState
    requires |picks| == |s.waiters|
  {
    if QueuedTicket(s.waiters, t) then s.(waiters := Without(s.waiters, t))
    else if t in s.futures && s.futures[t].Resolved? then Released(v, s, s.futures[t].record.id, picks)
    else s
  }

  // ---------- facts about one promotion pass ----------

  /** No waiter of `ws` can use any free slot. */
  ghost predicate Starved(v: View, s: PoolState, ws: seq<Waiter>) {
    forall w, r | w in ws :: !CanUse(v, s, w.eligible, r)
  }

  /** Load that only grows opens no slot. */
  lemma StillStarved(v: View, s: PoolState, p: PoolState, ws: seq<Waiter>)
    requires Starved(v, s, ws) && p.defaultCapacity == s.defaultCapacity
    requires forall n :: Load(s.inflight, n) <= Load(p.inflight, n)
    ensures Starved(v, p, ws)
  {
    forall w, r | w in ws ensures !CanUse(v, p, w.eligible, r) {
      assert !CanUse(v, s, w.eligible, r);
      assert Load(s.inflight, r.id) <= Load(p.inflight, r.id);
    }
  }

  /** Whoever a turn of the loop leaves in the queue has no available worker. */
  lemma TurnConservesWork(v: View, s: PoolState, w: Waiter, pick: nat)
    requires Starved(v, s, s.waiters)
    ensures var p := PromoteOne(v, s, w, pick); Starved(v, p, p.waiters)
  {
    var p := PromoteOne(v, s, w, pick);
    StillStarved(v, s, p, s.waiters);
    if p.waiters != s.waiters {
      forall u, r | u in p.waiters ensures !CanUse(v, p, u.eligible, r) {
        if u !in s.waiters {
          assert r !in Available(v, s, w.eligible);
        }
      }
    }
  }

  /** WORK CONSERVATION of a whole pass, for any queue and any draws. */
  lemma {:induction false} PassConservesWork(v: View, s: PoolState, ws: seq<Waiter>, picks: seq<nat>)
    requires |picks| == |ws| && Starved(v, s, s.waiters)
    ensures var p := PromoteAll(v, s, ws, picks); Starved(v, p, p.waiters)
  {
    if ws != [] {
      var n := |ws| - 1;
      PassConservesWork(v, s, ws[..n], picks[..n]);
      TurnConservesWork(v, PromoteAll(v, s, ws[..n], picks[..n]), ws[n], picks[n]);
    }
  }
}
