/**
 Whole runs of the worker pool: any interleaving of acquire, grant, resume, timeout,
 cancellation, release and periodic promotion, against any registry contents.
*/
module PoolRuns {
  import opened Prelude
  import opened Pool

  /** Where one request's task is. `interrupted`: a timeout or a cancellation has been
      delivered and will surface when its coroutine next runs. */
  datatype Phase = Awaiting(interrupted: bool) | Holding(record: NodeRecord) | Finished

  datatype Request = Request(eligible: Eligible, phase: Phase)

  datatype Sys = Sys(pool: PoolState, requests: map<Ticket, Request>, next: Ticket)

  /** The worker whose slot a request holds, counting a grant its task has not seen yet. */
  function Slot(s: Sys, t: Ticket): Option<NodeRecord> {
    if t !in s.requests then None
    else match s.requests[t].phase
      case Holding(r) => Some(r)
      case Awaiting(_) =>
        if t in s.pool.futures && s.pool.futures[t].Resolved? then Some(s.pool.futures[t].record) else None
      case Finished => None
  }

  function Holders(s: Sys, n: NodeId): set<Ticket> {
    set t | t in s.requests && Slot(s, t).Some? && Slot(s, t).value.id == n
  }

  predicate Waits(s: Sys, t: Ticket) {
    t in s.requests && s.requests[t].phase.Awaiting? && Live(s.pool.futures, t)
  }

  // ---------- steps ----------

  /** One atomic step. `view` is what the registry shows at that moment, so the registry
      may change arbitrarily between steps; `picks` and `pick` are the random draws. */
  datatype Event =
    | Acquire(view: View, eligible: Eligible, picks: seq<nat>, pick: nat)
    | Interrupt(ticket: Ticket)                            // a timeout fires or the client goes away
    | Resume(ticket: Ticket, view: View, picks: seq<nat>)  // the waiting task runs again
    | Release(ticket: Ticket, view: View, picks: seq<nat>) // the response is over
    | Promote(view: View, picks: seq<nat>)                 // the periodic promoter

  ghost predicate Enabled(s: Sys, e: Event) {
    match e
    case Acquire(v, _, picks, _) => DistinctIds(v.records) && |picks| == |s.pool.waiters|
    case Interrupt(t) => t in s.requests && s.requests[t].phase == Awaiting(false)
    case Resume(t, v, picks) =>
      && DistinctIds(v.records) && |picks| == |s.pool.waiters|
      && t in s.requests && s.requests[t].phase.Awaiting? && t in s.pool.futures && !s.pool.futures[t].Pending?
    case Release(t, v, picks) =>
      && DistinctIds(v.records) && |picks| == |s.pool.waiters|
      && t in s.requests && s.requests[t].phase.Holding?
    case Promote(v, picks) => DistinctIds(v.records) && |picks| == |s.pool.waiters|
  }

  function SetPhase(s: Sys, t: Ticket, p: Phase): Sys
    requires t in s.requests
  {
    s.(requests := s.requests[t := s.requests[t].(phase := p)])
  }

  ghost function Next(s: Sys, e: Event): Sys
    requires Enabled(s, e)
  {
    match e
    case Acquire(v, eligible, picks, pick) =>
      var (pool, adm) := Enter(v, Promoted(v, s.pool, picks), s.next, eligible, pick);
      var phase := match adm
        case Admitted(r) => Holding(r)
        case NoWorkers => Finished
        case Queued => Awaiting(false);
      Sys(pool, s.requests[s.next := Request(eligible, phase)], s.next + 1)
    case Interrupt(t) =>
      var s' := SetPhase(s, t, Awaiting(true));
      if Live(s.pool.futures, t) then s'.(pool := s.pool.(futures := s.pool.futures[t := Cancelled])) else s'
    case Resume(t, v, picks) =>
      if s.requests[t].phase.interrupted then
        SetPhase(s, t, Finished).(pool := Abandoned(v, s.pool, t, picks))
      else if s.pool.futures[t].Resolved? then SetPhase(s, t, Holding(s.pool.futures[t].record))
      else s
    case Release(t, v, picks) =>
      SetPhase(s, t, Finished).(pool := Released(v, s.pool, s.requests[t].phase.record.id, picks))
    case Promote(v, picks) => s.(pool := Promoted(v, s.pool, picks))
  }

  function Init(defaultCapacity: int): Sys {
    Sys(PoolState(defaultCapacity, map[], map[], []), map[], 0)
  }

  // ---------- the invariant ----------

  ghost predicate Conserved(s: Sys) {
    forall n :: Load(s.pool.inflight, n) == |Holders(s, n)|
  }

  ghost predicate Ascending(ws: seq<Waiter>) {
    forall i, j | 0 <= i < j < |ws| :: ws[i].ticket < ws[j].ticket
  }

  /** The queue is in arrival order and holds only requests that are still waiting. */
  ghost predicate QueueOk(s: Sys) {
    && Ascending(s.pool.waiters)
    && (forall w | w in s.pool.waiters ::
          && w.ticket in s.requests && s.requests[w.ticket].phase.Awaiting?
          && s.requests[w.ticket].eligible == w.eligible
          && w.ticket in s.pool.futures && !s.pool.futures[w.ticket].Resolved?)
  }

  /** Every request that waits on a pending future is in the queue, uninterrupted. */
  ghost predicate RequestOk(s: Sys, t: Ticket)
    requires t in s.requests
  {
    && t < s.next
    && (s.requests[t].phase.Awaiting? ==>
          && t in s.pool.futures
          && (s.pool.futures[t].Pending? ==>
                !s.requests[t].phase.interrupted && Waiter(t, s.requests[t].eligible) in s.pool.waiters)
          && (s.pool.futures[t].Cancelled? ==> s.requests[t].phase.interrupted))
  }

  ghost predicate Inv(s: Sys) {
    Conserved(s) && QueueOk(s) && forall t | t in s.requests :: RequestOk(s, t)
  }

  // ---------- changing one request's slot ----------

  /** The holders of `n` after one request's slot changed. */
  lemma HoldersChange(s: Sys, s': Sys, t: Ticket, n: NodeId)
    requires forall q: Ticket | q != t :: Slot(s', q) == Slot(s, q)
    ensures Slot(s', t).Some? && Slot(s', t).value.id == n ==> Holders(s', n) == Holders(s, n) + {t}
    ensures !(Slot(s', t).Some? && Slot(s', t).value.id == n) ==> Holders(s', n) == Holders(s, n) - {t}
  {
    forall q: Ticket | q != t ensures q in Holders(s', n) <==> q in Holders(s, n) {
      assert Slot(s', q) == Slot(s, q);
    }
  }

  lemma HoldersGain(s: Sys, s': Sys, t: Ticket, r: NodeRecord)
    requires Conserved(s) && Slot(s, t).None? && Slot(s', t) == Some(r)
    requires forall q: Ticket | q != t :: Slot(s', q) == Slot(s, q)
    requires s'.pool.inflight == Take(s.pool, r).inflight
    ensures Conserved(s')
  {
    forall n ensures Load(s'.pool.inflight, n) == |Holders(s', n)| {
      HoldersChange(s, s', t, n);
      assert Load(s.pool.inflight, n) == |Holders(s, n)|;
      assert t !in Holders(s, n);
    }
  }

  /** The `> 0` guard in `release` never fails for a slot that is held. */
  lemma HolderCounted(s: Sys, t: Ticket)
    requires Conserved(s) && Slot(s, t).Some?
    ensures Load(s.pool.inflight, Slot(s, t).value.id) > 0
  {
    assert t in Holders(s, Slot(s, t).value.id);
  }

  lemma HoldersLose(s: Sys, s': Sys, t: Ticket, n: NodeId)
    requires Conserved(s) && Slot(s, t).Some? && Slot(s, t).value.id == n && Slot(s', t).None?
    requires forall q: Ticket | q != t :: Slot(s', q) == Slot(s, q)
    requires s'.pool.inflight == GiveBack(s.pool, n).inflight
    ensures Conserved(s')
  {
    HolderCounted(s, t);
    forall m ensures Load(s'.pool.inflight, m) == |Holders(s', m)| {
      HoldersChange(s, s', t, m);
      assert Load(s.pool.inflight, m) == |Holders(s, m)|;
      assert m == n <==> t in Holders(s, m);
    }
  }

  lemma HoldersKeep(s: Sys, s': Sys)
    requires Conserved(s) && s'.pool.inflight == s.pool.inflight
    requires forall q: Ticket :: Slot(s', q) == Slot(s, q)
    ensures Conserved(s')
  {
    forall n ensures Load(s'.pool.inflight, n) == |Holders(s', n)| {
      HoldersChange(s, s', 0, n);
      assert Load(s.pool.inflight, n) == |Holders(s, n)|;
      assert 0 in Holders(s, n) <==> Slot(s', 0).Some? && Slot(s', 0).value.id == n;
      assert Holders(s', n) == Holders(s, n);
    }
  }

  // ---------- a promotion pass, turn by turn ----------

  function Drop(ws: seq<Waiter>, k: nat): seq<Waiter>
    requires k < |ws|
  {
    ws[..k] + ws[k + 1..]
  }

  /** A waiter whose future is done can leave the queue. */
  lemma DropDead(s: Sys, s': Sys, k: nat)
    requires Inv(s) && k < |s.pool.waiters| && !Live(s.pool.futures, s.pool.waiters[k].ticket)
    requires s' == s.(pool := s.pool.(waiters := Drop(s.pool.waiters, k)))
    ensures Inv(s')
  {
    HoldersKeep(s, s');
    DropKeeps(s.pool.waiters, k);
    assert QueueOk(s');
    forall t | t in s'.requests ensures RequestOk(s', t) {
      assert RequestOk(s, t);
    }
  }

  /** Removing one entry keeps the order and the other entries. */
  lemma DropKeeps(ws: seq<Waiter>, k: nat)
    requires k < |ws| && Ascending(ws)
    ensures var d := Drop(ws, k);
      && Ascending(d)
      && (forall w :: w in d <==> w in ws && w != ws[k])
      && (forall w :: w in d ==> w.ticket != ws[k].ticket)
  {
    var d := Drop(ws, k);
    assert forall i | 0 <= i < |d| :: d[i] == if i < k then ws[i] else ws[i + 1];
    forall w | w in ws && w != ws[k] ensures w in d {
      var i :| 0 <= i < |ws| && ws[i] == w;
      assert w == d[if i < k then i else i - 1];
    }
  }

  /** A waiter whose future is pending can be given a slot. */
  lemma GrantWaiter(s: Sys, s': Sys, k: nat, r: NodeRecord)
    requires Inv(s) && k < |s.pool.waiters| && Live(s.pool.futures, s.pool.waiters[k].ticket)
    requires var t := s.pool.waiters[k].ticket;
      s' == s.(pool := Take(s.pool, r).(futures := s.pool.futures[t := Resolved(r)], waiters := Drop(s.pool.waiters, k)))
    ensures Inv(s')
    ensures Waits(s, s.pool.waiters[k].ticket) && Slot(s', s.pool.waiters[k].ticket) == Some(r)
    ensures forall q: Ticket | q != s.pool.waiters[k].ticket :: Slot(s', q) == Slot(s, q)
  {
    var w := s.pool.waiters[k];
    assert w in s.pool.waiters;
    HoldersGain(s, s', w.ticket, r);
    DropKeeps(s.pool.waiters, k);
    assert QueueOk(s');
    forall t | t in s'.requests ensures RequestOk(s', t) {
      assert RequestOk(s, t);
    }
  }

  /** What a grant promises: the worker was routable, accepted, below capacity at that
      moment, and wanted by no older request among `ahead` that is still waiting. */
  ghost predicate Fair(v: View, s: Sys, t: Ticket, r: NodeRecord, ahead: seq<Waiter>) {
    && t in s.requests
    && r in v.records && Routable(v, r) && Accepts(s.requests[t].eligible, r)
    && Load(s.pool.inflight, r.id) <= Capacity(s.pool, r)
    && forall w | w in ahead && w.ticket < t :: !Accepts(w.eligible, r)
  }

  /** What holds after `i` turns, with `kept` waiters still queued. */
  ghost predicate PassOk(s: Sys, v: View, m: Sys, kept: seq<Waiter>, i: nat)
    requires i <= |s.pool.waiters|
  {
    && Inv(m) && m.requests == s.requests && m.next == s.next
    && m.pool.defaultCapacity == s.pool.defaultCapacity
    && m.pool.waiters == kept + s.pool.waiters[i..]
    && Starved(v, m.pool, kept)
    && (forall t: Ticket | Slot(s, t).Some? :: Slot(m, t) == Slot(s, t))
    && (forall t: Ticket | Slot(s, t).None? && Slot(m, t).Some? :: Fair(v, m, t, Slot(m, t).value, kept))
    && (forall t: Ticket, w | Slot(s, t).None? && Slot(m, t).Some? && w in s.pool.waiters[i..] :: t < w.ticket)
  }

  lemma TurnDrops(s: Sys, v: View, m: Sys, kept: seq<Waiter>, i: nat, m': Sys)
    requires i < |s.pool.waiters| && PassOk(s, v, m, kept, i)
    requires !Live(m.pool.futures, s.pool.waiters[i].ticket)
    requires m' == m.(pool := m.pool.(waiters := kept + s.pool.waiters[i + 1..]))
    ensures PassOk(s, v, m', kept, i + 1)
  {
    assert m.pool.waiters[|kept|] == s.pool.waiters[i];
    assert Drop(m.pool.waiters, |kept|) == kept + s.pool.waiters[i + 1..];
    DropDead(m, m', |kept|);
    SameSlots(m, m');
    SuffixMembers(s.pool.waiters, i);
    forall w, r | w in kept ensures !CanUse(v, m'.pool, w.eligible, r) {
      assert !CanUse(v, m.pool, w.eligible, r);
    }
  }

  lemma SameSlots(m: Sys, m': Sys)
    requires m'.requests == m.requests && m'.pool.futures == m.pool.futures
    ensures forall t: Ticket :: Slot(m', t) == Slot(m, t)
  {
  }

  lemma SuffixMembers(ws: seq<Waiter>, i: nat)
    requires i < |ws|
    ensures forall w :: w in ws[i + 1..] ==> w in ws[i..]
  {
    assert ws[i..] == [ws[i]] + ws[i + 1..];
  }

  lemma TurnKeeps(s: Sys, v: View, m: Sys, kept: seq<Waiter>, i: nat)
    requires i < |s.pool.waiters| && PassOk(s, v, m, kept, i)
    requires Starved(v, m.pool, kept + [s.pool.waiters[i]])
    ensures PassOk(s, v, m, kept + [s.pool.waiters[i]], i + 1)
  {
    var ws := s.pool.waiters;
    assert m.pool.waiters == kept + [ws[i]] + ws[i + 1..];
    SuffixMembers(ws, i);
    assert ws[i] in ws[i..];
    forall t: Ticket | Slot(s, t).None? && Slot(m, t).Some?
      ensures Fair(v, m, t, Slot(m, t).value, kept + [ws[i]])
    {
      assert Fair(v, m, t, Slot(m, t).value, kept);
    }
  }

  lemma TurnGrants(s: Sys, v: View, m: Sys, kept: seq<Waiter>, i: nat, r: NodeRecord, m': Sys)
    requires i < |s.pool.waiters| && DistinctIds(v.records) && QueueOk(s) && PassOk(s, v, m, kept, i)
    requires Live(m.pool.futures, s.pool.waiters[i].ticket)
    requires CanUse(v, m.pool, s.pool.waiters[i].eligible, r)
    requires var t := s.pool.waiters[i].ticket;
      m' == m.(pool := Take(m.pool, r).(futures := m.pool.futures[t := Resolved(r)], waiters := kept + s.pool.waiters[i + 1..]))
    requires Starved(v, m'.pool, kept)
    ensures PassOk(s, v, m', kept, i + 1)
  {
    var ws := s.pool.waiters;
    var w := ws[i];
    assert m.pool.waiters[|kept|] == w;
    assert Drop(m.pool.waiters, |kept|) == kept + ws[i + 1..];
    GrantWaiter(m, m', |kept|, r);
    SuffixMembers(ws, i);
    assert Slot(m, w.ticket).None?;
    forall t: Ticket | Slot(s, t).None? && Slot(m', t).Some?
      ensures Fair(v, m', t, Slot(m', t).value, kept)
      ensures forall u | u in ws[i + 1..] :: t < u.ticket
    {
      if t == w.ticket {
        assert forall u | u in kept :: !CanUse(v, m.pool, u.eligible, r);
      } else {
        assert Fair(v, m, t, Slot(m, t).value, kept);
      }
    }
  }

  /** One turn of the loop keeps everything, whatever happens to the waiter. */
  lemma TurnOk(s: Sys, v: View, m: Sys, kept: seq<Waiter>, i: nat, pick: nat)
    requires i < |s.pool.waiters| && DistinctIds(v.records) && QueueOk(s) && PassOk(s, v, m, kept, i)
    ensures var p := PromoteOne(v, m.pool.(waiters := kept), s.pool.waiters[i], pick);
      PassOk(s, v, m.(pool := p.(waiters := p.waiters + s.pool.waiters[i + 1..])), p.waiters, i + 1)
  {
    var w := s.pool.waiters[i];
    var p0 := m.pool.(waiters := kept);
    var p := PromoteOne(v, p0, w, pick);
    var m' := m.(pool := p.(waiters := p.waiters + s.pool.waiters[i + 1..]));
    StarvedLater(v, m, kept, m', w, pick);
    if !Live(p0.futures, w.ticket) {
      TurnDrops(s, v, m, kept, i, m');
    } else if Available(v, p0, w.eligible) != [] {
      var r := Choice(Available(v, p0, w.eligible), pick);
      CanUseSame(v, p0, m.pool, w.eligible, r);
      TurnGrants(s, v, m, kept, i, r, m');
    } else {
      assert kept + s.pool.waiters[i..] == kept + [w] + s.pool.waiters[i + 1..];
      assert m' == m;
      TurnKeeps(s, v, m, kept, i);
    }
  }

  lemma CanUseSame(v: View, p: PoolState, p': PoolState, e: Eligible, r: NodeRecord)
    requires r in Available(v, p, e) && p'.inflight == p.inflight && p'.defaultCapacity == p.defaultCapacity
    ensures CanUse(v, p', e, r)
  {
    assert CanUse(v, p, e, r);
  }

  lemma StarvedLater(v: View, m: Sys, kept: seq<Waiter>, m': Sys, w: Waiter, pick: nat)
    requires Starved(v, m.pool, kept)
    requires var p := PromoteOne(v, m.pool.(waiters := kept), w, pick);
      m'.pool.inflight == p.inflight && m'.pool.defaultCapacity == p.defaultCapacity
    ensures Starved(v, m'.pool, PromoteOne(v, m.pool.(waiters := kept), w, pick).waiters)
  {
    var p0 := m.pool.(waiters := kept);
    StarvedSame(v, m.pool, p0, kept);
    TurnConservesWork(v, p0, w, pick);
    StarvedSame(v, PromoteOne(v, p0, w, pick), m'.pool, PromoteOne(v, p0, w, pick).waiters);
  }

  /** Starvation depends on the load only. */
  lemma StarvedSame(v: View, p: PoolState, p': PoolState, ws: seq<Waiter>)
    requires Starved(v, p, ws) && p.inflight == p'.inflight && p.defaultCapacity == p'.defaultCapacity
    ensures Starved(v, p', ws)
  {
    StillStarved(v, p, p', ws);
  }

  /** The queue and the system after `i` turns: kept waiters, then the rest. */
  ghost function Mid(s: Sys, v: View, picks: seq<nat>, i: nat): (PoolState, Sys)
    requires |picks| == |s.pool.waiters| && i <= |picks|
  {
    var p := PromoteAll(v, s.pool.(waiters := []), s.pool.waiters[..i], picks[..i]);
    (p, s.(pool := p.(waiters := p.waiters + s.pool.waiters[i..])))
  }

  lemma MidStart(s: Sys, v: View, picks: seq<nat>)
    requires |picks| == |s.pool.waiters|
    ensures Mid(s, v, picks, 0) == (s.pool.(waiters := []), s)
  {
    assert [] + s.pool.waiters[0..] == s.pool.waiters;
  }

  lemma MidStep(s: Sys, v: View, picks: seq<nat>, i: nat)
    requires |picks| == |s.pool.waiters| && i < |picks|
    ensures var (p, m), (p', m') := Mid(s, v, picks, i), Mid(s, v, picks, i + 1);
      && m.pool.(waiters := p.waiters) == p
      && p' == PromoteOne(v, p, s.pool.waiters[i], picks[i])
      && m' == m.(pool := p'.(waiters := p'.waiters + s.pool.waiters[i + 1..]))
  {
    var ws := s.pool.waiters;
    assert ws[..i + 1][..i] == ws[..i] && picks[..i + 1][..i] == picks[..i];
  }

  lemma {:induction false} TurnsOk(s: Sys, v: View, picks: seq<nat>, i: nat) returns (p: PoolState, m: Sys)
    requires |picks| == |s.pool.waiters| && i <= |picks| && DistinctIds(v.records) && Inv(s)
    ensures (p, m) == Mid(s, v, picks, i) && PassOk(s, v, m, p.waiters, i)
  {
    if i == 0 {
      MidStart(s, v, picks);
      p, m := s.pool.(waiters := []), s;
    } else {
      var p0, m0 := TurnsOk(s, v, picks, i - 1);
      var w := s.pool.waiters[i - 1];
      MidStep(s, v, picks, i - 1);
      TurnOk(s, v, m0, p0.waiters, i - 1, picks[i - 1]);
      p := PromoteOne(v, p0, w, picks[i - 1]);
      m := m0.(pool := p.(waiters := p.waiters + s.pool.waiters[i..]));
    }
  }

  /** NO OVERTAKING: whoever gained a slot between `s` and `s'` got a routable worker it
      accepts, within that worker's capacity, and no older request still waiting accepts it. */
  ghost predicate NoOvertaking(v: View, s: Sys, s': Sys) {
    forall t: Ticket | Slot(s, t).None? && Slot(s', t).Some? ::
      var r := Slot(s', t).value;
      && t in s'.requests
      && r in v.records && Routable(v, r) && Accepts(s'.requests[t].eligible, r)
      && Load(s'.pool.inflight, r.id) <= Capacity(s'.pool, r)
      && forall q: Ticket | q < t && Waits(s', q) :: !Accepts(s'.requests[q].eligible, r)
  }

  /** WORK CONSERVATION: no waiting request accepts a worker with a free slot. */
  ghost predicate WorkConserving(v: View, s: Sys) {
    forall q: Ticket, r | Waits(s, q) :: !CanUse(v, s.pool, s.requests[q].eligible, r)
  }

  lemma PassOutcome(s: Sys, v: View, picks: seq<nat>)
    requires |picks| == |s.pool.waiters| && DistinctIds(v.records) && Inv(s)
    ensures var s' := s.(pool := Promoted(v, s.pool, picks));
      && Inv(s') && NoOvertaking(v, s, s') && WorkConserving(v, s')
      && (forall t: Ticket | Slot(s, t).Some? :: Slot(s', t) == Slot(s, t))
      && Starved(v, s'.pool, s'.pool.waiters)
  {
    var n := |picks|;
    var p, m := TurnsOk(s, v, picks, n);
    assert s.pool.waiters[..n] == s.pool.waiters && picks[..n] == picks;
    assert p.waiters + s.pool.waiters[n..] == p.waiters;
    var s' := s.(pool := Promoted(v, s.pool, picks));
    assert m == s';
    forall q: Ticket | Waits(s', q) ensures Waiter(q, s'.requests[q].eligible) in p.waiters {
      assert RequestOk(s', q);
    }
  }

  // ---------- each step ----------

  /** A request that stops holding its slot: the slot is counted back. */
  lemma GiveBackKeeps(s: Sys, t: Ticket)
    requires Inv(s) && Slot(s, t).Some?
    ensures var s' := SetPhase(s, t, Finished).(pool := GiveBack(s.pool, Slot(s, t).value.id));
      && Inv(s') && Slot(s', t).None?
      && forall q: Ticket | q != t :: Slot(s', q) == Slot(s, q)
  {
    var s' := SetPhase(s, t, Finished).(pool := GiveBack(s.pool, Slot(s, t).value.id));
    HoldersLose(s, s', t, Slot(s, t).value.id);
    assert QueueOk(s');
    forall q | q in s'.requests ensures RequestOk(s', q) {
      assert RequestOk(s, q);
    }
  }

  lemma InterruptKeeps(s: Sys, t: Ticket)
    requires Inv(s) && Enabled(s, Interrupt(t))
    ensures var s' := Next(s, Interrupt(t)); Inv(s') && forall q: Ticket :: Slot(s', q) == Slot(s, q)
  {
    var s' := Next(s, Interrupt(t));
    assert RequestOk(s, t);
    HoldersKeep(s, s');
    assert QueueOk(s');
    forall q | q in s'.requests ensures RequestOk(s', q) {
      assert RequestOk(s, q);
    }
  }

  /** The coroutine finds its grant and starts forwarding: the slot stays its own. */
  lemma ResumeGrantedKeeps(s: Sys, t: Ticket)
    requires Inv(s) && t in s.requests && s.requests[t].phase.Awaiting?
    requires t in s.pool.futures && s.pool.futures[t].Resolved?
    ensures var s' := SetPhase(s, t, Holding(s.pool.futures[t].record));
      Inv(s') && forall q: Ticket :: Slot(s', q) == Slot(s, q)
  {
    var s' := SetPhase(s, t, Holding(s.pool.futures[t].record));
    HoldersKeep(s, s');
    assert QueueOk(s');
    forall q | q in s'.requests ensures RequestOk(s', q) {
      assert RequestOk(s, q);
    }
  }

  lemma AscendingCons(w: Waiter, ws: seq<Waiter>)
    requires Ascending(ws) && forall u | u in ws :: w.ticket < u.ticket
    ensures Ascending([w] + ws)
  {
    var d := [w] + ws;
    forall i, j | 0 <= i < j < |d| ensures d[i].ticket < d[j].ticket {
      assert d[j] == ws[j - 1] && ws[j - 1] in ws;
      assert i > 0 ==> d[i] == ws[i - 1];
    }
  }

  /** Without a ticket, an ordered queue is still ordered. */
  lemma {:induction false} WithoutAscends(ws: seq<Waiter>, t: Ticket)
    requires Ascending(ws)
    ensures Ascending(Without(ws, t))
  {
    if ws != [] {
      assert forall i | 0 <= i < |ws[1..]| :: ws[1..][i] == ws[i + 1];
      WithoutAscends(ws[1..], t);
      forall u | u in ws[1..] ensures ws[0].ticket < u.ticket {
        var j :| 0 <= j < |ws[1..]| && ws[1..][j] == u;
        assert ws[j + 1] == u;
      }
      AscendingCons(ws[0], Without(ws[1..], t));
    }
  }

  /** A timed-out request leaves the queue. */
  lemma LeaveKeeps(s: Sys, t: Ticket)
    requires Inv(s) && t in s.requests && s.requests[t].phase.Awaiting? && Slot(s, t).None?
    ensures var s' := SetPhase(s, t, Finished).(pool := s.pool.(waiters := Without(s.pool.waiters, t)));
      Inv(s') && forall q: Ticket :: Slot(s', q) == Slot(s, q)
  {
    var ws := Without(s.pool.waiters, t);
    var s' := SetPhase(s, t, Finished).(pool := s.pool.(waiters := ws));
    assert forall q: Ticket :: Slot(s', q) == Slot(s, q);
    HoldersKeep(s, s');
    WithoutAscends(s.pool.waiters, t);
    assert QueueOk(s') by {
      forall w | w in ws ensures w.ticket in s.requests && w.ticket != t && s'.requests[w.ticket] == s.requests[w.ticket] {
        assert w in s.pool.waiters;
      }
    }
    forall q | q in s'.requests ensures RequestOk(s', q) {
      assert RequestOk(s, q);
    }
  }

  lemma {:induction false} WithoutAbsent(ws: seq<Waiter>, t: Ticket)
    requires !QueuedTicket(ws, t)
    ensures Without(ws, t) == ws
  {
    if ws != [] {
      assert ws[0].ticket != t;
      forall i | 0 <= i < |ws[1..]| ensures ws[1..][i].ticket != t {
        assert ws[i + 1].ticket != t;
      }
      WithoutAbsent(ws[1..], t);
    }
  }

  /** The coroutine finds its timeout or cancellation: whether it had been granted a slot or
      not, it holds none afterwards. */
  lemma ResumeInterruptedKeeps(s: Sys, t: Ticket, v: View, picks: seq<nat>)
    requires Inv(s) && Enabled(s, Resume(t, v, picks)) && s.requests[t].phase.interrupted
    ensures var s' := Next(s, Resume(t, v, picks));
      && Inv(s') && Slot(s', t).None? && NoOvertaking(v, s, s')
      && (s.pool.futures[t].Resolved? ==> WorkConserving(v, s'))
      && (forall q: Ticket | q != t && Slot(s, q).Some? :: Slot(s', q) == Slot(s, q))
  {
    assert RequestOk(s, t);
    if s.pool.futures[t].Resolved? {
      assert !QueuedTicket(s.pool.waiters, t) by {
        forall i | 0 <= i < |s.pool.waiters| ensures s.pool.waiters[i].ticket != t {
          assert s.pool.waiters[i] in s.pool.waiters;
        }
      }
      GiveBackKeeps(s, t);
      var s1 := SetPhase(s, t, Finished).(pool := GiveBack(s.pool, Slot(s, t).value.id));
      PassOutcome(s1, v, picks);
    } else {
      LeaveKeeps(s, t);
      if !QueuedTicket(s.pool.waiters, t) {
        WithoutAbsent(s.pool.waiters, t);
      }
    }
  }

  function Admit(s: Sys, e: Eligible, p: Phase, pool: PoolState): Sys {
    Sys(pool, s.requests[s.next := Request(e, p)], s.next + 1)
  }

  /** A new request changes nobody else. */
  lemma AdmitLocal(s: Sys, e: Eligible, p: Phase, pool: PoolState)
    requires Inv(s)
    requires forall t | t != s.next :: (t in pool.futures <==> t in s.pool.futures) && (t in s.pool.futures ==> pool.futures[t] == s.pool.futures[t])
    ensures var s' := Admit(s, e, p, pool);
      && Slot(s, s.next).None?
      && (forall q: Ticket | q != s.next :: Slot(s', q) == Slot(s, q) && (Waits(s', q) <==> Waits(s, q)))
      && (forall q: Ticket | q in s.requests :: q < s.next && s'.requests[q] == s.requests[q])
  {
    assert forall q | q in s.requests :: RequestOk(s, q);
    assert s.next !in s.requests;
  }

  lemma AdmitHolding(s: Sys, v: View, e: Eligible, r: NodeRecord)
    requires Inv(s) && WorkConserving(v, s)
    ensures var s' := Admit(s, e, Holding(r), Take(s.pool, r)); Inv(s') && WorkConserving(v, s')
  {
    var s' := Admit(s, e, Holding(r), Take(s.pool, r));
    AdmitLocal(s, e, Holding(r), s'.pool);
    HoldersGain(s, s', s.next, r);
    assert QueueOk(s');
    forall q | q in s'.requests ensures RequestOk(s', q) {
      if q != s.next {
        assert RequestOk(s, q);
      }
    }
    forall q: Ticket, x | Waits(s', q) ensures !CanUse(v, s'.pool, s'.requests[q].eligible, x) {
      assert !CanUse(v, s.pool, s.requests[q].eligible, x);
    }
  }

  lemma AdmitFinished(s: Sys, v: View, e: Eligible)
    requires Inv(s) && WorkConserving(v, s)
    ensures var s' := Admit(s, e, Finished, s.pool); Inv(s') && WorkConserving(v, s')
  {
    var s' := Admit(s, e, Finished, s.pool);
    AdmitLocal(s, e, Finished, s.pool);
    assert Slot(s', s.next).None?;
    HoldersKeep(s, s');
    assert QueueOk(s');
    forall q | q in s'.requests ensures RequestOk(s', q) {
      if q != s.next {
        assert RequestOk(s, q);
      }
    }
    assert forall q: Ticket | Waits(s', q) :: Waits(s, q);
  }

  lemma AdmitQueued(s: Sys, v: View, e: Eligible)
    requires Inv(s) && WorkConserving(v, s) && forall r :: !CanUse(v, s.pool, e, r)
    ensures var pool := s.pool.(futures := s.pool.futures[s.next := Pending], waiters := s.pool.waiters + [Waiter(s.next, e)]);
      var s' := Admit(s, e, Awaiting(false), pool);
      Inv(s') && WorkConserving(v, s') && Slot(s', s.next).None?
  {
    var ws := s.pool.waiters;
    var pool := s.pool.(futures := s.pool.futures[s.next := Pending], waiters := ws + [Waiter(s.next, e)]);
    var s' := Admit(s, e, Awaiting(false), pool);
    AdmitLocal(s, e, Awaiting(false), pool);
    HoldersKeep(s, s');
    assert QueueOk(s') by {
      forall w | w in ws ensures w.ticket < s.next && s'.requests[w.ticket] == s.requests[w.ticket] {
      }
      assert forall i | 0 <= i < |ws| :: ws[i] in ws;
    }
    forall q | q in s'.requests ensures RequestOk(s', q) {
      if q != s.next {
        assert RequestOk(s, q);
      }
    }
    forall q: Ticket, r | Waits(s', q) ensures !CanUse(v, s'.pool, s'.requests[q].eligible, r) {
      assert q == s.next || !CanUse(v, s.pool, s.requests[q].eligible, r);
      assert !CanUse(v, s.pool, e, r);
    }
  }

  /** Admitting one more request after a fair pass leaves every grant fair. */
  lemma FairThenAdmit(v: View, s: Sys, s1: Sys, e: Eligible, p: Phase, pool: PoolState)
    requires DistinctIds(v.records) && Inv(s1) && s1.next == s.next && s1.requests == s.requests
    requires NoOvertaking(v, s, s1) && WorkConserving(v, s1) && Slot(s, s.next).None?
    requires pool.defaultCapacity == s1.pool.defaultCapacity
    requires forall t | t != s.next :: (t in pool.futures <==> t in s1.pool.futures) && (t in s1.pool.futures ==> pool.futures[t] == s1.pool.futures[t])
    requires p.Holding? ==> CanUse(v, s1.pool, e, p.record) && pool == Take(s1.pool, p.record)
    requires !p.Holding? ==> pool.inflight == s1.pool.inflight && Slot(Admit(s1, e, p, pool), s.next).None?
    ensures NoOvertaking(v, s, Admit(s1, e, p, pool))
  {
    var s' := Admit(s1, e, p, pool);
    AdmitLocal(s1, e, p, pool);
    forall t: Ticket | Slot(s, t).None? && Slot(s', t).Some?
      ensures var r := Slot(s', t).value;
        && t in s'.requests && r in v.records && Routable(v, r) && Accepts(s'.requests[t].eligible, r)
        && Load(s'.pool.inflight, r.id) <= Capacity(s'.pool, r)
        && forall q: Ticket | q < t && Waits(s', q) :: !Accepts(s'.requests[q].eligible, r)
    {
      if t == s.next {
        forall q: Ticket | q < t && Waits(s', q) ensures !Accepts(s'.requests[q].eligible, p.record) {
          assert !CanUse(v, s1.pool, s1.requests[q].eligible, p.record);
        }
      }
    }
  }

  lemma AcquireKeeps(s: Sys, v: View, e: Eligible, picks: seq<nat>, pick: nat)
    requires Inv(s) && Enabled(s, Acquire(v, e, picks, pick))
    ensures var s' := Next(s, Acquire(v, e, picks, pick));
      && Inv(s') && NoOvertaking(v, s, s') && WorkConserving(v, s')
      && (forall q: Ticket | Slot(s, q).Some? :: Slot(s', q) == Slot(s, q))
  {
    PassOutcome(s, v, picks);
    var s1 := s.(pool := Promoted(v, s.pool, picks));
    var (pool, adm) := Enter(v, s1.pool, s.next, e, pick);
    var avail := Available(v, s1.pool, e);
    var p := match adm case Admitted(r) => Holding(r) case NoWorkers => Finished case Queued => Awaiting(false);
    assert Next(s, Acquire(v, e, picks, pick)) == Admit(s1, e, p, pool);
    AdmitLocal(s, e, p, s.pool);
    AdmitLocal(s1, e, p, pool);
    match adm {
      case Admitted(r) => AdmitHolding(s1, v, e, r);
      case NoWorkers => AdmitFinished(s1, v, e);
      case Queued =>
        assert forall r :: r !in avail;
        AdmitQueued(s1, v, e);
    }
    FairThenAdmit(v, s, s1, e, p, pool);
  }

  lemma ReleaseKeeps(s: Sys, t: Ticket, v: View, picks: seq<nat>)
    requires Inv(s) && Enabled(s, Release(t, v, picks))
    ensures var s' := Next(s, Release(t, v, picks));
      && Inv(s') && NoOvertaking(v, s, s') && WorkConserving(v, s') && Slot(s', t).None?
      && (forall q: Ticket | q != t && Slot(s, q).Some? :: Slot(s', q) == Slot(s, q))
  {
    GiveBackKeeps(s, t);
    var s1 := SetPhase(s, t, Finished).(pool := GiveBack(s.pool, Slot(s, t).value.id));
    PassOutcome(s1, v, picks);
    assert Slot(s1, t).None? && s1.requests[t].phase == Finished;
  }

  // ---------- whole runs ----------

  ghost predicate Legal(capacity: int, es: seq<Event>)
    decreases |es|, 0
  {
    es == [] || (Legal(capacity, es[..|es| - 1]) && Enabled(Run(capacity, es[..|es| - 1]), es[|es| - 1]))
  }

  /** The system after a run, starting with an empty pool. */
  ghost function Run(capacity: int, es: seq<Event>): Sys
    requires Legal(capacity, es)
    decreases |es|, 1
  {
    if es == [] then Init(capacity) else Next(Run(capacity, es[..|es| - 1]), es[|es| - 1])
  }

  function ViewOf(e: Event): View {
    if e.Interrupt? then View([], map[]) else e.view
  }

  /** The events whose critical section runs a promotion pass. */
  ghost predicate Promotes(s: Sys, e: Event) {
    match e
    case Acquire(_, _, _, _) => true
    case Interrupt(_) => false
    case Resume(t, _, _) => t in s.requests && s.requests[t].phase == Awaiting(true)
                            && t in s.pool.futures && s.pool.futures[t].Resolved?
    case Release(_, _, _) => true
    case Promote(_, _) => true
  }

  /** The one request an event may take a slot away from. */
  predicate Loses(s: Sys, e: Event, t: Ticket) {
    match e
    case Resume(u, _, _) => t == u && t in s.requests && s.requests[t].phase == Awaiting(true)
    case Release(u, _, _) => t == u
    case _ => false
  }

  lemma StepKeeps(s: Sys, e: Event)
    requires Inv(s) && Enabled(s, e)
    ensures var s' := Next(s, e);
      && Inv(s')
      && NoOvertaking(ViewOf(e), s, s')
      && (Promotes(s, e) ==> WorkConserving(ViewOf(e), s'))
      && (forall t: Ticket | Loses(s, e, t) :: Slot(s', t).None?)
      && (forall t: Ticket | Slot(s, t).Some? && !Loses(s, e, t) :: Slot(s', t) == Slot(s, t))
  {
    match e
    case Acquire(v, eligible, picks, pick) => AcquireKeeps(s, v, eligible, picks, pick);
    case Interrupt(t) => InterruptKeeps(s, t);
    case Resume(t, v, picks) =>
      if s.requests[t].phase.interrupted {
        ResumeInterruptedKeeps(s, t, v, picks);
      } else {
        assert RequestOk(s, t);
        ResumeGrantedKeeps(s, t);
      }
    case Release(t, v, picks) => ReleaseKeeps(s, t, v, picks);
    case Promote(v, picks) => PassOutcome(s, v, picks);
  }

  lemma {:induction false} RunKeeps(capacity: int, es: seq<Event>)
    requires Legal(capacity, es)
    ensures Inv(Run(capacity, es))
  {
    if es == [] {
      var s := Init(capacity);
      assert forall n :: Holders(s, n) == {};
    } else {
      RunKeeps(capacity, es[..|es| - 1]);
      StepKeeps(Run(capacity, es[..|es| - 1]), es[|es| - 1]);
    }
  }

  /** CONSERVATION: in every run, against any registry, a worker's in-flight count is the
      number of requests holding a slot on it, grants not yet resumed included. */
  lemma SlotsConserved(capacity: int, es: seq<Event>, n: NodeId)
    requires Legal(capacity, es)
    ensures var s := Run(capacity, es); Load(s.pool.inflight, n) == |Holders(s, n)|
  {
    RunKeeps(capacity, es);
  }

  /** NO OVERTAKING and WORK CONSERVATION at every step of every run; and a step takes a
      slot from nobody but its own request. */
  lemma FairInEveryRun(capacity: int, es: seq<Event>, e: Event)
    requires Legal(capacity, es) && Enabled(Run(capacity, es), e)
    ensures var s := Run(capacity, es);
      var s' := Next(s, e);
      && NoOvertaking(ViewOf(e), s, s')
      && (Promotes(s, e) ==> WorkConserving(ViewOf(e), s'))
      && (forall t: Ticket | Slot(s, t).Some? && !Loses(s, e, t) :: Slot(s', t) == Slot(s, t))
  {
    RunKeeps(capacity, es);
    StepKeeps(Run(capacity, es), e);
  }

  /** The `> 0` guard of `release` never fails: in every run, whoever gives a slot back,
      at the end of a response or after losing a race with its timeout, is counted. */
  lemma ReleaseGuardHolds(capacity: int, es: seq<Event>, t: Ticket)
    requires Legal(capacity, es) && Slot(Run(capacity, es), t).Some?
    ensures var s := Run(capacity, es); Load(s.pool.inflight, Slot(s, t).value.id) > 0
  {
    RunKeeps(capacity, es);
    HolderCounted(Run(capacity, es), t);
  }

  /** WHAT AN ARRIVING REQUEST GETS, in every run, against the pool `p` its promotion pass
      leaves: a slot iff a worker it wants is below its cap; a refusal iff no worker it wants
      is even listed; otherwise a place at the end of the queue, on a pending future. */
  lemma ArrivalOutcome(capacity: int, es: seq<Event>, v: View, e: Eligible, picks: seq<nat>, pick: nat)
    requires Legal(capacity, es) && Enabled(Run(capacity, es), Acquire(v, e, picks, pick))
    ensures var s, t := Run(capacity, es), Run(capacity, es).next;
      var p, s' := Promoted(v, s.pool, picks), Next(s, Acquire(v, e, picks, pick));
      && t !in s.requests && t in s'.requests && s'.requests[t].eligible == e
      && (Slot(s', t).Some? <==> exists r :: CanUse(v, p, e, r))
      && (Slot(s', t).Some? ==> CanUse(v, p, e, Slot(s', t).value))
      && (s'.requests[t].phase.Finished? <==> forall r :: !Wanted(v, e, r))
      && (s'.requests[t].phase == Awaiting(false) <==> (exists r :: Wanted(v, e, r)) && forall r :: !CanUse(v, p, e, r))
      && s'.pool.waiters == p.waiters + (if s'.requests[t].phase.Awaiting? then [Waiter(t, e)] else [])
      && (s'.requests[t].phase.Awaiting? ==> Live(s'.pool.futures, t))
  {
    RunKeeps(capacity, es);
    var s := Run(capacity, es);
    assert forall q | q in s.requests :: RequestOk(s, q);
    EnterCases(v, Promoted(v, s.pool, picks), s.next, e, pick);
  }

  lemma FinishedForGood(s: Sys, e: Event, t: Ticket)
    requires Inv(s) && Enabled(s, e) && t in s.requests && s.requests[t].phase.Finished?
    ensures var s' := Next(s, e); t in s'.requests && s'.requests[t].phase.Finished?
  {
    assert RequestOk(s, t);
  }

  lemma {:induction false} LegalPrefix(capacity: int, es: seq<Event>, more: seq<Event>)
    requires Legal(capacity, es + more)
    ensures Legal(capacity, es)
  {
    if more == [] {
      assert es + more == es;
    } else {
      var n := |more| - 1;
      assert (es + more)[..|es + more| - 1] == es + more[..n];
      LegalPrefix(capacity, es, more[..n]);
    }
  }

  lemma {:induction false} FinishedStays(capacity: int, es: seq<Event>, more: seq<Event>, t: Ticket)
    requires Legal(capacity, es + more) && Legal(capacity, es)
    requires t in Run(capacity, es).requests && Run(capacity, es).requests[t].phase.Finished?
    ensures var s := Run(capacity, es + more); t in s.requests && s.requests[t].phase.Finished?
  {
    if more == [] {
      assert es + more == es;
    } else {
      var n := |more| - 1;
      var all := es + more;
      assert all[..|all| - 1] == es + more[..n] && all[|all| - 1] == more[n];
      FinishedStays(capacity, es, more[..n], t);
      RunKeeps(capacity, es + more[..n]);
      var s := Run(capacity, es + more[..n]);
      FinishedForGood(s, more[n], t);
      assert Run(capacity, all) == Next(s, more[n]);
    }
  }

  /** A request that timed out or was cancelled holds no slot once its coroutine has run, even
      if a slot was handed to it in the race window, and never again afterwards. */
  lemma InterruptedKeepsNoSlot(capacity: int, es: seq<Event>, e: Event, more: seq<Event>)
    requires Legal(capacity, es + [e] + more) && Legal(capacity, es)
    requires e.Resume? && Loses(Run(capacity, es), e, e.ticket)
    ensures Slot(Run(capacity, es + [e] + more), e.ticket).None?
  {
    assert (es + [e])[..|es + [e]| - 1] == es;
    LegalPrefix(capacity, es + [e], more);
    FinishedStays(capacity, es + [e], more, e.ticket);
  }
}
