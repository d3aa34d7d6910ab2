/**
 The worker pool as the router runs it: one object whose in-flight counters and waiter
 queue are updated in place. Each method is one critical section between two `await`s and
 is tied to the value-level function of Pool.dfy that PoolRuns.dfy reasons about.
*/
module WorkerPools {
  import opened Prelude
  import opened Pool

  class WorkerPool {
    const defaultCapacity: int
    var inflight: map<NodeId, int>
    var futures: map<Ticket, Future>
    var waiters: seq<Waiter>

    constructor (capacity: int)
      ensures State() == PoolState(if capacity > 1 then capacity else 1, map[], map[], [])
    {
      defaultCapacity := if capacity > 1 then capacity else 1;
      inflight, futures, waiters := map[], map[], [];
    }

    function State(): PoolState
      reads this
    {
      PoolState(defaultCapacity, inflight, futures, waiters)
    }

    /** `rng.choice`: some element; the draw is returned for the specification. */
    method Draw(records: seq<NodeRecord>) returns (r: NodeRecord, ghost pick: nat)
      requires records != []
      ensures r == Choice(records, pick)
    {
      var i: nat :| i < |records|;
      assert i % |records| == i by {
        SmallRemainder(i, |records|);
      }
      r, pick := records[i], i;
    }

    static lemma SmallRemainder(i: nat, n: nat)
      requires i < n
      ensures i % n == i
    {
    }

    method TakeSlot(r: NodeRecord)
      modifies this`inflight
      ensures State() == Take(old(State()), r)
    {
      inflight := inflight[r.id := Load(inflight, r.id) + 1];
    }

    method Promote(v: View) returns (ghost picks: seq<nat>)
      modifies this
      ensures |picks| == |old(waiters)| && State() == Promoted(v, old(State()), picks)
    {
      picks := [];
      if |waiters| == 0 {
        return;
      }
      var queue := waiters;
      var kept: seq<Waiter> := [];
      ghost var start := State().(waiters := []);
      for i := 0 to |queue|
        invariant waiters == queue && |picks| == i
        invariant State().(waiters := kept) == PromoteAll(v, start, queue[..i], picks)
      {
        ghost var pick;
        kept, pick := ServeOrKeep(v, queue[i], kept);
        picks := picks + [pick];
        assert queue[..i + 1][..i] == queue[..i] && picks[..i] + [picks[i]] == picks;
      }
      assert queue[..|queue|] == queue;
      waiters := kept;
    }

    /** One pass of the promotion loop: the waiter is gone, gets a slot, or stays in the queue. */
    method ServeOrKeep(v: View, w: Waiter, kept: seq<Waiter>) returns (left: seq<Waiter>, ghost pick: nat)
      modifies this
      ensures waiters == old(waiters)
      ensures State().(waiters := left) == PromoteOne(v, old(State()).(waiters := kept), w, pick)
    {
      left, pick := kept, 0;
      if Live(futures, w.ticket) {
        var avail := Available(v, State(), w.eligible);
        AvailableIgnoresQueue(v, State(), State().(waiters := kept), w.eligible);
        if avail != [] {
          var r;
          r, pick := Draw(avail);
          TakeSlot(r);
          futures := futures[w.ticket := Resolved(r)];
        } else {
          left := kept + [w];
        }
      }
    }

    lemma AvailableIgnoresQueue(v: View, s: PoolState, s': PoolState, e: Eligible)
      requires s'.defaultCapacity == s.defaultCapacity && s'.inflight == s.inflight
      ensures Available(v, s, e) == Available(v, s', e)
    {
      BelowIgnoresQueue(s, s', ServingIn(v, v.records, e));
    }

    lemma {:induction false} BelowIgnoresQueue(s: PoolState, s': PoolState, records: seq<NodeRecord>)
      requires s'.defaultCapacity == s.defaultCapacity && s'.inflight == s.inflight
      ensures BelowCapacity(s, records) == BelowCapacity(s', records)
    {
      if records != [] {
        BelowIgnoresQueue(s, s', records[1..]);
      }
    }

    method Release(v: View, n: NodeId) returns (ghost picks: seq<nat>)
      modifies this
      ensures |picks| == |old(waiters)| && State() == Released(v, old(State()), n, picks)
    {
      if Load(inflight, n) > 0 {
        inflight := inflight[n := inflight[n] - 1];
      }
      picks := Promote(v);
    }

    /** `acquire` up to its `await`; `t` names the future it would wait on. It is admitted iff
        a worker it wants has room after the promotion pass, and refused iff none is listed. */
    method Acquire(v: View, t: Ticket, e: Eligible) returns (a: Admission, ghost picks: seq<nat>, ghost pick: nat)
      modifies this
      ensures |picks| == |old(waiters)|
      ensures (State(), a) == Enter(v, Promoted(v, old(State()), picks), t, e, pick)
      ensures var p := Promoted(v, old(State()), picks);
        && (a.Admitted? <==> exists r :: CanUse(v, p, e, r)) && (a.Admitted? ==> CanUse(v, p, e, a.record))
        && (a.NoWorkers? <==> forall r :: !Wanted(v, e, r))
        && waiters == p.waiters + (if a.Queued? then [Waiter(t, e)] else [])
        && (a.Queued? ==> Live(futures, t))
    {
      pick := 0;
      picks := Promote(v);
      var avail := Available(v, State(), e);
      EnterCases(v, State(), t, e, 0);
      if avail != [] {
        var r;
        r, pick := Draw(avail);
        EnterCases(v, State(), t, e, pick);
        TakeSlot(r);
        return Admitted(r), picks, pick;
      }
      if ServingIn(v, v.records, e) == [] {
        return NoWorkers, picks, pick;
      }
      futures := futures[t := Pending];
      waiters := waiters + [Waiter(t, e)];
      a := Queued;
    }

    /** The `except` clause of `acquire`, run when the wait ended without a worker. */
    method Abandon(v: View, t: Ticket) returns (ghost picks: seq<nat>)
      modifies this
      ensures |picks| == |old(waiters)| && State() == Abandoned(v, old(State()), t, picks)
    {
      picks := seq(|waiters|, _ => 0);
      if QueuedTicket(waiters, t) {
        waiters := Without(waiters, t);
      } else if t in futures && futures[t].Resolved? {
        picks := Release(v, futures[t].record.id);
      }
    }
  }
}
