/**
 What becomes of a lent tunnel connection whose request was interrupted. Unlike the worker
 pool, `TunnelRegistry.acquire` (src/oumigo/service/manager/tunnel.py) hands nothing back.
*/
module TunnelStranding {
  import opened Prelude
  import opened Tunnels
  import opened TunnelRuns

  // ---------- what happened to one request in a run ----------

  /** At step `i` of the run, the waiting request `t` was given `c`. */
  ghost predicate GrantedAt(es: seq<Event>, i: nat, t: Ticket, c: Conn) {
    && i < |es| && Legal(es[..i]) && Legal(es[..i + 1])
    && Given(Run(es[..i]), t).None? && Given(Run(es[..i + 1]), t) == Some(c)
  }

  ghost predicate Granted(es: seq<Event>, t: Ticket, c: Conn) {
    exists i: nat :: GrantedAt(es, i, t, c)
  }

  ghost predicate InterruptedAt(es: seq<Event>, j: nat, t: Ticket, c: Conn) {
    j < |es| && es[j] == Interrupt(t) && Granted(es[..j], t, c)
  }

  /** ... and interrupted after that. */
  ghost predicate GrantedThenInterrupted(es: seq<Event>, t: Ticket, c: Conn) {
    exists j: nat :: InterruptedAt(es, j, t, c)
  }

  ghost predicate ResumedAt(es: seq<Event>, k: nat, t: Ticket, c: Conn) {
    k < |es| && es[k] == Resume(t) && GrantedThenInterrupted(es[..k], t, c)
  }

  /** ... and resumed after that. */
  ghost predicate GrantedInterruptedResumed(es: seq<Event>, t: Ticket, c: Conn) {
    exists k: nat :: ResumedAt(es, k, t, c)
  }

  lemma Prefixes(es: seq<Event>, ev: Event)
    ensures (es + [ev])[..|es|] == es && (es + [ev])[|es|] == ev && (es + [ev])[..|es| + 1] == es + [ev]
    ensures forall i | 0 <= i <= |es| :: (es + [ev])[..i] == es[..i]
  {
  }

  lemma GrantedStays(es: seq<Event>, ev: Event, t: Ticket, c: Conn)
    requires Granted(es, t, c)
    ensures Granted(es + [ev], t, c)
  {
    var i: nat :| GrantedAt(es, i, t, c);
    Prefixes(es, ev);
    assert GrantedAt(es + [ev], i, t, c);
  }

  lemma InterruptedStays(es: seq<Event>, ev: Event, t: Ticket, c: Conn)
    requires GrantedThenInterrupted(es, t, c)
    ensures GrantedThenInterrupted(es + [ev], t, c)
  {
    var j: nat :| InterruptedAt(es, j, t, c);
    Prefixes(es, ev);
    assert InterruptedAt(es + [ev], j, t, c);
  }

  lemma ResumedStays(es: seq<Event>, ev: Event, t: Ticket, c: Conn)
    requires GrantedInterruptedResumed(es, t, c)
    ensures GrantedInterruptedResumed(es + [ev], t, c)
  {
    var k: nat :| ResumedAt(es, k, t, c);
    Prefixes(es, ev);
    assert ResumedAt(es + [ev], k, t, c);
  }

  lemma GrantedNow(es: seq<Event>, ev: Event, t: Ticket, c: Conn)
    requires Legal(es) && Legal(es + [ev]) && Given(Run(es), t).None? && Given(Run(es + [ev]), t) == Some(c)
    ensures Granted(es + [ev], t, c)
  {
    Prefixes(es, ev);
    assert GrantedAt(es + [ev], |es|, t, c);
  }

  lemma InterruptedNow(es: seq<Event>, t: Ticket, c: Conn)
    requires Granted(es, t, c)
    ensures GrantedThenInterrupted(es + [Interrupt(t)], t, c)
  {
    Prefixes(es, Interrupt(t));
    assert InterruptedAt(es + [Interrupt(t)], |es|, t, c);
  }

  lemma ResumedNow(es: seq<Event>, t: Ticket, c: Conn)
    requires GrantedThenInterrupted(es, t, c)
    ensures GrantedInterruptedResumed(es + [Resume(t)], t, c)
  {
    Prefixes(es, Resume(t));
    assert ResumedAt(es + [Resume(t)], |es|, t, c);
  }

  // ---------- what a request's state tells about it ----------

  ghost predicate Told(es: seq<Event>, t: Ticket)
    requires Legal(es)
  {
    var s := Run(es);
    if t !in s.requests then Interrupt(t) !in es && Resume(t) !in es
    else
      match s.requests[t].phase
      case Awaiting(interrupted) =>
        && Resume(t) !in es && (interrupted <==> Interrupt(t) in es)
        && (Given(s, t).Some? ==>
              var c := Given(s, t).value;
              Granted(es, t, c) && (interrupted ==> GrantedThenInterrupted(es, t, c)))
      case Got(c) => Interrupt(t) !in es && Granted(es, t, c)
      case Lost(c) => GrantedInterruptedResumed(es, t, c)
      case Failed => true
  }

  /** How one step changes the phase of a request. */
  lemma PhaseNext(s: Sys, ev: Event, t: Ticket)
    requires Inv(s) && Enabled(s, ev)
    ensures var s' := Next(s, ev);
      if t in s.requests
      then t in s'.requests && s'.requests[t].phase ==
             (if ev == Interrupt(t) then Awaiting(true)
              else if ev != Resume(t) then s.requests[t].phase
              else if s.futures[t].Resolved? then
                (if s.requests[t].phase.interrupted then Lost(s.futures[t].conn) else Got(s.futures[t].conn))
              else Failed)
      else ev != Interrupt(t) && ev != Resume(t)
           && (t in s'.requests ==> s'.requests[t].phase == Awaiting(false) || s'.requests[t].phase.Got?)
  {
    assert t in s.requests ==> RequestOk(s, t);
  }

  /** One step of a run. */
  ghost predicate Step(es: seq<Event>, ev: Event) {
    && Legal(es) && Enabled(Run(es), ev) && Legal(es + [ev])
    && Run(es + [ev]) == Next(Run(es), ev) && Inv(Run(es)) && Inv(Run(es + [ev]))
  }

  /** A grant is not given to an interrupted request. */
  lemma NoGrantAfterInterrupt(s: Sys, ev: Event, t: Ticket)
    requires Inv(s) && Enabled(s, ev) && t in s.requests && s.requests[t].phase == Awaiting(true)
    requires ev != Resume(t)
    ensures Given(Next(s, ev), t) == Given(s, t)
  {
    assert RequestOk(s, t);
    StepKeeps(s, ev);
  }

  lemma ToldWaiting(es: seq<Event>, ev: Event, t: Ticket)
    requires Step(es, ev) && Told(es, t)
    requires t in Run(es).requests && Run(es).requests[t].phase.Awaiting? && ev != Resume(t)
    ensures Told(es + [ev], t)
  {
    var s, s' := Run(es), Run(es + [ev]);
    PhaseNext(s, ev, t);
    StepKeeps(s, ev);
    if Given(s', t).Some? {
      var c := Given(s', t).value;
      if Given(s, t).None? {
        if s.requests[t].phase.interrupted {
          NoGrantAfterInterrupt(s, ev, t);
        } else {
          assert RequestOk(s, t);
          assert ev != Interrupt(t);
          GrantedNow(es, ev, t, c);
        }
      } else {
        GrantedStays(es, ev, t, c);
        if s.requests[t].phase.interrupted {
          InterruptedStays(es, ev, t, c);
        } else if ev == Interrupt(t) {
          InterruptedNow(es, t, c);
        }
      }
    }
  }

  lemma ToldResuming(es: seq<Event>, t: Ticket)
    requires Step(es, Resume(t)) && Told(es, t)
    ensures Told(es + [Resume(t)], t)
  {
    var s := Run(es);
    PhaseNext(s, Resume(t), t);
    if Given(s, t).Some? {
      var c := Given(s, t).value;
      GrantedStays(es, Resume(t), t, c);
      if s.requests[t].phase.interrupted {
        ResumedNow(es, t, c);
      }
    }
  }

  lemma ToldOver(es: seq<Event>, ev: Event, t: Ticket)
    requires Step(es, ev) && Told(es, t)
    requires t in Run(es).requests && !Run(es).requests[t].phase.Awaiting?
    ensures Told(es + [ev], t)
  {
    PhaseNext(Run(es), ev, t);
    match Run(es).requests[t].phase
    case Got(c) => GrantedStays(es, ev, t, c);
    case Lost(c) => ResumedStays(es, ev, t, c);
    case Failed =>
  }

  lemma ToldNew(es: seq<Event>, ev: Event, t: Ticket)
    requires Step(es, ev) && Told(es, t) && t !in Run(es).requests
    ensures Told(es + [ev], t)
  {
    var s' := Run(es + [ev]);
    PhaseNext(Run(es), ev, t);
    if t in s'.requests && Given(s', t).Some? {
      GrantedNow(es, ev, t, Given(s', t).value);
    }
  }

  lemma {:induction false} RunTold(es: seq<Event>, t: Ticket)
    requires Legal(es)
    ensures Told(es, t)
  {
    if es != [] {
      var front, ev := es[..|es| - 1], es[|es| - 1];
      assert es == front + [ev];
      RunTold(front, t);
      RunKeeps(front);
      RunKeeps(es);
      assert Step(front, ev);
      if t !in Run(front).requests {
        ToldNew(front, ev, t);
      } else if !Run(front).requests[t].phase.Awaiting? {
        ToldOver(front, ev, t);
      } else if ev == Resume(t) {
        ToldResuming(front, t);
      } else {
        ToldWaiting(front, ev, t);
      }
    }
  }

  /** A connection once granted stays with its request. */
  lemma {:induction false} GrantKept(es: seq<Event>, t: Ticket, c: Conn)
    requires Legal(es) && Granted(es, t, c)
    ensures Given(Run(es), t) == Some(c)
  {
    var i: nat :| GrantedAt(es, i, t, c);
    if i == |es| - 1 {
      assert es[..i + 1] == es;
    } else {
      var front, ev := es[..|es| - 1], es[|es| - 1];
      assert front[..i] == es[..i] && front[..i + 1] == es[..i + 1];
      assert GrantedAt(front, i, t, c);
      GrantKept(front, t, c);
      RunKeeps(front);
      StepKeeps(Run(front), ev);
    }
  }

  /** WHERE A LENT CONNECTION IS: in every run every connection handed out is with exactly one
      request, which uses it, has yet to see the grant, or lost it. */
  lemma LentIsSomewhere(es: seq<Event>, c: Conn)
    requires Legal(es) && c in Run(es).handed
    ensures var s := Run(es);
      && (exists t: Ticket :: Given(s, t) == Some(c))
      && (forall t: Ticket, u: Ticket | Given(s, t) == Some(c) && Given(s, u) == Some(c) :: t == u)
      && (forall t: Ticket | Given(s, t) == Some(c) ::
            && t in s.requests
            && (s.requests[t].phase == Got(c) || s.requests[t].phase == Lost(c)
                || (s.requests[t].phase.Awaiting? && t in s.futures && s.futures[t] == Resolved(c))))
  {
    RunKeeps(es);
    assert c in Run(es).borrowed;
  }

  ghost predicate HasLost(s: Sys, t: Ticket, c: Conn) {
    t in s.requests && s.requests[t].phase == Lost(c)
  }

  lemma GrantedInPrefix(es: seq<Event>, n: nat, t: Ticket, c: Conn)
    requires n <= |es| && Granted(es[..n], t, c)
    ensures Granted(es, t, c)
  {
    var i: nat :| GrantedAt(es[..n], i, t, c);
    assert es[..n][..i] == es[..i] && es[..n][..i + 1] == es[..i + 1];
    assert GrantedAt(es, i, t, c);
  }

  lemma InterruptedWasGranted(es: seq<Event>, t: Ticket, c: Conn)
    requires GrantedThenInterrupted(es, t, c)
    ensures Granted(es, t, c) && Interrupt(t) in es
  {
    var j: nat :| InterruptedAt(es, j, t, c);
    GrantedInPrefix(es, j, t, c);
  }

  lemma ResumedWasAll(es: seq<Event>, t: Ticket, c: Conn)
    requires GrantedInterruptedResumed(es, t, c)
    ensures Granted(es, t, c) && Interrupt(t) in es && Resume(t) in es
  {
    var k: nat :| ResumedAt(es, k, t, c);
    InterruptedWasGranted(es[..k], t, c);
    GrantedInPrefix(es, k, t, c);
    assert Interrupt(t) in es[..k];
  }

  /** STRANDED: in every run a request has lost a connection if and only if it was granted it,
      was interrupted after the grant, and resumed after that. A lost connection is handed
      out for good: it is never parked again. */
  lemma StrandedIffInterrupted(es: seq<Event>, t: Ticket, c: Conn)
    requires Legal(es)
    ensures HasLost(Run(es), t, c) <==> GrantedInterruptedResumed(es, t, c)
    ensures HasLost(Run(es), t, c) ==> forall n: Node :: c !in At(Run(es), n).idle
  {
    var s := Run(es);
    RunTold(es, t);
    if GrantedInterruptedResumed(es, t, c) {
      ResumedWasAll(es, t, c);
      GrantKept(es, t, c);
    }
    if HasLost(s, t, c) {
      NeverParkedAgain(es, t, c);
    }
  }

  lemma NeverParkedAgain(es: seq<Event>, t: Ticket, c: Conn)
    requires Legal(es) && HasLost(Run(es), t, c)
    ensures forall n: Node :: c !in At(Run(es), n).idle
  {
    RunKeeps(es);
    assert Given(Run(es), t) == Some(c);
    forall n: Node
      ensures c !in At(Run(es), n).idle
    {
      assert EntryOk(Run(es), n);
    }
  }

  lemma OneMore(es: seq<Event>, ev: Event)
    requires Legal(es) && Enabled(Run(es), ev)
    ensures Legal(es + [ev]) && Run(es + [ev]) == Next(Run(es), ev)
  {
    assert (es + [ev])[..|es|] == es;
  }

  lemma WaitThenArrival(n: Node)
    ensures var c := Conn(n, 0);
      var es := [Acquire(n), Add(c)];
      Legal(es) && Run(es).handed == [c] && Run(es).futures == map[0 := Resolved(c)]
      && Run(es).requests == map[0 := Request(n, Awaiting(false))]
  {
    OneMore([], Acquire(n));
    var s1 := Next(INIT, Acquire(n));
    assert At(s1, n).waiters == [0] && FirstLive(At(s1, n).waiters, s1.futures) == 0;
    OneMore([] + [Acquire(n)], Add(Conn(n, 0)));
    assert [] + [Acquire(n)] + [Add(Conn(n, 0))] == [Acquire(n), Add(Conn(n, 0))];
  }

  /** Such a run: wait, a connection arrives, the wait times out before its coroutine resumes. */
  lemma StrandingRun(n: Node)
    ensures var c := Conn(n, 0);
      var es := [Acquire(n), Add(c), Interrupt(0), Resume(0)];
      Legal(es) && Run(es).handed == [c] && HasLost(Run(es), 0, c)
  {
    var es := [Acquire(n), Add(Conn(n, 0))];
    WaitThenArrival(n);
    OneMore(es, Interrupt(0));
    OneMore(es + [Interrupt(0)], Resume(0));
    assert es + [Interrupt(0)] + [Resume(0)] == [Acquire(n), Add(Conn(n, 0)), Interrupt(0), Resume(0)];
  }
}
