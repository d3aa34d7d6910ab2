/**
 Whole runs of the tunnel registry: connections come, close and go, requests borrow, wait,
 time out and resume, in any order.
*/
module TunnelRuns {
  import opened Prelude
  import opened Tunnels

  /** `Lost(c)`: the request was interrupted after `c` had been granted to it. */
  datatype Phase = Awaiting(interrupted: bool) | Got(conn: Conn) | Failed | Lost(conn: Conn)

  datatype Request = Request(node: Node, phase: Phase)

  datatype Sys = Sys(
    entries: map<Node, Entry>,
    closed: set<Conn>,
    borrowed: set<Conn>,
    futures: map<Ticket, Future>,
    requests: map<Ticket, Request>,
    next: Ticket,
    seen: set<Conn>,    // connections ever added
    handed: seq<Conn>)  // connections handed out, in order

  function At(s: Sys, n: Node): Entry {
    if n in s.entries then s.entries[n] else NO_ENTRY
  }

  datatype Event =
    | Add(conn: Conn)
    | Remove(conn: Conn)
    | Close(conn: Conn)
    | Acquire(node: Node)
    | Interrupt(ticket: Ticket)
    | Resume(ticket: Ticket)

  ghost predicate Enabled(s: Sys, e: Event) {
    match e
    case Add(c) => c !in s.seen
    case Remove(_) => true
    case Close(_) => true
    case Acquire(_) => true
    case Interrupt(t) => t in s.requests && s.requests[t].phase == Awaiting(false)
    case Resume(t) =>
      t in s.requests && s.requests[t].phase.Awaiting? && t in s.futures && !s.futures[t].Pending?
  }

  function Put(s: Sys, n: Node, e: Entry): Sys {
    s.(entries := s.entries[n := e])
  }

  function SetPhase(s: Sys, t: Ticket, p: Phase): Sys
    requires t in s.requests
  {
    s.(requests := s.requests[t := s.requests[t].(phase := p)])
  }

  function HandOut(s: Sys, c: Conn): Sys {
    s.(borrowed := s.borrowed + {c}, handed := s.handed + [c])
  }

  ghost function Next(s: Sys, ev: Event): Sys
    requires Enabled(s, ev)
  {
    match ev
    case Add(c) =>
      var (e, t) := Added(At(s, c.node), s.futures, c);
      var s1 := Put(s, c.node, e).(seen := s.seen + {c});
      if t.Some? then HandOut(s1, c).(futures := s.futures[t.value := Resolved(c)]) else s1
    case Remove(c) => Put(s, c.node, Removed(At(s, c.node), c))
    case Close(c) => s.(closed := s.closed + {c})
    case Acquire(n) =>
      var (e, c) := Borrowed(At(s, n), s.closed, s.next);
      var s1 := Put(s, n, e).(next := s.next + 1);
      if c.Some? then HandOut(s1, c.value).(requests := s.requests[s.next := Request(n, Got(c.value))])
      else s1.(futures := s.futures[s.next := Pending], requests := s.requests[s.next := Request(n, Awaiting(false))])
    case Interrupt(t) =>
      SetPhase(s, t, Awaiting(true)).(futures := if Live(s.futures, t) then s.futures[t := Cancelled] else s.futures)
    case Resume(t) =>
      var n := s.requests[t].node;
      var s1 := Put(s, n, At(s, n).(waiters := Without(At(s, n).waiters, t)));
      SetPhase(s1, t,
        match s.futures[t]
        case Resolved(c) => if s.requests[t].phase.interrupted then Lost(c) else Got(c)
        case _ => Failed)
  }

  const INIT := Sys(map[], {}, {}, map[], map[], 0, {}, [])

  // ---------- the invariant ----------

  ghost predicate NoDup<T>(xs: seq<T>) {
    forall i, j | 0 <= i < j < |xs| :: xs[i] != xs[j]
  }

  ghost predicate Ascending(ws: seq<Ticket>) {
    forall i, j | 0 <= i < j < |ws| :: ws[i] < ws[j]
  }

  /** Parked connections: a duplicate-free, un-borrowed part of the node's connections. */
  ghost predicate ParkedOk(e: Entry, n: Node, borrowed: set<Conn>, closed: set<Conn>, seen: set<Conn>) {
    && NoDup(e.idle)
    && (forall c | c in e.idle :: c in e.all && c !in borrowed)
    && (forall c | c in e.all :: c.node == n && c in seen)
    && (forall c | c in e.all && c !in borrowed && c !in closed :: c in e.idle)
  }

  /** The queue: in arrival order, of requests for this node that still wait. */
  ghost predicate QueueOk(s: Sys, n: Node, ws: seq<Ticket>) {
    && Ascending(ws)
    && forall t | t in ws ::
      && t in s.requests && s.requests[t].node == n && s.requests[t].phase.Awaiting?
      && t in s.futures && !s.futures[t].Resolved?
  }

  /** A live waiter and a parked connection never coexist. */
  ghost predicate NeverBoth(e: Entry, futures: map<Ticket, Future>) {
    e.idle != [] ==> forall t | t in e.waiters :: !Live(futures, t)
  }

  ghost predicate EntryOk(s: Sys, n: Node) {
    var e := At(s, n);
    ParkedOk(e, n, s.borrowed, s.closed, s.seen) && QueueOk(s, n, e.waiters) && NeverBoth(e, s.futures)
  }

  /** The connection a request was given. */
  function Given(s: Sys, t: Ticket): Option<Conn> {
    if t !in s.requests then None
    else match s.requests[t].phase
      case Got(c) => Some(c)
      case Lost(c) => Some(c)
      case Awaiting(_) => if t in s.futures && s.futures[t].Resolved? then Some(s.futures[t].conn) else None
      case Failed => None
  }

  ghost predicate RequestOk(s: Sys, t: Ticket)
    requires t in s.requests
  {
    var r := s.requests[t];
    && t < s.next
    && (r.phase.Awaiting? ==>
          && t in s.futures
          && (s.futures[t].Pending? ==> !r.phase.interrupted && t in At(s, r.node).waiters)
          && (s.futures[t].Cancelled? ==> r.phase.interrupted))
  }

  /** Every connection handed out was handed out once, to one request. */
  ghost predicate HandedOk(s: Sys) {
    && NoDup(s.handed)
    && (forall c :: c in s.handed <==> c in s.borrowed)
    && (forall c | c in s.borrowed :: c in s.seen && exists t: Ticket :: Given(s, t) == Some(c))
    && (forall t: Ticket | Given(s, t).Some? :: Given(s, t).value in s.borrowed)
    && (forall t: Ticket, u: Ticket | t != u && Given(s, t).Some? :: Given(s, t) != Given(s, u))
  }

  ghost predicate Inv(s: Sys) {
    && (forall n :: EntryOk(s, n))
    && (forall t | t in s.requests :: RequestOk(s, t))
    && HandedOk(s)
  }

  // ---------- frames ----------

  /** An entry whose connections and waiters nothing happened to is still fine. */
  lemma EntryUntouched(s: Sys, s': Sys, m: Node)
    requires EntryOk(s, m) && At(s', m) == At(s, m) && s.closed <= s'.closed && s.seen <= s'.seen
    requires forall c | c in At(s, m).all :: c in s'.borrowed <==> c in s.borrowed
    requires forall t | t in At(s, m).waiters ::
      t in s.requests ==> t in s'.requests && t in s'.futures && s'.requests[t] == s.requests[t] && s'.futures[t] == s.futures[t]
    ensures EntryOk(s', m)
  {
    var e := At(s, m);
    assert QueueOk(s', m, e.waiters);
    assert ParkedOk(e, m, s'.borrowed, s'.closed, s'.seen);
  }

  lemma HandedSame(s: Sys, s': Sys)
    requires HandedOk(s) && s'.handed == s.handed && s'.borrowed == s.borrowed && s.seen <= s'.seen
    requires forall t: Ticket :: Given(s', t) == Given(s, t)
    ensures HandedOk(s')
  {
    forall c | c in s'.borrowed ensures c in s'.seen && exists t: Ticket :: Given(s', t) == Some(c) {
      var t: Ticket :| Given(s, t) == Some(c);
      assert Given(s', t) == Some(c);
    }
  }

  /** A fresh hand-out to a request that had nothing. */
  lemma HandedMore(s: Sys, s': Sys, c: Conn, t: Ticket)
    requires HandedOk(s) && c !in s.borrowed && c in s'.seen && s.seen <= s'.seen
    requires s'.handed == s.handed + [c] && s'.borrowed == s.borrowed + {c}
    requires Given(s, t).None? && Given(s', t) == Some(c)
    requires forall u: Ticket | u != t :: Given(s', u) == Given(s, u)
    ensures HandedOk(s')
  {
    assert c !in s.handed;
    forall x | x in s'.borrowed ensures x in s'.seen && exists u: Ticket :: Given(s', u) == Some(x) {
      if x == c {
        assert Given(s', t) == Some(c);
      } else {
        var u: Ticket :| Given(s, u) == Some(x);
        assert Given(s', u) == Some(x);
      }
    }
    forall x ensures x in s'.handed <==> x in s'.borrowed {
      assert x in s'.handed <==> x in s.handed || x == c;
    }
  }

  /** In an ordered queue, who is not at or before a place is behind it. */
  lemma BehindOrNot(ws: seq<Ticket>, i: nat, t: Ticket)
    requires i < |ws| && t in ws && Ascending(ws)
    ensures t in ws[i + 1..] || exists j | 0 <= j <= i :: ws[j] == t
    ensures t in ws[i + 1..] <==> t > ws[i]
    ensures Ascending(ws[i + 1..])
  {
    var k :| 0 <= k < |ws| && ws[k] == t;
    if k > i {
      assert ws[i + 1..][k - i - 1] == t;
    }
    if t in ws[i + 1..] {
      var j :| 0 <= j < |ws[i + 1..]| && ws[i + 1..][j] == t;
      assert ws[i + 1 + j] == t;
    }
  }

  // ---------- a connection arrives ----------

  /** The waiter a new connection goes to, if any is live. */
  function Chosen(s: Sys, c: Conn): Ticket
    requires FirstLive(At(s, c.node).waiters, s.futures) < |At(s, c.node).waiters|
  {
    At(s, c.node).waiters[FirstLive(At(s, c.node).waiters, s.futures)]
  }

  lemma AddGrantsEntry(s: Sys, c: Conn)
    requires Inv(s) && c !in s.seen
    requires FirstLive(At(s, c.node).waiters, s.futures) < |At(s, c.node).waiters|
    ensures EntryOk(Next(s, Add(c)), c.node)
    ensures forall q | Live(s.futures, q) && q in At(s, c.node).waiters :: Chosen(s, c) <= q
  {
    var e := At(s, c.node);
    var ws := e.waiters;
    var i := FirstLive(ws, s.futures);
    var s' := Next(s, Add(c));
    assert EntryOk(s, c.node) && ws[i] in ws;
    assert RequestOk(s, ws[i]);
    assert c !in s.borrowed;
    forall q | q in ws ensures (q in ws[i + 1..] <==> q > ws[i]) && Ascending(ws[i + 1..]) && (Live(s.futures, q) ==> ws[i] <= q) {
      BehindOrNot(ws, i, q);
    }
    assert e.idle == [];
  }

  lemma AddGrantsRequests(s: Sys, c: Conn)
    requires Inv(s) && c !in s.seen
    requires FirstLive(At(s, c.node).waiters, s.futures) < |At(s, c.node).waiters|
    ensures var s' := Next(s, Add(c)); forall q | q in s'.requests :: RequestOk(s', q)
  {
    var e := At(s, c.node);
    var ws := e.waiters;
    var i := FirstLive(ws, s.futures);
    var s' := Next(s, Add(c));
    assert EntryOk(s, c.node) && ws[i] in ws;
    forall q | q in ws ensures (q in ws[i + 1..] <==> q > ws[i]) && (Live(s.futures, q) ==> ws[i] <= q) {
      BehindOrNot(ws, i, q);
    }
    forall q | q in s'.requests ensures RequestOk(s', q) {
      assert RequestOk(s, q);
    }
  }

  lemma AddGrants(s: Sys, c: Conn)
    requires Inv(s) && c !in s.seen
    requires FirstLive(At(s, c.node).waiters, s.futures) < |At(s, c.node).waiters|
    ensures var t := Chosen(s, c);
      var s' := Next(s, Add(c));
      && Inv(s') && Given(s', t) == Some(c) && Given(s, t).None?
      && (forall u: Ticket | u != t :: Given(s', u) == Given(s, u))
      && (forall q | Live(s.futures, q) && q in At(s, c.node).waiters :: t <= q)
  {
    var t, s' := Chosen(s, c), Next(s, Add(c));
    assert EntryOk(s, c.node) && t in At(s, c.node).waiters;
    assert RequestOk(s, t);
    assert Given(s', t) == Some(c);
    assert c !in s.borrowed;
    HandedMore(s, s', c, t);
    AddGrantsEntry(s, c);
    AddGrantsRequests(s, c);
    forall m ensures EntryOk(s', m) {
      if m != c.node {
        assert EntryOk(s, m);
        EntryUntouched(s, s', m);
      }
    }
  }

  lemma AddParks(s: Sys, c: Conn)
    requires Inv(s) && c !in s.seen
    requires FirstLive(At(s, c.node).waiters, s.futures) == |At(s, c.node).waiters|
    ensures var s' := Next(s, Add(c)); Inv(s') && forall u: Ticket :: Given(s', u) == Given(s, u)
  {
    var n := c.node;
    var e := At(s, n);
    var s' := Next(s, Add(c));
    assert EntryOk(s, n);
    assert c !in s.borrowed;
    HandedSame(s, s');
    assert forall t | t in e.waiters :: !Live(s.futures, t);
    assert EntryOk(s', n);
    forall m ensures EntryOk(s', m) {
      if m != n {
        assert EntryOk(s, m);
        EntryUntouched(s, s', m);
      }
    }
    forall q | q in s'.requests ensures RequestOk(s', q) {
      assert RequestOk(s, q);
    }
  }

  // ---------- a connection goes ----------

  lemma {:induction false} WithoutMembers(cs: seq<Conn>, c: Conn)
    requires NoDup(cs)
    ensures var r := Without(cs, c); NoDup(r) && forall x :: x in r <==> x in cs && x != c
  {
    if cs != [] {
      assert forall i | 0 <= i < |cs[1..]| :: cs[1..][i] == cs[i + 1];
      WithoutMembers(cs[1..], c);
      if cs[0] == c {
        assert c !in cs[1..];
      } else {
        var rest := Without(cs[1..], c);
        assert cs[0] !in cs[1..];
        assert cs[0] !in rest;
        assert Without(cs, c) == [cs[0]] + rest;
      }
    }
  }

  lemma RemovedEntry(s: Sys, s': Sys, c: Conn)
    requires EntryOk(s, c.node)
    requires s' == Put(s, c.node, Removed(At(s, c.node), c))
    ensures EntryOk(s', c.node)
  {
    var e := At(s, c.node);
    WithoutMembers(e.idle, c);
    var e' := Removed(e, c);
    assert ParkedOk(e', c.node, s'.borrowed, s'.closed, s'.seen) by {
      assert forall x | x in e'.all :: x in e.all && x != c;
    }
    assert QueueOk(s', c.node, e'.waiters);
    if e'.idle != [] {
      var x := e'.idle[0];
      assert x in e'.idle && x in e.idle;
    }
  }

  lemma RemoveKeeps(s: Sys, c: Conn)
    requires Inv(s)
    ensures Inv(Next(s, Remove(c))) && forall u: Ticket :: Given(Next(s, Remove(c)), u) == Given(s, u)
  {
    var s' := Next(s, Remove(c));
    HandedSame(s, s');
    forall m ensures EntryOk(s', m) {
      assert EntryOk(s, m);
      if m == c.node {
        RemovedEntry(s, s', c);
      } else {
        EntryUntouched(s, s', m);
      }
    }
    forall q | q in s'.requests ensures RequestOk(s', q) {
      assert RequestOk(s, q);
    }
  }

  lemma CloseKeeps(s: Sys, c: Conn)
    requires Inv(s)
    ensures Inv(Next(s, Close(c))) && forall u: Ticket :: Given(Next(s, Close(c)), u) == Given(s, u)
  {
    var s' := Next(s, Close(c));
    HandedSame(s, s');
    forall m ensures EntryOk(s', m) {
      assert EntryOk(s, m);
      EntryUntouched(s, s', m);
    }
    forall q | q in s'.requests ensures RequestOk(s', q) {
      assert RequestOk(s, q);
    }
  }

  // ---------- a request borrows ----------

  lemma TicketFresh(s: Sys, n: Node)
    requires Inv(s)
    ensures s.next !in s.requests
    ensures forall i | 0 <= i < |At(s, n).waiters| :: At(s, n).waiters[i] < s.next
  {
    assert forall t | t in s.requests :: RequestOk(s, t);
    forall i | 0 <= i < |At(s, n).waiters| ensures At(s, n).waiters[i] < s.next {
      assert EntryOk(s, n);
      var t := At(s, n).waiters[i];
      assert t in At(s, n).waiters;
      assert RequestOk(s, t);
    }
  }

  /** A parked connection is lent: nobody was waiting for this node, and it was never lent
      before. */
  lemma AcquireLends(s: Sys, n: Node)
    requires Inv(s) && FirstOpen(At(s, n).idle, s.closed) < |At(s, n).idle|
    ensures var c := At(s, n).idle[FirstOpen(At(s, n).idle, s.closed)];
      var s' := Next(s, Acquire(n));
      && Inv(s') && Given(s', s.next) == Some(c) && Given(s, s.next).None? && c !in s.borrowed
      && (forall u: Ticket | u != s.next :: Given(s', u) == Given(s, u))
      && (forall q | q in At(s, n).waiters :: !Live(s.futures, q))
  {
    var e := At(s, n);
    var i := FirstOpen(e.idle, s.closed);
    var c := e.idle[i];
    var s' := Next(s, Acquire(n));
    TicketFresh(s, n);
    assert EntryOk(s, n) && c in e.idle;
    HandedMore(s, s', c, s.next);
    LentEntry(s, s', n, i);
    forall m ensures EntryOk(s', m) {
      if m != n {
        assert EntryOk(s, m);
        EntryUntouched(s, s', m);
      }
    }
    forall q | q in s'.requests ensures RequestOk(s', q) {
      if q != s.next {
        assert RequestOk(s, q);
      }
    }
  }

  lemma LentEntry(s: Sys, s': Sys, n: Node, i: nat)
    requires EntryOk(s, n) && i < |At(s, n).idle| && i == FirstOpen(At(s, n).idle, s.closed)
    requires s'.closed == s.closed && s'.seen == s.seen && s'.borrowed == s.borrowed + {At(s, n).idle[i]}
    requires At(s', n) == At(s, n).(idle := At(s, n).idle[i + 1..])
    requires s'.futures == s.futures && forall t | t in At(s, n).waiters :: t in s.requests ==> t in s'.requests && s'.requests[t] == s.requests[t]
    ensures EntryOk(s', n)
  {
    RestOfIdle(At(s, n).idle, i, s.closed);
    assert ParkedOk(At(s', n), n, s'.borrowed, s'.closed, s'.seen);
    assert QueueOk(s', n, At(s', n).waiters);
  }

  /** Behind the first open parked connection are the other open ones, and nothing new. */
  lemma RestOfIdle(idle: seq<Conn>, i: nat, closed: set<Conn>)
    requires i < |idle| && i == FirstOpen(idle, closed) && NoDup(idle)
    ensures var rest := idle[i + 1..];
      && NoDup(rest)
      && (forall c | c in rest :: c in idle && c != idle[i])
      && (forall c | c in idle && c !in closed && c != idle[i] :: c in rest)
  {
    var rest := idle[i + 1..];
    assert forall j | 0 <= j < |rest| :: rest[j] == idle[i + 1 + j];
    forall c | c in idle && c !in closed && c != idle[i] ensures c in rest {
      var k :| 0 <= k < |idle| && idle[k] == c;
      assert rest[k - i - 1] == c;
    }
  }

  lemma WaitingEntry(s: Sys, n: Node)
    requires Inv(s) && FirstOpen(At(s, n).idle, s.closed) == |At(s, n).idle|
    ensures EntryOk(Next(s, Acquire(n)), n)
  {
    var e, s' := At(s, n), Next(s, Acquire(n));
    TicketFresh(s, n);
    assert EntryOk(s, n);
    assert forall c | c in e.idle :: c in s.closed;
    assert QueueOk(s', n, e.waiters + [s.next]) by {
      assert forall j | 0 <= j < |e.waiters| :: e.waiters[j] in e.waiters;
    }
  }

  lemma AcquireWaits(s: Sys, n: Node)
    requires Inv(s) && FirstOpen(At(s, n).idle, s.closed) == |At(s, n).idle|
    ensures var s' := Next(s, Acquire(n)); Inv(s') && forall u: Ticket :: Given(s', u) == Given(s, u)
  {
    var e := At(s, n);
    var s' := Next(s, Acquire(n));
    TicketFresh(s, n);
    assert EntryOk(s, n);
    HandedSame(s, s');
    WaitingEntry(s, n);
    forall m ensures EntryOk(s', m) {
      if m != n {
        assert EntryOk(s, m);
        EntryUntouched(s, s', m);
      }
    }
    forall q | q in s'.requests ensures RequestOk(s', q) {
      if q != s.next {
        assert RequestOk(s, q);
      }
    }
  }

  // ---------- a wait ends ----------

  lemma InterruptKeeps(s: Sys, t: Ticket)
    requires Inv(s) && Enabled(s, Interrupt(t))
    ensures var s' := Next(s, Interrupt(t)); Inv(s') && forall u: Ticket :: Given(s', u) == Given(s, u)
  {
    var s' := Next(s, Interrupt(t));
    assert RequestOk(s, t);
    HandedSame(s, s');
    forall m ensures EntryOk(s', m) {
      assert EntryOk(s, m);
      assert QueueOk(s', m, At(s', m).waiters);
    }
    forall q | q in s'.requests ensures RequestOk(s', q) {
      assert RequestOk(s, q);
    }
  }

  lemma TailBehind(ws: seq<Ticket>)
    requires Ascending(ws) && ws != []
    ensures Ascending(ws[1..]) && forall x | x in ws[1..] :: x > ws[0]
  {
    assert forall i | 0 <= i < |ws[1..]| :: ws[1..][i] == ws[i + 1];
  }

  lemma AscendingCons(w: Ticket, ws: seq<Ticket>)
    requires Ascending(ws) && forall x | x in ws :: x > w
    ensures Ascending([w] + ws)
  {
    var d := [w] + ws;
    forall i, j | 0 <= i < j < |d| ensures d[i] < d[j] {
      assert d[j] == ws[j - 1] && ws[j - 1] in ws;
      assert i > 0 ==> d[i] == ws[i - 1];
    }
  }

  lemma {:induction false} WithoutAscends(ws: seq<Ticket>, t: Ticket)
    requires Ascending(ws)
    ensures Ascending(Without(ws, t))
    ensures forall x :: x in Without(ws, t) <==> x in ws && x != t
  {
    if ws != [] {
      TailBehind(ws);
      WithoutAscends(ws[1..], t);
      if ws[0] != t {
        AscendingCons(ws[0], Without(ws[1..], t));
      }
    }
  }

  lemma ResumeKeeps(s: Sys, t: Ticket)
    requires Inv(s) && Enabled(s, Resume(t))
    ensures var s' := Next(s, Resume(t)); Inv(s') && forall u: Ticket :: Given(s', u) == Given(s, u)
  {
    var s' := Next(s, Resume(t));
    var n := s.requests[t].node;
    assert RequestOk(s, t);
    HandedSame(s, s');
    forall m ensures EntryOk(s', m) {
      assert EntryOk(s, m);
      WithoutAscends(At(s, m).waiters, t);
      assert QueueOk(s', m, At(s', m).waiters);
    }
    forall q | q in s'.requests ensures RequestOk(s', q) {
      assert RequestOk(s, q);
      assert EntryOk(s, n);
      WithoutAscends(At(s, n).waiters, t);
    }
  }

  // ---------- whole runs ----------

  predicate Waits(s: Sys, q: Ticket, n: Node) {
    q in s.requests && s.requests[q].node == n && s.requests[q].phase.Awaiting? && Live(s.futures, q)
  }

  /** Whoever is given a connection in this step is the oldest request waiting for its node. */
  ghost predicate OldestServed(s: Sys, s': Sys) {
    forall t: Ticket, q: Ticket | Given(s, t).None? && Given(s', t).Some? && Waits(s, q, Given(s', t).value.node) :: t <= q
  }

  lemma StepKeeps(s: Sys, ev: Event)
    requires Inv(s) && Enabled(s, ev)
    ensures Inv(Next(s, ev)) && OldestServed(s, Next(s, ev))
    ensures forall t: Ticket | Given(s, t).Some? :: Given(Next(s, ev), t) == Given(s, t)
  {
    assert forall q | q in s.requests :: RequestOk(s, q);
    match ev
    case Add(c) =>
      assert EntryOk(s, c.node);
      if FirstLive(At(s, c.node).waiters, s.futures) < |At(s, c.node).waiters| {
        AddGrants(s, c);
      } else {
        AddParks(s, c);
      }
    case Remove(c) => RemoveKeeps(s, c);
    case Close(c) => CloseKeeps(s, c);
    case Acquire(n) =>
      if FirstOpen(At(s, n).idle, s.closed) < |At(s, n).idle| {
        AcquireLends(s, n);
        LentNode(s, n);
      } else {
        AcquireWaits(s, n);
      }
    case Interrupt(t) => InterruptKeeps(s, t);
    case Resume(t) => ResumeKeeps(s, t);
  }

  lemma LentNode(s: Sys, n: Node)
    requires Inv(s)
    ensures forall c | c in At(s, n).idle :: c.node == n
  {
    assert EntryOk(s, n);
  }

  ghost predicate Legal(es: seq<Event>)
    decreases |es|, 0
  {
    es == [] || (Legal(es[..|es| - 1]) && Enabled(Run(es[..|es| - 1]), es[|es| - 1]))
  }

  ghost function Run(es: seq<Event>): Sys
    requires Legal(es)
    decreases |es|, 1
  {
    if es == [] then INIT else Next(Run(es[..|es| - 1]), es[|es| - 1])
  }

  lemma {:induction false} RunKeeps(es: seq<Event>)
    requires Legal(es)
    ensures Inv(Run(es))
  {
    if es == [] {
      forall n ensures EntryOk(INIT, n) {
      }
    } else {
      RunKeeps(es[..|es| - 1]);
      StepKeeps(Run(es[..|es| - 1]), es[|es| - 1]);
    }
  }

  /** HANDED OUT AT MOST ONCE: in every run no connection is lent twice, and each one that
      was lent belongs to exactly one request. */
  lemma LentOnce(es: seq<Event>, i: nat, j: nat)
    requires Legal(es) && i < j < |Run(es).handed|
    ensures var s := Run(es);
      && s.handed[i] != s.handed[j]
      && (exists t: Ticket :: Given(s, t) == Some(s.handed[i]))
      && (forall t: Ticket, u: Ticket | Given(s, t) == Some(s.handed[i]) && Given(s, u) == Some(s.handed[i]) :: t == u)
  {
    RunKeeps(es);
    var s := Run(es);
    var c := s.handed[i];
    assert c in s.handed;
    assert c in s.borrowed;
  }

  /** PARKED: in every run, for every node, the parked connections are distinct, never lent
      and the node's own; and none is parked while a live request waits for that node. */
  lemma ParkedAreSpare(es: seq<Event>, n: Node)
    requires Legal(es)
    ensures var s := Run(es);
      var e := At(s, n);
      && NoDup(e.idle) && (forall c | c in e.idle :: c in e.all && c !in s.handed && c.node == n)
      && (e.idle != [] ==> forall q: Ticket :: !Waits(s, q, n))
  {
    RunKeeps(es);
    var s := Run(es);
    assert EntryOk(s, n);
    forall q: Ticket | Waits(s, q, n) ensures At(s, n).idle == [] {
      assert RequestOk(s, q);
    }
  }

  /** OLDEST FIRST: at every step of every run. And a request keeps what it was given. */
  lemma ServedInOrder(es: seq<Event>, ev: Event)
    requires Legal(es) && Enabled(Run(es), ev)
    ensures OldestServed(Run(es), Next(Run(es), ev))
    ensures forall t: Ticket | Given(Run(es), t).Some? :: Given(Next(Run(es), ev), t) == Given(Run(es), t)
  {
    RunKeeps(es);
    StepKeeps(Run(es), ev);
  }

  /** Whether some request waits for this node. */
  ghost predicate SomeoneWaits(s: Sys, n: Node) { exists q: Ticket :: Waits(s, q, n) }

  /** WHAT A BORROWER GETS, in every run: the first parked connection that is still open, at
      once; those closed before it are dropped for good. Without one it waits, last in the
      queue, on a pending future. */
  lemma BorrowerGets(es: seq<Event>, n: Node)
    requires Legal(es)
    ensures var s, s' := Run(es), Next(Run(es), Acquire(n));
      var e, t := At(s, n), s.next;
      && t !in s.requests && t in s'.requests && s'.requests[t].node == n && At(s', n).all == e.all
      && (s'.requests[t].phase.Got? <==> exists c :: c in e.idle && c !in s.closed)
      && (s'.requests[t].phase.Got? ==> exists i | 0 <= i < |e.idle| ::
            && s'.requests[t].phase == Got(e.idle[i]) && e.idle[i] !in s.closed && (forall j | 0 <= j < i :: e.idle[j] in s.closed)
            && At(s', n).idle == e.idle[i + 1..] && At(s', n).waiters == e.waiters)
      && (!s'.requests[t].phase.Got? ==>
            && s'.requests[t].phase == Awaiting(false) && At(s', n).idle == [] && At(s', n).waiters == e.waiters + [t] && Waits(s', t, n))
  {
    RunKeeps(es);
    TicketFresh(Run(es), n);
    var idle := At(Run(es), n).idle;
    var i := FirstOpen(idle, Run(es).closed);
    if i < |idle| {
      assert idle[i] in idle;
    }
  }

  /** WHAT BECOMES OF A NEW CONNECTION, in every run: it goes to a request waiting for its node
      if there is one, and is parked last otherwise. */
  lemma DialIsUsed(es: seq<Event>, c: Conn)
    requires Legal(es) && Enabled(Run(es), Add(c))
    ensures var s, s' := Run(es), Next(Run(es), Add(c));
      && At(s', c.node).all == At(s, c.node).all + {c}
      && (SomeoneWaits(s, c.node) ==> exists t: Ticket :: Waits(s, t, c.node) && GivesTo(s, s', c, t))
      && (!SomeoneWaits(s, c.node) ==>
            At(s', c.node).idle == At(s, c.node).idle + [c] && s'.handed == s.handed && s'.futures == s.futures)
  {
    RunKeeps(es);
    var s := Run(es);
    var i := FirstLive(At(s, c.node).waiters, s.futures);
    if i < |At(s, c.node).waiters| {
      LiveOneWaits(s, c.node, i);
      assert GivesTo(s, Next(s, Add(c)), c, At(s, c.node).waiters[i]);
    } else {
      NoneLiveNoneWaits(s, c.node);
    }
  }

  /** The connection is handed out, to the request of this ticket, and not parked. */
  ghost predicate GivesTo(s: Sys, s': Sys, c: Conn, t: Ticket) {
    s'.futures == s.futures[t := Resolved(c)] && s'.handed == s.handed + [c] && At(s', c.node).idle == At(s, c.node).idle
  }

  lemma LiveOneWaits(s: Sys, n: Node, i: nat)
    requires Inv(s) && i < |At(s, n).waiters| && Live(s.futures, At(s, n).waiters[i])
    ensures Waits(s, At(s, n).waiters[i], n)
  {
    assert EntryOk(s, n);
    assert At(s, n).waiters[i] in At(s, n).waiters;
  }

  lemma NoneLiveNoneWaits(s: Sys, n: Node)
    requires Inv(s) && forall j | 0 <= j < |At(s, n).waiters| :: !Live(s.futures, At(s, n).waiters[j])
    ensures !SomeoneWaits(s, n)
  {
    WaitersAreQueued(s, n);
  }

  lemma WaitersAreQueued(s: Sys, n: Node)
    requires Inv(s)
    ensures forall q: Ticket | Waits(s, q, n) :: q in At(s, n).waiters
  {
    forall q: Ticket | Waits(s, q, n)
      ensures q in At(s, n).waiters
    {
      assert RequestOk(s, q);
    }
  }

  /** WHAT IS GONE IS GONE, in every run: after a removal the connection is neither known nor
      parked, and its node keeps the others, parked as they were. */
  lemma GoneIsGone(es: seq<Event>, c: Conn)
    requires Legal(es)
    ensures var s, s' := Run(es), Next(Run(es), Remove(c));
      var e, e' := At(s, c.node), At(s', c.node);
      && e'.all == e.all - {c} && c !in e'.idle && e'.waiters == e.waiters
      && (forall x :: x in e'.idle <==> x in e.idle && x != c)
      && s'.handed == s.handed && forall n | n != c.node :: At(s', n) == At(s, n)
  {
    RunKeeps(es);
    var s := Run(es);
    var e := At(s, c.node);
    assert EntryOk(s, c.node);
    WithoutMembers(e.idle, c);
    if e.all - {c} == {} {
      forall x | x in e.idle ensures x == c {
        assert x in e.all;
        assert x in e.all - {c} || x == c;
      }
    }
  }

  /** STATS: what `stats` reports as idle are exactly the open parked connections. */
  lemma IdleCountsParked(es: seq<Event>, n: Node)
    requires Legal(es)
    ensures var s := Run(es);
      var e := At(s, n);
      (set c | c in e.all && c !in s.closed && c !in s.borrowed) == (set c | c in e.idle && c !in s.closed)
  {
    RunKeeps(es);
    assert EntryOk(Run(es), n);
  }
}
