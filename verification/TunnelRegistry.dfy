/**
 Lending tunnel connections (`TunnelRegistry` in src/oumigo/service/manager/tunnel.py):
 workers park connections, the router borrows one per upstream connection or waits for one.
*/
module Tunnels {
  import opened Prelude

  type Node = string
  type Ticket = nat  // one per call of `acquire`, later calls larger; also names its future

  datatype Conn = Conn(node: Node, serial: nat)

  datatype Future = Pending | Resolved(conn: Conn) | Cancelled

  /** The registry's entries for one node; a node without entries has empty ones. */
  datatype Entry = Entry(idle: seq<Conn>, all: set<Conn>, waiters: seq<Ticket>)

  const NO_ENTRY := Entry([], {}, [])

  predicate Live(futures: map<Ticket, Future>, t: Ticket) {
    t in futures && futures[t].Pending?
  }

  /** Where the first waiter with a pending future is; the length if there is none. */
  function FirstLive(ws: seq<Ticket>, futures: map<Ticket, Future>): (i: nat)
    ensures i <= |ws| && forall j | 0 <= j < i :: !Live(futures, ws[j])
    ensures i < |ws| ==> Live(futures, ws[i])
  {
    if ws == [] || Live(futures, ws[0]) then 0 else 1 + FirstLive(ws[1..], futures)
  }

  /** Where the first parked connection that is still open is; the length if there is none. */
  function FirstOpen(idle: seq<Conn>, closed: set<Conn>): (i: nat)
    ensures i <= |idle| && forall j | 0 <= j < i :: idle[j] in closed
    ensures i < |idle| ==> idle[i] !in closed
  {
    if idle == [] || idle[0] !in closed then 0 else 1 + FirstOpen(idle[1..], closed)
  }

  /** `add`: hand the new connection to the oldest live waiter, else park it. */
  function Added(e: Entry, futures: map<Ticket, Future>, c: Conn): (Entry, Option<Ticket>) {
    var i := FirstLive(e.waiters, futures);
    if i < |e.waiters| then (Entry(e.idle, e.all + {c}, e.waiters[i + 1..]), Some(e.waiters[i]))
    else (Entry(e.idle + [c], e.all + {c}, []), None)
  }

  /** `list.remove`: the sequence without its first `x`. */
  function Without<T(==)>(xs: seq<T>, x: T): (r: seq<T>)
    ensures x !in xs ==> r == xs
  {
    if xs == [] then []
    else if xs[0] == x then xs[1..]
    else [xs[0]] + Without(xs[1..], x)
  }

  /** `remove`: the connection is gone; a node without connections loses its entries. */
  function Removed(e: Entry, c: Conn): Entry {
    if e.all - {c} == {} then Entry([], {}, e.waiters) else Entry(Without(e.idle, c), e.all - {c}, e.waiters)
  }

  /** `acquire` up to its `await`: an open parked connection, else join the queue. */
  function Borrowed(e: Entry, closed: set<Conn>, t: Ticket): (Entry, Option<Conn>) {
    var i := FirstOpen(e.idle, closed);
    if i < |e.idle| then (e.(idle := e.idle[i + 1..]), Some(e.idle[i]))
    else (e.(idle := [], waiters := e.waiters + [t]), None)
  }

  class TunnelRegistry {
    var idle: map<Node, seq<Conn>>
    var all: map<Node, set<Conn>>
    var waiters: map<Node, seq<Ticket>>
    var closed: set<Conn>                 // connections whose `closed` event is set
    var borrowed: set<Conn>               // connections whose `borrowed` flag is set
    var futures: map<Ticket, Future>

    constructor ()
      ensures forall n :: At(n) == NO_ENTRY
      ensures closed == {} && borrowed == {} && futures == map[]
    {
      idle, all, waiters, closed, borrowed, futures := map[], map[], map[], {}, {}, map[];
    }

    function At(n: Node): Entry
      reads this
    {
      Entry(if n in idle then idle[n] else [], if n in all then all[n] else {}, if n in waiters then waiters[n] else [])
    }

    method Add(c: Conn)
      modifies this
      ensures var (e, t) := Added(old(At(c.node)), old(futures), c);
        && At(c.node) == e && (forall n | n != c.node :: At(n) == old(At(n)))
        && borrowed == (if t.Some? then old(borrowed) + {c} else old(borrowed))
        && futures == (if t.Some? then old(futures)[t.value := Resolved(c)] else old(futures))
        && closed == old(closed)
    {
      var n := c.node;
      var was := At(n);
      all := all[n := was.all + {c}];
      var i := 0;
      while i < |was.waiters| && !Live(futures, was.waiters[i])
        invariant i <= FirstLive(was.waiters, futures)
      {
        i := i + 1;
      }
      if i < |was.waiters| {
        HandOver(c, was.waiters[i], was.waiters[i + 1..]);
      } else {
        Park(c);
      }
    }

    /** The waiter gets the connection, those before it were dead. */
    method HandOver(c: Conn, t: Ticket, rest: seq<Ticket>)
      modifies this`waiters, this`borrowed, this`futures
      ensures At(c.node) == old(At(c.node)).(waiters := rest) && forall n | n != c.node :: At(n) == old(At(n))
      ensures borrowed == old(borrowed) + {c} && futures == old(futures)[t := Resolved(c)]
    {
      waiters := waiters[c.node := rest];
      borrowed := borrowed + {c};
      futures := futures[t := Resolved(c)];
    }

    /** Nobody waits: the connection is parked. */
    method Park(c: Conn)
      modifies this`waiters, this`idle
      ensures At(c.node) == old(At(c.node)).(waiters := [], idle := old(At(c.node)).idle + [c])
      ensures forall n | n != c.node :: At(n) == old(At(n))
    {
      var parked := At(c.node).idle + [c];
      waiters := waiters[c.node := []];
      idle := idle[c.node := parked];
    }

    method Remove(c: Conn)
      modifies this`idle, this`all
      ensures At(c.node) == Removed(old(At(c.node)), c) && forall n | n != c.node :: At(n) == old(At(n))
    {
      var n := c.node;
      var was := At(n);
      all := all[n := was.all - {c}];
      idle := idle[n := Without(was.idle, c)];
      if all[n] == {} {
        all := all - {n};
        idle := idle - {n};
      }
    }

    method Acquire(n: Node, t: Ticket) returns (got: Option<Conn>)
      modifies this
      ensures var (e, c) := Borrowed(old(At(n)), closed, t);
        && got == c && At(n) == e && (forall m | m != n :: At(m) == old(At(m)))
        && borrowed == (if c.Some? then old(borrowed) + {c.value} else old(borrowed))
        && futures == (if c.Some? then old(futures) else old(futures)[t := Pending])
        && closed == old(closed)
    {
      var was := At(n);
      var i := 0;
      while i < |was.idle| && was.idle[i] in closed
        invariant i <= FirstOpen(was.idle, closed)
      {
        i := i + 1;
      }
      if i < |was.idle| {
        Lend(n, was.idle[i], was.idle[i + 1..]);
        return Some(was.idle[i]);
      }
      Join(n, t);
      got := None;
    }

    /** An open parked connection is lent; those before it were closed. */
    method Lend(n: Node, c: Conn, rest: seq<Conn>)
      modifies this`idle, this`borrowed
      ensures At(n) == old(At(n)).(idle := rest) && forall m | m != n :: At(m) == old(At(m))
      ensures borrowed == old(borrowed) + {c}
    {
      idle := idle[n := rest];
      borrowed := borrowed + {c};
    }

    /** Nothing is parked: the request joins the queue with a fresh future. */
    method Join(n: Node, t: Ticket)
      modifies this`idle, this`waiters, this`futures
      ensures At(n) == old(At(n)).(idle := [], waiters := old(At(n)).waiters + [t])
      ensures forall m | m != n :: At(m) == old(At(m))
      ensures futures == old(futures)[t := Pending]
    {
      var queue := At(n).waiters + [t];
      idle := idle[n := []];
      futures := futures[t := Pending];
      waiters := waiters[n := queue];
    }

    /** The `finally` of `acquire`. */
    method Leave(n: Node, t: Ticket)
      modifies this`waiters
      ensures At(n) == old(At(n)).(waiters := Without(old(At(n)).waiters, t))
      ensures forall m | m != n :: At(m) == old(At(m))
    {
      var was := At(n);
      if t in was.waiters {
        waiters := waiters[n := Without(was.waiters, t)];
      }
    }

    /** `stats`: open connections, and those of them not lent out. */
    method Stats(n: Node) returns (conns: nat, spare: nat)
      ensures conns == |set c | c in At(n).all && c !in closed|
      ensures spare == |set c | c in At(n).all && c !in closed && c !in borrowed|
    {
      var open := set c | c in At(n).all && c !in closed;
      conns := |open|;
      spare := |set c | c in open && c !in borrowed|;
      assert (set c | c in open && c !in borrowed) == set c | c in At(n).all && c !in closed && c !in borrowed;
    }
  }
}
