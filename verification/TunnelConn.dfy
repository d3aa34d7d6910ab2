/**
 One tunnel connection as a byte stream (`TunnelConn` in
 src/oumigo/service/manager/tunnel.py): WebSocket messages of any size go in, reads of any
 size come out.
*/
module TunnelConns {
  import opened Prelude

  type bytes = seq<byte>

  datatype Conn = Conn(
    incoming: seq<bytes>,  // queued messages; an empty one is the EOF mark
    pending: bytes,        // rest of a message larger than the last read asked for
    closed: bool)

  /** A message arrives; empty ones are ignored. */
  function Received(c: Conn, data: bytes): Conn {
    if data == [] then c else c.(incoming := c.incoming + [data])
  }

  /** The pump ends: the socket is gone. */
  function PumpEnded(c: Conn): Conn {
    c.(closed := true, incoming := c.incoming + [[]])
  }

  /** Whether a read returns at once; otherwise it waits for the pump. */
  predicate CanRead(c: Conn) {
    c.pending != [] || c.incoming != []
  }

  predicate Readable(c: Conn) {
    c.pending != [] || c.incoming != [] || c.closed
  }

  function Cut(data: bytes, max: nat): nat {
    if max < |data| then max else |data|
  }

  /** `read`: the connection afterwards, and the bytes; no bytes means EOF. */
  function Read(c: Conn, max: nat): (Conn, bytes)
    requires CanRead(c)
  {
    if c.pending == [] && c.incoming[0] == [] then (c.(incoming := c.incoming[1..] + [[]]), [])
    else
      var c1 := if c.pending == [] then c.(pending := c.incoming[0], incoming := c.incoming[1..]) else c;
      var k := Cut(c1.pending, max);
      (c1.(pending := c1.pending[k..]), c1.pending[..k])
  }

  class TunnelConn {
    var incoming: seq<bytes>
    var pending: bytes
    var closed: bool

    constructor ()
      ensures State() == Conn([], [], false)
    {
      incoming, pending, closed := [], [], false;
    }

    function State(): Conn
      reads this
    {
      Conn(incoming, pending, closed)
    }

    /** The pump over the messages that arrive until the socket closes. */
    method Pump(messages: seq<bytes>)
      modifies this
      ensures State() == PumpEnded(ReceivedAll(old(State()), messages))
    {
      for i := 0 to |messages|
        invariant State() == ReceivedAll(old(State()), messages[..i])
      {
        assert messages[..i + 1][..i] == messages[..i];
        if |messages[i]| > 0 {
          incoming := incoming + [messages[i]];
        }
      }
      assert messages[..|messages|] == messages;
      closed := true;
      incoming := incoming + [[]];
    }

    method ReadSome(max: nat) returns (data: bytes)
      requires CanRead(State())
      modifies this
      ensures (State(), data) == Read(old(State()), max)
    {
      if |pending| == 0 {
        pending, incoming := incoming[0], incoming[1..];
        if |pending| == 0 {
          incoming := incoming + [[]];  // keep reporting EOF on later reads
          return [];
        }
      }
      var k := Cut(pending, max);
      data, pending := pending[..k], pending[k..];
    }
  }

  function ReceivedAll(c: Conn, messages: seq<bytes>): Conn {
    if messages == [] then c else Received(ReceivedAll(c, messages[..|messages| - 1]), messages[|messages| - 1])
  }

  /** A pump run to its end queues the bytes it received, in order and in non-empty messages,
      and then one EOF mark. */
  lemma PumpDelivers(c: Conn, messages: seq<bytes>) returns (added: seq<bytes>)
    ensures PumpEnded(ReceivedAll(c, messages)) == Conn(c.incoming + added + [[]], c.pending, true)
    ensures Join(added) == Join(messages) && forall i | 0 <= i < |added| :: added[i] != []
  {
    added := ReceivedAdds(c, messages);
  }

  lemma {:induction false} ReceivedAdds(c: Conn, messages: seq<bytes>) returns (added: seq<bytes>)
    ensures ReceivedAll(c, messages) == c.(incoming := c.incoming + added)
    ensures Join(added) == Join(messages) && forall i | 0 <= i < |added| :: added[i] != []
  {
    added := [];
    if messages == [] {
      assert c.incoming + [] == c.incoming;
    } else {
      var n := |messages| - 1;
      var before := ReceivedAdds(c, messages[..n]);
      added := if messages[n] == [] then before else before + [messages[n]];
      JoinOne(before, messages[n]);
      assert (c.incoming + before) + [messages[n]] == c.incoming + (before + [messages[n]]);
      assert Join(before) + [] == Join(before);
    }
  }

  // ---------- whole runs ----------

  function Join(ms: seq<bytes>): bytes {
    if ms == [] then [] else Join(ms[..|ms| - 1]) + ms[|ms| - 1]
  }

  /** A connection with its history: the bytes pumped in and the reads handed out. */
  datatype Sys = Sys(conn: Conn, ended: bool, pumped: bytes, output: seq<bytes>)

  datatype Event = Message(data: bytes) | EndOfPump | Close | Take(max: nat)

  ghost predicate Enabled(s: Sys, e: Event) {
    match e
    case Message(_) => !s.ended
    case EndOfPump => !s.ended
    case Close => true
    case Take(max) => max > 0 && CanRead(s.conn)
  }

  ghost function Next(s: Sys, e: Event): Sys
    requires Enabled(s, e)
  {
    match e
    case Message(data) => s.(conn := Received(s.conn, data), pumped := s.pumped + data)
    case EndOfPump => s.(conn := PumpEnded(s.conn), ended := true)
    case Close => s.(conn := s.conn.(closed := true))
    case Take(max) =>
      var (c, data) := Read(s.conn, max);
      s.(conn := c, output := s.output + [data])
  }

  const INIT := Sys(Conn([], [], false), false, [], [])

  ghost predicate Legal(es: seq<Event>)
    decreases |es|, 0
  {
    es == [] || (Legal(es[..|es| - 1]) && Enabled(Run(es[..|es| - 1]), es[|es| - 1]))
  }

  ghost function Run(es: seq<Event>): Sys
    requires Legal(es)
    decreases |es|, 1
  {
    if es == [] then INIT else Next(Run(es[..|es| - 1]), es[|es| - 1])
  }

  /** Queued messages hold data, except for one EOF mark at the end once the pump ended. */
  ghost predicate QueueOk(s: Sys) {
    var q := s.conn.incoming;
    && (forall i | 0 <= i < |q| :: q[i] == [] <==> s.ended && i == |q| - 1)
    && (s.ended ==> q != [] && s.conn.closed)
  }

  ghost predicate StreamOk(s: Sys) {
    Join(s.output) + s.conn.pending + Join(s.conn.incoming) == s.pumped
  }

  /** After an EOF there is nothing but EOF. */
  ghost predicate EofOk(s: Sys) {
    forall i | 0 <= i < |s.output| && s.output[i] == [] ::
      && s.ended && s.conn.pending == [] && s.conn.incoming == [[]]
      && Join(s.output[..i]) == s.pumped
      && forall j | i <= j < |s.output| :: s.output[j] == []
  }

  ghost predicate Inv(s: Sys) {
    QueueOk(s) && StreamOk(s) && EofOk(s)
  }

  lemma JoinOne(ms: seq<bytes>, m: bytes)
    ensures Join(ms + [m]) == Join(ms) + m
  {
    assert (ms + [m])[..|ms|] == ms;
  }

  lemma {:induction false} JoinHead(m: bytes, ms: seq<bytes>)
    ensures Join([m] + ms) == m + Join(ms)
  {
    if ms == [] {
      assert [m] + ms == [] + [m];
      JoinOne([], m);
    } else {
      var n := |ms| - 1;
      JoinHead(m, ms[..n]);
      assert [m] + ms == ([m] + ms[..n]) + [ms[n]];
      JoinOne([m] + ms[..n], ms[n]);
      assert (m + Join(ms[..n])) + ms[n] == m + (Join(ms[..n]) + ms[n]);
    }
  }

  lemma JoinEof()
    ensures Join([[]]) == []
  {
    JoinOne([], []);
    var none: seq<bytes> := [];
    assert none + [[]] == [[]];
  }

  lemma MessageKeeps(s: Sys, data: bytes)
    requires Inv(s) && !s.ended
    ensures Inv(Next(s, Message(data)))
  {
    JoinOne(s.conn.incoming, data);
    assert Join(s.output) + s.conn.pending + (Join(s.conn.incoming) + data) == s.pumped + data;
    assert s.pumped + [] == s.pumped;
  }

  lemma EndKeeps(s: Sys)
    requires Inv(s) && !s.ended
    ensures Inv(Next(s, EndOfPump))
  {
    JoinOne(s.conn.incoming, []);
  }

  /** Cutting the front of what is pending moves bytes from pending to read. */
  lemma CutMoves(done: bytes, pending: bytes, rest: bytes, k: nat)
    requires k <= |pending|
    ensures (done + pending[..k]) + pending[k..] + rest == done + pending + rest
  {
    assert pending[..k] + pending[k..] == pending;
  }

  /** Taking the next queued message into `pending` leaves the stream as it was. */
  lemma FetchMoves(done: bytes, q: seq<bytes>)
    requires q != []
    ensures done + q[0] + Join(q[1..]) == done + [] + Join(q)
  {
    assert q == [q[0]] + q[1..];
    JoinHead(q[0], q[1..]);
  }

  /** A read delivers the next bytes of the stream, or EOF when there are none and the pump
      has ended. */
  lemma TakeDelivers(s: Sys, max: nat)
    requires QueueOk(s) && StreamOk(s) && max > 0 && CanRead(s.conn)
    ensures var s' := Next(s, Take(max));
      var data := s'.output[|s.output|];
      && QueueOk(s') && StreamOk(s') && |data| <= max
      && (data == [] <==> s.ended && s.conn.pending == [] && s.conn.incoming == [[]])
  {
    var (c, data) := Read(s.conn, max);
    JoinOne(s.output, data);
    var q := s.conn.incoming;
    if s.conn.pending == [] && q[0] == [] {
      assert q == [[]] && q[1..] + [[]] == q;
      assert Join(s.output) + [] == Join(s.output);
    } else if s.conn.pending == [] {
      FetchMoves(Join(s.output), q);
      CutMoves(Join(s.output), q[0], Join(q[1..]), Cut(q[0], max));
    } else {
      CutMoves(Join(s.output), s.conn.pending, Join(q), Cut(s.conn.pending, max));
    }
  }

  lemma TakeKeeps(s: Sys, max: nat)
    requires Inv(s) && max > 0 && CanRead(s.conn)
    ensures Inv(Next(s, Take(max)))
  {
    TakeDelivers(s, max);
    var s' := Next(s, Take(max));
    var n := |s.output|;
    forall i | 0 <= i < |s'.output| && s'.output[i] == []
      ensures s'.ended && s'.conn.pending == [] && s'.conn.incoming == [[]]
      ensures Join(s'.output[..i]) == s'.pumped
      ensures forall j | i <= j < |s'.output| :: s'.output[j] == []
    {
      assert s'.output[..i] == s.output[..i];
      if i == n {
        assert s.output[..n] == s.output;
        JoinEof();
      } else {
        assert s.output[i] == [];
      }
    }
  }

  lemma {:induction false} RunKeeps(es: seq<Event>)
    requires Legal(es)
    ensures Inv(Run(es))
  {
    if es != [] {
      var s, e := Run(es[..|es| - 1]), es[|es| - 1];
      RunKeeps(es[..|es| - 1]);
      match e
      case Message(data) => MessageKeeps(s, data);
      case EndOfPump => EndKeeps(s);
      case Close =>
      case Take(max) => TakeKeeps(s, max);
    }
  }

  /** BYTE STREAM: in every run, for any message sizes and any positive read sizes, what was
      read, then what is pending, then what is queued, is what was pumped in. */
  lemma NothingLostOrReordered(es: seq<Event>)
    requires Legal(es)
    ensures var s := Run(es); Join(s.output) + s.conn.pending + Join(s.conn.incoming) == s.pumped
  {
    RunKeeps(es);
  }

  /** EOF: in every run a read is empty only if the pump has ended and all bytes have been
      delivered, and every later read is empty too. */
  lemma EofIsFinalAndSticky(es: seq<Event>, i: nat)
    requires Legal(es) && i < |Run(es).output| && Run(es).output[i] == []
    ensures var s := Run(es);
      s.ended && Join(s.output[..i]) == s.pumped && forall j | i <= j < |s.output| :: s.output[j] == []
  {
    RunKeeps(es);
  }

  /** LIMIT: whenever a read can return in a run, it returns what is left of the message being
      read, or the next message, cut to its limit; so nothing only when the pump has ended and
      all is delivered. */
  lemma NoReadExceedsItsLimit(es: seq<Event>, max: nat)
    requires Legal(es) && max > 0 && CanRead(Run(es).conn)
    ensures var s := Run(es);
      var data := Read(s.conn, max).1;
      var next := if s.conn.pending != [] then s.conn.pending else s.conn.incoming[0];
      data == next[..if |next| < max then |next| else max] && (data == [] ==> s.ended && Join(s.output) == s.pumped)
  {
    RunKeeps(es);
    var s := Run(es);
    TakeDelivers(s, max);
    JoinEof();
    assert Join(s.output) + [] + [] == Join(s.output);
  }

  /** After the pump ended, a read never waits again, and it is EOF exactly when every byte
      has been read. */
  lemma ReadAfterEnd(es: seq<Event>, max: nat)
    requires Legal(es) && Run(es).ended && max > 0
    ensures var s := Run(es);
      && CanRead(s.conn) && Readable(s.conn)
      && |Read(s.conn, max).1| <= max
      && (Read(s.conn, max).1 == [] <==> Join(s.output) == s.pumped)
  {
    RunKeeps(es);
    var s := Run(es);
    TakeDelivers(s, max);
    var q := s.conn.incoming;
    if s.conn.pending == [] && q != [[]] {
      assert q == [q[0]] + q[1..];
      JoinHead(q[0], q[1..]);
    }
    JoinEof();
    assert |s.pumped| == |Join(s.output)| + |s.conn.pending| + |Join(q)|;
    assert Join(s.output) + [] + [] == Join(s.output);
  }
}
