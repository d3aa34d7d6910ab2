/**
 The life of one slot in `_forward` and `_relay`
 (src/oumigo/service/manager/router/server.py): from the moment `acquire` returned a
 worker to the moment nothing of the request runs any more.
*/
module Forward {
  import opened Prelude

  /** The exceptions `_forward` tells apart. */
  datatype Fault = HttpException | UpstreamError | OtherFault

  type Chunk = seq<byte>

  /** How a streamed body ends early: after so many chunks, with this exception. */
  datatype Cut = Cut(after: nat, fault: Fault)

  datatype Attempt = Sent | Retryable | Fatal(fault: Fault)

  /** What the outside world does at each point of one forwarded request. */
  datatype Script = Script(
    tunneled: bool,
    streaming: bool,
    prepare: Option<Fault>,      // port, credentials, payload shaping
    attempts: seq<Attempt>,      // outcomes of `client.send`, in order
    respond: Option<Fault>,      // building the response object
    read: Option<Fault>,         // reading the whole body (not streaming)
    readClose: Option<Fault>,    // closing upstream after reading it
    body: seq<Chunk>,            // what upstream would stream
    bodyStarted: bool,           // streaming: did the server ever start iterating the body?
    cut: Option<Cut>,            // streaming: the client left, or upstream broke
    relayClose: Option<Fault>)   // streaming: closing upstream in `_relay`

  datatype Exit = Responded | Raised(fault: Fault)

  /** How many sends are allowed: a parked tunnel connection may have died, so one retry. */
  function Allowed(s: Script): nat {
    if s.tunneled then 2 else 1
  }

  function AttemptAt(s: Script, i: nat): Attempt {
    if i < |s.attempts| then s.attempts[i] else Fatal(OtherFault)
  }

  /** The request was sent: some allowed attempt succeeded, and all before it failed
      before any response arrived. */
  ghost predicate SentAt(s: Script, i: nat) {
    i < Allowed(s) && AttemptAt(s, i).Sent? && forall j: nat | j < i :: AttemptAt(s, j).Retryable?
  }

  ghost predicate EverSent(s: Script) {
    exists i: nat :: SentAt(s, i)
  }

  /** No send went through, and the last one allowed or the first that may have reached the
      backend failed like this. */
  ghost predicate SendFails(s: Script, f: Fault) {
    exists n: nat :: SendFailsAt(s, n, f)
  }

  ghost predicate SendFailsAt(s: Script, n: nat, f: Fault) {
    && (forall j: nat | j < n :: AttemptAt(s, j).Retryable?)
    && (AttemptAt(s, n) == Fatal(f) || (n + 1 == Allowed(s) && AttemptAt(s, n).Retryable? && f == UpstreamError))
  }

  /** `_send_with_retry`: at most `Allowed` sends, and never another one after a send that
      may have reached the backend. */
  method SendWithRetry(s: Script) returns (fault: Option<Fault>, sends: nat)
    ensures 1 <= sends <= (if s.tunneled then 2 else 1)
    ensures forall j: nat | j + 1 < sends :: AttemptAt(s, j).Retryable?
    ensures fault.None? <==> AttemptAt(s, sends - 1).Sent?
    ensures fault.None? <==> EverSent(s)
    ensures fault.Some? ==> SendFails(s, fault.value)
  {
    sends := 0;
    while true
      invariant sends < Allowed(s)
      invariant forall j: nat | j < sends :: AttemptAt(s, j).Retryable?
      decreases Allowed(s) - sends
    {
      var outcome := AttemptAt(s, sends);
      sends := sends + 1;
      match outcome
      case Sent =>
        assert SentAt(s, sends - 1);
        return None, sends;
      case Retryable =>
        if sends >= Allowed(s) {
          assert SendFailsAt(s, sends - 1, UpstreamError);
          return Some(UpstreamError), sends;
        }
      case Fatal(f) =>
        assert SendFailsAt(s, sends - 1, f);
        return Some(f), sends;
    }
  }

  /** The `released` flag of `_forward` and the number of calls it let through to the pool. */
  datatype Lease = Lease(released: bool, handedBack: nat) {
    function Release(): Lease {
      if released then this else Lease(true, handedBack + 1)
    }
  }

  /** How many chunks come through before the body ends, by itself or cut short. */
  function Delivered(s: Script): nat {
    if s.cut.Some? && s.cut.value.after < |s.body| then s.cut.value.after else |s.body|
  }

  /** `_relay`: stream the body, then in `finally` close upstream and release. However the
      body ends, what came through is its prefix and the slot goes back; only a failing
      close keeps it, since the release is never reached. */
  method Relay(s: Script, lease: Lease) returns (sent: seq<Chunk>, fault: Option<Fault>, after: Lease)
    requires lease == Lease(false, 0)
    ensures sent == s.body[..Delivered(s)]
    ensures fault == if s.relayClose.None? && s.cut.Some? then Some(s.cut.value.fault) else s.relayClose
    ensures after.handedBack <= 1
    ensures after.handedBack == 1 <==> s.relayClose.None?
  {
    sent, fault, after := [], None, lease;
    for i := 0 to |s.body|
      invariant sent == s.body[..i] && i <= Delivered(s)
    {
      if s.cut.Some? && s.cut.value.after == i {
        break;
      }
      sent := sent + [s.body[i]];
    }
    if s.cut.Some? {
      fault := Some(s.cut.value.fault);
    }
    // `finally`: either way upstream is closed, then the slot is released
    if s.relayClose.Some? {
      return sent, s.relayClose, after;
    }
    after := after.Release();
  }

  /** What the body of the `try` raises: the first thing that went wrong, except that a
      failing close hides a failing read. */
  ghost predicate FailsWith(s: Script, f: Fault) {
    if s.prepare.Some? then s.prepare == Some(f)
    else if !EverSent(s) then SendFails(s, f)
    else if !s.streaming && s.readClose.Some? then s.readClose == Some(f)
    else if !s.streaming && s.read.Some? then s.read == Some(f)
    else s.respond == Some(f)
  }

  /** The body of the `try` in `_forward`. */
  method Attempted(s: Script, lease: Lease) returns (fault: Option<Fault>, after: Lease)
    requires lease == Lease(false, 0)
    ensures fault.None? && s.streaming ==> after == lease
    ensures fault.None? && !s.streaming ==> after == Lease(true, 1)
    ensures fault.Some? ==> after == lease
    ensures fault.None? <==> s.prepare.None? && EverSent(s) && s.respond.None?
                             && (!s.streaming ==> s.read.None? && s.readClose.None?)
    ensures fault.Some? ==> FailsWith(s, fault.value)
  {
    after := lease;
    if s.prepare.Some? {
      return s.prepare, after;
    }
    var sendFault, sends := SendWithRetry(s);
    if sendFault.Some? {
      return sendFault, after;
    }
    if s.streaming {
      return s.respond, after;  // the slot is released by `_relay`
    }
    fault := s.read;
    if s.readClose.Some? {      // `finally: await upstream.aclose()`
      fault := s.readClose;
    }
    if fault.None? {
      fault := s.respond;
    }
    if fault.None? {
      after := after.Release();
    }
  }

  /** The response object was handed to the server with the slot still held. */
  ghost predicate HandedOff(s: Script) {
    s.streaming && s.prepare.None? && EverSent(s) && s.respond.None?
  }

  /** Exactly the ways a slot is never given back: a streamed response whose body is never
      iterated, or whose upstream cannot be closed. */
  ghost predicate Leaks(s: Script) {
    HandedOff(s) && (!s.bodyStarted || s.relayClose.Some?)
  }

  /** Such a request: sent at once, streamed in full, and then upstream fails to close. */
  lemma LeakingScript()
    ensures Leaks(Script(false, true, None, [Sent], None, None, None, [], true, None, Some(OtherFault)))
  {
    var s := Script(false, true, None, [Sent], None, None, None, [], true, None, Some(OtherFault));
    assert SentAt(s, 0);
  }

  /** EXACTLY ONCE: whatever fails and wherever, the slot goes back to the pool once, except
      in the two cases of `Leaks`; never twice. */
  method Serve(s: Script) returns (exit: Exit, handedBack: nat)
    ensures handedBack <= 1
    ensures handedBack == 0 <==> Leaks(s)
    ensures exit.Raised? ==> handedBack == 1
    ensures exit.Responded? && !s.streaming ==> handedBack == 1
    ensures exit.Responded? <==> s.prepare.None? && EverSent(s) && s.respond.None?
                                 && (!s.streaming ==> s.read.None? && s.readClose.None?)
    ensures exit.Raised? ==> exists f :: FailsWith(s, f) && exit.fault == if f == UpstreamError then HttpException else f
  {
    var fault, lease := Attempted(s, Lease(false, 0));
    if fault.Some? {
      lease := lease.Release();  // every `except` clause releases, then raises
      exit := Raised(if fault.value.UpstreamError? then HttpException else fault.value);
    } else {
      exit := Responded;
      if s.streaming && s.bodyStarted {
        var sent, fault;
        sent, fault, lease := Relay(s, lease);
      }
    }
    handedBack := lease.handedBack;
  }
}
