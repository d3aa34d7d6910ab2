/**
 The worker's lifecycle (`WorkerCoordinator` in src/oumigo/service/worker/coordinator.py)
 once registration and tunnel start-up are past. The environment is a script: one `Tick`
 a heartbeat interval, then what the drain sees. Every assignment of the code is one
 state of the trace.
*/
module Coordinators {
  import opened Prelude
  import opened States

  /** What the supervisor says of the backend child. */
  datatype Child = Child(running: bool, healthy: bool, activity: RunState)

  /** A heartbeat's outcome: lost, refused with 403, or answered. */
  datatype Reply = NoReply | Refused | Answered(known: bool, rekeyed: bool, stop: bool)

  /** One round of the loop: signals at its two waits, the child, a free port, the reply. */
  datatype Tick = Tick(signal: bool, child: Child, backoffSignal: bool, freePort: Option<int>, reply: Reply)

  /** One look of the drain loop before its deadline. */
  datatype Poll = Poll(force: bool, activity: RunState)

  /** `alive`: whether the child runs as far as the coordinator knows; `starts`: how often
      it started one; `reported`: the states in its last heartbeat. */
  datatype St = St(
    node: NodeState, run: Option<RunState>, restarts: nat, port: Option<int>, child: bool, stop: bool,
    seen: Child, alive: bool, starts: nat, reported: Option<(NodeState, Option<RunState>)>)

  function Initial(port: Option<int>, seen: Child): St {
    St(Registering, None, 0, port, false, false, seen, false, 0, None)
  }

  function Beat(s: St): St { s.(reported := Some((s.node, s.run))) }

  function Launched(s: St): St { s.(child := true, alive := true, starts := s.starts + 1) }

  function Last(s: St, trace: seq<St>): St { if trace == [] then s else trace[|trace| - 1] }

  // ---------------------------------------------------------------- the steps

  /** `_start_vllm`. */
  function StartTrace(s: St): seq<St> {
    if s.port.None? then [s.(node := Failed)]
    else
      var s1 := s.(node := Initializing);
      [s1, Launched(s1)]
  }

  /** The attempt is counted, and the backoff waited out or cut short. */
  function BackoffTrace(s: St, t: Tick): seq<St> {
    var s2 := s.(restarts := s.restarts + 1);
    var s3 := s2.(node := Initializing);
    [s2, s3, s3.(stop := s3.stop || t.backoffSignal)]
  }

  /** A port is picked again and a new child started, or there is none. */
  function RestartTrace(s: St, t: Tick): seq<St> {
    if t.freePort.None? then [s.(node := Failed)]
    else
      var s5 := s.(port := t.freePort);
      [s5, Launched(s5)]
  }

  /** `_handle_crash`. */
  function CrashTrace(s: St, t: Tick, maxRestarts: nat): seq<St> {
    var s1 := s.(run := None);
    if s1.restarts >= maxRestarts then [s1, s1.(node := Failed)]
    else
      var s4 := Last(s1, BackoffTrace(s1, t));
      [s1] + BackoffTrace(s1, t) + if s4.stop then [] else RestartTrace(s4, t)
  }

  /** What a running child makes of the state. */
  function ObserveTrace(s: St, child: Child): seq<St> {
    var s2 := if s.node == Initializing && child.healthy then s.(node := Serving) else s;
    [s2, if s2.node == Serving then s2.(run := Some(child.activity)) else s2]
  }

  /** `_reconcile`. */
  function ReconcileTrace(s: St, t: Tick, maxRestarts: nat): seq<St> {
    if !s.child then []
    else
      var s1 := s.(seen := t.child, alive := t.child.running);
      [s1] + if t.child.running then ObserveTrace(s1, t.child) else CrashTrace(s1, t, maxRestarts)
  }

  /** The rest of a round: the heartbeat and what its answer asks for. */
  function BeatTrace(s: St, reply: Reply): seq<St> {
    var s1 := Beat(s);
    [s1] +
    match reply
    case NoReply => []
    case Refused => [s1.(stop := true)]
    case Answered(known, rekeyed, stop) =>
      if s1.node == Failed then []
      else if !known then (if rekeyed && s1.child then [s1.(alive := false)] else [])
      else if stop then [s1.(stop := true)] else []
  }

  /** Whether the loop returns at the end of this round, rather than at its next wait. */
  predicate Leaves(s: St, reply: Reply) {
    s.node == Failed || (reply.Answered? && reply.known && reply.stop)
  }

  /** One round of `_loop`. */
  function RoundTrace(s: St, t: Tick, maxRestarts: nat): seq<St> {
    var s1 := s.(stop := s.stop || t.signal);
    if s1.stop then [s1]
    else
      var reconciled := ReconcileTrace(s1, t, maxRestarts);
      [s1] + reconciled + BeatTrace(Last(s1, reconciled), t.reply)
  }

  predicate RoundReturns(s: St, t: Tick, maxRestarts: nat) {
    var s1 := s.(stop := s.stop || t.signal);
    s1.stop || Leaves(Last(s1, ReconcileTrace(s1, t, maxRestarts)), t.reply)
  }

  /** `_loop` over a script; it may still be going when the script ends. */
  function LoopTrace(s: St, ticks: seq<Tick>, maxRestarts: nat): seq<St>
    decreases |ticks|
  {
    if ticks == [] then []
    else
      var round := RoundTrace(s, ticks[0], maxRestarts);
      if RoundReturns(s, ticks[0], maxRestarts) then round
      else round + LoopTrace(Last(s, round), ticks[1..], maxRestarts)
  }

  predicate LoopReturns(s: St, ticks: seq<Tick>, maxRestarts: nat)
    decreases |ticks|
  {
    ticks != [] &&
    (RoundReturns(s, ticks[0], maxRestarts)
     || LoopReturns(Last(s, RoundTrace(s, ticks[0], maxRestarts)), ticks[1..], maxRestarts))
  }

  /** The drain loop: until forced, idle or past the deadline (the end of the script). */
  function PollTrace(s: St, polls: seq<Poll>): seq<St>
    decreases |polls|
  {
    if polls == [] || polls[0].force || polls[0].activity != Executing then []
    else
      var s1 := s.(run := Some(Executing));
      [s1, Beat(s1)] + PollTrace(Beat(s1), polls[1..])
  }

  /** The end of `_drain_and_stop`: node state first, then run state, then the heartbeat. */
  function StopTrace(s: St): seq<St> {
    var s1 := s.(node := Stopped);
    var s2 := s1.(run := None);
    [s1, s2, Beat(s2)]
  }

  /** `_drain_and_stop`. */
  function DrainTrace(s: St, child: Child, polls: seq<Poll>): seq<St> {
    var s1 := if s.child then s.(seen := child, alive := child.running) else s;
    if !s1.child || !child.running then [s1] + StopTrace(s1)
    else
      var s2 := s1.(node := Draining);
      var polled := PollTrace(s2, polls);
      var s3 := Last(s2, polled).(alive := false);
      [s1, s2] + polled + [s3] + StopTrace(s3)
  }

  /** What remains after the start: the loop, then the drain unless the worker failed. */
  function RestTrace(s: St, ticks: seq<Tick>, maxRestarts: nat, child: Child, polls: seq<Poll>): seq<St> {
    var looped := LoopTrace(s, ticks, maxRestarts);
    looped + EndTrace(Last(s, looped), LoopReturns(s, ticks, maxRestarts), child, polls)
  }

  function EndTrace(s: St, returned: bool, child: Child, polls: seq<Poll>): seq<St> {
    if returned && s.node != Failed then DrainTrace(s, child, polls) else []
  }

  /** `run`, from the backend start to its return or the end of the script. */
  function RunTrace(s: St, ticks: seq<Tick>, maxRestarts: nat, child: Child, polls: seq<Poll>): seq<St> {
    StartTrace(s) + RestTrace(Last(s, StartTrace(s)), ticks, maxRestarts, child, polls)
  }

  predicate RunReturns(s: St, ticks: seq<Tick>, maxRestarts: nat) {
    LoopReturns(Last(s, StartTrace(s)), ticks, maxRestarts)
  }

  // ---------------------------------------------------------------- what every state keeps

  predicate Active(node: NodeState) { node == Serving || node == Draining }

  ghost predicate Sound(s: St, maxRestarts: nat) {
    && s.starts <= 1 + s.restarts <= 1 + maxRestarts
    && (s.node == Failed || s.node == Stopped || !s.child ==> !s.alive)
    && (s.run.Some? ==> Active(s.node) || s.node == Stopped)
    && (s.reported.Some? && s.reported.value.1.Some? ==> Active(s.reported.value.0))
    && (s.node in {Draining, Stopped} ==> s.stop)
  }

  /** What one assignment may do. */
  ghost predicate Lawful(a: St, b: St) {
    && (a.node == Failed ==> b.node == Failed && b.starts == a.starts)
    && (b.node == Serving && a.node != Serving ==> a.node == Initializing && a.child && b.seen.running && b.seen.healthy)
    && (b.run != a.run && b.run.Some? ==> Active(b.node))
    && (b.node == Stopped && a.node != Stopped ==> !a.alive)
    && b.starts <= a.starts + 1 && (b.starts > a.starts ==> b.node == Initializing)
  }

  function Before(s: St, trace: seq<St>, i: nat): St
    requires i < |trace|
  {
    if i == 0 then s else trace[i - 1]
  }

  ghost predicate Good(s: St, trace: seq<St>, maxRestarts: nat) {
    forall i | 0 <= i < |trace| :: Sound(trace[i], maxRestarts) && Lawful(Before(s, trace, i), trace[i])
  }

  lemma GoodJoins(s: St, a: seq<St>, b: seq<St>, maxRestarts: nat)
    requires Good(s, a, maxRestarts) && Good(Last(s, a), b, maxRestarts)
    ensures Good(s, a + b, maxRestarts) && Last(s, a + b) == Last(Last(s, a), b)
  {
    var t := a + b;
    forall i | 0 <= i < |t|
      ensures Sound(t[i], maxRestarts) && Lawful(Before(s, t, i), t[i])
    {
      if i >= |a| {
        assert t[i] == b[i - |a|];
        assert Before(s, t, i) == Before(Last(s, a), b, i - |a|);
      } else {
        assert t[i] == a[i] && Before(s, t, i) == Before(s, a, i);
      }
    }
    if b == [] {
      assert a + b == a;
    }
  }

  lemma GoodOne(s: St, b: St, maxRestarts: nat)
    requires Sound(b, maxRestarts) && Lawful(s, b)
    ensures Good(s, [b], maxRestarts)
  {
  }

  /** Whether a crashed worker may go on: past the start, with its child gone. */
  predicate Crashed(s: St) { s.child && !s.alive && s.node != Failed && s.node != Stopped }

  lemma BackoffIsGood(s: St, t: Tick, maxRestarts: nat)
    requires Sound(s, maxRestarts) && Crashed(s) && s.run.None? && s.restarts < maxRestarts
    ensures Good(s, BackoffTrace(s, t), maxRestarts)
    ensures var s4 := Last(s, BackoffTrace(s, t)); Crashed(s4) && s4.node == Initializing && s4.starts <= s4.restarts && s4.run.None?
  {
  }

  lemma RestartIsGood(s: St, t: Tick, maxRestarts: nat)
    requires Sound(s, maxRestarts) && Crashed(s) && s.node == Initializing && s.starts <= s.restarts && s.run.None?
    ensures Good(s, RestartTrace(s, t), maxRestarts) && Last(s, RestartTrace(s, t)).node in {Initializing, Failed}
  {
  }

  lemma CrashIsGood(s: St, t: Tick, maxRestarts: nat)
    requires Sound(s, maxRestarts) && Crashed(s)
    ensures Good(s, CrashTrace(s, t, maxRestarts), maxRestarts)
    ensures Last(s, CrashTrace(s, t, maxRestarts)).node in {Initializing, Failed}
  {
    var s1 := s.(run := None);
    GoodOne(s, s1, maxRestarts);
    if s1.restarts < maxRestarts {
      var waited := BackoffTrace(s1, t);
      var s4 := Last(s1, waited);
      var restarted := if s4.stop then [] else RestartTrace(s4, t);
      BackoffIsGood(s1, t, maxRestarts);
      GoodJoins(s, [s1], waited, maxRestarts);
      LastIsSound(s1, waited, maxRestarts);
      RestartIsGood(s4, t, maxRestarts);
      GoodJoins(s, [s1] + waited, restarted, maxRestarts);
    }
  }

  lemma ReconcileIsGood(s: St, t: Tick, maxRestarts: nat)
    requires Sound(s, maxRestarts) && s.node in {Initializing, Serving}
    ensures Good(s, ReconcileTrace(s, t, maxRestarts), maxRestarts)
    ensures Last(s, ReconcileTrace(s, t, maxRestarts)).node in {Initializing, Serving, Failed}
  {
    if s.child {
      var s1 := s.(seen := t.child, alive := t.child.running);
      GoodOne(s, s1, maxRestarts);
      if t.child.running {
        GoodJoins(s, [s1], ObserveTrace(s1, t.child), maxRestarts);
      } else {
        CrashIsGood(s1, t, maxRestarts);
        GoodJoins(s, [s1], CrashTrace(s1, t, maxRestarts), maxRestarts);
      }
    }
  }

  lemma BeatIsGood(s: St, reply: Reply, maxRestarts: nat)
    requires Sound(s, maxRestarts) && s.node != Stopped
    ensures Good(s, BeatTrace(s, reply), maxRestarts) && Last(s, BeatTrace(s, reply)).node == s.node
  {
  }

  /** A state the loop can be in: past the start, and not yet returned. */
  predicate InLoop(s: St) { s.node in {Initializing, Serving, Failed} && (s.node == Failed ==> !s.child) }

  lemma RoundIsGood(s: St, t: Tick, maxRestarts: nat)
    requires Sound(s, maxRestarts) && InLoop(s)
    ensures Good(s, RoundTrace(s, t, maxRestarts), maxRestarts)
    ensures Last(s, RoundTrace(s, t, maxRestarts)).node in {Initializing, Serving, Failed}
    ensures !RoundReturns(s, t, maxRestarts) ==> InLoop(Last(s, RoundTrace(s, t, maxRestarts)))
  {
    var s1 := s.(stop := s.stop || t.signal);
    GoodOne(s, s1, maxRestarts);
    if !s1.stop {
      var reconciled := ReconcileTrace(s1, t, maxRestarts);
      if s1.node != Failed {
        ReconcileIsGood(s1, t, maxRestarts);
      }
      GoodJoins(s, [s1], reconciled, maxRestarts);
      var s2 := Last(s1, reconciled);
      assert Sound(s2, maxRestarts);
      BeatIsGood(s2, t.reply, maxRestarts);
      GoodJoins(s, [s1] + reconciled, BeatTrace(s2, t.reply), maxRestarts);
    }
  }

  /** A round that returns leaves a stop pending, unless the worker failed. */
  lemma RoundStops(s: St, t: Tick, maxRestarts: nat)
    requires RoundReturns(s, t, maxRestarts)
    ensures var last := Last(s, RoundTrace(s, t, maxRestarts)); last.node == Failed || last.stop
  {
    var s1 := s.(stop := s.stop || t.signal);
    if !s1.stop {
      var reconciled := ReconcileTrace(s1, t, maxRestarts);
      LastJoins(s, [s1] + reconciled, BeatTrace(Last(s1, reconciled), t.reply));
      LastJoins(s, [s1], reconciled);
    }
  }

  lemma {:induction false} LoopIsGood(s: St, ticks: seq<Tick>, maxRestarts: nat)
    requires Sound(s, maxRestarts) && InLoop(s)
    ensures Good(s, LoopTrace(s, ticks, maxRestarts), maxRestarts)
    ensures Last(s, LoopTrace(s, ticks, maxRestarts)).node in {Initializing, Serving, Failed}
    ensures var last := Last(s, LoopTrace(s, ticks, maxRestarts)); LoopReturns(s, ticks, maxRestarts) ==> last.node == Failed || last.stop
    decreases |ticks|
  {
    if ticks != [] {
      var round := RoundTrace(s, ticks[0], maxRestarts);
      RoundIsGood(s, ticks[0], maxRestarts);
      if RoundReturns(s, ticks[0], maxRestarts) {
        RoundStops(s, ticks[0], maxRestarts);
      } else {
        var s1 := Last(s, round);
        LoopIsGood(s1, ticks[1..], maxRestarts);
        GoodJoins(s, round, LoopTrace(s1, ticks[1..], maxRestarts), maxRestarts);
      }
    }
  }

  lemma {:induction false} PollIsGood(s: St, polls: seq<Poll>, maxRestarts: nat)
    requires Sound(s, maxRestarts) && s.node == Draining
    ensures Good(s, PollTrace(s, polls), maxRestarts)
    ensures Last(s, PollTrace(s, polls)).node == Draining && Last(s, PollTrace(s, polls)).stop
    decreases |polls|
  {
    if polls != [] && !polls[0].force && polls[0].activity == Executing {
      var s1 := s.(run := Some(Executing));
      PollIsGood(Beat(s1), polls[1..], maxRestarts);
      assert Good(s, [s1, Beat(s1)], maxRestarts);
      GoodJoins(s, [s1, Beat(s1)], PollTrace(Beat(s1), polls[1..]), maxRestarts);
    }
  }

  lemma StopIsGood(s: St, maxRestarts: nat)
    requires Sound(s, maxRestarts) && !s.alive && s.node != Failed && s.stop
    ensures Good(s, StopTrace(s), maxRestarts)
    ensures var last := Last(s, StopTrace(s)); last.node == Stopped && last.run.None?
  {
  }

  lemma DrainIsGood(s: St, child: Child, polls: seq<Poll>, maxRestarts: nat)
    requires Sound(s, maxRestarts) && s.node in {Initializing, Serving} && s.stop
    ensures Good(s, DrainTrace(s, child, polls), maxRestarts)
    ensures var last := Last(s, DrainTrace(s, child, polls)); last.node == Stopped && last.run.None?
  {
    var s1 := if s.child then s.(seen := child, alive := child.running) else s;
    if !s1.child || !child.running {
      GoodOne(s, s1, maxRestarts);
      StopIsGood(s1, maxRestarts);
      GoodJoins(s, [s1], StopTrace(s1), maxRestarts);
    } else {
      var s2 := s1.(node := Draining);
      var polled := PollTrace(s2, polls);
      var s3 := Last(s2, polled).(alive := false);
      assert Good(s, [s1, s2], maxRestarts);
      PollIsGood(s2, polls, maxRestarts);
      GoodJoins(s, [s1, s2], polled, maxRestarts);
      GoodOne(Last(s2, polled), s3, maxRestarts);
      GoodJoins(s, [s1, s2] + polled, [s3], maxRestarts);
      StopIsGood(s3, maxRestarts);
      GoodJoins(s, [s1, s2] + polled + [s3], StopTrace(s3), maxRestarts);
    }
  }

  lemma StartIsGood(port: Option<int>, seen: Child, maxRestarts: nat)
    ensures var s := Initial(port, seen);
      && Good(s, StartTrace(s), maxRestarts)
      && Sound(Last(s, StartTrace(s)), maxRestarts) && InLoop(Last(s, StartTrace(s)))
  {
  }

  lemma LastIsSound(s: St, trace: seq<St>, maxRestarts: nat)
    requires Sound(s, maxRestarts) && Good(s, trace, maxRestarts)
    ensures Sound(Last(s, trace), maxRestarts)
  {
  }

  ghost predicate Ended(s: St) { s.node in {Stopped, Failed} && s.run.None? && !s.alive }

  lemma EndIsGood(s: St, returned: bool, child: Child, polls: seq<Poll>, maxRestarts: nat)
    requires Sound(s, maxRestarts) && s.node in {Initializing, Serving, Failed} && (returned ==> s.node == Failed || s.stop)
    ensures Good(s, EndTrace(s, returned, child, polls), maxRestarts)
    ensures returned ==> Ended(Last(s, EndTrace(s, returned, child, polls)))
  {
    if returned && s.node != Failed {
      DrainIsGood(s, child, polls, maxRestarts);
      LastIsSound(s, DrainTrace(s, child, polls), maxRestarts);
    }
  }

  lemma RestIsGood(s: St, ticks: seq<Tick>, maxRestarts: nat, child: Child, polls: seq<Poll>)
    requires Sound(s, maxRestarts) && InLoop(s)
    ensures Good(s, RestTrace(s, ticks, maxRestarts, child, polls), maxRestarts)
    ensures LoopReturns(s, ticks, maxRestarts) ==> Ended(Last(s, RestTrace(s, ticks, maxRestarts, child, polls)))
  {
    var looped, returned := LoopTrace(s, ticks, maxRestarts), LoopReturns(s, ticks, maxRestarts);
    LoopIsGood(s, ticks, maxRestarts);
    LastIsSound(s, looped, maxRestarts);
    EndIsGood(Last(s, looped), returned, child, polls, maxRestarts);
    GoodJoins(s, looped, EndTrace(Last(s, looped), returned, child, polls), maxRestarts);
  }

  /** Over every run: the backend is started at most `1 + maxRestarts` times; Failed is never
      left; Serving is entered only from Initializing with a running, healthy child; a run
      state is set, and reported, only in Serving or Draining; Draining and Stopped only follow
      a stop; and a run whose loop returned ends Stopped or Failed, with no run state and no
      child alive. */
  lemma EveryRunIsLawful(port: Option<int>, seen: Child, ticks: seq<Tick>, maxRestarts: nat, child: Child, polls: seq<Poll>)
    ensures var s := Initial(port, seen);
      var trace := RunTrace(s, ticks, maxRestarts, child, polls);
      && Good(s, trace, maxRestarts)
      && (RunReturns(s, ticks, maxRestarts) ==> Ended(Last(s, trace)))
  {
    var s := Initial(port, seen);
    var started := StartTrace(s);
    var s1 := Last(s, started);
    StartIsGood(port, seen, maxRestarts);
    RestIsGood(s1, ticks, maxRestarts, child, polls);
    GoodJoins(s, started, RestTrace(s1, ticks, maxRestarts, child, polls), maxRestarts);
  }

  /** A round fails the worker exactly when it finds the child dead and cannot restart it:
      the restarts are used up, or no port is free and no signal cuts the backoff short. */
  lemma WhenARoundFails(s: St, t: Tick, maxRestarts: nat)
    requires s.node in {Initializing, Serving} && s.child
    ensures Last(s, RoundTrace(s, t, maxRestarts)).node == Failed
       <==> !s.stop && !t.signal && !t.child.running && (s.restarts >= maxRestarts || (!t.backoffSignal && t.freePort.None?))
  {
    var s1 := s.(stop := s.stop || t.signal);
    if !s1.stop {
      var reconciled := ReconcileTrace(s1, t, maxRestarts);
      var beat := BeatTrace(Last(s1, reconciled), t.reply);
      assert Last(s, [s1] + reconciled + beat) == beat[|beat| - 1];
      assert Last(s1, reconciled) == reconciled[|reconciled| - 1];
    }
  }

  // ---------------------------------------------------------------- what a round leaves

  /** Whether a child found dead in this round is replaced: there are restarts left, no signal
      cuts the backoff short, and a port is free. */
  ghost predicate Replaced(s: St, t: Tick, maxRestarts: nat) {
    !t.child.running && s.restarts < maxRestarts && !t.backoffSignal && t.freePort.Some?
  }

  /** The heartbeat's answer stops the worker, or makes it throw its child away. */
  predicate StopsWorker(reply: Reply) { reply.Refused? || (reply.Answered? && reply.known && reply.stop) }

  predicate ThrowsAway(reply: Reply) { reply.Answered? && !reply.known && reply.rekeyed }

  /** A ROUND, with a child and no stop pending: the worker serves afterwards exactly if the
      child runs and is healthy or was served already, and then shows the child's activity; it
      is initializing exactly while the child runs unhealthy for the first time, or is dead
      and has a restart left that found a port or was cut short; otherwise it has failed. The
      heartbeat reports just that. */
  lemma RoundLeaves(s: St, t: Tick, maxRestarts: nat)
    requires s.node in {Initializing, Serving} && s.child && (s.run.Some? ==> s.node == Serving)
    requires !s.stop && !t.signal
    ensures var s' := Last(s, RoundTrace(s, t, maxRestarts));
      && (s'.node == Serving <==> t.child.running && (s.node == Serving || t.child.healthy))
      && s'.run == (if s'.node == Serving then Some(t.child.activity) else None)
      && (s'.node == Initializing <==>
            if t.child.running then s.node == Initializing && !t.child.healthy
            else s.restarts < maxRestarts && (t.backoffSignal || t.freePort.Some?))
      && s'.node in {Initializing, Serving, Failed}
      && s'.reported == Some((s'.node, s'.run)) && s'.seen == t.child && s'.child
  {
    RoundUnfolds(s, t, maxRestarts);
  }

  /** ... and its books: a dead child costs a restart if one is left; a replacement is one more
      start, on the port found; the child lives if it ran or was replaced, unless the answer
      makes the worker throw it away; and a stop is pending exactly if a signal cut the backoff
      short or the answer asks for it. */
  lemma RoundCounts(s: St, t: Tick, maxRestarts: nat)
    requires s.node in {Initializing, Serving} && s.child && !s.stop && !t.signal
    ensures var s' := Last(s, RoundTrace(s, t, maxRestarts));
      && s'.restarts == s.restarts + (if !t.child.running && s.restarts < maxRestarts then 1 else 0)
      && s'.starts == s.starts + (if Replaced(s, t, maxRestarts) then 1 else 0)
      && s'.port == (if Replaced(s, t, maxRestarts) then t.freePort else s.port)
      && (s'.alive <==> (t.child.running || Replaced(s, t, maxRestarts)) && !ThrowsAway(t.reply))
      && (s'.stop <==> (!t.child.running && s.restarts < maxRestarts && t.backoffSignal) || t.reply.Refused?
                       || (StopsWorker(t.reply) && s'.node != Failed))
  {
    RoundUnfolds(s, t, maxRestarts);
  }

  lemma RoundUnfolds(s: St, t: Tick, maxRestarts: nat)
    requires s.child && !s.stop && !t.signal
    ensures var s1 := s.(seen := t.child, alive := t.child.running);
      var s2 := if t.child.running then Last(s1, ObserveTrace(s1, t.child)) else Last(s1, CrashTrace(s1, t, maxRestarts));
      Last(s, RoundTrace(s, t, maxRestarts)) == Last(s2, BeatTrace(s2, t.reply))
  {
    var s1 := s.(seen := t.child, alive := t.child.running);
    var rest := if t.child.running then ObserveTrace(s1, t.child) else CrashTrace(s1, t, maxRestarts);
    assert s.(stop := s.stop || t.signal) == s;
    LastJoins(s, [s1], rest);
    var reconciled := ReconcileTrace(s, t, maxRestarts);
    LastJoins(s, [s] + reconciled, BeatTrace(Last(s, reconciled), t.reply));
    LastJoins(s, [s], reconciled);
  }

  /** WHEN THE LOOP RETURNS: at a pending stop or a signal, having done nothing else; once the
      worker has failed, which it still reports; and when the manager says to stop. */
  lemma WhenARoundReturns(s: St, t: Tick, maxRestarts: nat)
    requires s.node in {Initializing, Serving, Failed} && (s.node == Failed <==> !s.child)
    ensures var s' := Last(s, RoundTrace(s, t, maxRestarts));
      && (s.stop || t.signal ==> RoundReturns(s, t, maxRestarts) && s' == s.(stop := true))
      && (!s.stop && !t.signal ==>
            && s'.reported == Some((s'.node, s'.run)) && (s.node == Failed ==> s'.node == Failed && s'.run == s.run)
            && (RoundReturns(s, t, maxRestarts) <==> s'.node == Failed || (t.reply.Answered? && t.reply.known && t.reply.stop)))
  {
    if !s.stop && !t.signal {
      assert s.(stop := s.stop || t.signal) == s;
      var reconciled := ReconcileTrace(s, t, maxRestarts);
      LastJoins(s, [s] + reconciled, BeatTrace(Last(s, reconciled), t.reply));
      LastJoins(s, [s], reconciled);
    }
  }

  /** THE LOOP takes one more round exactly while it has not returned. */
  lemma {:induction false} LoopTakesRounds(s: St, ticks: seq<Tick>, t: Tick, maxRestarts: nat)
    ensures var s1 := Last(s, LoopTrace(s, ticks, maxRestarts));
      var more := ticks + [t];
      if LoopReturns(s, ticks, maxRestarts)
      then LoopTrace(s, more, maxRestarts) == LoopTrace(s, ticks, maxRestarts) && LoopReturns(s, more, maxRestarts)
      else
        && LoopTrace(s, more, maxRestarts) == LoopTrace(s, ticks, maxRestarts) + RoundTrace(s1, t, maxRestarts)
        && (LoopReturns(s, more, maxRestarts) <==> RoundReturns(s1, t, maxRestarts))
    decreases |ticks|
  {
    var more := ticks + [t];
    if ticks == [] {
      assert more[1..] == [];
      assert [] + RoundTrace(s, t, maxRestarts) == RoundTrace(s, t, maxRestarts) == RoundTrace(s, t, maxRestarts) + [];
    } else {
      assert more[0] == ticks[0] && more[1..] == ticks[1..] + [t];
      var round := RoundTrace(s, ticks[0], maxRestarts);
      if !RoundReturns(s, ticks[0], maxRestarts) {
        var s1 := Last(s, round);
        LoopTakesRounds(s1, ticks[1..], t, maxRestarts);
        var rest := LoopTrace(s1, ticks[1..], maxRestarts);
        LastJoins(s, round, rest);
        Regrouped(round, rest, RoundTrace(Last(s1, rest), t, maxRestarts));
      }
    }
  }

  /** The drain loop waits exactly while the child executes and no second signal forces it. */
  ghost predicate Waits(polls: seq<Poll>, k: nat) {
    && k <= |polls| && (forall i | 0 <= i < k :: !polls[i].force && polls[i].activity == Executing)
    && (k < |polls| ==> polls[k].force || polls[k].activity != Executing)
  }

  lemma {:induction false} PollWaits(s: St, polls: seq<Poll>) returns (k: nat)
    ensures Waits(polls, k) && |PollTrace(s, polls)| == 2 * k
    ensures forall i | 0 <= i < 2 * k ::
      PollTrace(s, polls)[i] == s.(run := Some(Executing), reported := if i == 0 then s.reported else Some((s.node, Some(Executing))))
    decreases |polls|
  {
    if polls == [] || polls[0].force || polls[0].activity != Executing {
      k := 0;
    } else {
      var s1 := s.(run := Some(Executing));
      k := PollWaits(Beat(s1), polls[1..]);
      var rest := PollTrace(Beat(s1), polls[1..]);
      assert PollTrace(s, polls) == [s1, Beat(s1)] + rest;
      assert forall i | 2 <= i < 2 * k + 2 :: PollTrace(s, polls)[i] == rest[i - 2];
      assert forall i | 1 <= i < k + 1 :: polls[i] == polls[1..][i - 1];
      k := k + 1;
    }
  }

  /** A DRAIN: without a running child the worker is STOPPED at once. With one it is DRAINING,
      and reports that it executes, for exactly as long as the child executes unforced; only
      then is the child stopped, and the end reported. */
  lemma DrainLeaves(s: St, child: Child, polls: seq<Poll>) returns (k: nat)
    ensures var trace := DrainTrace(s, child, polls);
      var last := Last(s, trace);
      && last.node == Stopped && last.run.None? && last.reported == Some((Stopped, None))
      && if s.child && child.running then
           && Waits(polls, k) && |trace| == 2 * k + 6 && !last.alive
           && (forall i | 1 <= i < 2 * k + 2 :: trace[i].node == Draining && trace[i].alive)
           && (forall i | 0 <= i < k :: trace[2 * i + 3].reported == Some((Draining, Some(Executing))))
         else |trace| == 4 && (forall i | 1 <= i < 4 :: trace[i].node == Stopped)
  {
    k := 0;
    if s.child && child.running {
      var s1 := s.(seen := child, alive := true);
      var s2 := s1.(node := Draining);
      k := PollWaits(s2, polls);
      var polled := PollTrace(s2, polls);
      var s3 := Last(s2, polled).(alive := false);
      var trace := [s1, s2] + polled + [s3] + StopTrace(s3);
      assert DrainTrace(s, child, polls) == trace;
      assert forall i | 0 <= i < 2 * k :: trace[i + 2] == polled[i];
    }
  }

  /** THE START: one start on the port chosen, or failure without one. */
  lemma StartLeaves(s: St)
    ensures var s' := Last(s, StartTrace(s));
      if s.port.None? then s' == s.(node := Failed)
      else s' == s.(node := Initializing, child := true, alive := true, starts := s.starts + 1)
  {
  }

  // ---------------------------------------------------------------- in place

  /** What the loop leaves from here on: the trace, the last state, and whether it returns. */
  ghost function AfterLoop(s: St, before: seq<St>, ticks: seq<Tick>, returned: bool, maxRestarts: nat): (seq<St>, St, bool) {
    if returned then (before, s, true)
    else
      var rest := LoopTrace(s, ticks, maxRestarts);
      (before + rest, Last(s, rest), LoopReturns(s, ticks, maxRestarts))
  }

  lemma LastJoins(s: St, a: seq<St>, b: seq<St>)
    ensures Last(s, a + b) == Last(Last(s, a), b)
  {
    if b == [] {
      assert a + b == a;
    }
  }

  lemma LoopUnrolls(s: St, before: seq<St>, ticks: seq<Tick>, maxRestarts: nat)
    requires ticks != []
    ensures var round := RoundTrace(s, ticks[0], maxRestarts);
      AfterLoop(s, before, ticks, false, maxRestarts)
        == AfterLoop(Last(s, round), before + round, ticks[1..], RoundReturns(s, ticks[0], maxRestarts), maxRestarts)
  {
    var round := RoundTrace(s, ticks[0], maxRestarts);
    if !RoundReturns(s, ticks[0], maxRestarts) {
      var rest := LoopTrace(Last(s, round), ticks[1..], maxRestarts);
      Regrouped(before, round, rest);
      LastJoins(s, round, rest);
    }
  }

  lemma PollUnrolls(s: St, polls: seq<Poll>)
    requires polls != [] && !polls[0].force && polls[0].activity == Executing
    ensures var s1 := Beat(s.(run := Some(Executing)));
      Last(s, PollTrace(s, polls)) == Last(s1, PollTrace(s1, polls[1..]))
  {
  }

  lemma RoundJoins(s: St, old_: seq<St>, s1: St, reconciled: seq<St>, s2: St, beat: seq<St>, trace: seq<St>)
    requires trace == ((old_ + [s1]) + reconciled) + beat && s2 == Last(s1, reconciled) && beat != []
    ensures trace == old_ + ([s1] + reconciled + beat)
    ensures Last(s, [s1] + reconciled + beat) == Last(s2, beat)
  {
    Regrouped(old_, [s1], reconciled);
    Regrouped(old_, [s1] + reconciled, beat);
    LastJoins(s, [s1] + reconciled, beat);
  }

  lemma CrashJoins(old_: seq<St>, s1: St, waited: seq<St>, restarted: seq<St>, trace: seq<St>)
    requires trace == ((old_ + [s1]) + waited) + restarted || (restarted == [] && trace == (old_ + [s1]) + waited)
    ensures trace == old_ + ([s1] + waited + restarted)
  {
    Regrouped(old_, [s1], waited);
    Regrouped(old_, [s1] + waited, restarted);
    assert [s1] + waited + [] == [s1] + waited;
  }

  lemma DrainJoins(old_: seq<St>, s1: St, s2: St, polled: seq<St>, s3: St, trace: seq<St>)
    requires trace == ((old_ + ([s1] + [s2])) + polled) + [s3]
    ensures trace == old_ + ([s1, s2] + polled + [s3])
  {
    assert [s1] + [s2] == [s1, s2];
    Regrouped(old_, [s1, s2], polled);
    Regrouped(old_, [s1, s2] + polled, [s3]);
  }

  lemma Regrouped(a: seq<St>, b: seq<St>, c: seq<St>)
    ensures (a + b) + c == a + (b + c)
  {
  }

  class WorkerCoordinator {
    const maxRestarts: nat
    var nodeState: NodeState
    var runState: Option<RunState>
    var restarts: nat
    var vllmPort: Option<int>
    var supervised: bool
    var stop: bool
    ghost var seen: Child
    ghost var alive: bool
    ghost var starts: nat
    ghost var reported: Option<(NodeState, Option<RunState>)>
    ghost var trace: seq<St>  // the state after every assignment so far

    constructor (maxRestarts: nat, port: Option<int>, ghost seen: Child)
      ensures Now() == Initial(port, seen) && trace == [] && this.maxRestarts == maxRestarts
    {
      this.maxRestarts := maxRestarts;
      nodeState, runState, restarts, vllmPort, supervised, stop := Registering, None, 0, port, false, false;
      this.seen, alive, starts, reported, trace := seen, false, 0, None, [];
    }

    ghost function Now(): St
      reads this
    {
      St(nodeState, runState, restarts, vllmPort, supervised, stop, seen, alive, starts, reported)
    }

    /** Notes the state an assignment left. */
    ghost method Mark()
      modifies this`trace
      ensures trace == old(trace) + [Now()]
    {
      trace := trace + [Now()];
    }

    /** A new backend child is made and started. */
    method Launch()
      modifies this
      ensures Now() == Launched(old(Now())) && trace == old(trace) + [Now()]
    {
      supervised := true;
      alive, starts := true, starts + 1;
      Mark();
    }

    /** `_start_vllm`. */
    method StartBackend()
      modifies this
      ensures Now() == Last(old(Now()), StartTrace(old(Now())))
      ensures trace == old(trace) + StartTrace(old(Now()))
    {
      if vllmPort.None? {
        nodeState := Failed;
        Mark();
        return;
      }
      nodeState := Initializing;
      Mark();
      ghost var s1 := Now();
      Launch();
      Regrouped(old(trace), [s1], [Now()]);
    }

    /** `_handle_crash`. */
    method HandleCrash(t: Tick)
      modifies this
      ensures Now() == Last(old(Now()), CrashTrace(old(Now()), t, maxRestarts))
      ensures trace == old(trace) + CrashTrace(old(Now()), t, maxRestarts)
    {
      runState := None;
      Mark();
      ghost var s1 := Now();
      if restarts >= maxRestarts {
        nodeState := Failed;
        Mark();
        Regrouped(old(trace), [s1], [Now()]);
        return;
      }
      Backoff(t);
      ghost var s4 := Now();
      CrashJoins(old(trace), s1, BackoffTrace(s1, t), [], trace);
      if stop {
        return;
      }
      Restart(t);
      CrashJoins(old(trace), s1, BackoffTrace(s1, t), RestartTrace(s4, t), trace);
    }

    /** The attempt is counted, and the backoff waited out or cut short. */
    method Backoff(t: Tick)
      modifies this
      ensures Now() == Last(old(Now()), BackoffTrace(old(Now()), t)) && trace == old(trace) + BackoffTrace(old(Now()), t)
    {
      restarts := restarts + 1;
      Mark();
      ghost var s2 := Now();
      nodeState := Initializing;
      Mark();
      ghost var s3 := Now();
      stop := stop || t.backoffSignal;
      Mark();
      assert trace == old(trace) + [s2, s3, Now()];
    }

    /** The end of `_handle_crash`: pick a port, or fail, and start a new child. */
    method Restart(t: Tick)
      modifies this
      ensures Now() == Last(old(Now()), RestartTrace(old(Now()), t)) && trace == old(trace) + RestartTrace(old(Now()), t)
    {
      if t.freePort.None? {
        nodeState := Failed;
        Mark();
        return;
      }
      vllmPort := t.freePort;
      Mark();
      ghost var s5 := Now();
      Launch();
      Regrouped(old(trace), [s5], [Now()]);
    }

    /** `_reconcile`. */
    method Reconcile(t: Tick)
      modifies this
      ensures Now() == Last(old(Now()), ReconcileTrace(old(Now()), t, maxRestarts))
      ensures trace == old(trace) + ReconcileTrace(old(Now()), t, maxRestarts)
    {
      if !supervised {
        assert trace + [] == trace;
        return;
      }
      seen, alive := t.child, t.child.running;
      Mark();
      ghost var s1 := Now();
      if t.child.running {
        Observe(t.child);
        Regrouped(old(trace), [s1], ObserveTrace(s1, t.child));
        return;
      }
      HandleCrash(t);
      Regrouped(old(trace), [s1], CrashTrace(s1, t, maxRestarts));
    }

    /** A running child: healthy for the first time, or with its activity. */
    method Observe(child: Child)
      modifies this
      ensures Now() == Last(old(Now()), ObserveTrace(old(Now()), child)) && trace == old(trace) + ObserveTrace(old(Now()), child)
    {
      if nodeState == Initializing && child.healthy {
        nodeState := Serving;
      }
      Mark();
      ghost var s2 := Now();
      if nodeState == Serving {
        runState := Some(child.activity);
      }
      Mark();
      Regrouped(old(trace), [s2], [Now()]);
    }

    /** `_send_heartbeat`, and what the loop does with its answer. */
    method Heartbeat(reply: Reply) returns (leave: bool)
      modifies this
      ensures Now() == Last(old(Now()), BeatTrace(old(Now()), reply))
      ensures trace == old(trace) + BeatTrace(old(Now()), reply)
      ensures leave == Leaves(old(Now()), reply)
    {
      reported := Some((nodeState, runState));
      Mark();
      ghost var s1 := Now();
      assert [s1] + [] == [s1];
      if reply.Refused? {
        stop := true;
        Mark();
        Regrouped(old(trace), [s1], [Now()]);
      }
      if nodeState == Failed {
        return true;
      }
      leave := false;
      if reply.Answered? {
        if !reply.known {
          if reply.rekeyed && supervised {
            alive := false;
            Mark();
            Regrouped(old(trace), [s1], [Now()]);
          }
        } else if reply.stop {
          stop := true;
          Mark();
          Regrouped(old(trace), [s1], [Now()]);
          leave := true;
        }
      }
    }

    /** One round of `_loop`. */
    method Round(t: Tick) returns (leave: bool)
      modifies this
      ensures Now() == Last(old(Now()), RoundTrace(old(Now()), t, maxRestarts))
      ensures trace == old(trace) + RoundTrace(old(Now()), t, maxRestarts)
      ensures leave == RoundReturns(old(Now()), t, maxRestarts)
    {
      stop := stop || t.signal;
      Mark();
      ghost var s1 := Now();
      if stop {
        return true;
      }
      Reconcile(t);
      ghost var reconciled := ReconcileTrace(s1, t, maxRestarts);
      ghost var s2 := Now();
      leave := Heartbeat(t.reply);
      RoundJoins(old(Now()), old(trace), s1, reconciled, s2, BeatTrace(s2, t.reply), trace);
    }

    /** `_loop`. */
    method Loop(ticks: seq<Tick>) returns (returned: bool)
      modifies this
      ensures Now() == Last(old(Now()), LoopTrace(old(Now()), ticks, maxRestarts))
      ensures trace == old(trace) + LoopTrace(old(Now()), ticks, maxRestarts)
      ensures returned == LoopReturns(old(Now()), ticks, maxRestarts)
    {
      returned := false;
      var i := 0;
      while i < |ticks| && !returned
        invariant 0 <= i <= |ticks|
        invariant AfterLoop(old(Now()), old(trace), ticks, false, maxRestarts)
               == AfterLoop(Now(), trace, ticks[i..], returned, maxRestarts)
      {
        LoopUnrolls(Now(), trace, ticks[i..], maxRestarts);
        returned := Round(ticks[i]);
        assert ticks[i..][1..] == ticks[i + 1..];
        i := i + 1;
      }
      assert trace + [] == trace;
    }

    /** `_drain_and_stop`. */
    method DrainAndStop(child: Child, polls: seq<Poll>)
      modifies this
      ensures Now() == Last(old(Now()), DrainTrace(old(Now()), child, polls))
      ensures trace == old(trace) + DrainTrace(old(Now()), child, polls)
    {
      if supervised {
        seen, alive := child, child.running;
      }
      Mark();
      ghost var s1 := Now();
      ghost var front := [s1];
      if supervised && child.running {
        nodeState := Draining;
        Mark();
        ghost var s2 := Now();
        Regrouped(old(trace), [s1], [s2]);
        PollUntilIdle(polls);
        alive := false;
        Mark();
        DrainJoins(old(trace), s1, s2, PollTrace(s2, polls), Now(), trace);
        front := [s1, s2] + PollTrace(s2, polls) + [Now()];
      }
      assert trace == old(trace) + front;
      ghost var s3 := Now();
      SettleStopped();
      Regrouped(old(trace), front, StopTrace(s3));
      LastJoins(old(Now()), front, StopTrace(s3));
    }

    /** The end of `_drain_and_stop`. */
    method SettleStopped()
      modifies this
      ensures Now() == Last(old(Now()), StopTrace(old(Now()))) && trace == old(trace) + StopTrace(old(Now()))
    {
      nodeState := Stopped;
      Mark();
      ghost var s1 := Now();
      runState := None;
      Mark();
      ghost var s2 := Now();
      reported := Some((nodeState, runState));
      Mark();
      assert trace == old(trace) + [s1, s2, Now()];
    }

    method PollUntilIdle(polls: seq<Poll>)
      modifies this
      ensures Now() == Last(old(Now()), PollTrace(old(Now()), polls))
      ensures trace == old(trace) + PollTrace(old(Now()), polls)
    {
      var i := 0;
      ghost var whole := old(trace) + PollTrace(Now(), polls);
      while i < |polls| && !polls[i].force && polls[i].activity == Executing
        invariant 0 <= i <= |polls|
        invariant Last(old(Now()), PollTrace(old(Now()), polls)) == Last(Now(), PollTrace(Now(), polls[i..]))
        invariant whole == trace + PollTrace(Now(), polls[i..])
      {
        ghost var s, before := Now(), trace;
        PollUnrolls(s, polls[i..]);
        ShowExecuting();
        assert polls[i..][1..] == polls[i + 1..];
        Regrouped(before, [s.(run := Some(Executing)), Now()], PollTrace(Now(), polls[i + 1..]));
        i := i + 1;
      }
      assert trace + [] == trace;
    }

    /** One turn of the drain loop: the run state, then the heartbeat that reports it. */
    method ShowExecuting()
      modifies this
      ensures var s1 := old(Now()).(run := Some(Executing)); Now() == Beat(s1) && trace == old(trace) + [s1, Beat(s1)]
    {
      runState := Some(Executing);
      Mark();
      ghost var s1 := Now();
      reported := Some((nodeState, runState));
      Mark();
      Regrouped(old(trace), [s1], [Now()]);
    }

    /** `run`, past registration; `returned` tells whether it came to an end. */
    method Run(ticks: seq<Tick>, child: Child, polls: seq<Poll>) returns (returned: bool)
      modifies this
      ensures Now() == Last(old(Now()), RunTrace(old(Now()), ticks, maxRestarts, child, polls))
      ensures trace == old(trace) + RunTrace(old(Now()), ticks, maxRestarts, child, polls)
      ensures returned == RunReturns(old(Now()), ticks, maxRestarts)
    {
      StartBackend();
      ghost var s1, started := Now(), trace;
      returned := Loop(ticks);
      ghost var s2, looped := Now(), trace;
      if returned && nodeState != Failed {
        DrainAndStop(child, polls);
      } else {
        assert trace + [] == trace;
      }
      ghost var end := EndTrace(s2, returned, child, polls);
      assert trace == looped + end && Now() == Last(s2, end);
      Regrouped(started, LoopTrace(s1, ticks, maxRestarts), end);
      LastJoins(s1, LoopTrace(s1, ticks, maxRestarts), end);
      Regrouped(old(trace), StartTrace(old(Now())), RestTrace(s1, ticks, maxRestarts, child, polls));
      LastJoins(old(Now()), StartTrace(old(Now())), RestTrace(s1, ticks, maxRestarts, child, polls));
    }
  }
}
