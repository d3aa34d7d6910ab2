/**
 One request of the agent's chat loop (`OumiGoChat._run` and what it calls, in
 src/oumigo/api/agent/chat.py), as functions of the outside world.

 Model replies, tool bodies, JSON parsing and the deadline clock are functions of the
 moment they are consulted at, so every behaviour of theirs is covered. Guards are the
 chains of GuardChain.dfy and may look at the moment too.
*/
module Chat {
  import opened Prelude
  import opened GuardChains
  import opened Streams

  datatype Message =
    | System(text: string)
    | User(text: string)
    | Assistant(content: Option<string>, calls: seq<Call>)
    | Tool(id: Option<string>, result: string)

  /** Round 0 step 0 is the start of the request; step k + 1 is the k-th tool of a round. */
  datatype Moment = Moment(round: nat, step: nat)

  /** What a guard screens; `Opaque` is any value of another type. */
  datatype Content = Text(text: string) | Messages(messages: seq<Message>) | Arguments(arguments: string) | Opaque

  datatype Setting = Setting(tool: Option<string>, messages: Option<seq<Message>>, system: Option<string>, moment: Moment)

  datatype JsonReply =
    | Completed(content: Option<string>, calls: seq<Call>, reasoning: string, finish: string)
    | JsonTimeout
    | JsonError

  /** How an SSE stream ends: normally, with a read timeout, or with another error. */
  datatype Ending = Ended | TimedOut | Broken

  datatype StreamReply = StreamReply(deltas: seq<Delta>, ending: Ending)

  datatype ToolRun = Returned(result: string) | Raised(error: string)

  datatype World = World(
    json: (nat, seq<Message>) -> JsonReply,
    sse: (nat, seq<Message>) -> StreamReply,
    parse: string -> Option<string>,           // json.loads; None when it is not JSON
    invoke: (Moment, string, string) -> ToolRun,
    expired: Moment -> bool)

  datatype Config = Config(
    maxIterations: int,
    stream: bool,
    guards: seq<Guard<Content, Setting>>,
    tools: set<string>,
    system: Option<string>)

  /** An event handed to the caller, with the value of `resp.text` at that moment. */
  datatype Event = Event(answer: bool, piece: string, textThen: string)

  datatype Made = Made(name: string, arguments: string, result: string)

  /** The mutable state of one request. `sent` logs the messages of each model call. */
  datatype St = St(
    messages: seq<Message>,
    sent: seq<seq<Message>>,
    text: string,
    reasoning: string,
    events: seq<Event>,
    made: seq<Made>,
    flags: seq<(Point, string)>)

  const TIMEOUT_TEXT := "\n\n[OumiGo] Timed out before the model finished this turn."
  const DEFAULT_BLOCK_TEXT := "This request was blocked by a guardrail policy."

  function Say(st: St, piece: string): St {
    st.(text := st.text + piece, events := st.events + [Event(true, piece, st.text + piece)])
  }

  function Think(st: St, piece: string): St {
    st.(events := st.events + [Event(false, piece, st.text)])
  }

  function NoteReasoning(st: St, thought: string): St {
    if thought == "" then st
    else st.(reasoning := if st.reasoning == "" then thought else st.reasoning + "\n\n" + thought)
  }

  function Screen(c: Config, p: Point, content: Content, x: Setting): Outcome<Content> {
    Evaluate(c.guards, p, content, x)
  }

  function AddFlags(st: St, p: Point, vs: seq<Verdict<Content>>): St {
    st.(flags := st.flags + seq(|vs|, i requires 0 <= i < |vs| => (p, if vs[i].Flag? then vs[i].reason else "")))
  }

  function ReasonOr(v: Verdict<Content>, fallback: string): string {
    if (v.Skip? || v.Block? || v.Stop?) && v.reason != "" then v.reason else fallback
  }

  /** The finish reason of a halting verdict. */
  function HaltReason(v: Verdict<Content>): string {
    if v.Stop? then "stopped" else "blocked"
  }

  /** `_halt`: the verdict's reason becomes answer text. */
  function Halt(st: St, v: Verdict<Content>): St {
    Say(st, ReasonOr(v, DEFAULT_BLOCK_TEXT))
  }

  function SetLastContent(ms: seq<Message>, text: string): seq<Message> {
    if ms != [] && ms[|ms| - 1].Assistant? then ms[|ms| - 1 := ms[|ms| - 1].(content := Some(text))] else ms
  }

  // ---------- one model round-trip ----------

  function StreamDelta(buffer: bool, st: St, d: Delta): St {
    var s1 := if d.reasoning != "" then Think(st, d.reasoning) else st;
    if d.content != "" && !buffer then Say(s1, d.content) else s1
  }

  function StreamDeltas(buffer: bool, st: St, ds: seq<Delta>): St {
    if ds == [] then st else StreamDelta(buffer, StreamDeltas(buffer, st, ds[..|ds| - 1]), ds[|ds| - 1])
  }

  /** The calls of a streamed turn in index order. */
  ghost function InOrder(slots: map<int, Call>): (r: seq<Call>)
    ensures forall calls, keys :: InIndexOrder(slots, calls, keys) ==> exists ks :: InIndexOrder(slots, r, ks)
  {
    if calls, keys :| InIndexOrder(slots, calls, keys) then calls else []
  }

  lemma InOrderIs(slots: map<int, Call>, calls: seq<Call>, keys: seq<int>)
    requires InIndexOrder(slots, calls, keys)
    ensures InOrder(slots) == calls
  {
    var keys' :| InIndexOrder(slots, InOrder(slots), keys');
    assert Increasing(keys);
    assert InIndexOrder(slots, InOrder(slots), keys');
    assert Increasing(keys');
    IncreasingUnique(keys, keys');
  }

  /** How a round-trip ends. `partial` is the answer text a broken stream had shown. */
  datatype TurnEnd =
    | PromptHalted(verdict: Verdict<Content>)
    | TurnTimedOut(partial: string)
    | TurnBroke(partial: string)
    | Spoke(message: Message, finish: string, answer: string)

  function NonEmpty(s: string): Option<string> {
    if s == "" then None else Some(s)
  }

  /** `_stream_turn`. */
  ghost function StreamTurn(w: World, buffer: bool, n: nat, st: St): (St, TurnEnd) {
    var reply := w.sse(n, st.messages);
    var s1 := StreamDeltas(buffer, st.(sent := st.sent + [st.messages]), reply.deltas);
    var turn := FoldDeltas(reply.deltas);
    match reply.ending
    case TimedOut => (s1, TurnTimedOut(turn.content))
    case Broken => (s1, TurnBroke(turn.content))
    case Ended =>
      (NoteReasoning(s1, turn.reasoning),
       Spoke(Assistant(NonEmpty(turn.content), InOrder(turn.slots)), turn.finish, turn.content))
  }

  /** The non-streaming branch of `_complete_turn`. */
  function JsonTurn(w: World, buffer: bool, n: nat, st: St): (St, TurnEnd) {
    var s1 := st.(sent := st.sent + [st.messages]);
    match w.json(n, st.messages)
    case JsonTimeout => (s1, TurnTimedOut(""))
    case JsonError => (s1, TurnBroke(""))
    case Completed(content, calls, reasoning, finish) =>
      var s2 := NoteReasoning(s1, reasoning);
      var s3 := if reasoning != "" then Think(s2, reasoning) else s2;
      var text := content.GetOr("");
      var s4 := if text != "" && !buffer then Say(s3, text) else s3;
      (s4, Spoke(Assistant(content, calls), finish, text))
  }

  /** STREAMED AND WHOLE AGREE: a reply streamed in any split and interleaving gives the
      same assistant message, finish aside, as the whole reply, empty content counting as
      absent. */
  lemma StreamedMatchesWhole(w: World, buffer: bool, n: nat, st: St, content: Option<string>, slots: map<int, Call>, calls: seq<Call>, keys: seq<int>)
    requires InIndexOrder(slots, calls, keys)
    requires w.sse(n, st.messages).ending.Ended?
    requires Streams.Streams(w.sse(n, st.messages).deltas, content.GetOr(""), slots)
    requires exists reasoning, finish :: w.json(n, st.messages) == Completed(content, calls, reasoning, finish)
    ensures var streamed, whole := StreamTurn(w, buffer, n, st).1, JsonTurn(w, buffer, n, st).1;
      && streamed.Spoke? && whole.Spoke? && streamed.answer == whole.answer
      && streamed.message == Assistant(NonEmpty(content.GetOr("")), calls)
      && whole.message == Assistant(content, calls)
      && (streamed.message == whole.message <==> content != Some(""))
  {
    StreamRebuilds(w.sse(n, st.messages).deltas, content.GetOr(""), slots);
    InOrderIs(slots, calls, keys);
  }

  /** `_guard_prompt`: screen, and on a transform rewrite, the outgoing messages. */
  function GuardPrompt(c: Config, n: nat, st: St): (St, Verdict<Content>) {
    var o := Screen(c, AssembledPrompt, Messages(st.messages), Setting(None, Some(st.messages), c.system, Moment(n, 0)));
    var s1 := AddFlags(st, AssembledPrompt, o.flags);
    (if o.content.Messages? then s1.(messages := o.content.messages) else s1, o.verdict)
  }

  /** `_complete_turn`. */
  ghost function CompleteTurn(w: World, c: Config, buffer: bool, n: nat, st: St): (St, TurnEnd) {
    var (s1, v) := GuardPrompt(c, n, st);
    if v.Halts() then (Halt(s1, v), PromptHalted(v))
    else if c.stream then StreamTurn(w, buffer, n, s1)
    else JsonTurn(w, buffer, n, s1)
  }

  /** `_guard_output`: screen a buffered turn, then release it. None: no halt. */
  function GuardOutput(c: Config, n: nat, st: St, answer: string, hasCalls: bool): (St, Option<string>) {
    var p := if hasCalls then AssistantTurn else FinalAnswer;
    var o := Screen(c, p, Text(answer), Setting(None, Some(st.messages), c.system, Moment(n, 0)));
    var s1 := AddFlags(st, p, o.flags);
    if o.verdict.Halts() then
      var s2 := Halt(s1, o.verdict);
      (s2.(messages := SetLastContent(s2.messages, s2.text)), Some(HaltReason(o.verdict)))
    else
      var text := if o.content.Text? then o.content.text else answer;
      var s2 := if text != "" then Say(s1, text) else s1;
      (if text != answer then s2.(messages := SetLastContent(s2.messages, text)) else s2, None)
  }

  // ---------- tools ----------

  datatype Executed = Executed(st: St, result: string, halt: Option<Verdict<Content>>)

  function Record(st: St, name: string, arguments: string, result: string, halt: Option<Verdict<Content>>): Executed {
    Executed(st.(made := st.made + [Made(name, arguments, result)]), result, halt)
  }

  function HaltUnlessSkip(v: Verdict<Content>): Option<Verdict<Content>> {
    if v.Skip? then None else Some(v)
  }

  /** `_invoke_guarded`, and the record `_execute_tool` keeps of it. */
  function InvokeGuarded(w: World, c: Config, m: Moment, st: St, name: string, given: string): Executed {
    var x := Setting(Some(name), None, c.system, m);
    var pre := Screen(c, ToolCall, Arguments(given), x);
    var s1 := AddFlags(st, ToolCall, pre.flags);
    if pre.verdict.Halts() then
      Record(s1, name, given, ReasonOr(pre.verdict, "Tool " + name + " was blocked by a guardrail."), HaltUnlessSkip(pre.verdict))
    else
      var arguments := if pre.content.Arguments? then pre.content.arguments else given;
      match w.invoke(m, name, arguments)
      case Raised(e) => Record(s1, name, arguments, "Error: " + e, None)
      case Returned(out) =>
        var post := Screen(c, ToolResult, Text(out), x);
        var s2 := AddFlags(s1, ToolResult, post.flags);
        if post.verdict.Halts() then
          Record(s2, name, arguments, ReasonOr(post.verdict, "The result of tool " + name + " was withheld by a guardrail."),
                 HaltUnlessSkip(post.verdict))
        else Record(s2, name, arguments, if post.content.Text? then post.content.text else out, None)
  }

  /** `_execute_tool`: never raises; whatever goes wrong becomes a result for the model. */
  function ExecuteTool(w: World, c: Config, m: Moment, st: St, call: Call): Executed {
    var raw := if call.arguments == "" then "{}" else call.arguments;
    if call.name !in c.tools then Record(st, call.name, raw, "Error: unknown tool " + call.name, None)
    else
      match w.parse(raw)
      case None => Record(st, call.name, raw, "Error: could not parse arguments", None)
      case Some(given) => InvokeGuarded(w, c, m, st, call.name, given)
  }

  /** What one turn of a loop makes of a state: the next state, and why the loop ends, if it does. */
  type LoopTurn = (nat, St) -> (St, Option<string>)

  function Loop(turn: LoopTurn, st: St, k: nat, n: nat): (St, Option<string>)
    requires k <= n
    decreases n - k
  {
    if k == n then (st, None)
    else
      var (s1, stopped) := turn(k, st);
      if stopped.Some? then (s1, stopped) else Loop(turn, s1, k + 1, n)
  }

  /** One tool of the inner loop of `_run`. Some: the reason it ends the run. */
  function ToolTurn(w: World, c: Config, n: nat, calls: seq<Call>, k: nat, st: St): (St, Option<string>) {
    if k >= |calls| then (st, None)
    else
      var m := Moment(n, k + 1);
      var e := ExecuteTool(w, c, m, st, calls[k]);
      (e.st.(messages := e.st.messages + [Tool(calls[k].id, e.result)]),
       if e.halt.Some? then Some(HaltReason(e.halt.value)) else if w.expired(m) then Some("timeout") else None)
  }

  /** The inner loop of `_run`, from tool `k` on. */
  function ToolLoop(w: World, c: Config, n: nat, st: St, calls: seq<Call>, k: nat): (St, Option<string>)
    requires k <= |calls|
  {
    Loop((i: nat, s: St) => ToolTurn(w, c, n, calls, i, s), st, k, |calls|)
  }

  lemma ToolLoopUnrolls(w: World, c: Config, n: nat, st: St, calls: seq<Call>, k: nat)
    requires k < |calls|
    ensures var (s1, stopped) := ToolTurn(w, c, n, calls, k, st);
      ToolLoop(w, c, n, st, calls, k) == if stopped.Some? then (s1, stopped) else ToolLoop(w, c, n, s1, calls, k + 1)
  {
  }

  // ---------- the run ----------

  /** How the rounds end: a finish reason, or an exception. `partial` is the text shown by
      a stream that then timed out or broke. */
  datatype RoundsEnd = RoundsEnd(st: St, reason: Option<string>, partial: string)

  datatype RoundEnd = Goes(st: St) | Ends(end: RoundsEnd)

  /** The assistant message joins the list, and a buffered answer is screened and released. */
  function Released(c: Config, buffer: bool, n: nat, st: St, message: Message, answer: string): (St, Option<string>) {
    var s2 := st.(messages := st.messages + [message]);
    if buffer then GuardOutput(c, n, s2, answer, CallsOf(message) != []) else (s2, None)
  }

  function CallsOf(message: Message): seq<Call> { if message.Assistant? then message.calls else [] }

  /** What a round makes of its model turn: screen a buffered answer, stop without tool calls,
      else run them. */
  function AfterTurn(w: World, c: Config, buffer: bool, n: nat, st: St, end: TurnEnd): RoundEnd {
    match end
    case TurnTimedOut(partial) => Ends(RoundsEnd(st, Some("timeout"), partial))
    case TurnBroke(partial) => Ends(RoundsEnd(st, None, partial))
    case PromptHalted(v) => Ends(RoundsEnd(st, Some(HaltReason(v)), ""))
    case Spoke(message, finish, answer) =>
      var (s3, halted) := Released(c, buffer, n, st, message, answer);
      if halted.Some? then Ends(RoundsEnd(s3, halted, "")) else AfterRelease(w, c, n, s3, CallsOf(message), finish)
  }

  /** Without tool calls the round was the last; else they are run. */
  function AfterRelease(w: World, c: Config, n: nat, st: St, calls: seq<Call>, finish: string): RoundEnd {
    if calls == [] then Ends(RoundsEnd(st, Some(if finish == "" then "stop" else finish), ""))
    else
      var (s', stopped) := ToolLoop(w, c, n, st, calls, 0);
      if stopped.Some? then Ends(RoundsEnd(s', stopped, "")) else Goes(s')
  }

  /** One round of the loop of `_run`. */
  ghost function OneRound(w: World, c: Config, buffer: bool, n: nat, st: St): (r: RoundEnd)
    ensures r.Goes? ==> n < c.maxIterations
  {
    if n >= c.maxIterations then Ends(RoundsEnd(st, Some("max_iterations"), ""))
    else if w.expired(Moment(n, 0)) then Ends(RoundsEnd(st, Some("timeout"), ""))
    else
      var (s1, end) := CompleteTurn(w, c, buffer, n, st);
      AfterTurn(w, c, buffer, n, s1, end)
  }

  /** The loop of `_run`, from round `n` on. */
  ghost function Rounds(w: World, c: Config, buffer: bool, n: nat, st: St): RoundsEnd
    decreases c.maxIterations - n
  {
    match OneRound(w, c, buffer, n, st)
    case Ends(end) => end
    case Goes(s) => Rounds(w, c, buffer, n + 1, s)
  }

  lemma NoMoreRounds(w: World, c: Config, buffer: bool, n: nat, st: St)
    requires n >= c.maxIterations
    ensures Rounds(w, c, buffer, n, st) == RoundsEnd(st, Some("max_iterations"), "")
  {
  }

  function Begin(messages: seq<Message>): St {
    St(messages, [], "", "", [], [], [])
  }

  function BuildMessages(c: Config, history: seq<Message>, contents: string): seq<Message> {
    (if c.system.Some? && c.system.value != "" then [System(c.system.value)] else []) + history + [User(contents)]
  }

  /** What a request leaves: its state, the finish reason (None: it raised), and what is
      remembered of the user's message. */
  datatype Finished = Finished(st: St, reason: Option<string>, partial: string, user: string)

  /** `_run`. */
  ghost function Run(w: World, c: Config, buffer: bool, messages: seq<Message>, contents: string): Finished
    requires messages != []
  {
    var o := Screen(c, UserInput, Text(contents), Setting(None, None, c.system, Moment(0, 0)));
    var s0 := AddFlags(Begin(messages), UserInput, o.flags);
    if o.verdict.Halts() then Finished(Halt(s0, o.verdict), Some(HaltReason(o.verdict)), "", contents)
    else
      var user := if o.content.Text? then o.content.text else contents;
      var s1 := s0.(messages := messages[|messages| - 1 := User(user)]);
      var r := Rounds(w, c, buffer, 0, if o.content == Text(contents) then s0 else s1);
      Finished(if r.reason == Some("timeout") then Say(r.st, TIMEOUT_TEXT) else r.st, r.reason, r.partial, user)
  }

  /** `_remember` and `_trim_history`. */
  function Trim(history: seq<Message>, maxTurns: nat): seq<Message> {
    var keep := 2 * maxTurns;
    if keep == 0 then [] else if |history| > keep then history[|history| - keep..] else history
  }

  function Remember(history: seq<Message>, maxTurns: nat, user: string, answer: string): seq<Message> {
    if maxTurns == 0 then history
    else Trim(history + [User(user), Assistant(Some(answer), [])], maxTurns)
  }
}
