/**
 The chat loop as it runs: one object per request whose message list, response text and
 logs are updated in place. Every method is tied to the function of Chat.dfy it computes.
*/
module ChatRequests {
  import opened Prelude
  import opened GuardChains
  import opened Streams
  import opened Chat
  import opened ChatProtocol

  class Exchange {
    var messages: seq<Message>
    var sent: seq<seq<Message>>
    var text: string
    var reasoning: string
    var events: seq<Event>
    var made: seq<Made>
    var flags: seq<(Point, string)>

    constructor (messages: seq<Message>)
      ensures State() == Begin(messages)
    {
      this.messages := messages;
      sent, text, reasoning, events, made, flags := [], "", "", [], [], [];
    }

    function State(): St
      reads this
    {
      St(messages, sent, text, reasoning, events, made, flags)
    }

    /** Commit answer text and yield it. */
    method Emit(piece: string)
      modifies this
      ensures State() == Say(old(State()), piece)
    {
      text := text + piece;
      events := events + [Event(true, piece, text)];
    }

    method EmitReasoning(piece: string)
      modifies this
      ensures State() == Think(old(State()), piece)
    {
      events := events + [Event(false, piece, text)];
    }

    method KeepReasoning(thought: string)
      modifies this
      ensures State() == NoteReasoning(old(State()), thought)
    {
      if thought != "" {
        reasoning := if reasoning == "" then thought else reasoning + "\n\n" + thought;
      }
    }

    /** Consult the chain and record its flags. */
    method Guard(c: Config, p: Point, content: Content, x: Setting) returns (o: Outcome<Content>)
      modifies this
      ensures o == Screen(c, p, content, x) && State() == AddFlags(old(State()), p, o.flags)
    {
      o := EvaluateChain(c.guards, p, content, x);
      ghost var before := flags;
      for i := 0 to |o.flags|
        invariant State() == old(State()).(flags := flags)
        invariant flags == before + seq(i, j requires 0 <= j < i => (p, if o.flags[j].Flag? then o.flags[j].reason else ""))
      {
        flags := flags + [(p, if o.flags[i].Flag? then o.flags[i].reason else "")];
      }
    }

    /** `_stream_turn`: deltas are shown as they come, unless the turn is buffered. */
    method RunStream(w: World, buffer: bool, n: nat) returns (end: TurnEnd)
      modifies this
      ensures (State(), end) == StreamTurn(w, buffer, n, old(State()))
    {
      var reply := w.sse(n, messages);
      sent := sent + [messages];
      ghost var start := State();
      var content, thought, finish := "", "", "";
      var slots: map<int, Call> := map[];
      var ds := reply.deltas;
      for i := 0 to |ds|
        invariant State() == StreamDeltas(buffer, start, ds[..i])
        invariant Turn(content, thought, slots, finish) == FoldDeltas(ds[..i])
      {
        var d := ds[i];
        assert ds[..i + 1][..i] == ds[..i];
        if d.finish != "" {
          finish := d.finish;
        }
        if d.reasoning != "" {
          EmitReasoning(d.reasoning);
        }
        thought := thought + d.reasoning;
        content := content + d.content;
        if d.content != "" && !buffer {
          Emit(d.content);
        }
        ghost var before := slots;
        for j := 0 to |d.calls|
          invariant slots == FoldCalls(before, d.calls[..j])
        {
          assert d.calls[..j + 1][..j] == d.calls[..j];
          slots := Accumulate(slots, d.calls[j]);
        }
        assert d.calls[..|d.calls|] == d.calls;
      }
      assert ds[..|ds|] == ds;
      match reply.ending
      case TimedOut => end := TurnTimedOut(content);
      case Broken => end := TurnBroke(content);
      case Ended =>
        KeepReasoning(thought);
        var calls, keys := SortedCalls(slots);
        InOrderIs(slots, calls, keys);
        end := Spoke(Assistant(NonEmpty(content), calls), finish, content);
    }

    /** `_complete_turn`. */
    method RunTurn(w: World, c: Config, buffer: bool, n: nat) returns (end: TurnEnd)
      modifies this
      ensures (State(), end) == CompleteTurn(w, c, buffer, n, old(State()))
    {
      var o := Guard(c, AssembledPrompt, Messages(messages), Setting(None, Some(messages), c.system, Moment(n, 0)));
      if o.content.Messages? {
        messages := o.content.messages;
      }
      if o.verdict.Halts() {
        Emit(ReasonOr(o.verdict, DEFAULT_BLOCK_TEXT));
        return PromptHalted(o.verdict);
      }
      if c.stream {
        end := RunStream(w, buffer, n);
        return;
      }
      var reply := w.json(n, messages);
      sent := sent + [messages];
      match reply
      case JsonTimeout => end := TurnTimedOut("");
      case JsonError => end := TurnBroke("");
      case Completed(content, calls, thought, finish) =>
        KeepReasoning(thought);
        if thought != "" {
          EmitReasoning(thought);
        }
        var said := content.GetOr("");
        if said != "" && !buffer {
          Emit(said);
        }
        end := Spoke(Assistant(content, calls), finish, said);
    }

    /** `_guard_output`. */
    method ReleaseOutput(c: Config, n: nat, answer: string, hasCalls: bool) returns (halted: Option<string>)
      modifies this
      ensures (State(), halted) == GuardOutput(c, n, old(State()), answer, hasCalls)
    {
      var p := if hasCalls then AssistantTurn else FinalAnswer;
      var o := Guard(c, p, Text(answer), Setting(None, Some(messages), c.system, Moment(n, 0)));
      if o.verdict.Halts() {
        Emit(ReasonOr(o.verdict, DEFAULT_BLOCK_TEXT));
        messages := SetLastContent(messages, text);
        return Some(HaltReason(o.verdict));
      }
      var released := if o.content.Text? then o.content.text else answer;
      if released != "" {
        Emit(released);
      }
      if released != answer {
        messages := SetLastContent(messages, released);
      }
      halted := None;
    }

    /** `_execute_tool` and `_invoke_guarded`. */
    method RunTool(w: World, c: Config, m: Moment, call: Call) returns (result: string, halt: Option<Verdict<Content>>)
      modifies this
      ensures Executed(State(), result, halt) == ExecuteTool(w, c, m, old(State()), call)
    {
      var arguments := if call.arguments == "" then "{}" else call.arguments;
      halt := None;
      if call.name !in c.tools {
        result := "Error: unknown tool " + call.name;
      } else {
        var parsed := w.parse(arguments);
        if parsed.None? {
          result := "Error: could not parse arguments";
        } else {
          arguments, result, halt := RunGuarded(w, c, m, call.name, parsed.value);
        }
      }
      made := made + [Made(call.name, arguments, result)];
    }

    method RunGuarded(w: World, c: Config, m: Moment, name: string, given: string)
      returns (arguments: string, result: string, halt: Option<Verdict<Content>>)
      modifies this
      ensures Record(State(), name, arguments, result, halt) == InvokeGuarded(w, c, m, old(State()), name, given)
    {
      var x := Setting(Some(name), None, c.system, m);
      arguments, halt := given, None;
      var pre := Guard(c, ToolCall, Arguments(given), x);
      if pre.verdict.Halts() {
        return given, ReasonOr(pre.verdict, "Tool " + name + " was blocked by a guardrail."), HaltUnlessSkip(pre.verdict);
      }
      if pre.content.Arguments? {
        arguments := pre.content.arguments;
      }
      var run := w.invoke(m, name, arguments);
      if run.Raised? {
        return arguments, "Error: " + run.error, None;
      }
      var post := Guard(c, ToolResult, Text(run.result), x);
      if post.verdict.Halts() {
        return arguments, ReasonOr(post.verdict, "The result of tool " + name + " was withheld by a guardrail."), HaltUnlessSkip(post.verdict);
      }
      result := if post.content.Text? then post.content.text else run.result;
    }

    /** The tool calls of one round, in order; Some: the reason one of them ended the run. */
    method RunTools(w: World, c: Config, n: nat, calls: seq<Call>) returns (stopped: Option<string>)
      modifies this
      ensures (State(), stopped) == ToolLoop(w, c, n, old(State()), calls, 0)
    {
      for k := 0 to |calls|
        invariant ToolLoop(w, c, n, State(), calls, k) == ToolLoop(w, c, n, old(State()), calls, 0)
      {
        ToolLoopUnrolls(w, c, n, State(), calls, k);
        var m := Moment(n, k + 1);
        var result, halt := RunTool(w, c, m, calls[k]);
        messages := messages + [Tool(calls[k].id, result)];
        if halt.Some? {
          return Some(HaltReason(halt.value));
        }
        var late := w.expired(m);
        if late {
          return Some("timeout");
        }
      }
      stopped := None;
    }

    /** The loop of `_run`: at most `max_iterations` round-trips. */
    method RunRounds(w: World, c: Config, buffer: bool) returns (reason: Option<string>, partial: string)
      modifies this
      ensures RoundsEnd(State(), reason, partial) == Rounds(w, c, buffer, 0, old(State()))
    {
      var n := 0;
      ghost var meant := Rounds(w, c, buffer, 0, State());
      while n < c.maxIterations
        invariant n >= 0 && meant == Rounds(w, c, buffer, n, State())
        decreases c.maxIterations - n
      {
        var ended;
        ended, reason, partial := RunRound(w, c, buffer, n);
        if ended {
          return;
        }
        n := n + 1;
      }
      NoMoreRounds(w, c, buffer, n, State());
      return Some("max_iterations"), "";
    }

    /** One round; `ended`: it was the last. */
    method RunRound(w: World, c: Config, buffer: bool, n: nat) returns (ended: bool, reason: Option<string>, partial: string)
      requires n < c.maxIterations
      modifies this
      ensures Rounds(w, c, buffer, n, old(State()))
           == if ended then RoundsEnd(State(), reason, partial) else Rounds(w, c, buffer, n + 1, State())
    {
      var late := w.expired(Moment(n, 0));
      if late {
        return true, Some("timeout"), "";
      }
      var end := RunTurn(w, c, buffer, n);
      assert OneRound(w, c, buffer, n, old(State())) == AfterTurn(w, c, buffer, n, State(), end);
      ended, reason, partial := FinishRound(w, c, buffer, n, end);
    }

    /** The rest of a round, after its model turn. */
    method FinishRound(w: World, c: Config, buffer: bool, n: nat, end: TurnEnd)
      returns (ended: bool, reason: Option<string>, partial: string)
      modifies this
      ensures AfterTurn(w, c, buffer, n, old(State()), end)
           == if ended then Ends(RoundsEnd(State(), reason, partial)) else Goes(State())
    {
      match end {
        case TurnTimedOut(shown) => return true, Some("timeout"), shown;
        case TurnBroke(shown) => return true, None, shown;
        case PromptHalted(v) => return true, Some(HaltReason(v)), "";
        case Spoke(message, finish, answer) =>
          messages := messages + [message];
          var calls := CallsOf(message);
          if buffer {
            var halted := ReleaseOutput(c, n, answer, |calls| > 0);
            if halted.Some? {
              return true, halted, "";
            }
          }
          if |calls| == 0 {
            return true, Some(if finish == "" then "stop" else finish), "";
          }
          var stopped := RunTools(w, c, n, calls);
          return stopped.Some?, stopped, "";
      }
    }

    /** `_run`: screen the user's message, run the rounds, mark a timeout. */
    method RunRequest(w: World, c: Config, buffer: bool, contents: string)
      returns (reason: Option<string>, partial: string, user: string)
      requires messages != [] && State() == Begin(messages)
      modifies this
      ensures Finished(State(), reason, partial, user) == Chat.Run(w, c, buffer, old(messages), contents)
    {
      user, partial := contents, "";
      var o := Guard(c, UserInput, Text(contents), Setting(None, None, c.system, Moment(0, 0)));
      ghost var screened := State();
      if o.verdict.Halts() {
        Emit(ReasonOr(o.verdict, DEFAULT_BLOCK_TEXT));
        return Some(HaltReason(o.verdict)), partial, user;
      }
      if o.content.Text? {
        user := o.content.text;
      }
      if o.content != Text(contents) {
        messages := messages[|messages| - 1 := User(user)];
      }
      ghost var start := State();
      assert start == if o.content == Text(contents) then screened
                      else screened.(messages := old(messages)[|old(messages)| - 1 := User(user)]);
      reason, partial := RunRounds(w, c, buffer);
      ghost var r := Rounds(w, c, buffer, 0, start);
      assert RoundsEnd(State(), reason, partial) == r;
      if reason == Some("timeout") {
        Emit(TIMEOUT_TEXT);
      }
    }
  }

  /** The conversation an agent carries across requests. */
  class OumiGoChat {
    const config: Config
    const maxTurns: nat
    var history: seq<Message>

    constructor (config: Config, maxTurns: nat, start: seq<Message>)
      ensures IsTail(history, start, 2 * maxTurns)
      ensures this.config == config && this.maxTurns == maxTurns
    {
      this.config, this.maxTurns := config, maxTurns;
      history := Trim(start, maxTurns);
    }

    /** One request, run to completion in a world of its own, on the system prompt, what is
        remembered and the new message. Unless it raises, the exchange is remembered, and only
        the last turns are kept. */
    method Request(world: World, contents: string)
      returns (resp: Exchange, reason: Option<string>, ghost buffer: bool, ghost run: Finished)
      modifies this
      ensures fresh(resp)
      ensures buffer <==> Active(config.guards, AssistantTurn) || Active(config.guards, FinalAnswer)
      ensures var system := if config.system.Some? && config.system.value != "" then [System(config.system.value)] else [];
        run == Chat.Run(world, config, buffer, system + old(history) + [User(contents)], contents)
      ensures resp.State() == run.st && reason == run.reason
      ensures if reason.Some? && maxTurns > 0
        then IsTail(history, old(history) + [User(run.user), Assistant(Some(resp.text), [])], 2 * maxTurns)
        else history == old(history)
    {
      var points := ActivePoints(config.guards);
      var buffered := AssistantTurn in points || FinalAnswer in points;
      buffer := buffered;
      var messages := BuildMessages(config, history, contents);
      run := Chat.Run(world, config, buffer, messages, contents);
      resp := new Exchange(messages);
      var partial, user;
      reason, partial, user := resp.RunRequest(world, config, buffered, contents);
      if reason.Some? && maxTurns > 0 {
        history := history + [User(user)];
        history := history + [Assistant(Some(resp.text), [])];
        assert history == old(history) + [User(user), Assistant(Some(resp.text), [])];
        history := Trim(history, maxTurns);
      }
    }
  }
}
