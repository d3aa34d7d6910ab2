/**
 What every request of the chat loop keeps: its text is what it yielded, its tool calls are
 answered in order, its model calls are bounded, its history too.
*/
module ChatProtocol {
  import opened Prelude
  import opened GuardChains
  import opened Streams
  import opened Chat

  // ---------- the text is what was yielded ----------

  function AnswerText(es: seq<Event>): string {
    if es == [] then ""
    else
      var n := |es| - 1;
      if es[n].answer then AnswerText(es[..n]) + es[n].piece else AnswerText(es[..n])
  }

  /** At yield `i`, `resp.text` was the concatenation of the answer pieces yielded by then. */
  ghost predicate TextAt(es: seq<Event>, i: nat)
    requires i < |es|
  {
    es[i].textThen == AnswerText(es[..i + 1])
  }

  /** At every yield so far, and now, `resp.text` is the concatenation of the answer pieces. */
  ghost predicate TextIsYielded(st: St) {
    st.text == AnswerText(st.events) && forall i | 0 <= i < |st.events| :: TextAt(st.events, i)
  }

  lemma EmitKeeps(st: St, st': St, e: Event)
    requires TextIsYielded(st) && st'.events == st.events + [e] && st'.text == e.textThen
    requires e.textThen == if e.answer then st.text + e.piece else st.text
    ensures TextIsYielded(st')
  {
    var n := |st.events|;
    assert st'.events[..n] == st.events;
    forall i | 0 <= i < |st'.events| ensures TextAt(st'.events, i) {
      if i < n {
        assert TextAt(st.events, i);
        assert st'.events[..i + 1] == st.events[..i + 1];
      } else {
        assert st'.events[..i + 1] == st'.events;
      }
    }
    assert st'.events[..|st'.events|] == st'.events;
  }

  lemma SayKeeps(st: St, piece: string)
    requires TextIsYielded(st)
    ensures TextIsYielded(Say(st, piece))
  {
    EmitKeeps(st, Say(st, piece), Event(true, piece, st.text + piece));
  }

  lemma ThinkKeeps(st: St, piece: string)
    requires TextIsYielded(st)
    ensures TextIsYielded(Think(st, piece))
  {
    EmitKeeps(st, Think(st, piece), Event(false, piece, st.text));
  }

  lemma {:induction false} StreamKeepsText(buffer: bool, st: St, ds: seq<Delta>)
    requires TextIsYielded(st)
    ensures TextIsYielded(StreamDeltas(buffer, st, ds))
  {
    if ds != [] {
      var d := ds[|ds| - 1];
      var s0 := StreamDeltas(buffer, st, ds[..|ds| - 1]);
      StreamKeepsText(buffer, st, ds[..|ds| - 1]);
      ThinkKeeps(s0, d.reasoning);
      var s1 := if d.reasoning != "" then Think(s0, d.reasoning) else s0;
      SayKeeps(s1, d.content);
    }
  }

  lemma TurnKeepsText(w: World, c: Config, buffer: bool, n: nat, st: St)
    requires TextIsYielded(st)
    ensures TextIsYielded(CompleteTurn(w, c, buffer, n, st).0)
  {
    var (s1, v) := GuardPrompt(c, n, st);
    assert TextIsYielded(s1);
    if v.Halts() {
      SayKeeps(s1, ReasonOr(v, DEFAULT_BLOCK_TEXT));
    } else if c.stream {
      StreamKeepsText(buffer, s1.(sent := s1.sent + [s1.messages]), w.sse(n, s1.messages).deltas);
    } else {
      var s2 := s1.(sent := s1.sent + [s1.messages]);
      match w.json(n, s1.messages)
      case Completed(content, _, reasoning, _) =>
        var s3 := NoteReasoning(s2, reasoning);
        ThinkKeeps(s3, reasoning);
        var s4 := if reasoning != "" then Think(s3, reasoning) else s3;
        SayKeeps(s4, content.GetOr(""));
      case _ =>
    }
  }

  lemma OutputKeepsText(c: Config, n: nat, st: St, answer: string, hasCalls: bool)
    requires TextIsYielded(st)
    ensures TextIsYielded(GuardOutput(c, n, st, answer, hasCalls).0)
  {
    var p := if hasCalls then AssistantTurn else FinalAnswer;
    var o := Screen(c, p, Text(answer), Setting(None, Some(st.messages), c.system, Moment(n, 0)));
    var s1 := AddFlags(st, p, o.flags);
    assert TextIsYielded(s1);
    SayKeeps(s1, ReasonOr(o.verdict, DEFAULT_BLOCK_TEXT));
    SayKeeps(s1, if o.content.Text? then o.content.text else answer);
  }

  lemma {:induction false} ToolsKeepText(w: World, c: Config, n: nat, st: St, calls: seq<Call>, k: nat)
    requires k <= |calls| && TextIsYielded(st)
    ensures TextIsYielded(ToolLoop(w, c, n, st, calls, k).0)
    decreases |calls| - k
  {
    if k < |calls| {
      ToolTurnKeepsText(w, c, n, calls, k, st);
      ToolLoopUnrolls(w, c, n, st, calls, k);
      var (s1, stopped) := ToolTurn(w, c, n, calls, k, st);
      if stopped.None? {
        ToolsKeepText(w, c, n, s1, calls, k + 1);
      }
    }
  }

  lemma ToolTurnKeepsText(w: World, c: Config, n: nat, calls: seq<Call>, k: nat, st: St)
    requires TextIsYielded(st)
    ensures TextIsYielded(ToolTurn(w, c, n, calls, k, st).0)
  {
    if k < |calls| {
      var e := ExecuteTool(w, c, Moment(n, k + 1), st, calls[k]);
      assert e.st.text == st.text && e.st.events == st.events;
    }
  }

  lemma RoundKeepsText(w: World, c: Config, buffer: bool, n: nat, st: St)
    requires TextIsYielded(st)
    ensures match OneRound(w, c, buffer, n, st)
      case Goes(s) => TextIsYielded(s)
      case Ends(e) => TextIsYielded(e.st)
  {
    if n < c.maxIterations && !w.expired(Moment(n, 0)) {
      TurnKeepsText(w, c, buffer, n, st);
      var (s1, end) := CompleteTurn(w, c, buffer, n, st);
      AfterTurnKeepsText(w, c, buffer, n, s1, end);
    }
  }

  lemma AfterTurnKeepsText(w: World, c: Config, buffer: bool, n: nat, st: St, end: TurnEnd)
    requires TextIsYielded(st)
    ensures match AfterTurn(w, c, buffer, n, st, end)
      case Goes(s) => TextIsYielded(s)
      case Ends(e) => TextIsYielded(e.st)
  {
    if end.Spoke? {
      var s2 := st.(messages := st.messages + [end.message]);
      var calls := CallsOf(end.message);
      assert TextIsYielded(s2);
      OutputKeepsText(c, n, s2, end.answer, calls != []);
      var (s3, halted) := if buffer then GuardOutput(c, n, s2, end.answer, calls != []) else (s2, None);
      ToolsKeepText(w, c, n, s3, calls, 0);
    }
  }

  lemma {:induction false} RoundsKeepText(w: World, c: Config, buffer: bool, n: nat, st: St)
    requires TextIsYielded(st)
    ensures TextIsYielded(Rounds(w, c, buffer, n, st).st)
    decreases c.maxIterations - n
  {
    RoundKeepsText(w, c, buffer, n, st);
    var r := OneRound(w, c, buffer, n, st);
    if r.Goes? {
      RoundsKeepText(w, c, buffer, n + 1, r.st);
    }
  }

  /** In every request, streamed or not, guarded or not, however it ends: at every yield
      `resp.text` is the concatenation of the answer pieces yielded so far. */
  lemma TextMatchesYields(w: World, c: Config, buffer: bool, messages: seq<Message>, contents: string)
    requires messages != []
    ensures TextIsYielded(Run(w, c, buffer, messages, contents).st)
  {
    var s, piece := RunShape(w, c, buffer, messages, contents);
    SayKeeps(s, piece);
    RoundsKeepText(w, c, buffer, 0, s);
    SayKeeps(Rounds(w, c, buffer, 0, s).st, TIMEOUT_TEXT);
  }

  /** A request speaks one refusal, or runs its rounds and then marks a timeout if that is how
      they ended. It starts from its opening messages with at most the user's reworded. */
  lemma RunShape(w: World, c: Config, buffer: bool, messages: seq<Message>, contents: string) returns (s: St, piece: string)
    requires messages != []
    ensures |s.messages| == |messages| && s.messages[..|messages| - 1] == messages[..|messages| - 1] && s.sent == []
    ensures s.text == "" && s.events == [] && s.made == []
    ensures var f, rounds := Run(w, c, buffer, messages, contents), Rounds(w, c, buffer, 0, s);
      && (messages[|messages| - 1] == User(contents) ==> s.messages[|messages| - 1] == User(f.user))
      && (f.st == Say(s, piece) || f.st == (if rounds.reason == Some("timeout") then Say(rounds.st, TIMEOUT_TEXT) else rounds.st))
  {
    var o := Screen(c, UserInput, Text(contents), Setting(None, None, c.system, Moment(0, 0)));
    var user := if o.content.Text? then o.content.text else contents;
    var reworded := !o.verdict.Halts() && o.content != Text(contents);
    s := AddFlags(Begin(messages), UserInput, o.flags);
    piece := ReasonOr(o.verdict, DEFAULT_BLOCK_TEXT);
    if reworded {
      s := s.(messages := messages[|messages| - 1 := User(user)]);
    }
  }

  // ---------- tool calls are answered ----------

  function Told(reason: string, otherwise: string): string { if reason != "" then reason else otherwise }

  /** The finish reason of a verdict that ends a request. */
  function Ending(v: Verdict<Content>): Option<string> {
    match v
    case Stop(_) => Some("stopped")
    case Block(_) => Some("blocked")
    case _ => None
  }

  /** WHAT ONE TOOL CALL COMES TO: the record `made` of it, whose result is what the model is
      told, and, if a guard ended the request over it, the finish reason. An unknown tool and
      arguments that do not parse are told as errors. */
  ghost predicate ComesTo(w: World, c: Config, m: Moment, call: Call, made: Made, ended: Option<string>) {
    var raw := if call.arguments == "" then "{}" else call.arguments;
    && made.name == call.name
    && if call.name !in c.tools then
         made.arguments == raw && made.result == "Error: unknown tool " + call.name && ended.None?
       else match w.parse(raw)
         case None => made.arguments == raw && made.result == "Error: could not parse arguments" && ended.None?
         case Some(given) => ScreenedComesTo(w, c, m, given, made, ended)
  }

  /** ... otherwise the guards screen the arguments, and a denial is all there is, the tool
      having no say; a tool that raises is told as an error; and the guards screen what it
      returned for the arguments they left. A SKIP withholds, but ends nothing. */
  ghost predicate ScreenedComesTo(w: World, c: Config, m: Moment, given: string, made: Made, ended: Option<string>) {
    var x := Setting(Some(made.name), None, c.system, m);
    var pre := Evaluate(c.guards, ToolCall, Arguments(given), x);
    if pre.verdict.Halts() then
      && made.arguments == given && ended == Ending(pre.verdict)
      && made.result == Told(pre.verdict.reason, "Tool " + made.name + " was blocked by a guardrail.")
    else
      && made.arguments == (match pre.content case Arguments(a) => a case _ => given)
      && match w.invoke(m, made.name, made.arguments)
         case Raised(error) => made.result == "Error: " + error && ended.None?
         case Returned(out) =>
           var post := Evaluate(c.guards, ToolResult, Text(out), x);
           if post.verdict.Halts() then
             && ended == Ending(post.verdict)
             && made.result == Told(post.verdict.reason, "The result of tool " + made.name + " was withheld by a guardrail.")
           else ended.None? && made.result == (match post.content case Text(t) => t case _ => out)
  }

  lemma ExecuteComesTo(w: World, c: Config, m: Moment, st: St, call: Call) returns (made: Made, ended: Option<string>)
    ensures var e := ExecuteTool(w, c, m, st, call);
      && ComesTo(w, c, m, call, made, ended) && made.result == e.result
      && ended == (if e.halt.Some? then Some(HaltReason(e.halt.value)) else None)
      && e.st == st.(made := st.made + [made], flags := e.st.flags)
  {
    var e := ExecuteTool(w, c, m, st, call);
    made := e.st.made[|st.made|];
    ended := if e.halt.Some? then Some(HaltReason(e.halt.value)) else None;
    var raw := if call.arguments == "" then "{}" else call.arguments;
    if call.name in c.tools && w.parse(raw).Some? {
      made, ended := InvokeComesTo(w, c, m, st, call.name, w.parse(raw).value);
    }
  }

  lemma InvokeComesTo(w: World, c: Config, m: Moment, st: St, name: string, given: string) returns (made: Made, ended: Option<string>)
    ensures var e := InvokeGuarded(w, c, m, st, name, given);
      && made.name == name && ScreenedComesTo(w, c, m, given, made, ended) && made.result == e.result
      && ended == (if e.halt.Some? then Some(HaltReason(e.halt.value)) else None)
      && e.st == st.(made := st.made + [made], flags := e.st.flags)
  {
    var e := InvokeGuarded(w, c, m, st, name, given);
    made := e.st.made[|st.made|];
    ended := if e.halt.Some? then Some(HaltReason(e.halt.value)) else None;
  }

  /** Message `t` answers a call: it carries its id, and tells what it came to. */
  ghost predicate Answers(w: World, c: Config, m: Moment, call: Call, t: Message, made: Made, ended: Option<string>) {
    t == Tool(call.id, made.result) && ComesTo(w, c, m, call, made, ended)
  }

  ghost predicate IsAnswer(w: World, c: Config, m: Moment, call: Call, t: Message) {
    exists made, ended :: Answers(w, c, m, call, t, made, ended)
  }

  /** Round `r`: an assistant message with tool calls, then in order the answers to them. */
  ghost predicate IsRound(w: World, c: Config, r: nat, ms: seq<Message>, n: nat) {
    && 1 < n <= |ms| && ms[0].Assistant? && n == 1 + |ms[0].calls|
    && forall k | 1 <= k < n :: IsAnswer(w, c, Moment(r, k), ms[0].calls[k - 1], ms[k])
  }

  /** Whole rounds, one after the other, from `r` up to `upTo`. */
  ghost predicate Answered(w: World, c: Config, r: nat, upTo: nat, ms: seq<Message>)
    decreases |ms|
  {
    if ms == [] then r == upTo
    else exists n: nat | n <= |ms| :: IsRound(w, c, r, ms, n) && Answered(w, c, r + 1, upTo, ms[n..])
  }

  lemma RoundInFront(w: World, c: Config, r: nat, a: seq<Message>, b: seq<Message>, n: nat)
    requires IsRound(w, c, r, a, n)
    ensures n <= |a + b| && IsRound(w, c, r, a + b, n) && (a + b)[n..] == a[n..] + b
  {
  }

  lemma RoundThenAnswered(w: World, c: Config, r: nat, upTo: nat, ms: seq<Message>, n: nat)
    requires IsRound(w, c, r, ms, n) && Answered(w, c, r + 1, upTo, ms[n..])
    ensures Answered(w, c, r, upTo, ms)
  {
  }

  lemma {:induction false} AnsweredConcat(w: World, c: Config, r: nat, mid: nat, upTo: nat, a: seq<Message>, b: seq<Message>)
    requires Answered(w, c, r, mid, a) && Answered(w, c, mid, upTo, b)
    ensures Answered(w, c, r, upTo, a + b)
    decreases |a|
  {
    if a == [] {
      assert a + b == b;
    } else {
      var n: nat :| n <= |a| && IsRound(w, c, r, a, n) && Answered(w, c, r + 1, mid, a[n..]);
      AnsweredConcat(w, c, r + 1, mid, upTo, a[n..], b);
      RoundInFront(w, c, r, a, b, n);
      RoundThenAnswered(w, c, r, upTo, a + b, n);
    }
  }

  /** Tool `i` of round `r` ran: its record, and the answer to it. */
  ghost predicate Ran(w: World, c: Config, r: nat, calls: seq<Call>, i: nat, t: Message, made: Made) {
    i < |calls| && exists ended :: RanTo(w, c, r, calls, i, t, made, ended)
  }

  ghost predicate RanTo(w: World, c: Config, r: nat, calls: seq<Call>, i: nat, t: Message, made: Made, ended: Option<string>)
    requires i < |calls|
  {
    Answers(w, c, Moment(r, i + 1), calls[i], t, made, ended)
  }

  /** Why the loop ends with tool `i` of round `r`, if it does: a guard ended the request over
      it, or the deadline has passed. */
  ghost predicate Leaves(w: World, c: Config, r: nat, calls: seq<Call>, i: nat, made: Made, stopped: Option<string>) {
    i < |calls| && exists ended :: LeavesWith(w, c, r, calls, i, made, ended, stopped)
  }

  ghost predicate LeavesWith(w: World, c: Config, r: nat, calls: seq<Call>, i: nat, made: Made, ended: Option<string>, stopped: Option<string>)
    requires i < |calls|
  {
    var m := Moment(r, i + 1);
    ComesTo(w, c, m, calls[i], made, ended) && stopped == if ended.Some? then ended else if w.expired(m) then Some("timeout") else None
  }

  /** What is known of tool `i` of a loop that ran it: its record and answer, and why the loop
      ended with it, if it did. */
  type RanFact = (nat, Message, Made) -> bool
  type LeftFact = (nat, Made, Option<string>) -> bool

  ghost function RanIn(w: World, c: Config, r: nat, calls: seq<Call>): RanFact {
    (i: nat, t: Message, made: Made) => Ran(w, c, r, calls, i, t, made)
  }

  ghost function LeftIn(w: World, c: Config, r: nat, calls: seq<Call>): LeftFact {
    (i: nat, made: Made, stopped: Option<string>) => Leaves(w, c, r, calls, i, made, stopped)
  }

  /** What a stretch of a loop, from tool `k` on, adds: for each tool that ran, in order, its
      record and its answer. */
  ghost predicate Adds(ran: RanFact, k: nat, ts: seq<Message>, ms: seq<Made>) {
    |ts| == |ms| && forall j | 0 <= j < |ts| :: ran(k + j, ts[j], ms[j])
  }

  /** The tools of a stretch, but for the one that stopped the loop, let it go on. */
  ghost predicate GoOn(left: LeftFact, k: nat, ms: seq<Made>, stopped: Option<string>) {
    && (stopped.Some? ==> ms != [] && left(k + |ms| - 1, ms[|ms| - 1], stopped))
    && forall j | 0 <= j < |ms| - (if stopped.Some? then 1 else 0) :: left(k + j, ms[j], None)
  }

  /** A state that has gained messages and records, and perhaps flags. */
  ghost predicate Gained(st: St, s': St, ts: seq<Message>, ms: seq<Made>) {
    s' == st.(messages := st.messages + ts, made := st.made + ms, flags := s'.flags)
  }

  ghost predicate TurnAdds(turn: LoopTurn, ran: RanFact, left: LeftFact, i: nat, st: St, t: Message, made: Made) {
    Gained(st, turn(i, st).0, [t], [made]) && ran(i, t, made) && left(i, made, turn(i, st).1)
  }

  ghost predicate EachAdds(turn: LoopTurn, ran: RanFact, left: LeftFact, i: nat, st: St) {
    exists t, made :: TurnAdds(turn, ran, left, i, st, t, made)
  }

  lemma ToolTurnAnswers(w: World, c: Config, n: nat, calls: seq<Call>, k: nat, st: St) returns (t: Message, made: Made)
    requires k < |calls|
    ensures var (s1, stopped) := ToolTurn(w, c, n, calls, k, st);
      Gained(st, s1, [t], [made]) && Ran(w, c, n, calls, k, t, made) && Leaves(w, c, n, calls, k, made, stopped)
  {
    var m := Moment(n, k + 1);
    var ended;
    made, ended := ExecuteComesTo(w, c, m, st, calls[k]);
    t := Tool(calls[k].id, made.result);
    assert RanTo(w, c, n, calls, k, t, made, ended);
    assert LeavesWith(w, c, n, calls, k, made, ended, ToolTurn(w, c, n, calls, k, st).1);
  }

  lemma AddsCons(ran: RanFact, left: LeftFact, k: nat, t: Message, made: Made, ts: seq<Message>, ms: seq<Made>, stopped: Option<string>)
    requires ran(k, t, made) && Adds(ran, k + 1, ts, ms)
    requires left(k, made, None) && GoOn(left, k + 1, ms, stopped)
    ensures Adds(ran, k, [t] + ts, [made] + ms) && GoOn(left, k, [made] + ms, stopped)
  {
    forall j | 0 <= j < 1 + |ts|
      ensures ran(k + j, ([t] + ts)[j], ([made] + ms)[j])
      ensures j < 1 + |ms| - (if stopped.Some? then 1 else 0) ==> left(k + j, ([made] + ms)[j], None)
    {
      if j > 0 {
        assert ran(k + 1 + (j - 1), ts[j - 1], ms[j - 1]);
        assert j - 1 < |ms| - (if stopped.Some? then 1 else 0) ==> left(k + 1 + (j - 1), ms[j - 1], None);
      }
    }
  }

  lemma GainedTwice(st: St, s1: St, s2: St, t: Message, made: Made, ts: seq<Message>, ms: seq<Made>)
    requires Gained(st, s1, [t], [made]) && Gained(s1, s2, ts, ms)
    ensures Gained(st, s2, [t] + ts, [made] + ms)
  {
    assert (st.messages + [t]) + ts == st.messages + ([t] + ts) && (st.made + [made]) + ms == st.made + ([made] + ms);
  }

  lemma {:induction false} LoopAdds(turn: LoopTurn, ran: RanFact, left: LeftFact, st: St, k: nat, n: nat)
    returns (ts: seq<Message>, ms: seq<Made>)
    requires k <= n && forall i: nat, s | i < n :: EachAdds(turn, ran, left, i, s)
    ensures var (s', stopped) := Loop(turn, st, k, n);
      && Gained(st, s', ts, ms) && Adds(ran, k, ts, ms) && GoOn(left, k, ms, stopped)
      && (stopped.None? ==> k + |ts| == n)
    decreases n - k
  {
    ts, ms := [], [];
    if k == n {
      assert st.messages + [] == st.messages && st.made + [] == st.made;
    } else {
      assert EachAdds(turn, ran, left, k, st);
      var t, made :| TurnAdds(turn, ran, left, k, st, t, made);
      var (s1, halted) := turn(k, st);
      if halted.None? {
        ts, ms := LoopAdds(turn, ran, left, s1, k + 1, n);
        var (s2, stopped) := Loop(turn, s1, k + 1, n);
        AddsCons(ran, left, k, t, made, ts, ms, stopped);
        GainedTwice(st, s1, s2, t, made, ts, ms);
      }
      ts, ms := [t] + ts, [made] + ms;
    }
  }

  /** TOOLS: the loop runs the calls in order and adds, for each that ran, its record and the
      answer that tells its result; it ends after the first tool that ends it, with that
      reason, and otherwise runs them all. Nothing else changes but the flags. */
  lemma ToolLoopAnswers(w: World, c: Config, n: nat, st: St, calls: seq<Call>, k: nat)
    returns (ts: seq<Message>, ms: seq<Made>)
    requires k <= |calls|
    ensures var (s', stopped) := ToolLoop(w, c, n, st, calls, k);
      && Gained(st, s', ts, ms) && Adds(RanIn(w, c, n, calls), k, ts, ms) && GoOn(LeftIn(w, c, n, calls), k, ms, stopped)
      && (stopped.None? ==> k + |ts| == |calls|)
  {
    var turn := (i: nat, s: St) => ToolTurn(w, c, n, calls, i, s);
    var ran, left := RanIn(w, c, n, calls), LeftIn(w, c, n, calls);
    forall i: nat, s | i < |calls|
      ensures EachAdds(turn, ran, left, i, s)
    {
      var t, made := ToolTurnAnswers(w, c, n, calls, i, s);
      assert TurnAdds(turn, ran, left, i, s, t, made);
    }
    ts, ms := LoopAdds(turn, ran, left, st, k, |calls|);
    assert ToolLoop(w, c, n, st, calls, k) == Loop(turn, st, k, |calls|);
  }

  /** No guard rewrites the assembled prompt. */
  ghost predicate PromptKept(c: Config) {
    forall ms, x :: Screen(c, AssembledPrompt, Messages(ms), x).content == Messages(ms)
  }

  /** The messages of model call `r`: the request's opening messages, then the rounds before
      it, whole and answered. */
  ghost predicate WellSent(w: World, c: Config, base: seq<Message>, ms: seq<Message>, r: nat) {
    base <= ms && Answered(w, c, 0, r, ms[|base|..])
  }

  ghost predicate AllWellSent(w: World, c: Config, base: seq<Message>, st: St) {
    forall i | 0 <= i < |st.sent| :: WellSent(w, c, base, st.sent[i], i)
  }

  /** One round-trip sends the messages as they are, once or not at all, and changes none. */
  lemma TurnSends(w: World, c: Config, buffer: bool, n: nat, st: St)
    requires PromptKept(c)
    ensures var (s', end) := CompleteTurn(w, c, buffer, n, st);
      && s'.messages == st.messages && s'.made == st.made
      && s'.sent == (if end.PromptHalted? then st.sent else st.sent + [st.messages])
      && (end.Spoke? ==> end.message.Assistant?)
  {
    var (s1, v) := GuardPrompt(c, n, st);
    assert s1.messages == st.messages && s1.sent == st.sent;
    if !v.Halts() && c.stream {
      StreamSends(buffer, s1.(sent := s1.sent + [s1.messages]), w.sse(n, s1.messages).deltas);
    }
  }

  lemma {:induction false} StreamSends(buffer: bool, st: St, ds: seq<Delta>)
    ensures var s' := StreamDeltas(buffer, st, ds); s'.messages == st.messages && s'.sent == st.sent && s'.made == st.made
  {
    if ds != [] {
      StreamSends(buffer, st, ds[..|ds| - 1]);
    }
  }

  /** Screening the output may reword the last assistant message, never its tool calls. */
  lemma OutputKeepsCalls(c: Config, n: nat, st: St, before: seq<Message>, m: Message, answer: string, hasCalls: bool)
    returns (m': Message)
    requires m.Assistant? && st.messages == before + [m]
    ensures var s' := GuardOutput(c, n, st, answer, hasCalls).0;
      && s'.sent == st.sent && s'.made == st.made
      && m'.Assistant? && m'.calls == m.calls && s'.messages == before + [m']
  {
    var s' := GuardOutput(c, n, st, answer, hasCalls).0;
    m' := s'.messages[|before|];
    assert s'.messages == before + [m'];
  }

  lemma ReleasedAdds(c: Config, buffer: bool, n: nat, st: St, message: Message, answer: string) returns (m: Message)
    requires message.Assistant?
    ensures m.Assistant? && m.calls == message.calls
    ensures var s' := Released(c, buffer, n, st, message, answer).0;
      s'.sent == st.sent && s'.made == st.made && s'.messages == st.messages + [m]
  {
    m := message;
    if buffer {
      m := OutputKeepsCalls(c, n, st.(messages := st.messages + [message]), st.messages, message, answer, CallsOf(message) != []);
    }
  }

  /** What a round that spoke adds: its assistant message, perhaps reworded, and the answers to
      its calls with their records, to all of them if the request goes on. */
  lemma AfterTurnAdds(w: World, c: Config, buffer: bool, n: nat, st: St, end: TurnEnd)
    returns (m: Message, ts: seq<Message>, ms: seq<Made>)
    requires end.Spoke? && end.message.Assistant?
    ensures m.Assistant? && m.calls == end.message.calls && Adds(RanIn(w, c, n, m.calls), 0, ts, ms)
    ensures var r := AfterTurn(w, c, buffer, n, st, end);
      var s' := if r.Goes? then r.st else r.end.st;
      && s'.sent == st.sent && s'.messages == st.messages + ([m] + ts) && s'.made == st.made + ms
      && (r.Goes? ==> ts != [] && |ts| == |m.calls|)
  {
    m := ReleasedAdds(c, buffer, n, st, end.message, end.answer);
    ts, ms := [], [];
    var (s3, halted) := Released(c, buffer, n, st, end.message, end.answer);
    if halted.None? {
      ts, ms := AfterReleaseAdds(w, c, n, s3, end.message.calls, end.finish);
      assert (st.messages + [m]) + ts == st.messages + ([m] + ts);
    } else {
      assert st.messages + [m] == st.messages + ([m] + []) && st.made + [] == st.made;
    }
  }

  lemma AfterReleaseAdds(w: World, c: Config, n: nat, st: St, calls: seq<Call>, finish: string)
    returns (ts: seq<Message>, ms: seq<Made>)
    ensures Adds(RanIn(w, c, n, calls), 0, ts, ms)
    ensures var r := AfterRelease(w, c, n, st, calls, finish);
      && Gained(st, if r.Goes? then r.st else r.end.st, ts, ms)
      && (r.Goes? ==> ts != [] && |ts| == |calls|)
  {
    ts, ms := [], [];
    if calls != [] {
      var (s', stopped) := ToolLoop(w, c, n, st, calls, 0);
      ts, ms := ToolLoopAnswers(w, c, n, st, calls, 0);
    } else {
      assert st.messages + [] == st.messages && st.made + [] == st.made;
    }
  }

  lemma RoundIs(w: World, c: Config, r: nat, m: Message, ts: seq<Message>, ms: seq<Made>)
    requires m.Assistant? && ts != [] && |ts| == |m.calls| && Adds(RanIn(w, c, r, m.calls), 0, ts, ms)
    ensures Answered(w, c, r, r + 1, [m] + ts)
  {
    var round := [m] + ts;
    forall k | 1 <= k < |round|
      ensures IsAnswer(w, c, Moment(r, k), m.calls[k - 1], round[k])
    {
      assert Ran(w, c, r, m.calls, 0 + (k - 1), ts[k - 1], ms[k - 1]);
      var ended :| RanTo(w, c, r, m.calls, k - 1, ts[k - 1], ms[k - 1], ended);
      assert Answers(w, c, Moment(r, k), m.calls[k - 1], round[k], ms[k - 1], ended);
    }
    assert IsRound(w, c, r, round, |round|);
    assert round[|round|..] == [];
    assert Answered(w, c, r + 1, r + 1, []);
    RoundThenAnswered(w, c, r, r + 1, round, |round|);
  }

  /** Appending a whole round keeps the message list well-formed for the next call. */
  lemma RoundWellSent(w: World, c: Config, base: seq<Message>, before: seq<Message>, r: nat, round: seq<Message>)
    requires WellSent(w, c, base, before, r) && Answered(w, c, r, r + 1, round)
    ensures WellSent(w, c, base, before + round, r + 1)
  {
    AnsweredConcat(w, c, 0, r, r + 1, before[|base|..], round);
    assert (before + round)[|base|..] == before[|base|..] + round;
  }

  /** One round makes at most one model call, well sent, and hands on well-formed messages. */
  lemma RoundSends(w: World, c: Config, buffer: bool, n: nat, st: St, base: seq<Message>)
    requires PromptKept(c) && WellSent(w, c, base, st.messages, n)
    ensures match OneRound(w, c, buffer, n, st)
      case Goes(s) => s.sent == st.sent + [st.messages] && WellSent(w, c, base, s.messages, n + 1)
      case Ends(e) => e.st.sent == st.sent || (n < c.maxIterations && e.st.sent == st.sent + [st.messages])
  {
    if n < c.maxIterations && !w.expired(Moment(n, 0)) {
      TurnSends(w, c, buffer, n, st);
      var (s1, end) := CompleteTurn(w, c, buffer, n, st);
      if end.Spoke? {
        var m, ts, ms := AfterTurnAdds(w, c, buffer, n, s1, end);
        if AfterTurn(w, c, buffer, n, s1, end).Goes? {
          RoundIs(w, c, n, m, ts, ms);
          RoundWellSent(w, c, base, st.messages, n, [m] + ts);
        }
      }
    }
  }

  lemma {:induction false} RoundsSend(w: World, c: Config, buffer: bool, n: nat, st: St, base: seq<Message>)
    requires PromptKept(c) && WellSent(w, c, base, st.messages, n) && AllWellSent(w, c, base, st) && |st.sent| == n
    ensures var r := Rounds(w, c, buffer, n, st);
      && AllWellSent(w, c, base, r.st)
      && |r.st.sent| <= |st.sent| + (if n < c.maxIterations then c.maxIterations - n else 0)
    decreases c.maxIterations - n
  {
    RoundSends(w, c, buffer, n, st, base);
    var r := OneRound(w, c, buffer, n, st);
    if r.Goes? {
      RoundsSend(w, c, buffer, n + 1, r.st, base);
    }
  }

  /** TURN PROTOCOL: without a prompt-rewriting guard, model call `i` of a request is sent the
      opening messages, with the user's as the guards left it, and then exactly the `i` rounds
      before it, in each of which every tool call is answered, in order, by what it came to;
      and at most `max_iterations` calls are made. */
  lemma CallsAnsweredAndBounded(w: World, c: Config, buffer: bool, messages: seq<Message>, contents: string)
    requires messages != [] && PromptKept(c)
    ensures var f, last := Run(w, c, buffer, messages, contents), |messages| - 1;
      && |f.st.sent| <= (if c.maxIterations > 0 then c.maxIterations else 0)
      && forall i | 0 <= i < |f.st.sent| ::
           && |messages| <= |f.st.sent[i]| && f.st.sent[i][..last] == messages[..last]
           && (messages[last] == User(contents) ==> f.st.sent[i][last] == User(f.user))
           && Answered(w, c, 0, i, f.st.sent[i][|messages|..])
  {
    var st, _ := RunShape(w, c, buffer, messages, contents);
    var base, last := st.messages, |messages| - 1;
    assert base[|base|..] == [];
    RoundsSend(w, c, buffer, 0, st, base);
    forall ms: seq<Message>, i: nat | WellSent(w, c, base, ms, i)
      ensures |messages| <= |ms| && ms[..last] == messages[..last] && ms[last] == base[last]
    {
      assert ms[..last] == base[..last];
    }
  }

  // ---------- and recorded ----------

  /** What the tool messages tell, in order. */
  function ToolTexts(ms: seq<Message>): seq<string> {
    if ms == [] then []
    else ToolTexts(ms[..|ms| - 1]) + (if ms[|ms| - 1].Tool? then [ms[|ms| - 1].result] else [])
  }

  function Results(ms: seq<Made>): (rs: seq<string>)
    ensures |rs| == |ms| && forall i | 0 <= i < |ms| :: rs[i] == ms[i].result
  {
    seq(|ms|, i requires 0 <= i < |ms| => ms[i].result)
  }

  lemma {:induction false} ToolTextsConcat(a: seq<Message>, b: seq<Message>)
    ensures ToolTexts(a + b) == ToolTexts(a) + ToolTexts(b)
  {
    if b == [] {
      assert a + b == a;
    } else {
      var n := |b| - 1;
      assert (a + b)[..|a + b| - 1] == a + b[..n];
      ToolTextsConcat(a, b[..n]);
    }
  }

  lemma {:induction false} AddedTexts(ran: RanFact, ts: seq<Message>, ms: seq<Made>)
    requires Adds(ran, 0, ts, ms) && forall i, t: Message, made: Made | ran(i, t, made) :: t.Tool? && t.result == made.result
    ensures ToolTexts(ts) == Results(ms)
  {
    if ts != [] {
      var n := |ts| - 1;
      assert ts == ts[..n] + [ts[n]] && ms == ms[..n] + [ms[n]];
      assert ran(0 + n, ts[n], ms[n]);
      AddedTexts(ran, ts[..n], ms[..n]);
    }
  }

  ghost predicate Logged(base: seq<Message>, st: St) {
    base <= st.messages && ToolTexts(st.messages[|base|..]) == Results(st.made)
  }

  lemma LogGrows(base: seq<Message>, st: St, s': St, m: Message, ts: seq<Message>, ms: seq<Made>)
    requires Logged(base, st) && !m.Tool? && ToolTexts(ts) == Results(ms)
    requires s'.messages == st.messages + ([m] + ts) && s'.made == st.made + ms
    ensures Logged(base, s')
  {
    var before, more := st.messages[|base|..], [m] + ts;
    SpokenThenTold(m, ts);
    TailGrows(base, st.messages, more);
    ToolTextsConcat(before, more);
    ResultsConcat(st.made, ms);
  }

  lemma SpokenThenTold(m: Message, ts: seq<Message>)
    requires !m.Tool?
    ensures ToolTexts([m] + ts) == ToolTexts(ts)
  {
    assert [m][..0] == [];
    ToolTextsConcat([m], ts);
  }

  lemma ResultsConcat(a: seq<Made>, b: seq<Made>)
    ensures Results(a + b) == Results(a) + Results(b)
  {
  }

  lemma TailGrows(base: seq<Message>, ms: seq<Message>, more: seq<Message>)
    requires base <= ms
    ensures base <= ms + more && (ms + more)[|base|..] == ms[|base|..] + more
  {
  }

  lemma RoundLogs(w: World, c: Config, buffer: bool, n: nat, st: St, base: seq<Message>)
    requires PromptKept(c) && Logged(base, st)
    ensures match OneRound(w, c, buffer, n, st)
      case Goes(s) => Logged(base, s)
      case Ends(e) => Logged(base, e.st)
  {
    if n < c.maxIterations && !w.expired(Moment(n, 0)) {
      TurnSends(w, c, buffer, n, st);
      var (s1, end) := CompleteTurn(w, c, buffer, n, st);
      if end.Spoke? {
        var m, ts, ms := AfterTurnAdds(w, c, buffer, n, s1, end);
        AddedTexts(RanIn(w, c, n, m.calls), ts, ms);
        var r := AfterTurn(w, c, buffer, n, s1, end);
        LogGrows(base, s1, if r.Goes? then r.st else r.end.st, m, ts, ms);
      }
    }
  }

  lemma {:induction false} RoundsLog(w: World, c: Config, buffer: bool, n: nat, st: St, base: seq<Message>)
    requires PromptKept(c) && Logged(base, st)
    ensures Logged(base, Rounds(w, c, buffer, n, st).st)
    decreases c.maxIterations - n
  {
    RoundLogs(w, c, buffer, n, st, base);
    var r := OneRound(w, c, buffer, n, st);
    if r.Goes? {
      RoundsLog(w, c, buffer, n + 1, r.st, base);
    }
  }

  /** THE RECORD IS WHAT WAS TOLD: however a request ends, its tool messages, in order, tell
      exactly the results recorded on the response. */
  lemma RecordsAreTold(w: World, c: Config, buffer: bool, messages: seq<Message>, contents: string)
    requires messages != [] && PromptKept(c)
    ensures var st := Run(w, c, buffer, messages, contents).st;
      |messages| <= |st.messages| && ToolTexts(st.messages[|messages|..]) == Results(st.made)
  {
    var s, _ := RunShape(w, c, buffer, messages, contents);
    assert s.messages[|messages|..] == [];
    assert Logged(s.messages, s);
    RoundsLog(w, c, buffer, 0, s, s.messages);
  }

  // ---------- history ----------

  /** The chat's history after some exchanges, each trimmed on the way. */
  function History(start: seq<Message>, maxTurns: nat, exchanges: seq<(string, string)>): seq<Message> {
    if exchanges == [] then Trim(start, maxTurns)
    else
      var n := |exchanges| - 1;
      Remember(History(start, maxTurns, exchanges[..n]), maxTurns, exchanges[n].0, exchanges[n].1)
  }

  function Transcript(start: seq<Message>, exchanges: seq<(string, string)>): seq<Message> {
    if exchanges == [] then start
    else
      var n := |exchanges| - 1;
      Transcript(start, exchanges[..n]) + [User(exchanges[n].0), Assistant(Some(exchanges[n].1), [])]
  }

  /** The last `n` messages, or all of fewer. */
  ghost predicate IsTail(h: seq<Message>, all: seq<Message>, n: nat) {
    |h| == (if |all| < n then |all| else n) && h == all[|all| - |h|..]
  }

  /** HISTORY: after any number of requests it is exactly the last `max_history_turns`
      exchanges of the whole conversation, so never longer than twice that. */
  lemma {:induction false} HistoryIsRecent(start: seq<Message>, maxTurns: nat, exchanges: seq<(string, string)>)
    ensures IsTail(History(start, maxTurns, exchanges), Transcript(start, exchanges), 2 * maxTurns)
  {
    if exchanges == [] {
      TrimIsTail(start, maxTurns);
    } else {
      var n := |exchanges| - 1;
      HistoryIsRecent(start, maxTurns, exchanges[..n]);
      var h, more := History(start, maxTurns, exchanges[..n]), [User(exchanges[n].0), Assistant(Some(exchanges[n].1), [])];
      TrimIsTail(h + more, maxTurns);
      TailExtends(h, Transcript(start, exchanges[..n]), more, Trim(h + more, maxTurns), 2 * maxTurns);
    }
  }

  lemma TrimIsTail(all: seq<Message>, maxTurns: nat)
    ensures IsTail(Trim(all, maxTurns), all, 2 * maxTurns)
  {
  }

  /** The last messages of a tail and more are the last of everything. */
  lemma TailExtends(h: seq<Message>, all: seq<Message>, more: seq<Message>, r: seq<Message>, n: nat)
    requires IsTail(h, all, n) && IsTail(r, h + more, n)
    ensures IsTail(r, all + more, n)
  {
    assert all + more == all[..|all| - |h|] + (h + more);
  }
}
