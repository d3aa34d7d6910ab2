/**
 Output guards make a turn buffered: collected, screened, then released. When they allow
 what they screen, buffering must not change what the request means.
*/
module ChatBuffering {
  import opened Prelude
  import opened GuardChains
  import opened Streams
  import opened Chat
  import ChatProtocol

  /** `_buffer_output`: some guard is active at an output point. */
  ghost predicate Buffers(c: Config) {
    Active(c.guards, AssistantTurn) || Active(c.guards, FinalAnswer)
  }

  /** Two configurations that screen alike away from the output points, where the second
      lets everything through unchanged. */
  ghost predicate AllowsOutput(live: Config, buffered: Config) {
    && buffered == live.(guards := buffered.guards)
    && (forall p: Point, content, x | !p.AssistantTurn? && !p.FinalAnswer? ::
          Screen(buffered, p, content, x) == Screen(live, p, content, x))
    && (forall p: Point, content, x | p.AssistantTurn? || p.FinalAnswer? ::
          var o := Screen(buffered, p, content, x); o.verdict.Allow? && o.content == content)
  }

  /** The live state runs ahead of the buffered one by `ahead`, text not yet released. */
  ghost predicate Related(l: St, b: St, ahead: string) {
    && l.messages == b.messages && l.sent == b.sent && l.reasoning == b.reasoning && l.made == b.made
    && l.text == b.text + ahead
  }

  lemma {:induction false} StreamRelated(l: St, b: St, ds: seq<Delta>)
    requires Related(l, b, "")
    ensures Related(StreamDeltas(false, l, ds), StreamDeltas(true, b, ds), Streams.Content(ds))
  {
    if ds != [] {
      var n := |ds| - 1;
      StreamRelated(l, b, ds[..n]);
      var b' := StreamDeltas(true, b, ds[..n]);
      assert (b'.text + Streams.Content(ds[..n])) + ds[n].content == b'.text + (Streams.Content(ds[..n]) + ds[n].content);
    }
  }

  /** The text a round-trip shows live before the buffered one releases anything. */
  function Ahead(end: TurnEnd): string {
    match end
    case PromptHalted(_) => ""
    case TurnTimedOut(partial) => partial
    case TurnBroke(partial) => partial
    case Spoke(_, _, answer) => answer
  }

  lemma StreamTurnRelated(w: World, n: nat, l: St, b: St)
    requires Related(l, b, "")
    ensures var (l', el) := StreamTurn(w, false, n, l);
      var (b', eb) := StreamTurn(w, true, n, b);
      el == eb && Related(l', b', Ahead(el))
  {
    var ds := w.sse(n, l.messages).deltas;
    StreamRelated(l.(sent := l.sent + [l.messages]), b.(sent := b.sent + [b.messages]), ds);
    TurnParts(ds);
  }

  lemma PromptRelated(cl: Config, cb: Config, n: nat, l: St, b: St)
    requires AllowsOutput(cl, cb) && Related(l, b, "")
    ensures var (l', vl) := GuardPrompt(cl, n, l);
      var (b', vb) := GuardPrompt(cb, n, b);
      vl == vb && Related(l', b', "")
  {
  }

  lemma TurnRelated(w: World, cl: Config, cb: Config, n: nat, l: St, b: St)
    requires AllowsOutput(cl, cb) && Related(l, b, "")
    ensures var (l', el) := CompleteTurn(w, cl, false, n, l);
      var (b', eb) := CompleteTurn(w, cb, true, n, b);
      el == eb && Related(l', b', Ahead(el))
  {
    PromptRelated(cl, cb, n, l, b);
    var (l1, v) := GuardPrompt(cl, n, l);
    var (b1, _) := GuardPrompt(cb, n, b);
    if !v.Halts() && cl.stream {
      StreamTurnRelated(w, n, l1, b1);
    }
  }

  /** Screening and releasing a buffered turn catches up with the live one. */
  lemma OutputCatchesUp(cl: Config, cb: Config, n: nat, l: St, b: St, answer: string, hasCalls: bool)
    requires AllowsOutput(cl, cb) && Related(l, b, answer)
    ensures var (b', halted) := GuardOutput(cb, n, b, answer, hasCalls);
      halted.None? && Related(l, b', "")
  {
    var p := if hasCalls then AssistantTurn else FinalAnswer;
    var o := Screen(cb, p, Text(answer), Setting(None, Some(b.messages), cb.system, Moment(n, 0)));
    assert o.verdict.Allow? && o.content == Text(answer);
    assert b.text + "" == b.text && l.text + "" == l.text;
  }

  lemma InvokeRelated(w: World, cl: Config, cb: Config, m: Moment, l: St, b: St, name: string, given: string)
    requires AllowsOutput(cl, cb) && Related(l, b, "")
    ensures var el, eb := InvokeGuarded(w, cl, m, l, name, given), InvokeGuarded(w, cb, m, b, name, given);
      el.result == eb.result && el.halt == eb.halt && Related(el.st, eb.st, "")
  {
    var x := Setting(Some(name), None, cl.system, m);
    var pre := Screen(cl, ToolCall, Arguments(given), x);
    assert Screen(cb, ToolCall, Arguments(given), x) == pre;
    if !pre.verdict.Halts() {
      var arguments := if pre.content.Arguments? then pre.content.arguments else given;
      var run := w.invoke(m, name, arguments);
      if run.Returned? {
        assert Screen(cb, ToolResult, Text(run.result), x) == Screen(cl, ToolResult, Text(run.result), x);
      }
    }
  }

  lemma ExecuteRelated(w: World, cl: Config, cb: Config, m: Moment, l: St, b: St, call: Call)
    requires AllowsOutput(cl, cb) && Related(l, b, "")
    ensures var el, eb := ExecuteTool(w, cl, m, l, call), ExecuteTool(w, cb, m, b, call);
      el.result == eb.result && el.halt == eb.halt && Related(el.st, eb.st, "")
  {
    var raw := if call.arguments == "" then "{}" else call.arguments;
    if w.parse(raw).Some? {
      InvokeRelated(w, cl, cb, m, l, b, call.name, w.parse(raw).value);
    }
  }

  ghost predicate Alike(rl: (St, Option<string>), rb: (St, Option<string>)) {
    rl.1 == rb.1 && Related(rl.0, rb.0, "")
  }

  lemma {:induction false} LoopsRelated(tl: LoopTurn, tb: LoopTurn, l: St, b: St, k: nat, n: nat)
    requires k <= n && Related(l, b, "")
    requires forall i: nat, s, s' | Related(s, s', "") :: Alike(tl(i, s), tb(i, s'))
    ensures Alike(Loop(tl, l, k, n), Loop(tb, b, k, n))
    decreases n - k
  {
    if k < n {
      assert Alike(tl(k, l), tb(k, b));
      if tl(k, l).1.None? {
        LoopsRelated(tl, tb, tl(k, l).0, tb(k, b).0, k + 1, n);
      }
    }
  }

  lemma ToolTurnRelated(w: World, cl: Config, cb: Config, n: nat, calls: seq<Call>, k: nat, l: St, b: St)
    requires AllowsOutput(cl, cb) && Related(l, b, "")
    ensures Alike(ToolTurn(w, cl, n, calls, k, l), ToolTurn(w, cb, n, calls, k, b))
  {
    if k < |calls| {
      ExecuteRelated(w, cl, cb, Moment(n, k + 1), l, b, calls[k]);
    }
  }

  lemma ToolsRelated(w: World, cl: Config, cb: Config, n: nat, l: St, b: St, calls: seq<Call>)
    requires AllowsOutput(cl, cb) && Related(l, b, "")
    ensures Alike(ToolLoop(w, cl, n, l, calls, 0), ToolLoop(w, cb, n, b, calls, 0))
  {
    var tl := (i: nat, s: St) => ToolTurn(w, cl, n, calls, i, s);
    var tb := (i: nat, s: St) => ToolTurn(w, cb, n, calls, i, s);
    assert ToolLoop(w, cl, n, l, calls, 0) == Loop(tl, l, 0, |calls|);
    assert ToolLoop(w, cb, n, b, calls, 0) == Loop(tb, b, 0, |calls|);
    forall i: nat, s, s' | Related(s, s', "")
      ensures Alike(tl(i, s), tb(i, s'))
    {
      ToolTurnRelated(w, cl, cb, n, calls, i, s, s');
    }
    LoopsRelated(tl, tb, l, b, 0, |calls|);
  }

  lemma RoundRelated(w: World, cl: Config, cb: Config, n: nat, l: St, b: St)
    requires AllowsOutput(cl, cb) && Related(l, b, "")
    ensures RoundsAlike(OneRound(w, cl, false, n, l), OneRound(w, cb, true, n, b))
  {
    if n < cl.maxIterations && !w.expired(Moment(n, 0)) {
      TurnRelated(w, cl, cb, n, l, b);
      var (l1, end) := CompleteTurn(w, cl, false, n, l);
      var (b1, _) := CompleteTurn(w, cb, true, n, b);
      AfterTurnRelated(w, cl, cb, n, l1, b1, end);
    }
  }

  ghost predicate RoundsAlike(rl: RoundEnd, rb: RoundEnd) {
    match rl
    case Goes(l) => rb.Goes? && Related(l, rb.st, "")
    case Ends(l) => rb.Ends? && EndsAlike(l, rb.end)
  }

  ghost predicate EndsAlike(l: RoundsEnd, b: RoundsEnd) {
    l.reason == b.reason && l.partial == b.partial && Related(l.st, b.st, l.partial)
  }

  lemma AfterTurnRelated(w: World, cl: Config, cb: Config, n: nat, l: St, b: St, end: TurnEnd)
    requires AllowsOutput(cl, cb) && Related(l, b, Ahead(end))
    ensures RoundsAlike(AfterTurn(w, cl, false, n, l, end), AfterTurn(w, cb, true, n, b, end))
  {
    if end.Spoke? {
      var l2, b2 := l.(messages := l.messages + [end.message]), b.(messages := b.messages + [end.message]);
      var calls := CallsOf(end.message);
      OutputCatchesUp(cl, cb, n, l2, b2, end.answer, calls != []);
      var (b3, _) := GuardOutput(cb, n, b2, end.answer, calls != []);
      ToolsRelated(w, cl, cb, n, l2, b3, calls);
    }
  }

  lemma {:induction false} RoundsRelated(w: World, cl: Config, cb: Config, n: nat, l: St, b: St)
    requires AllowsOutput(cl, cb) && Related(l, b, "")
    ensures EndsAlike(Rounds(w, cl, false, n, l), Rounds(w, cb, true, n, b))
    decreases cl.maxIterations - n
  {
    RoundRelated(w, cl, cb, n, l, b);
    var rl, rb := OneRound(w, cl, false, n, l), OneRound(w, cb, true, n, b);
    if rl.Goes? {
      RoundsRelated(w, cl, cb, n + 1, rl.st, rb.st);
    }
  }

  /** The answer text that the reply to the last model call had shown when it broke off or
      timed out; none when it ended, or when replies are not streamed. */
  function BrokenText(w: World, c: Config, sent: seq<seq<Message>>): string {
    if !c.stream || sent == [] then ""
    else
      var n := |sent| - 1;
      var reply := w.sse(n, sent[n]);
      if reply.ending.Ended? then "" else Streams.Content(reply.deltas)
  }

  lemma StreamTurnBreaks(w: World, c: Config, buffer: bool, n: nat, st: St)
    requires c.stream && |st.sent| == n
    ensures var (s', end) := StreamTurn(w, buffer, n, st);
      |s'.sent| == n + 1 && Ahead(end) == (if end.Spoke? then end.answer else BrokenText(w, c, s'.sent))
      && (end.Spoke? ==> BrokenText(w, c, s'.sent) == "")
  {
    var ds := w.sse(n, st.messages).deltas;
    ChatProtocol.StreamSends(buffer, st.(sent := st.sent + [st.messages]), ds);
    TurnParts(ds);
  }

  /** The partial text of a turn is the broken text of its model call, if it made one. */
  lemma TurnBreaks(w: World, c: Config, buffer: bool, n: nat, st: St)
    requires |st.sent| == n && BrokenText(w, c, st.sent) == ""
    ensures var (s', end) := CompleteTurn(w, c, buffer, n, st);
      && (end.Spoke? ==> |s'.sent| == n + 1 && BrokenText(w, c, s'.sent) == "")
      && (!end.Spoke? ==> Ahead(end) == BrokenText(w, c, s'.sent))
  {
    var (s1, v) := GuardPrompt(c, n, st);
    if !v.Halts() && c.stream {
      StreamTurnBreaks(w, c, buffer, n, s1);
    }
  }

  lemma OutputKeepsSent(c: Config, n: nat, st: St, answer: string, hasCalls: bool)
    ensures GuardOutput(c, n, st, answer, hasCalls).0.sent == st.sent
  {
  }

  /** One round: it ends the run with the broken text of its model call, or hands a state on
      to the next round that has nothing broken. */
  lemma RoundBreaks(w: World, c: Config, buffer: bool, n: nat, st: St)
    requires |st.sent| == n && BrokenText(w, c, st.sent) == ""
    ensures match OneRound(w, c, buffer, n, st)
      case Goes(s) => |s.sent| == n + 1 && BrokenText(w, c, s.sent) == ""
      case Ends(e) => e.partial == BrokenText(w, c, e.st.sent)
  {
    if n < c.maxIterations && !w.expired(Moment(n, 0)) {
      TurnBreaks(w, c, buffer, n, st);
      var (s1, end) := CompleteTurn(w, c, buffer, n, st);
      if end.Spoke? {
        AfterTurnKeepsSent(w, c, buffer, n, s1, end);
      }
    }
  }

  lemma AfterTurnKeepsSent(w: World, c: Config, buffer: bool, n: nat, st: St, end: TurnEnd)
    requires end.Spoke?
    ensures match AfterTurn(w, c, buffer, n, st, end)
      case Goes(s) => s.sent == st.sent
      case Ends(e) => e.st.sent == st.sent && e.partial == ""
  {
    var s2 := st.(messages := st.messages + [end.message]);
    var calls := CallsOf(end.message);
    OutputKeepsSent(c, n, s2, end.answer, calls != []);
    var (s3, halted) := if buffer then GuardOutput(c, n, s2, end.answer, calls != []) else (s2, None);
    var _, _ := ChatProtocol.ToolLoopAnswers(w, c, n, s3, calls, 0);
  }

  lemma {:induction false} PartialIsBrokenText(w: World, c: Config, buffer: bool, n: nat, st: St)
    requires |st.sent| == n && BrokenText(w, c, st.sent) == ""
    ensures var r := Rounds(w, c, buffer, n, st); r.partial == BrokenText(w, c, r.st.sent)
    decreases c.maxIterations - n
  {
    RoundBreaks(w, c, buffer, n, st);
    var r := OneRound(w, c, buffer, n, st);
    if r.Goes? {
      PartialIsBrokenText(w, c, buffer, n + 1, r.st);
    }
  }

  /** Two requests, live and buffered, that mean the same up to the text `broken`. */
  ghost predicate SameMeaning(l: St, b: St, broken: string) {
    && l.messages == b.messages && l.sent == b.sent && l.made == b.made && l.reasoning == b.reasoning
    && (l.text == b.text <==> broken == "")
    && |l.text| == |b.text| + |broken|
  }

  lemma RoundsMeanTheSame(w: World, cl: Config, cb: Config, st: St)
    requires AllowsOutput(cl, cb) && st.sent == []
    ensures var rl, rb := Rounds(w, cl, false, 0, st), Rounds(w, cb, true, 0, st);
      var broken := BrokenText(w, cl, rl.st.sent);
      && rl.reason == rb.reason && SameMeaning(rl.st, rb.st, broken)
      && SameMeaning(Say(rl.st, TIMEOUT_TEXT), Say(rb.st, TIMEOUT_TEXT), broken)
  {
    RoundsRelated(w, cl, cb, 0, st, st);
    PartialIsBrokenText(w, cl, false, 0, st);
    var rl, rb := Rounds(w, cl, false, 0, st), Rounds(w, cb, true, 0, st);
    assert rl.st.text == rb.st.text + rl.partial;
    assert rb.st.text + "" == rb.st.text;
  }

  /** BUFFERING PRESERVES MEANING: messages, model calls, tools, finish reason, reasoning and
      what is remembered of the user are always the same. The text is the same exactly when
      the reply to the last model call did not break off (or time out) after some answer
      text; what is missing is that text. */
  lemma BufferingPreservesMeaning(w: World, cl: Config, cb: Config, messages: seq<Message>, contents: string)
    requires messages != [] && AllowsOutput(cl, cb)
    ensures var l, b := Run(w, cl, false, messages, contents), Run(w, cb, true, messages, contents);
      var broken := BrokenText(w, cl, l.st.sent);
      && l.reason == b.reason && l.user == b.user && SameMeaning(l.st, b.st, broken)
  {
    var x := Setting(None, None, cl.system, Moment(0, 0));
    var o := Screen(cl, UserInput, Text(contents), x);
    assert o == Screen(cb, UserInput, Text(contents), x);
    if !o.verdict.Halts() {
      var s0 := AddFlags(Begin(messages), UserInput, o.flags);
      var user := if o.content.Text? then o.content.text else contents;
      var s1 := if o.content == Text(contents) then s0 else s0.(messages := messages[|messages| - 1 := User(user)]);
      RoundsMeanTheSame(w, cl, cb, s1);
    }
  }

  /** Such a request: one streamed reply that times out after some text. Live, the text was
      shown; buffered, only the timeout notice is. */
  lemma TimedOutStreamDiffers() returns (w: World, c: Config)
    ensures AllowsOutput(c, c)
    ensures var live, buffered := Run(w, c, false, [User("Hi")], "Hi"), Run(w, c, true, [User("Hi")], "Hi");
      && live.st.text == "Hello" + TIMEOUT_TEXT && buffered.st.text == TIMEOUT_TEXT
      && BrokenText(w, c, live.st.sent) == "Hello"
  {
    w := World((n: nat, ms: seq<Message>) => JsonTimeout,
               (n: nat, ms: seq<Message>) => StreamReply([Delta("", "", "Hello", [])], TimedOut),
               (s: string) => None, (m: Moment, name: string, arguments: string) => Raised(""), (m: Moment) => false);
    c := Config(1, true, [], {}, None);
    var ds := [Delta("", "", "Hello", [])];
    assert ds[..0] == [] && "" + "Hello" == "Hello";
    var s0 := AddFlags(Begin([User("Hi")]), UserInput, []);
    var s1 := AddFlags(s0, AssembledPrompt, []);
    assert Screen(c, UserInput, Text("Hi"), Setting(None, None, None, Moment(0, 0))) == Outcome(Allow, Text("Hi"), []);
    assert Screen(c, AssembledPrompt, Messages([User("Hi")]), Setting(None, Some([User("Hi")]), None, Moment(0, 0)))
        == Outcome(Allow, Messages([User("Hi")]), []);
    var (sl, el) := StreamTurn(w, false, 0, s1);
    var (sb, eb) := StreamTurn(w, true, 0, s1);
    var s2 := s1.(sent := s1.sent + [s1.messages]);
    assert StreamDeltas(false, s2, ds[..0]) == s2 && StreamDeltas(true, s2, ds[..0]) == s2;
    assert StreamDeltas(true, s2, ds) == StreamDelta(true, s2, ds[0]) == s2;
    assert sl.text == "Hello" && sb.text == "";
    assert el.TurnTimedOut? && eb.TurnTimedOut?;
    assert "" + TIMEOUT_TEXT == TIMEOUT_TEXT;
  }

  /** So adding guards that only watch the output, and allow it, to a chain without output
      guards turns buffering on and changes nothing else. */
  lemma OutputWatchersChangeNothing(c: Config, watchers: seq<Guard<Content, Setting>>)
    requires !Buffers(c)
    requires forall p: Point | !p.AssistantTurn? && !p.FinalAnswer? :: !Active(watchers, p)
    requires forall p, content, x :: Evaluate(watchers, p, content, x).verdict.Allow? && Evaluate(watchers, p, content, x).content == content
    ensures AllowsOutput(c, c.(guards := c.guards + watchers))
  {
    var cb := c.(guards := c.guards + watchers);
    forall p: Point, content: Content, x: Setting
      ensures !p.AssistantTurn? && !p.FinalAnswer? ==> Screen(cb, p, content, x) == Screen(c, p, content, x)
      ensures p.AssistantTurn? || p.FinalAnswer? ==> Screen(cb, p, content, x).verdict.Allow? && Screen(cb, p, content, x).content == content
    {
      ConcatIsThen(c.guards, watchers, p, content, x);
      OutcomeShape(c.guards, p, content, x);
      var o := Evaluate(c.guards, p, content, x);
      if p.AssistantTurn? || p.FinalAnswer? {
        InactiveIsIdentity(c.guards, p, content, x);
      } else {
        InactiveIsIdentity(watchers, p, o.content, x);
        assert o.flags + [] == o.flags;
      }
    }
  }
}
