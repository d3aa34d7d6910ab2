/**
 What each part of a chat request leaves, told by what the guards, the model, the tools and
 the deadline did: what is sent, what is said, what is recorded, and why a request ends.
*/
module ChatOutcomes {
  import opened Prelude
  import opened GuardChains
  import opened Streams
  import opened Chat
  import opened ChatProtocol

  /** The flags a screening raised join the record, each with its point and reason. */
  ghost predicate Flagged(st: St, s': St, p: Point, vs: seq<Verdict<Content>>) {
    && |s'.flags| == |st.flags| + |vs| && s'.flags[..|st.flags|] == st.flags
    && forall i | 0 <= i < |vs| :: vs[i].Flag? && s'.flags[|st.flags| + i] == (p, vs[i].reason)
  }

  lemma FlagsRecorded(c: Config, st: St, p: Point, content: Content, x: Setting)
    ensures var o := Evaluate(c.guards, p, content, x); Flagged(st, AddFlags(st, p, o.flags), p, o.flags)
  {
    OutcomeShape(c.guards, p, content, x);
  }

  /** The reasoning yielded so far. */
  function ThoughtText(es: seq<Event>): string {
    if es == [] then ""
    else ThoughtText(es[..|es| - 1]) + (if es[|es| - 1].answer then "" else es[|es| - 1].piece)
  }

  /** A turn's reasoning is kept apart from that of the turns before by a blank line. */
  function WithThought(before: string, thought: string): string {
    if thought == "" then before else (if before == "" then "" else before + "\n\n") + thought
  }

  // ---------- one model call ----------

  /** What was said and thought aloud in a turn: everything, or, buffered, thoughts only. */
  ghost predicate Shown(st: St, s': St, buffer: bool, said: string, thought: string) {
    s'.text == st.text + (if buffer then "" else said) && ThoughtText(s'.events) == ThoughtText(st.events) + thought
  }

  /** The reply as a whole; a call that failed said nothing. */
  ghost predicate Whole(reply: JsonReply, buffer: bool, st: St, s': St, end: TurnEnd) {
    match reply
    case JsonTimeout => end == TurnTimedOut("") && Shown(st, s', buffer, "", "") && s'.reasoning == st.reasoning
    case JsonError => end == TurnBroke("") && Shown(st, s', buffer, "", "") && s'.reasoning == st.reasoning
    case Completed(content, calls, thought, finish) =>
      && end == Spoke(Assistant(content, calls), finish, content.GetOr(""))
      && Shown(st, s', buffer, content.GetOr(""), thought) && s'.reasoning == WithThought(st.reasoning, thought)
  }

  /** The reply as a stream; one that broke off keeps what it said, but no reasoning. */
  ghost predicate Streamed(reply: StreamReply, buffer: bool, st: St, s': St, end: TurnEnd) {
    var said := Streams.Content(reply.deltas);
    && Shown(st, s', buffer, said, Thoughts(reply.deltas))
    && match reply.ending
       case TimedOut => end == TurnTimedOut(said) && s'.reasoning == st.reasoning
       case Broken => end == TurnBroke(said) && s'.reasoning == st.reasoning
       case Ended =>
         && s'.reasoning == WithThought(st.reasoning, Thoughts(reply.deltas))
         && end.Spoke? && end.answer == said && IsLastFinish(reply.deltas, end.finish)
         && end.message.Assistant? && end.message.content == (if said == "" then None else Some(said))
         && forall calls, keys | InIndexOrder(FoldCalls(map[], AllCalls(reply.deltas)), calls, keys) :: end.message.calls == calls
  }

  lemma ThoughtTextSnoc(es: seq<Event>, e: Event)
    ensures ThoughtText(es + [e]) == ThoughtText(es) + (if e.answer then "" else e.piece)
  {
    assert (es + [e])[..|es|] == es;
  }

  lemma {:induction false} StreamShows(buffer: bool, st: St, ds: seq<Delta>)
    ensures var s' := StreamDeltas(buffer, st, ds);
      && Shown(st, s', buffer, Streams.Content(ds), Thoughts(ds))
      && s' == st.(text := s'.text, events := s'.events)
  {
    if ds == [] {
      assert st.text + "" == st.text && ThoughtText(st.events) + "" == ThoughtText(st.events);
    } else {
      var n := |ds| - 1;
      StreamShows(buffer, st, ds[..n]);
      DeltaShows(buffer, StreamDeltas(buffer, st, ds[..n]), ds[n]);
      ShownTwice(st, StreamDeltas(buffer, st, ds[..n]), StreamDeltas(buffer, st, ds), buffer,
                 Streams.Content(ds[..n]), Thoughts(ds[..n]), ds[n].content, ds[n].reasoning);
    }
  }

  lemma ThinkShows(st: St, piece: string)
    ensures ThoughtText(Think(st, piece).events) == ThoughtText(st.events) + piece
  {
    ThoughtTextSnoc(st.events, Event(false, piece, st.text));
  }

  lemma SayShows(st: St, piece: string)
    ensures ThoughtText(Say(st, piece).events) == ThoughtText(st.events) + ""
  {
    ThoughtTextSnoc(st.events, Event(true, piece, st.text + piece));
  }

  lemma DeltaShows(buffer: bool, st: St, d: Delta)
    ensures var s' := StreamDelta(buffer, st, d);
      Shown(st, s', buffer, d.content, d.reasoning) && s' == st.(text := s'.text, events := s'.events)
  {
    var thinking := if d.reasoning != "" then Think(st, d.reasoning) else st;
    ThinkShows(st, d.reasoning);
    SayShows(thinking, d.content);
    NothingAdded(st.text);
    NothingAdded(ThoughtText(st.events));
    NothingAdded(ThoughtText(thinking.events));
  }

  lemma NothingAdded(s: string)
    ensures s + "" == s
  {
  }

  lemma ShownTwice(st: St, s1: St, s2: St, buffer: bool, said1: string, thought1: string, said2: string, thought2: string)
    requires Shown(st, s1, buffer, said1, thought1) && Shown(s1, s2, buffer, said2, thought2)
    ensures Shown(st, s2, buffer, said1 + said2, thought1 + thought2)
  {
    assert (st.text + said1) + said2 == st.text + (said1 + said2);
    assert ((st.text + "") + "") == st.text + "";
    assert (ThoughtText(st.events) + thought1) + thought2 == ThoughtText(st.events) + (thought1 + thought2);
  }

  lemma StreamOutcome(w: World, buffer: bool, n: nat, st: St)
    ensures var (s', end) := StreamTurn(w, buffer, n, st);
      && s'.messages == st.messages && s'.made == st.made && s'.flags == st.flags && s'.sent == st.sent + [st.messages]
      && Streamed(w.sse(n, st.messages), buffer, st, s', end)
  {
    var reply := w.sse(n, st.messages);
    StreamShows(buffer, st.(sent := st.sent + [st.messages]), reply.deltas);
    TurnParts(reply.deltas);
    if reply.ending.Ended? {
      forall calls, keys | InIndexOrder(FoldCalls(map[], AllCalls(reply.deltas)), calls, keys)
        ensures InOrder(FoldDeltas(reply.deltas).slots) == calls
      {
        InOrderIs(FoldDeltas(reply.deltas).slots, calls, keys);
      }
    }
  }

  lemma JsonOutcome(w: World, buffer: bool, n: nat, st: St)
    ensures var (s', end) := JsonTurn(w, buffer, n, st);
      && s'.messages == st.messages && s'.made == st.made && s'.flags == st.flags && s'.sent == st.sent + [st.messages]
      && Whole(w.json(n, st.messages), buffer, st, s', end)
  {
    assert st.text + "" == st.text && ThoughtText(st.events) + "" == ThoughtText(st.events);
    match w.json(n, st.messages)
    case Completed(content, calls, thought, finish) =>
      var s2 := NoteReasoning(st.(sent := st.sent + [st.messages]), thought);
      assert "" + thought == thought;
      DeltaShows(buffer, s2, Delta("", thought, content.GetOr(""), []));
    case _ =>
  }

  /** ONE MODEL CALL: the model is asked exactly when the guards let the prompt pass, with
      exactly the messages they left; a denial is told as the answer instead. What it replies
      is said, thought, remembered and returned as it was, however it was delivered. */
  lemma TurnOutcome(w: World, c: Config, buffer: bool, n: nat, st: St)
    ensures var o := Evaluate(c.guards, AssembledPrompt, Messages(st.messages), Setting(None, Some(st.messages), c.system, Moment(n, 0)));
      var outgoing := match o.content case Messages(ms) => ms case _ => st.messages;
      var (s', end) := CompleteTurn(w, c, buffer, n, st);
      && s'.messages == outgoing && s'.made == st.made && Flagged(st, s', AssembledPrompt, o.flags)
      && if o.verdict.Halts() then
           && end == PromptHalted(o.verdict) && s'.sent == st.sent && s'.reasoning == st.reasoning
           && Shown(st, s', false, Told(o.verdict.reason, DEFAULT_BLOCK_TEXT), "")
         else
           && s'.sent == st.sent + [outgoing]
           && if c.stream then Streamed(w.sse(n, outgoing), buffer, st, s', end) else Whole(w.json(n, outgoing), buffer, st, s', end)
  {
    var x := Setting(None, Some(st.messages), c.system, Moment(n, 0));
    FlagsRecorded(c, st, AssembledPrompt, Messages(st.messages), x);
    var (s1, v) := GuardPrompt(c, n, st);
    if v.Halts() {
      ThoughtTextSnoc(s1.events, Event(true, ReasonOr(v, DEFAULT_BLOCK_TEXT), s1.text + ReasonOr(v, DEFAULT_BLOCK_TEXT)));
      assert ThoughtText(st.events) + "" == ThoughtText(st.events);
    } else if c.stream {
      StreamOutcome(w, buffer, n, s1);
    } else {
      JsonOutcome(w, buffer, n, s1);
    }
  }

  // ---------- the answer is released ----------

  /** Only the last message changes, and only in its text. */
  ghost predicate Reworded(ms: seq<Message>, ms': seq<Message>, text: string) {
    ms' == if ms != [] && ms[|ms| - 1].Assistant? then ms[..|ms| - 1] + [Assistant(Some(text), ms[|ms| - 1].calls)] else ms
  }

  /** RELEASE: a buffered answer is shown to the guards, at the point that fits it, before
      anybody else. Denied, the reason is said in its place, the request ends, and the message
      kept for the model holds what was said; else what the guards left of it is said, and the
      message says the same. */
  lemma OutputOutcome(c: Config, n: nat, st: St, answer: string, hasCalls: bool)
    ensures var p := if hasCalls then AssistantTurn else FinalAnswer;
      var o := Evaluate(c.guards, p, Text(answer), Setting(None, Some(st.messages), c.system, Moment(n, 0)));
      var released := match o.content case Text(t) => t case _ => answer;
      var (s', halted) := GuardOutput(c, n, st, answer, hasCalls);
      && s'.sent == st.sent && s'.made == st.made && s'.reasoning == st.reasoning && Flagged(st, s', p, o.flags)
      && if o.verdict.Halts() then
           && halted == Some(if o.verdict.Stop? then "stopped" else "blocked")
           && s'.text == st.text + Told(o.verdict.reason, DEFAULT_BLOCK_TEXT) && Reworded(st.messages, s'.messages, s'.text)
         else
           && halted.None? && s'.text == st.text + released
           && (if released == answer then s'.messages == st.messages else Reworded(st.messages, s'.messages, released))
  {
    var p := if hasCalls then AssistantTurn else FinalAnswer;
    FlagsRecorded(c, st, p, Text(answer), Setting(None, Some(st.messages), c.system, Moment(n, 0)));
    assert st.text + "" == st.text;
  }

  // ---------- why a round is the last ----------

  /** WHY A ROUND IS THE LAST: another follows exactly when a call was left, the deadline had
      not passed, and a complete reply asked for tools that were all run; otherwise the finish
      reason names the first of these that was missing. `s1`, `s2` and `s3` are the states
      after the model call, the release and the tools. */
  lemma RoundOutcome(w: World, c: Config, buffer: bool, n: nat, st: St)
    ensures var r := OneRound(w, c, buffer, n, st);
      if n >= c.maxIterations then r == Ends(RoundsEnd(st, Some("max_iterations"), ""))
      else if w.expired(Moment(n, 0)) then r == Ends(RoundsEnd(st, Some("timeout"), ""))
      else
        var (s1, end) := CompleteTurn(w, c, buffer, n, st);
        && (end.PromptHalted? ==> r == Ends(RoundsEnd(s1, Some(if end.verdict.Stop? then "stopped" else "blocked"), "")))
        && (end.TurnTimedOut? ==> r == Ends(RoundsEnd(s1, Some("timeout"), end.partial)))
        && (end.TurnBroke? ==> r == Ends(RoundsEnd(s1, None, end.partial)))
        && (end.Spoke? ==>
              var said := s1.(messages := s1.messages + [end.message]);
              var calls := if end.message.Assistant? then end.message.calls else [];
              var (s2, denied) := if buffer then GuardOutput(c, n, said, end.answer, calls != []) else (said, None);
              var (s3, stopped) := ToolLoop(w, c, n, s2, calls, 0);
              if denied.Some? then r == Ends(RoundsEnd(s2, denied, ""))
              else if calls == [] then r == Ends(RoundsEnd(s2, Some(if end.finish == "" then "stop" else end.finish), ""))
              else r == if stopped.Some? then Ends(RoundsEnd(s3, stopped, "")) else Goes(s3))
  {
  }

  // ---------- the whole request ----------

  /** A REQUEST: a user message the guards deny is answered with the reason, and the model is
      never asked. Otherwise the rounds start from the conversation with the user's message as
      the guards left it; that is also what is remembered of it; and the answer is what the
      rounds said, marked if time ran out. */
  lemma RequestOutcome(w: World, c: Config, buffer: bool, messages: seq<Message>, contents: string)
    requires messages != [] && messages[|messages| - 1] == User(contents)
    ensures var o := Evaluate(c.guards, UserInput, Text(contents), Setting(None, None, c.system, Moment(0, 0)));
      var f := Run(w, c, buffer, messages, contents);
      if o.verdict.Halts() then
        && f.reason == Some(if o.verdict.Stop? then "stopped" else "blocked") && f.user == contents
        && f.st.sent == [] && f.st.made == [] && f.st.messages == messages
        && f.st.text == Told(o.verdict.reason, DEFAULT_BLOCK_TEXT)
      else
        && f.user == (match o.content case Text(t) => t case _ => contents)
        && exists start: St ::
          && start == St(messages[..|messages| - 1] + [User(f.user)], [], "", "", [], [], start.flags)
          && Flagged(Begin(messages), start, UserInput, o.flags)
          && var r := Rounds(w, c, buffer, 0, start);
             f.reason == r.reason && f.partial == r.partial
             && f.st == if r.reason == Some("timeout") then Say(r.st, TIMEOUT_TEXT) else r.st
  {
    var x := Setting(None, None, c.system, Moment(0, 0));
    var o := Evaluate(c.guards, UserInput, Text(contents), x);
    FlagsRecorded(c, Begin(messages), UserInput, Text(contents), x);
    if !o.verdict.Halts() {
      var f := Run(w, c, buffer, messages, contents);
      var start := St(messages[..|messages| - 1] + [User(f.user)], [], "", "", [], [], AddFlags(Begin(messages), UserInput, o.flags).flags);
      assert messages[|messages| - 1 := User(f.user)] == start.messages;
      assert messages[..|messages| - 1] + [User(contents)] == messages;
      assert Flagged(Begin(messages), start, UserInput, o.flags);
    } else {
      assert "" + Told(o.verdict.reason, DEFAULT_BLOCK_TEXT) == Told(o.verdict.reason, DEFAULT_BLOCK_TEXT);
    }
  }
}
