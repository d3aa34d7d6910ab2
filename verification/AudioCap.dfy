/**
 The audio cap (`cap_audio` in src/oumigo/service/manager/router/shaping.py): trims a
 request's messages in place until their audio fits a limit. How the note renders its
 numbers is a parameter.
*/
module AudioCap {
  import opened Prelude
  import opened Jsons
  import opened Trimming
  import Wav

  /** A message's content, when the message is a dict and its content a list. */
  function Content(m: Json): Option<seq<Json>> {
    match m.Get("content")
    case Some(Arr(items)) => Some(items)
    case _ => None
  }

  function Parts(m: Json): seq<Json> { Content(m).GetOr([]) }

  function WithContent(m: Json, parts: seq<Json>): (r: Json)
    requires Content(m).Some?
    ensures Content(r) == Some(parts)
    ensures forall key | key != "content" :: r.Get(key) == m.Get(key)
  {
    Obj(m.fields["content" := Arr(parts)])
  }

  lemma WithContentTwice(m: Json, a: seq<Json>, b: seq<Json>)
    requires Content(m).Some?
    ensures WithContent(WithContent(m, a), b) == WithContent(m, b)
  {
    assert m.fields["content" := Arr(a)]["content" := Arr(b)] == m.fields["content" := Arr(b)];
  }

  function Contents(ms: seq<Json>): seq<seq<Json>> {
    seq(|ms|, i requires 0 <= i < |ms| => Parts(ms[i]))
  }

  /** Every audio part of the request, in order across the messages. */
  function Audio(ms: seq<Json>): seq<Json> { AllMarked(Contents(ms), Wav.IsAudio) }

  function Seconds(parts: seq<Json>): real { Total(parts, Wav.PartSeconds) }

  /** How many of the leading audio parts the limit lets through. */
  function Allowed(ms: seq<Json>, limit: Option<real>): (n: nat)
    ensures n <= |Audio(ms)|
  {
    LongestFit(Audio(ms), Wav.PartSeconds, limit)
  }

  /** The first message that loses audio; the number of messages when none does. */
  function FirstLoser(ms: seq<Json>, limit: Option<real>): (f: nat)
    ensures f <= |ms|
    ensures f < |ms| ==> Loses(Contents(ms), Wav.IsAudio, f, Allowed(ms, limit))
  {
    FirstLoss(Contents(ms), Wav.IsAudio, |ms|, Allowed(ms, limit))
  }

  function Note(text: string): Json {
    Obj(map["type" := Str("text"), "text" := Str(text)])
  }

  /** The note's wording of kept seconds, dropped clips, all clips and the limit. */
  type Render = (real, nat, nat, real) -> string

  function NoteFor(ms: seq<Json>, limit: Option<real>, render: Render): Json {
    var all, n := Audio(ms), Allowed(ms, limit);
    Note(render(Seconds(all[..n]), |all| - n, |all|, limit.GetOr(0.0)))
  }

  function CappedAt(ms: seq<Json>, limit: Option<real>, render: Render, i: nat): Json
    requires i < |ms|
  {
    var xss, n := Contents(ms), Allowed(ms, limit);
    if Loses(xss, Wav.IsAudio, i, n)
    then WithContent(ms[i], NotedAt(xss, Wav.IsAudio, n, NoteFor(ms, limit, render), i))
    else ms[i]
  }

  /** What the cap makes of the messages. */
  function Capped(ms: seq<Json>, limit: Option<real>, render: Render): seq<Json> {
    seq(|ms|, i requires 0 <= i < |ms| => CappedAt(ms, limit, render, i))
  }

  /** What the cap reports of a request. */
  datatype AudioShaping = AudioShaping(submitted: real, kept: real, items: nat, dropped: nat, limit: Option<real>)

  function Shaping(ms: seq<Json>, limit: Option<real>): AudioShaping {
    var all, n := Audio(ms), Allowed(ms, limit);
    AudioShaping(Seconds(all), Seconds(all[..n]), |all|, |all| - n, limit)
  }

  // ---------------------------------------------------------------- what the cap guarantees

  /** The contents of the result are the contents of the request, trimmed and noted. */
  lemma CappedContents(ms: seq<Json>, limit: Option<real>, render: Render)
    ensures Contents(Capped(ms, limit, render))
         == Noted(Contents(ms), Wav.IsAudio, Allowed(ms, limit), NoteFor(ms, limit, render))
  {
    var xss, n, note := Contents(ms), Allowed(ms, limit), NoteFor(ms, limit, render);
    forall i | 0 <= i < |ms|
      ensures Parts(Capped(ms, limit, render)[i]) == NotedAt(xss, Wav.IsAudio, n, note, i)
    {
      assert [] + xss[i] == xss[i];
    }
  }

  lemma NoteIsNoAudio(text: string)
    ensures !Wav.IsAudio(Note(text))
  {
  }

  lemma SpansPositive(parts: seq<Json>)
    ensures AllPositive(parts, Wav.PartSeconds)
  {
  }

  /** What is kept is exactly the longest prefix, across all messages, that fits the limit. */
  lemma KeepsLongestPrefix(ms: seq<Json>, limit: Option<real>, render: Render)
    ensures Audio(Capped(ms, limit, render)) == Audio(ms)[..Allowed(ms, limit)]
    ensures forall j | 1 <= j <= |Audio(ms)| :: j <= Allowed(ms, limit) <==> Fits(Audio(ms), Wav.PartSeconds, limit, j)
  {
    var all, n := Audio(ms), Allowed(ms, limit);
    SpansPositive(all);
    LongestFitIsLongest(all, Wav.PartSeconds, limit);
    CappedContents(ms, limit, render);
    NoteIsNoAudio(render(Seconds(all[..n]), |all| - n, |all|, limit.GetOr(0.0)));
    NotedKeepsPrefix(Contents(ms), Wav.IsAudio, n, NoteFor(ms, limit, render));
  }

  /** Every other part survives, in order; the one added part is the note on the final totals,
      in front of the first message that lost audio; and no field but the content changes. */
  lemma OthersSurvive(ms: seq<Json>, limit: Option<real>, render: Render, i: nat)
    requires i < |ms|
    ensures var r, told := Capped(ms, limit, render)[i], Shaping(ms, limit);
      var note := Note(render(told.kept, told.dropped, told.items, if limit.Some? then limit.value else 0.0));
      && Others(Parts(r), Wav.IsAudio) == (if i == FirstLoser(ms, limit) then [note] else []) + Others(Parts(ms[i]), Wav.IsAudio)
      && (i == FirstLoser(ms, limit) ==> Parts(r) != [] && Parts(r)[0] == note)
      && (forall key | key != "content" :: r.Get(key) == ms[i].Get(key))
  {
    var all, n := Audio(ms), Allowed(ms, limit);
    CappedContents(ms, limit, render);
    NoteIsNoAudio(render(Seconds(all[..n]), |all| - n, |all|, limit.GetOr(0.0)));
    NotedList(Contents(ms), Wav.IsAudio, n, NoteFor(ms, limit, render), i);
    assert Contents(Capped(ms, limit, render))[i] == Parts(Capped(ms, limit, render)[i]);
  }

  /** What a message keeps stays in its place: but for the note, its parts are picked in their
      order from those it had. */
  lemma PartsKeepPlaces(ms: seq<Json>, limit: Option<real>, render: Render, i: nat) returns (ix: seq<nat>)
    requires i < |ms|
    ensures var parts := Parts(Capped(ms, limit, render)[i]);
      if i == FirstLoser(ms, limit) then parts != [] && Picks(Parts(ms[i]), parts[1..], ix) else Picks(Parts(ms[i]), parts, ix)
  {
    CappedContents(ms, limit, render);
    ix := NotedInPlace(Contents(ms), Wav.IsAudio, Allowed(ms, limit), NoteFor(ms, limit, render), i);
    assert Contents(Capped(ms, limit, render))[i] == Parts(Capped(ms, limit, render)[i]);
  }

  /** The totals reported are those of the request and of what is left of it; and what is left
      fits the limit. */
  lemma ShapingIsExact(ms: seq<Json>, limit: Option<real>, render: Render)
    ensures var told, all, left := Shaping(ms, limit), Audio(ms), Audio(Capped(ms, limit, render));
      && told.submitted == Total(all, Wav.PartSeconds) && told.kept == Total(left, Wav.PartSeconds)
      && told.items == |all| && told.dropped == |all| - |left| && told.limit == limit
      && (limit.Some? && left != [] ==> told.kept <= limit.value)
  {
    KeepsLongestPrefix(ms, limit, render);
    var n := Allowed(ms, limit);
    assert n >= 1 ==> Fits(Audio(ms), Wav.PartSeconds, limit, n);
  }

  /** A note is added - once, to the first message that lost audio - iff something was dropped. */
  lemma NoteIffDropped(ms: seq<Json>, limit: Option<real>)
    ensures FirstLoser(ms, limit) < |ms| <==> Shaping(ms, limit).dropped > 0
  {
    var xss := Contents(ms);
    NoLossIffAllKept(xss, Wav.IsAudio, |ms|, Allowed(ms, limit));
    assert xss[..|ms|] == xss;
  }

  lemma UntouchedWhenAllFit(ms: seq<Json>, limit: Option<real>, render: Render)
    requires Allowed(ms, limit) == |Audio(ms)|
    ensures Capped(ms, limit, render) == ms
  {
    NoteIffDropped(ms, limit);
  }

  /** A second application changes nothing. */
  lemma CappingIsIdempotent(ms: seq<Json>, limit: Option<real>, render: Render)
    ensures var once := Capped(ms, limit, render);
      Capped(once, limit, render) == once && Shaping(once, limit).dropped == 0
  {
    KeepsLongestPrefix(ms, limit, render);
    LongestFitOfKept(Audio(ms), Wav.PartSeconds, limit);
    UntouchedWhenAllFit(Capped(ms, limit, render), limit, render);
  }

  // ---------------------------------------------------------------- in place

  /** A message after the loop, before the note is written. */
  function LoopedAt(ms: seq<Json>, n: nat, i: nat): (r: Json)
    requires i < |ms|
    ensures Loses(Contents(ms), Wav.IsAudio, i, n) ==> Content(r).Some?
  {
    var xss := Contents(ms);
    if Loses(xss, Wav.IsAudio, i, n) then WithContent(ms[i], TrimAt(xss, Wav.IsAudio, i, n)) else ms[i]
  }

  ghost predicate TallyAt(ms: seq<Json>, limit: Option<real>, i: nat, tally: Tally)
    requires i <= |ms|
  {
    var before := |AllMarked(Contents(ms)[..i], Wav.IsAudio)|;
    before <= |Audio(ms)| && tally.Counts(Audio(ms), Wav.PartSeconds, Allowed(ms, limit), before)
  }

  /** One message with a content list. */
  method TrimMessage(ghost ms: seq<Json>, ghost i: nat, message: Json, limit: Option<real>, start: Tally)
    returns (r: Json, lost: nat, tally: Tally)
    requires i < |ms| && message == ms[i] && TallyAt(ms, limit, i, start)
    ensures r == LoopedAt(ms, Allowed(ms, limit), i)
    ensures lost > 0 <==> Loses(Contents(ms), Wav.IsAudio, i, Allowed(ms, limit))
    ensures TallyAt(ms, limit, i + 1, tally)
  {
    ghost var xss, n := Contents(ms), Allowed(ms, limit);
    SpansPositive(Audio(ms));
    r, lost, tally := message, 0, start;
    var content := Content(message);
    if content.None? {
      MarkedOfNext(xss, Wav.IsAudio, i);
    } else {
      var kept;
      kept, lost, tally := TrimContent(xss, i, n, content.value, Wav.IsAudio, Wav.PartSeconds, limit, start);
      if lost > 0 {
        r := WithContent(message, kept);
      }
    }
  }

  /** The first of the leading `i` messages that loses audio, if any. */
  function TargetAt(ms: seq<Json>, limit: Option<real>, i: nat): Option<nat>
    requires i <= |ms|
  {
    var f := FirstLoss(Contents(ms), Wav.IsAudio, i, Allowed(ms, limit));
    if f == i then None else Some(f)
  }

  lemma TargetNext(ms: seq<Json>, limit: Option<real>, i: nat)
    requires i < |ms|
    ensures TargetAt(ms, limit, i + 1)
         == if TargetAt(ms, limit, i).None? && Loses(Contents(ms), Wav.IsAudio, i, Allowed(ms, limit)) then Some(i)
            else TargetAt(ms, limit, i)
  {
  }

  /** The messages when the leading `i` are done. */
  function LoopedUpTo(ms: seq<Json>, n: nat, i: nat): (r: seq<Json>)
    requires i <= |ms|
    ensures |r| == |ms|
    ensures forall k | i <= k < |ms| :: r[k] == ms[k]
  {
    if i == 0 then ms else LoopedUpTo(ms, n, i - 1)[i - 1 := LoopedAt(ms, n, i - 1)]
  }

  lemma {:induction false} LoopedElement(ms: seq<Json>, n: nat, i: nat, k: nat)
    requires k < i <= |ms|
    ensures LoopedUpTo(ms, n, i)[k] == LoopedAt(ms, n, k)
  {
    if k < i - 1 {
      LoopedElement(ms, n, i - 1, k);
    }
  }

  /** The messages with the note written in front of the target's parts. */
  function Written(looped: seq<Json>, target: Option<nat>, note: Json): (r: seq<Json>)
    requires target.Some? ==> target.value < |looped| && Content(looped[target.value]).Some?
    ensures |r| == |looped|
  {
    match target
    case None => looped
    case Some(f) => looped[f := WithContent(looped[f], [note] + Parts(looped[f]))]
  }

  lemma WrittenAt(ms: seq<Json>, limit: Option<real>, render: Render, k: nat)
    requires k < |ms|
    ensures var looped := LoopedAt(ms, Allowed(ms, limit), k);
      if k == FirstLoser(ms, limit)
      then Content(looped).Some? && CappedAt(ms, limit, render, k) == WithContent(looped, [NoteFor(ms, limit, render)] + Parts(looped))
      else CappedAt(ms, limit, render, k) == looped
  {
    var xss, n := Contents(ms), Allowed(ms, limit);
    if Loses(xss, Wav.IsAudio, k, n) {
      var kept := TrimAt(xss, Wav.IsAudio, k, n);
      assert [] + kept == kept;
      WithContentTwice(ms[k], kept, [NoteFor(ms, limit, render)] + kept);
    }
  }

  lemma TargetHasContent(ms: seq<Json>, limit: Option<real>)
    ensures var target := TargetAt(ms, limit, |ms|);
      target.Some? ==> target.value < |ms| && Content(LoopedUpTo(ms, Allowed(ms, limit), |ms|)[target.value]).Some?
  {
    var target := TargetAt(ms, limit, |ms|);
    if target.Some? {
      LoopedElement(ms, Allowed(ms, limit), |ms|, target.value);
    }
  }

  lemma TargetIsFirstLoser(ms: seq<Json>, limit: Option<real>, k: nat)
    requires k < |ms|
    ensures TargetAt(ms, limit, |ms|) == Some(k) <==> k == FirstLoser(ms, limit)
  {
  }

  lemma FinishedAt(ms: seq<Json>, limit: Option<real>, render: Render, looped: seq<Json>, target: Option<nat>, note: Json, k: nat)
    requires k < |ms| == |looped| && looped[k] == LoopedAt(ms, Allowed(ms, limit), k)
    requires target == TargetAt(ms, limit, |ms|) && note == NoteFor(ms, limit, render)
    requires target.Some? ==> target.value < |ms| && Content(looped[target.value]).Some?
    ensures Written(looped, target, note)[k] == CappedAt(ms, limit, render, k)
  {
    TargetIsFirstLoser(ms, limit, k);
    WrittenAt(ms, limit, render, k);
  }

  lemma CappedByElements(ms: seq<Json>, limit: Option<real>, render: Render, out: seq<Json>)
    requires |out| == |ms| && forall k | 0 <= k < |ms| :: out[k] == CappedAt(ms, limit, render, k)
    ensures out == Capped(ms, limit, render)
  {
  }

  /** Writing the note last gives the specified messages. */
  lemma FinishedIs(ms: seq<Json>, limit: Option<real>, render: Render, n: nat, looped: seq<Json>, target: Option<nat>, note: Json)
    requires n == Allowed(ms, limit) && looped == LoopedUpTo(ms, n, |ms|)
    requires target == TargetAt(ms, limit, |ms|) && note == NoteFor(ms, limit, render)
    ensures target.Some? ==> target.value < |ms| && Content(looped[target.value]).Some?
    ensures Written(looped, target, note) == Capped(ms, limit, render)
  {
    TargetHasContent(ms, limit);
    var out := Written(looped, target, note);
    forall k | 0 <= k < |ms|
      ensures out[k] == CappedAt(ms, limit, render, k)
    {
      LoopedElement(ms, n, |ms|, k);
      FinishedAt(ms, limit, render, looped, target, note, k);
    }
    CappedByElements(ms, limit, render, out);
  }

  lemma StartOfLoop(ms: seq<Json>, limit: Option<real>)
    ensures TallyAt(ms, limit, 0, Tally(0.0, 0, 0, 0.0, false)) && TargetAt(ms, limit, 0).None?
  {
    assert Contents(ms)[..0] == [];
  }

  /** The loop: every message trimmed, and which one lost audio first. */
  method TrimMessages(messages: array<Json>, limit: Option<real>) returns (tally: Tally, target: Option<nat>)
    modifies messages
    ensures messages[..] == LoopedUpTo(old(messages[..]), Allowed(old(messages[..]), limit), messages.Length)
    ensures TallyAt(old(messages[..]), limit, messages.Length, tally)
    ensures target == TargetAt(old(messages[..]), limit, messages.Length)
  {
    ghost var ms := messages[..];
    ghost var n := Allowed(ms, limit);
    tally, target := Tally(0.0, 0, 0, 0.0, false), None;
    StartOfLoop(ms, limit);
    for i := 0 to messages.Length
      invariant TallyAt(ms, limit, i, tally) && target == TargetAt(ms, limit, i)
      invariant messages[..] == LoopedUpTo(ms, n, i)
    {
      assert messages[i] == LoopedUpTo(ms, n, i)[i];
      var trimmed, lost;
      trimmed, lost, tally := TrimMessage(ms, i, messages[i], limit, tally);
      TargetNext(ms, limit, i);
      messages[i] := trimmed;
      if lost > 0 && target.None? {
        target := Some(i);
      }
    }
  }

  lemma FinalTally(ms: seq<Json>, limit: Option<real>, tally: Tally)
    requires TallyAt(ms, limit, |ms|, tally)
    ensures Shaping(ms, limit) == AudioShaping(tally.seconds, tally.kept, tally.items, tally.dropped, limit)
  {
    var xss, all := Contents(ms), Audio(ms);
    assert xss[..|ms|] == xss && all[..|all|] == all;
  }

  /** `cap_audio` on the payload's message list. */
  method CapAudio(messages: array<Json>, limit: Option<real>, render: Render) returns (r: AudioShaping)
    modifies messages
    ensures messages[..] == Capped(old(messages[..]), limit, render)
    ensures r == Shaping(old(messages[..]), limit)
  {
    var tally, target := TrimMessages(messages, limit);
    FinalTally(old(messages[..]), limit, tally);
    var note := Note(render(tally.kept, tally.dropped, tally.items, limit.GetOr(0.0)));
    FinishedIs(old(messages[..]), limit, render, Allowed(old(messages[..]), limit), messages[..], target, note);
    if target.Some? {
      messages[target.value] := WithContent(messages[target.value], [note] + Parts(messages[target.value]));
    }
    r := AudioShaping(tally.seconds, tally.kept, tally.items, tally.dropped, limit);
  }
}
