/**
 Measuring audio from its header alone (src/oumigo/service/manager/router/shaping.py):
 the RIFF/WAVE chunk walk over the first bytes of a base64 payload, and the bill of one
 audio part. Durations are real numbers.
*/
module Wav {
  import opened Prelude
  import opened Jsons
  import Base64

  const RIFF: seq<byte> := [0x52, 0x49, 0x46, 0x46]
  const WAVE: seq<byte> := [0x57, 0x41, 0x56, 0x45]
  const FMT: seq<byte> := [0x66, 0x6d, 0x74, 0x20]
  const DATA: seq<byte> := [0x64, 0x61, 0x74, 0x61]

  const ITEM_CEILING := 30.0

  /** `int.from_bytes(bs[at : at + 4], "little")`. */
  function U32(bs: seq<byte>, at: nat): nat
    requires at + 4 <= |bs|
  {
    bs[at] as int + 0x100 * bs[at + 1] as int + 0x10000 * bs[at + 2] as int + 0x1000000 * bs[at + 3] as int
  }

  function Bytes32(n: int): (bs: seq<byte>)
    requires 0 <= n < 0x1_0000_0000
    ensures |bs| == 4 && U32(bs, 0) == n
  {
    var n1 := n / 0x100;
    var n2 := n1 / 0x100;
    [(n % 0x100) as byte, (n1 % 0x100) as byte, (n2 % 0x100) as byte, (n2 / 0x100) as byte]
  }

  /** What the data chunk says: the payload that is really there, cut to a smaller declared size. */
  function DataSeconds(total: int, body: nat, size: nat, rate: nat): Option<real> {
    if rate == 0 then None
    else
      var there := total - body;
      var counted := if 0 < size < there then size else there;
      Some(if counted > 0 then counted as real / rate as real else 0.0)
  }

  /** The chunk walk, from `pos`. */
  function Walk(head: seq<byte>, total: int, pos: nat, rate: nat): Option<real>
    decreases |head| - pos
  {
    if pos + 8 > |head| then None
    else
      var id, size, body := head[pos..pos + 4], U32(head, pos + 4), pos + 8;
      var isFmt := id == FMT && body + 12 <= |head|;
      if !isFmt && id == DATA then DataSeconds(total, body, size, rate)
      else if size == 0 then None
      else Walk(head, total, body + size + size % 2, if isFmt then U32(head, body + 8) else rate)
  }

  function Seconds(head: seq<byte>, total: int): Option<real> {
    if |head| < 12 || head[..4] != RIFF || head[8..12] != WAVE then None else Walk(head, total, 12, 0)
  }

  /** `_wav_seconds`, as its loop runs. */
  method WavSeconds(head: seq<byte>, total: int) returns (r: Option<real>)
    ensures r == Seconds(head, total)
  {
    if |head| < 12 || head[..4] != RIFF || head[8..12] != WAVE {
      return None;
    }
    ghost var meant := Seconds(head, total);
    var rate := 0;
    var pos := 12;
    while pos + 8 <= |head|
      invariant pos >= 12 && rate >= 0 && meant == Walk(head, total, pos, rate)
      decreases |head| - pos
    {
      var id, size, body := head[pos..pos + 4], U32(head, pos + 4), pos + 8;
      if id == FMT && body + 12 <= |head| {
        rate := U32(head, body + 8);
      } else if id == DATA {
        if rate <= 0 {
          return None;
        }
        var counted := total - body;
        if 0 < size < counted {
          counted := size;
        }
        return Some(if counted > 0 then counted as real / rate as real else 0.0);
      }
      if size <= 0 {
        return None;
      }
      pos := body + size + size % 2;
    }
    return None;
  }

  // ---------------------------------------------------------------- well-formed files

  /** A chunk in front of the data chunk. */
  datatype Chunk = Chunk(id: seq<byte>, body: seq<byte>) {
    ghost predicate Valid() {
      && |id| == 4 && id != DATA && |body| < 0x1_0000_0000
      && (id == FMT ==> |body| >= 12)
    }

    function Bytes(): (bs: seq<byte>)
      requires Valid()
      ensures |bs| == 8 + |body| + |body| % 2
    {
      id + Bytes32(|body|) + body + (if |body| % 2 == 1 then [0] else [])
    }
  }

  ghost predicate AllValid(cs: seq<Chunk>) {
    forall i | 0 <= i < |cs| :: cs[i].Valid()
  }

  function Layout(cs: seq<Chunk>): seq<byte>
    requires AllValid(cs)
  {
    if cs == [] then [] else cs[0].Bytes() + Layout(cs[1..])
  }

  /** The byte rate in force after the chunks: the last format chunk's. */
  function Rate(cs: seq<Chunk>, rate: nat): nat
    requires AllValid(cs)
  {
    if cs == [] then rate else Rate(cs[1..], RateOf(cs[0], rate))
  }

  function File(size: int, cs: seq<Chunk>, declared: int, payload: seq<byte>): seq<byte>
    requires AllValid(cs) && 0 <= size < 0x1_0000_0000 && 0 <= declared < 0x1_0000_0000
  {
    RIFF + Bytes32(size) + WAVE + (Layout(cs) + (DATA + Bytes32(declared) + payload))
  }

  /** No chunk has an empty body: the walk stops at one. */
  ghost predicate NoneEmpty(cs: seq<Chunk>) {
    forall i | 0 <= i < |cs| :: cs[i].body != []
  }

  lemma SameU32(a: seq<byte>, i: nat, b: seq<byte>, j: nat)
    requires i + 4 <= |a| && j + 4 <= |b| && a[i..i + 4] == b[j..j + 4]
    ensures U32(a, i) == U32(b, j)
  {
    var x, y := a[i..i + 4], b[j..j + 4];
    assert a[i] == x[0] && a[i + 1] == x[1] && a[i + 2] == x[2] && a[i + 3] == x[3];
    assert b[j] == y[0] && b[j + 1] == y[1] && b[j + 2] == y[2] && b[j + 3] == y[3];
  }

  function Next(pos: nat, c: Chunk): nat { pos + 8 + |c.body| + |c.body| % 2 }

  function RateOf(c: Chunk, rate: nat): nat
    requires c.Valid()
  {
    if c.id == FMT then U32(c.body, 8) else rate
  }

  /** The file reads as this chunk at `pos`. */
  ghost predicate ReadsAs(file: seq<byte>, pos: nat, c: Chunk)
    requires c.Valid()
  {
    && Next(pos, c) <= |file|
    && file[pos..pos + 4] == c.id
    && U32(file, pos + 4) == |c.body|
    && (c.id == FMT ==> U32(file, pos + 16) == U32(c.body, 8))
  }

  lemma ChunkReads(file: seq<byte>, pos: nat, c: Chunk, rest: seq<byte>)
    requires c.Valid() && pos <= |file| && file[pos..] == c.Bytes() + rest
    ensures ReadsAs(file, pos, c) && file[Next(pos, c)..] == rest
  {
    var bs := c.Bytes();
    var n := |bs|;
    var tail := file[pos..];
    assert tail[n..] == rest;
    assert file[pos + n..] == tail[n..];
    assert file[pos..pos + 4] == tail[..4] == bs[..4] == c.id;
    var len := Bytes32(|c.body|);
    assert file[pos + 4..pos + 8] == tail[4..8] == bs[4..8] == len == len[0..4];
    SameU32(file, pos + 4, len, 0);
    if c.id == FMT {
      assert file[pos + 16..pos + 20] == tail[16..20] == bs[16..20] == c.body[8..12];
      SameU32(file, pos + 16, c.body, 8);
    }
  }

  /** The file reads as these chunks, one after the other from `pos`. */
  ghost predicate LaidOut(file: seq<byte>, pos: nat, cs: seq<Chunk>)
    requires AllValid(cs)
    decreases |cs|
  {
    cs != [] ==> ReadsAs(file, pos, cs[0]) && LaidOut(file, Next(pos, cs[0]), cs[1..])
  }

  function After(pos: nat, cs: seq<Chunk>): nat
    decreases |cs|
  {
    if cs == [] then pos else After(Next(pos, cs[0]), cs[1..])
  }

  lemma {:induction false} LayoutReads(file: seq<byte>, pos: nat, cs: seq<Chunk>, tail: seq<byte>)
    requires AllValid(cs) && pos <= |file| && file[pos..] == Layout(cs) + tail
    ensures LaidOut(file, pos, cs) && After(pos, cs) == pos + |Layout(cs)|
    ensures pos + |Layout(cs)| <= |file| && file[pos + |Layout(cs)|..] == tail
    decreases |cs|
  {
    if cs == [] {
      assert Layout(cs) + tail == tail;
    } else {
      var c, after := cs[0], Layout(cs[1..]);
      LayoutCons(cs, tail);
      ChunkReads(file, pos, c, after + tail);
      LayoutReads(file, Next(pos, c), cs[1..], tail);
    }
  }

  lemma LayoutCons(cs: seq<Chunk>, tail: seq<byte>)
    requires cs != [] && AllValid(cs)
    ensures Layout(cs) + tail == cs[0].Bytes() + (Layout(cs[1..]) + tail)
    ensures |Layout(cs)| == Next(0, cs[0]) + |Layout(cs[1..])|
  {
    Regroup(cs[0].Bytes(), Layout(cs[1..]), tail);
  }

  lemma Regroup(a: seq<byte>, b: seq<byte>, c: seq<byte>)
    ensures (a + b) + c == a + (b + c)
  {
  }

  /** What the walk looks at before `h` is the same in the file and in its first `h` bytes. */
  lemma HeadReads(file: seq<byte>, h: nat, pos: nat)
    requires pos + 8 <= h <= |file|
    ensures file[..h][pos..pos + 4] == file[pos..pos + 4] && U32(file[..h], pos + 4) == U32(file, pos + 4)
    ensures pos + 20 <= h ==> U32(file[..h], pos + 16) == U32(file, pos + 16)
  {
    var head := file[..h];
    assert head[pos + 4..pos + 8] == file[pos + 4..pos + 8];
    SameU32(head, pos + 4, file, pos + 4);
    if pos + 20 <= h {
      assert head[pos + 16..pos + 20] == file[pos + 16..pos + 20];
      SameU32(head, pos + 16, file, pos + 16);
    }
  }

  lemma StepOver(head: seq<byte>, total: int, pos: nat, c: Chunk, rate: nat)
    requires c.Valid() && pos + 8 <= |head| && head[pos..pos + 4] == c.id && U32(head, pos + 4) == |c.body|
    requires c.id == FMT && pos + 20 <= |head| ==> U32(head, pos + 16) == U32(c.body, 8)
    ensures Walk(head, total, pos, rate)
         == if c.body == [] then None else Walk(head, total, Next(pos, c), RateOf(c, rate))
  {
    if c.id == FMT && pos + 20 > |head| {
      assert Walk(head, total, Next(pos, c), RateOf(c, rate)).None?;
      assert Walk(head, total, Next(pos, c), rate).None?;
    }
  }

  /** One chunk of the walk over the first `h` bytes: an empty chunk ends it, any other is
      passed, whether or not the `h` bytes hold all of it. */
  lemma PassesChunk(file: seq<byte>, h: nat, total: int, pos: nat, c: Chunk, rate: nat)
    requires c.Valid() && h <= |file| && ReadsAs(file, pos, c)
    ensures Walk(file[..h], total, pos, rate)
         == if c.body == [] then None else Walk(file[..h], total, Next(pos, c), RateOf(c, rate))
  {
    if pos + 8 <= h {
      HeadReads(file, h, pos);
      StepOver(file[..h], total, pos, c, rate);
    }
  }

  lemma WalkEnds(file: seq<byte>, h: nat, total: int, pos: nat, tail: seq<byte>, rate: nat)
    requires pos <= |file| && h <= |file| && file[pos..] == tail && |tail| >= 8 && tail[..4] == DATA
    ensures Walk(file[..h], total, pos, rate)
         == if pos + 8 <= h then DataSeconds(total, pos + 8, U32(tail, 4), rate) else None
  {
    var head := file[..h];
    if pos + 8 <= h {
      assert head[pos..pos + 4] == file[pos..][..4];
      assert head[pos + 4..pos + 8] == file[pos..][4..8];
      SameU32(head, pos + 4, tail, 4);
    }
  }

  /** The walk passes the chunks, carrying the right rate, exactly when none is empty. */
  lemma {:induction false} WalksChunks(file: seq<byte>, h: nat, total: int, pos: nat, cs: seq<Chunk>, rate: nat)
    requires AllValid(cs) && h <= |file| && LaidOut(file, pos, cs)
    ensures Walk(file[..h], total, pos, rate)
         == if NoneEmpty(cs) then Walk(file[..h], total, After(pos, cs), Rate(cs, rate)) else None
    decreases |cs|
  {
    if cs == [] {
    } else {
      PassesChunk(file, h, total, pos, cs[0], rate);
      if cs[0].body != [] {
        EmptyTail(cs);
        WalksChunks(file, h, total, Next(pos, cs[0]), cs[1..], RateOf(cs[0], rate));
      }
    }
  }

  lemma EmptyTail(cs: seq<Chunk>)
    requires cs != [] && cs[0].body != []
    ensures NoneEmpty(cs) <==> NoneEmpty(cs[1..])
  {
    if NoneEmpty(cs[1..]) {
      assert forall i | 1 <= i < |cs| :: cs[i] == cs[1..][i - 1];
    }
  }

  lemma WalksToData(file: seq<byte>, h: nat, pos: nat, cs: seq<Chunk>, tail: seq<byte>, rate: nat, at: nat)
    requires AllValid(cs) && h <= |file| && LaidOut(file, pos, cs) && at == After(pos, cs)
    requires at <= |file| && file[at..] == tail && |tail| >= 8 && tail[..4] == DATA
    ensures Walk(file[..h], |file|, pos, rate)
         == if NoneEmpty(cs) && at + 8 <= h then DataSeconds(|file|, at + 8, U32(tail, 4), Rate(cs, rate)) else None
  {
    WalksChunks(file, h, |file|, pos, cs, rate);
    WalkEnds(file, h, |file|, at, tail, Rate(cs, rate));
  }

  /** When the data chunk of a well-formed file is found with a usable rate. */
  ghost predicate Measurable(cs: seq<Chunk>, h: nat)
    requires AllValid(cs)
  {
    NoneEmpty(cs) && 20 + |Layout(cs)| <= h && Rate(cs, 0) > 0
  }

  /** A file's duration: the smaller of declared and present data - a declared size of zero
      counting as unknown - over the byte rate. */
  function Duration(cs: seq<Chunk>, declared: int, payload: seq<byte>): real
    requires AllValid(cs) && Rate(cs, 0) > 0
  {
    (if 0 < declared < |payload| then declared else |payload|) as real / Rate(cs, 0) as real
  }

  lemma DataMeasures(body: nat, declared: nat, payload: seq<byte>, cs: seq<Chunk>)
    requires AllValid(cs)
    ensures DataSeconds(body + |payload|, body, declared, Rate(cs, 0))
         == if Rate(cs, 0) > 0 then Some(Duration(cs, declared, payload)) else None
  {
  }

  /** The first `h` bytes of a well-formed file measure as its duration when its data header
      lies among them, its rate is positive and no chunk before is empty; as nothing otherwise. */
  lemma WellFormedMeasures(size: int, cs: seq<Chunk>, declared: int, payload: seq<byte>, h: nat)
    requires AllValid(cs) && 0 <= size < 0x1_0000_0000 && 0 <= declared < 0x1_0000_0000
    requires h <= |File(size, cs, declared, payload)|
    ensures var file := File(size, cs, declared, payload);
      Seconds(file[..h], |file|) == if Measurable(cs, h) then Some(Duration(cs, declared, payload)) else None
  {
    var tail := DATA + Bytes32(declared) + payload;
    var file := File(size, cs, declared, payload);
    FrontReads(size, Layout(cs) + tail, h, |file|);
    TailReads(declared, payload);
    LayoutReads(file, 12, cs, tail);
    WalksToData(file, h, 12, cs, tail, 0, 12 + |Layout(cs)|);
    assert |file| == 20 + |Layout(cs)| + |payload|;
    DataMeasures(20 + |Layout(cs)|, declared, payload, cs);
  }

  lemma FrontReads(size: int, rest: seq<byte>, h: nat, total: int)
    requires 0 <= size < 0x1_0000_0000 && h <= 12 + |rest|
    ensures var file := RIFF + Bytes32(size) + WAVE + rest;
      && |file| == 12 + |rest| && file[12..] == rest
      && Seconds(file[..h], total) == Walk(file[..h], total, 12, 0)
  {
    var front := RIFF + Bytes32(size) + WAVE;
    var file := front + rest;
    var head := file[..h];
    if h >= 12 {
      assert head[..4] == front[..4] == RIFF;
      assert head[8..12] == front[8..12] == WAVE;
    } else {
      assert Walk(head, total, 12, 0).None?;
    }
  }

  lemma TailReads(declared: int, payload: seq<byte>)
    requires 0 <= declared < 0x1_0000_0000
    ensures var tail := DATA + Bytes32(declared) + payload;
      |tail| == 8 + |payload| && tail[..4] == DATA && U32(tail, 4) == declared
  {
    var tail := DATA + Bytes32(declared) + payload;
    assert tail[4..8] == Bytes32(declared) == Bytes32(declared)[0..4];
    SameU32(tail, 4, Bytes32(declared), 0);
  }

  // ---------------------------------------------------------------- one audio part

  function Squeezed(s: string): string {
    if s == "" then "" else (if Space(s[0]) then "" else [s[0]]) + Squeezed(s[1..])
  }

  /** `_strip_ws`: white space goes only when a blank, newline or carriage return is seen. */
  function StripWs(s: string): string {
    if ' ' in s || '\n' in s || '\r' in s then Squeezed(s) else s
  }

  predicate StartsWith(s: string, p: string) { |p| <= |s| && s[..|p|] == p }

  function AfterComma(s: string): Option<string> {
    if s == "" then None else if s[0] == ',' then Some(s[1..]) else AfterComma(s[1..])
  }

  /** `_part_b64`: the payload of either spelling of an audio part. */
  function PartB64(part: Json): Option<string> {
    if part.Get("type") == Some(Str("input_audio")) then
      match part.Get("input_audio").GetOr(Null).Get("data")
      case Some(Str(d)) => Some(d)
      case _ => None
    else if part.Get("type") == Some(Str("audio_url")) then
      var url := part.Get("audio_url").GetOr(Null);
      match (if url.Obj? then url.Get("url").GetOr(Null) else url)
      case Str(u) => if StartsWith(u, "data:") then AfterComma(u) else None
      case _ => None
    else None
  }

  predicate IsAudio(part: Json) {
    part.Get("type") == Some(Str("input_audio")) || part.Get("type") == Some(Str("audio_url"))
  }

  function Bill(measured: Option<real>): (s: real)
    ensures 0.0 < s <= ITEM_CEILING
  {
    match measured
    case None => ITEM_CEILING
    case Some(m) => if m <= 0.0 || m > ITEM_CEILING then ITEM_CEILING else m
  }

  /** `audio_part_seconds`: always a positive bill, never more than the model's window. */
  function PartSeconds(part: Json): (s: real)
    ensures 0.0 < s <= ITEM_CEILING
  {
    match PartB64(part)
    case None => ITEM_CEILING
    case Some(d) =>
      if d == "" then ITEM_CEILING
      else
        var data := StripWs(d);
        Bill(Seconds(Base64.Head(data), Base64.ByteLen(data)))
  }

  lemma {:induction false} SqueezedPlain(s: string)
    requires forall i | 0 <= i < |s| :: !Space(s[i])
    ensures Squeezed(s) == s
  {
    if s != "" {
      SqueezedPlain(s[1..]);
      assert s == [s[0]] + s[1..];
    }
  }

  /** Which of the three breaking characters the text holds decides whether it is stripped;
      with none of them and no other white space, stripping would change nothing. */
  lemma StrippedIsSqueezed(d: string)
    requires ' ' in d || '\n' in d || '\r' in d || forall i | 0 <= i < |d| :: !Space(d[i])
    ensures StripWs(d) == Squeezed(d)
  {
    if !(' ' in d || '\n' in d || '\r' in d) {
      SqueezedPlain(d);
    }
  }

  lemma EncodedHead(file: seq<byte>)
    ensures Base64.Head(Base64.Encode(file)) == file[..if |file| <= 576 then |file| else 576]
  {
    Base64.HeadIsPrefix(file);
    assert file[..|file|] == file;
  }

  lemma MeasuredBy(file: seq<byte>, d: string)
    requires Squeezed(d) == Base64.Encode(file)
    requires ' ' in d || '\n' in d || '\r' in d || forall i | 0 <= i < |d| :: !Space(d[i])
    ensures var h := if |file| <= 576 then |file| else 576;
      Seconds(Base64.Head(StripWs(d)), Base64.ByteLen(StripWs(d))) == Seconds(file[..h], |file|)
  {
    StrippedIsSqueezed(d);
    Base64.ByteLenIsExact(file);
    EncodedHead(file);
  }

  /** A part carrying the encoding of a well-formed file - with or without line breaks - is
      billed by that file's true duration, up to the window; when it cannot be measured
      from its first 576 bytes, or holds no audio, the bill is the whole window. */
  lemma PartBilledTruly(part: Json, d: string, size: int, cs: seq<Chunk>, declared: int, payload: seq<byte>)
    requires AllValid(cs) && 0 <= size < 0x1_0000_0000 && 0 <= declared < 0x1_0000_0000
    requires PartB64(part) == Some(d) && Squeezed(d) == Base64.Encode(File(size, cs, declared, payload))
    requires ' ' in d || '\n' in d || '\r' in d || forall i | 0 <= i < |d| :: !Space(d[i])
    ensures PartSeconds(part)
         == if Measurable(cs, 576) && 0.0 < Duration(cs, declared, payload) <= 30.0 then Duration(cs, declared, payload) else 30.0
  {
    var file := File(size, cs, declared, payload);
    var h := if |file| <= 576 then |file| else 576;
    MeasuredBy(file, d);
    WellFormedMeasures(size, cs, declared, payload, h);
    assert |file| == 20 + |Layout(cs)| + |payload|;
  }

  lemma PlainHasNoSpace(bs: seq<byte>)
    ensures var d := Base64.Encode(bs); Squeezed(d) == d && forall i | 0 <= i < |d| :: !Space(d[i])
  {
    Base64.EncodingIsPlain(bs);
    SqueezedPlain(Base64.Encode(bs));
  }

  /** Without white space, the encoding of a well-formed file is billed as `PartBilledTruly` says. */
  lemma EncodedFileBilled(part: Json, cs: seq<Chunk>, payload: seq<byte>)
    requires AllValid(cs) && |payload| < 0x1_0000_0000
    requires PartB64(part) == Some(Base64.Encode(File(0, cs, |payload|, payload)))
    ensures PartSeconds(part)
         == if Measurable(cs, 576) && 0.0 < Duration(cs, |payload|, payload) <= 30.0 then Duration(cs, |payload|, payload) else 30.0
  {
    PlainHasNoSpace(File(0, cs, |payload|, payload));
    PartBilledTruly(part, PartB64(part).value, 0, cs, |payload|, payload);
  }

  /** A format chunk saying one byte a second, and an empty chunk. */
  const SLOW_FORMAT := Chunk(FMT, [1, 0, 1, 0, 1, 0, 0, 0, 1, 0, 0, 0, 1, 0, 8, 0])
  const EMPTY_CHUNK := Chunk([0x4c, 0x49, 0x53, 0x54], [])

  lemma SlowFormatFacts()
    ensures SLOW_FORMAT.Valid() && EMPTY_CHUNK.Valid() && |SLOW_FORMAT.Bytes()| == 24 && RateOf(SLOW_FORMAT, 0) == 1
  {
  }

  function AudioPart(data: string): Json {
    Obj(map["type" := Str("input_audio"), "input_audio" := Obj(map["data" := Str(data)])])
  }

  lemma AudioPartHolds(data: string)
    ensures PartB64(AudioPart(data)) == Some(data)
  {
  }

  /** The other spelling: a URL, plain or in an object. */
  function UrlPart(url: Json): Json {
    Obj(map["type" := Str("audio_url"), "audio_url" := url])
  }

  lemma {:induction false} AfterFirstComma(head: string, data: string)
    requires ',' !in head
    ensures AfterComma(head + "," + data) == Some(data)
  {
    var s := head + "," + data;
    if head == "" {
      assert s[1..] == data;
    } else {
      assert s[1..] == head[1..] + "," + data;
      AfterFirstComma(head[1..], data);
    }
  }

  lemma UrlPartHolds(url: Json)
    ensures PartB64(UrlPart(url))
         == match (if url.Obj? then url.Get("url").GetOr(Null) else url)
            case Str(u) => if StartsWith(u, "data:") then AfterComma(u) else None
            case _ => None
    ensures IsAudio(UrlPart(url))
  {
    assert "audio_url"[0] == 'a' && "input_audio"[0] == 'i';
  }

  /** BOTH SPELLINGS of a part are audio and are billed alike: inline data, or the same data
      behind the first comma of a `data:` URL, plain or in an object. A URL of any other kind
      is billed the whole window. */
  lemma SpellingsBilledAlike(head: string, data: string, url: string)
    requires ',' !in head && !StartsWith(url, "data:")
    ensures var u := Str("data:" + head + "," + data);
      && PartSeconds(UrlPart(u)) == PartSeconds(AudioPart(data)) == PartSeconds(UrlPart(Obj(map["url" := u])))
      && IsAudio(UrlPart(u)) && IsAudio(AudioPart(data)) && PartSeconds(UrlPart(Str(url))) == 30.0
  {
    var s := "data:" + head + "," + data;
    assert s == ("data:" + head) + "," + data;
    AfterFirstComma("data:" + head, data);
    assert s[..5] == "data:";
    AudioPartHolds(data);
    UrlPartHolds(Str(s));
    UrlPartHolds(Obj(map["url" := Str(s)]));
    UrlPartHolds(Str(url));
  }

  /** Such a file: two seconds of audio behind an empty chunk are billed at the ceiling, where
      the same audio without that chunk is billed as the two seconds it is. */
  lemma EmptyChunkIsBilledAtCeiling()
    ensures SLOW_FORMAT.Valid() && EMPTY_CHUNK.Valid()
    ensures PartSeconds(AudioPart(Base64.Encode(File(0, [SLOW_FORMAT, EMPTY_CHUNK], 2, [0, 0])))) == ITEM_CEILING
    ensures PartSeconds(AudioPart(Base64.Encode(File(0, [SLOW_FORMAT], 2, [0, 0])))) == 2.0
  {
    SlowFormatFacts();
    EmptyChunkIn(SLOW_FORMAT, EMPTY_CHUNK, [0, 0]);
    OneFormat(SLOW_FORMAT, [0, 0]);
  }

  lemma EmptyChunkIn(format: Chunk, empty: Chunk, payload: seq<byte>)
    requires format.Valid() && empty.Valid() && empty.body == [] && |payload| < 0x1_0000_0000
    ensures PartSeconds(AudioPart(Base64.Encode(File(0, [format, empty], |payload|, payload)))) == ITEM_CEILING
  {
    var cs := [format, empty];
    assert cs[1].body == [] && !NoneEmpty(cs);
    var d := Base64.Encode(File(0, cs, |payload|, payload));
    AudioPartHolds(d);
    EncodedFileBilled(AudioPart(d), cs, payload);
  }

  lemma LoneChunk(c: Chunk)
    requires c.Valid()
    ensures Layout([c]) == c.Bytes() && Rate([c], 0) == RateOf(c, 0)
  {
    assert [c][1..] == [] && c.Bytes() + [] == c.Bytes();
    assert Rate([], RateOf(c, 0)) == RateOf(c, 0);
  }

  lemma OneFormat(format: Chunk, payload: seq<byte>)
    requires format.Valid() && |format.Bytes()| == 24 && RateOf(format, 0) == 1 && 0 < |payload| <= 30 && format.body != []
    ensures PartSeconds(AudioPart(Base64.Encode(File(0, [format], |payload|, payload)))) == |payload| as real
  {
    var cs := [format];
    LoneChunk(format);
    var d := Base64.Encode(File(0, cs, |payload|, payload));
    AudioPartHolds(d);
    EncodedFileBilled(AudioPart(d), cs, payload);
  }
}
