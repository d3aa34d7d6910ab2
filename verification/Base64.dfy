/**
 Base64 as the router meets it (src/oumigo/service/manager/router/shaping.py): the
 encoding of section 4 of RFC 4648, Python's lenient decoder, and the two shortcuts that
 measure an encoding without decoding it.
*/
module Base64 {
  import opened Prelude

  /** The symbol of a 6-bit value (table 1 of RFC 4648). */
  function Symbol(v: int): (c: char)
    requires 0 <= v < 64
    ensures 32 < c as int < 128 && c != '='
  {
    if v < 26 then 'A' + v as char
    else if v < 52 then 'a' + (v - 26) as char
    else if v < 62 then '0' + (v - 52) as char
    else if v == 62 then '+' else '/'
  }

  /** The 6-bit value of a symbol, or -1 for a character outside the alphabet. */
  function Value(c: char): (v: int)
    ensures -1 <= v < 64
  {
    if 'A' <= c <= 'Z' then c as int - 'A' as int
    else if 'a' <= c <= 'z' then c as int - 'a' as int + 26
    else if '0' <= c <= '9' then c as int - '0' as int + 52
    else if c == '+' then 62 else if c == '/' then 63 else -1
  }

  lemma ValueOfSymbol(v: int)
    requires 0 <= v < 64
    ensures Value(Symbol(v)) == v
  {
  }

  function Groups(n: nat): nat { (n + 2) / 3 }

  /** Three bytes to four symbols; a last group of one or two bytes is padded. */
  function Encode(bs: seq<byte>): (s: string)
    ensures |s| == 4 * Groups(|bs|)
  {
    if bs == [] then ""
    else
      var a := bs[0] as int;
      if |bs| == 1 then [Symbol(a / 4), Symbol(a % 4 * 16), '=', '=']
      else
        var b := bs[1] as int;
        if |bs| == 2 then [Symbol(a / 4), Symbol(a % 4 * 16 + b / 16), Symbol(b % 16 * 4), '=']
        else Group(bs[0], bs[1], bs[2]) + Encode(bs[3..])
  }

  function Group(x: byte, y: byte, z: byte): (s: string)
    ensures |s| == 4
  {
    var a, b, c := x as int, y as int, z as int;
    [Symbol(a / 4), Symbol(a % 4 * 16 + b / 16), Symbol(b % 16 * 4 + c / 64), Symbol(c % 64)]
  }

  /** One decoder position: how many symbols of the group were seen, the bits they left
      over, and the run of padding characters. */
  datatype Quad = Quad(pos: nat, left: nat, pads: nat) {
    ghost predicate Valid() {
      && pos < 4 && (pos == 0 ==> left == 0)
      && (pos == 1 ==> left < 64) && (pos == 2 ==> left < 16) && (pos == 3 ==> left < 4)
    }
  }

  const START := Quad(0, 0, 0)

  /** Python's `binascii.a2b_base64` in its lenient mode: characters outside the alphabet
      are skipped, a complete padding sequence ends the data, and a group left open at the
      end is an error. */
  function DecodeFrom(s: string, q: Quad): Option<seq<byte>>
    requires q.Valid()
    decreases |s|
  {
    if s == "" then (if q.pos == 0 then Some([]) else None)
    else if s[0] == '=' then
      if q.pos >= 2 && q.pos + q.pads + 1 >= 4 then Some([])
      else DecodeFrom(s[1..], if q.pos >= 2 then q.(pads := q.pads + 1) else q)
    else
      var v := Value(s[0]);
      if v < 0 then DecodeFrom(s[1..], q)
      else if q.pos == 0 then DecodeFrom(s[1..], Quad(1, v, 0))
      else if q.pos == 1 then Emit((q.left * 4 + v / 16) as byte, DecodeFrom(s[1..], Quad(2, v % 16, 0)))
      else if q.pos == 2 then Emit((q.left * 16 + v / 4) as byte, DecodeFrom(s[1..], Quad(3, v % 4, 0)))
      else Emit((q.left * 64 + v) as byte, DecodeFrom(s[1..], START))
  }

  function Emit(b: byte, rest: Option<seq<byte>>): Option<seq<byte>> {
    match rest
    case None => None
    case Some(bs) => Some([b] + bs)
  }

  /** `base64.b64decode(prefix, validate=False)` with its errors caught as `_b64_head` does. */
  function Decode(s: string): Option<seq<byte>> {
    if exists i | 0 <= i < |s| :: s[i] as int >= 128 then None else DecodeFrom(s, START)
  }

  lemma {:induction false} DecodesGroup(x: byte, y: byte, z: byte, s: string)
    ensures DecodeFrom(Group(x, y, z) + s, START)
         == (match DecodeFrom(s, START) case None => None case Some(r) => Some([x, y, z] + r))
  {
    var a, b, c := x as int, y as int, z as int;
    var v0, v1, v2, v3 := a / 4, a % 4 * 16 + b / 16, b % 16 * 4 + c / 64, c % 64;
    ValueOfSymbol(v0); ValueOfSymbol(v1); ValueOfSymbol(v2); ValueOfSymbol(v3);
    var g := Group(x, y, z);
    var t0 := g + s;
    var t1 := g[1..] + s;
    var t2 := g[2..] + s;
    var t3 := g[3..] + s;
    assert t0[1..] == t1 && t1[1..] == t2 && t2[1..] == t3 && t3[1..] == s;
    assert v0 * 4 + v1 / 16 == a && v1 % 16 == b / 16;
    assert b / 16 * 16 + v2 / 4 == b && v2 % 4 == c / 64;
    assert c / 64 * 64 + v3 == c;
    var r := DecodeFrom(s, START);
    assert DecodeFrom(t3, Quad(3, c / 64, 0)) == Emit(z, r);
    assert DecodeFrom(t2, Quad(2, b / 16, 0)) == Emit(y, Emit(z, r));
    assert DecodeFrom(t1, Quad(1, v0, 0)) == Emit(x, Emit(y, Emit(z, r)));
    if r.Some? {
      assert [x] + ([y] + ([z] + r.value)) == [x, y, z] + r.value;
    }
  }

  lemma DecodesOne(x: byte)
    ensures DecodeFrom(Encode([x]), START) == Some([x])
  {
    var a := x as int;
    ValueOfSymbol(a / 4); ValueOfSymbol(a % 4 * 16);
    var s := Encode([x]);
    assert s[1..][1..] == "==" && s[1..][1..][1..] == "=";
    assert DecodeFrom("==", Quad(2, 0, 0)) == Some([]);
    assert DecodeFrom(s[1..], Quad(1, a / 4, 0)) == Emit(x, Some([]));
    assert [x] + [] == [x];
  }

  lemma DecodesTwo(x: byte, y: byte)
    ensures DecodeFrom(Encode([x, y]), START) == Some([x, y])
  {
    var a, b := x as int, y as int;
    var v1, v2 := a % 4 * 16 + b / 16, b % 16 * 4;
    ValueOfSymbol(a / 4); ValueOfSymbol(v1); ValueOfSymbol(v2);
    var s := Encode([x, y]);
    var t1 := s[1..];
    var t2 := s[2..];
    assert t1[1..] == t2 && t2[1..] == "=" && s[1..] == t1;
    assert DecodeFrom("=", Quad(3, 0, 0)) == Some([]);
    assert b / 16 * 16 + v2 / 4 == b && v2 % 4 == 0;
    assert DecodeFrom(t2, Quad(2, b / 16, 0)) == Emit(y, Some([]));
    assert [y] + [] == [y] && [x] + [y] == [x, y];
    assert DecodeFrom(t1, Quad(1, a / 4, 0)) == Emit(x, Some([y]));
  }

  /** Everything an encoding consists of: ASCII characters, none of them white space. */
  lemma {:induction false} EncodingIsPlain(bs: seq<byte>)
    ensures forall i | 0 <= i < |Encode(bs)| :: 32 < Encode(bs)[i] as int < 128
    decreases |bs|
  {
    if |bs| >= 3 {
      EncodingIsPlain(bs[3..]);
      var g, r := Group(bs[0], bs[1], bs[2]), Encode(bs[3..]);
      assert Encode(bs) == g + r;
      assert forall i | 0 <= i < 4 :: 32 < g[i] as int < 128;
    }
  }

  lemma {:induction false} DecodesFromStart(bs: seq<byte>)
    ensures DecodeFrom(Encode(bs), START) == Some(bs)
    decreases |bs|
  {
    if |bs| == 0 {
    } else if |bs| == 1 {
      DecodesOne(bs[0]);
      assert bs == [bs[0]];
    } else if |bs| == 2 {
      DecodesTwo(bs[0], bs[1]);
      assert bs == [bs[0], bs[1]];
    } else {
      DecodesFromStart(bs[3..]);
      DecodesGroup(bs[0], bs[1], bs[2], Encode(bs[3..]));
      assert Encode(bs) == Group(bs[0], bs[1], bs[2]) + Encode(bs[3..]);
      assert bs == [bs[0], bs[1], bs[2]] + bs[3..];
    }
  }

  predicate Foreign(c: char) { c != '=' && Value(c) < 0 }

  function Cleaned(s: string): string {
    if s == "" then "" else (if Foreign(s[0]) then "" else [s[0]]) + Cleaned(s[1..])
  }

  /** Characters outside the alphabet make no difference. */
  lemma {:induction false} ForeignIsSkipped(s: string, q: Quad)
    requires q.Valid()
    ensures DecodeFrom(s, q) == DecodeFrom(Cleaned(s), q)
  {
    if s != "" {
      var rest := s[1..];
      if Foreign(s[0]) {
        assert "" + Cleaned(rest) == Cleaned(rest);
        ForeignIsSkipped(rest, q);
      } else {
        var c := Cleaned(s);
        assert c[0] == s[0] && c[1..] == Cleaned(rest);
        var v := Value(s[0]);
        if s[0] == '=' {
          ForeignIsSkipped(rest, if q.pos >= 2 then q.(pads := q.pads + 1) else q);
        } else if q.pos == 0 {
          ForeignIsSkipped(rest, Quad(1, v, 0));
        } else if q.pos == 1 {
          ForeignIsSkipped(rest, Quad(2, v % 16, 0));
        } else if q.pos == 2 {
          ForeignIsSkipped(rest, Quad(3, v % 4, 0));
        } else {
          ForeignIsSkipped(rest, START);
        }
      }
    }
  }

  /** Test vectors of section 10 of RFC 4648, and the last two symbols of its table. */
  lemma TestVectors()
    ensures Encode([0x66]) == "Zg==" && Encode([0x66, 0x6f]) == "Zm8="
    ensures Group(0x66, 0x6f, 0x6f) == "Zm9v" && Group(0x62, 0x61, 0x72) == "YmFy" && Group(0xfb, 0xff, 0xbf) == "+/+/"
  {
  }

  /** Decoding inverts encoding, for all byte strings. */
  lemma DecodeInvertsEncode(bs: seq<byte>)
    ensures Decode(Encode(bs)) == Some(bs)
  {
    EncodingIsPlain(bs);
    DecodesFromStart(bs);
  }

  /** The first 4k characters encode the first 3k bytes. */
  lemma {:induction false} EncodingPrefix(bs: seq<byte>, k: nat)
    requires 3 * k <= |bs|
    ensures Encode(bs)[..4 * k] == Encode(bs[..3 * k])
    decreases k
  {
    if k > 0 {
      EncodingPrefix(bs[3..], k - 1);
      var p := bs[..3 * k];
      assert p[3..] == bs[3..][..3 * (k - 1)];
      var g := Group(bs[0], bs[1], bs[2]);
      assert Encode(bs) == g + Encode(bs[3..]);
      assert Encode(p) == g + Encode(p[3..]);
      assert (g + Encode(bs[3..]))[..4 * k] == g + Encode(bs[3..])[..4 * (k - 1)];
    }
  }

  lemma PrefixDecodes(bs: seq<byte>, k: nat)
    requires 3 * k <= |bs|
    ensures |Encode(bs)| >= 4 * k && Decode(Encode(bs)[..4 * k]) == Some(bs[..3 * k])
  {
    EncodingPrefix(bs, k);
    DecodeInvertsEncode(bs[..3 * k]);
  }

  function Equals(c: char): nat { if c == '=' then 1 else 0 }

  /** `_b64_byte_len`: the decoded length, from the length and the last two characters. */
  function ByteLen(s: string): int {
    var n := |s|;
    if n < 4 then 0 else n / 4 * 3 - PadOf(s)
  }

  const HEADER_CHARS := 768

  /** `_b64_head`: decode just the leading bytes. */
  function Head(s: string): seq<byte> {
    Decode(s[..HeadChars(|s|)]).GetOr([])
  }

  function HeadChars(n: nat): (k: nat)
    ensures k <= n
  {
    (if n < HEADER_CHARS then n else HEADER_CHARS) / 4 * 4
  }

  /** How many bytes the last group falls short of three. */
  function Short(n: nat): int { 3 * Groups(n) - n }

  function PadOf(s: string): nat
    requires |s| >= 2
  {
    Equals(s[|s| - 2]) + Equals(s[|s| - 1])
  }

  lemma LastTwoShort(bs: seq<byte>)
    requires 0 < |bs| <= 3
    ensures |Encode(bs)| == 4 && PadOf(Encode(bs)) == Short(|bs|)
  {
    if |bs| == 3 {
      assert Encode(bs[3..]) == "";
    }
  }

  lemma {:induction false} LastTwo(bs: seq<byte>)
    requires bs != []
    ensures |Encode(bs)| >= 4 && PadOf(Encode(bs)) == Short(|bs|)
    decreases |bs|
  {
    if |bs| > 3 {
      LastTwo(bs[3..]);
      assert Encode(bs) == Group(bs[0], bs[1], bs[2]) + Encode(bs[3..]);
    } else {
      LastTwoShort(bs);
    }
  }

  lemma GroupsOf(n: nat)
    ensures 4 * Groups(n) / 4 == Groups(n)
    ensures HeadChars(4 * Groups(n)) == (if n <= 576 then 4 * Groups(n) else 4 * 192)
  {
  }

  /** The length shortcut is exact on every encoding. */
  lemma ByteLenIsExact(bs: seq<byte>)
    ensures ByteLen(Encode(bs)) == |bs|
  {
    GroupsOf(|bs|);
    if bs != [] {
      LastTwo(bs);
    }
  }

  /** The header shortcut gives exactly the first 576 bytes, or all of a shorter payload. */
  lemma HeadIsPrefix(bs: seq<byte>)
    ensures Head(Encode(bs)) == (if |bs| <= 576 then bs else bs[..576])
  {
    var s := Encode(bs);
    GroupsOf(|bs|);
    if |bs| <= 576 {
      assert s[..|s|] == s;
      DecodeInvertsEncode(bs);
    } else {
      PrefixDecodes(bs, 192);
    }
  }
}
