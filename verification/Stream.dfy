/**
 Assembling one streamed model turn from its deltas (`_stream_turn` and
 `_accumulate_tool_call` in src/oumigo/api/agent/chat.py). The code tests text fields for
 truth, so an absent field and an empty one are the same: both are "" here.
*/
module Streams {
  import opened Prelude

  datatype Call = Call(id: Option<string>, name: string, arguments: string)

  /** One streamed piece of a tool call; a missing index means 0. */
  datatype CallDelta = CallDelta(index: Option<int>, id: string, name: string, arguments: string) {
    function At(): int {
      index.GetOr(0)
    }
  }

  datatype Delta = Delta(finish: string, reasoning: string, content: string, calls: seq<CallDelta>)

  const NO_CALL := Call(None, "", "")

  function Extend(c: Call, d: CallDelta): Call {
    Call(if d.id != "" then Some(d.id) else c.id, c.name + d.name, c.arguments + d.arguments)
  }

  /** `_accumulate_tool_call`: fold one delta into the slot of its index. */
  function Accumulate(slots: map<int, Call>, d: CallDelta): map<int, Call> {
    slots[d.At() := Extend(if d.At() in slots then slots[d.At()] else NO_CALL, d)]
  }

  function FoldCalls(slots: map<int, Call>, ds: seq<CallDelta>): map<int, Call> {
    if ds == [] then slots
    else Accumulate(FoldCalls(slots, ds[..|ds| - 1]), ds[|ds| - 1])
  }

  datatype Turn = Turn(content: string, reasoning: string, slots: map<int, Call>, finish: string)

  const NO_TURN := Turn("", "", map[], "")

  function FoldDelta(t: Turn, d: Delta): Turn {
    Turn(t.content + d.content, t.reasoning + d.reasoning, FoldCalls(t.slots, d.calls),
         if d.finish != "" then d.finish else t.finish)
  }

  function FoldDeltas(ds: seq<Delta>): Turn {
    if ds == [] then NO_TURN else FoldDelta(FoldDeltas(ds[..|ds| - 1]), ds[|ds| - 1])
  }

  // ---------- each index on its own ----------

  /** The deltas of one index, in order. */
  function Project(ds: seq<CallDelta>, i: int): (own: seq<CallDelta>)
    ensures forall d | d in own :: d in ds && d.index.GetOr(0) == i
    ensures forall d | d in ds && d !in own :: d.index.GetOr(0) != i
  {
    if ds == [] then []
    else
      var n := |ds| - 1;
      if ds[n].At() == i then Project(ds[..n], i) + [ds[n]] else Project(ds[..n], i)
  }

  function FoldOne(ds: seq<CallDelta>): Call {
    if ds == [] then NO_CALL else Extend(FoldOne(ds[..|ds| - 1]), ds[|ds| - 1])
  }

  /** However deltas of several calls are interleaved, each slot is the fold of its own. */
  lemma {:induction false} SlotsFoldSeparately(ds: seq<CallDelta>, i: int)
    ensures i in FoldCalls(map[], ds) <==> Project(ds, i) != []
    ensures i in FoldCalls(map[], ds) ==> FoldCalls(map[], ds)[i] == FoldOne(Project(ds, i))
  {
    if ds != [] {
      var n := |ds| - 1;
      SlotsFoldSeparately(ds[..n], i);
      if ds[n].At() == i {
        var own := Project(ds, i);
        assert own[..|own| - 1] == Project(ds[..n], i);
      }
    }
  }

  function Names(ds: seq<CallDelta>): string {
    if ds == [] then "" else Names(ds[..|ds| - 1]) + ds[|ds| - 1].name
  }

  function Arguments(ds: seq<CallDelta>): string {
    if ds == [] then "" else Arguments(ds[..|ds| - 1]) + ds[|ds| - 1].arguments
  }

  /** `ds` is a way to stream the call `c`: its name and arguments cut into pieces, its id
      (if any) on at least one piece and no other id on any. */
  ghost predicate Splits(ds: seq<CallDelta>, c: Call) {
    && ds != []
    && Names(ds) == c.name && Arguments(ds) == c.arguments
    && (forall d | d in ds && d.id != "" :: c.id == Some(d.id))
    && (c.id.Some? ==> exists d :: d in ds && d.id != "")
  }

  lemma {:induction false} FoldOneParts(ds: seq<CallDelta>)
    ensures FoldOne(ds).name == Names(ds) && FoldOne(ds).arguments == Arguments(ds)
    ensures FoldOne(ds).id.Some? ==> exists i | 0 <= i < |ds| ::
      ds[i].id != "" && FoldOne(ds).id == Some(ds[i].id) && forall j | i < j < |ds| :: ds[j].id == ""
    ensures FoldOne(ds).id.None? ==> forall d | d in ds :: d.id == ""
  {
    if ds != [] {
      var n := |ds| - 1;
      FoldOneParts(ds[..n]);
      assert ds == ds[..n] + [ds[n]];
      if ds[n].id != "" {
        assert ds[n] in ds;
      }
    }
  }

  lemma SplitFoldsBack(ds: seq<CallDelta>, c: Call)
    requires Splits(ds, c)
    ensures FoldOne(ds) == c
  {
    FoldOneParts(ds);
  }

  // ---------- index order ----------

  ghost predicate Increasing(xs: seq<int>) {
    forall i, j | 0 <= i < j < |xs| :: xs[i] < xs[j]
  }

  /** `[slots[i] for i in sorted(slots)]`, by the sorted keys. */
  ghost predicate InIndexOrder(slots: map<int, Call>, calls: seq<Call>, keys: seq<int>) {
    && Increasing(keys) && |calls| == |keys|
    && (forall k | k in slots :: k in keys)
    && forall i | 0 <= i < |keys| :: keys[i] in slots && calls[i] == slots[keys[i]]
  }

  /** The sorted keys, and so the list, are unique. */
  lemma {:induction false} IncreasingUnique(xs: seq<int>, ys: seq<int>)
    requires Increasing(xs) && Increasing(ys)
    requires (forall k | k in xs :: k in ys) && forall k | k in ys :: k in xs
    ensures xs == ys
  {
    if xs == [] || ys == [] {
      FirstMember(xs);
      FirstMember(ys);
    } else {
      assert xs[0] == ys[0] by {
        var x, y := xs[0], ys[0];
        assert x in xs && y in ys;
        assert x in ys && y in xs;
      }
      forall k | k in xs[1..] ensures k in ys[1..] {
        TailMembers(xs, k);
        TailMembers(ys, k);
      }
      forall k | k in ys[1..] ensures k in xs[1..] {
        TailMembers(xs, k);
        TailMembers(ys, k);
      }
      assert forall i | 0 <= i < |xs[1..]| :: xs[1..][i] == xs[i + 1];
      assert forall i | 0 <= i < |ys[1..]| :: ys[1..][i] == ys[i + 1];
      IncreasingUnique(xs[1..], ys[1..]);
      assert xs == [xs[0]] + xs[1..] && ys == [ys[0]] + ys[1..];
    }
  }

  lemma FirstMember(xs: seq<int>)
    ensures xs != [] ==> exists k :: k in xs
  {
    if xs != [] {
      var k := xs[0];
      assert k in xs;
    }
  }

  lemma TailMembers(xs: seq<int>, k: int)
    requires Increasing(xs) && xs != []
    ensures k in xs[1..] <==> k in xs && k != xs[0]
  {
    if k in xs && k != xs[0] {
      var i :| 0 <= i < |xs| && xs[i] == k;
      assert xs[1..][i - 1] == k;
    }
    if k in xs[1..] {
      var i :| 0 <= i < |xs[1..]| && xs[1..][i] == k;
      assert xs[i + 1] == k;
    }
  }

  method SortedCalls(slots: map<int, Call>) returns (calls: seq<Call>, ghost keys: seq<int>)
    ensures InIndexOrder(slots, calls, keys)
  {
    calls, keys := [], [];
    var left := slots.Keys;
    while left != {}
      invariant left <= slots.Keys && Increasing(keys) && |calls| == |keys|
      invariant forall k :: k in slots <==> k in keys || k in left
      invariant forall i | 0 <= i < |keys| :: keys[i] in slots && calls[i] == slots[keys[i]]
      invariant forall i, k | 0 <= i < |keys| && k in left :: keys[i] < k
      decreases left
    {
      var k := Least(left);
      calls, keys, left := calls + [slots[k]], keys + [k], left - {k};
    }
  }

  lemma Inhabited(s: set<int>)
    ensures s == {} || exists k :: k in s
  {
    if !exists k :: k in s {
      assert forall k :: k in s <==> k in {};
    }
  }

  method Least(s: set<int>) returns (m: int)
    requires s != {}
    ensures m in s && forall k | k in s :: m <= k
  {
    Inhabited(s);
    m :| m in s;
    var left := s - {m};
    while left != {}
      invariant left < s && m in s && forall k | k in s && k !in left :: m <= k
      decreases left
    {
      Inhabited(left);
      var k :| k in left;
      left := left - {k};
      if k < m {
        m := k;
      }
    }
  }

  // ---------- the whole turn ----------

  function Content(ds: seq<Delta>): string {
    if ds == [] then "" else Content(ds[..|ds| - 1]) + ds[|ds| - 1].content
  }

  function Thoughts(ds: seq<Delta>): string {
    if ds == [] then "" else Thoughts(ds[..|ds| - 1]) + ds[|ds| - 1].reasoning
  }

  /** The finish reason a stream gave: the last one, or none. */
  ghost predicate IsLastFinish(ds: seq<Delta>, finish: string) {
    if finish == "" then forall d | d in ds :: d.finish == ""
    else exists i | 0 <= i < |ds| :: ds[i].finish == finish && forall j | i < j < |ds| :: ds[j].finish == ""
  }

  /** All tool-call deltas of a stream, in order. */
  function AllCalls(ds: seq<Delta>): seq<CallDelta> {
    if ds == [] then [] else AllCalls(ds[..|ds| - 1]) + ds[|ds| - 1].calls
  }

  lemma {:induction false} FoldCallsConcat(slots: map<int, Call>, a: seq<CallDelta>, b: seq<CallDelta>)
    ensures FoldCalls(slots, a + b) == FoldCalls(FoldCalls(slots, a), b)
  {
    if b == [] {
      assert a + b == a;
    } else {
      var n := |b| - 1;
      assert (a + b)[..|a + b| - 1] == a + b[..n];
      FoldCallsConcat(slots, a, b[..n]);
    }
  }

  lemma {:induction false} TurnParts(ds: seq<Delta>)
    ensures FoldDeltas(ds).content == Content(ds)
    ensures FoldDeltas(ds).slots == FoldCalls(map[], AllCalls(ds))
    ensures FoldDeltas(ds).reasoning == Thoughts(ds) && IsLastFinish(ds, FoldDeltas(ds).finish)
  {
    if ds != [] {
      var n := |ds| - 1;
      TurnParts(ds[..n]);
      FoldCallsConcat(map[], AllCalls(ds[..n]), ds[n].calls);
      LastFinishSnoc(ds[..n], ds[n], FoldDeltas(ds[..n]).finish);
      assert ds == ds[..n] + [ds[n]];
    }
  }

  lemma LastFinishSnoc(ds: seq<Delta>, d: Delta, finish: string)
    requires IsLastFinish(ds, finish)
    ensures IsLastFinish(ds + [d], if d.finish != "" then d.finish else finish)
  {
    var all := ds + [d];
    if d.finish != "" {
      assert all[|ds|].finish == d.finish;
    } else if finish != "" {
      var i :| 0 <= i < |ds| && ds[i].finish == finish && forall j | i < j < |ds| :: ds[j].finish == "";
      assert all[i].finish == finish;
    }
  }

  /** A way to stream an answer text and the indexed tool calls `calls`: the text cut into
      pieces, each call split over its own index, interleaved in any way. */
  ghost predicate Streams(ds: seq<Delta>, text: string, calls: map<int, Call>) {
    && Content(ds) == text
    && (forall i | i in calls :: Splits(Project(AllCalls(ds), i), calls[i]))
    && (forall i | i !in calls :: Project(AllCalls(ds), i) == [])
  }

  /** STREAMING INVERSE: whatever the split and the interleaving, folding the deltas rebuilds
      the text and every call at its index. */
  lemma StreamRebuilds(ds: seq<Delta>, text: string, calls: map<int, Call>)
    requires Streams(ds, text, calls)
    ensures FoldDeltas(ds).content == text
    ensures FoldDeltas(ds).slots == calls
    ensures FoldDeltas(ds).reasoning == Thoughts(ds) && IsLastFinish(ds, FoldDeltas(ds).finish)
  {
    TurnParts(ds);
    forall i
      ensures i in FoldDeltas(ds).slots <==> i in calls
      ensures i in calls ==> FoldDeltas(ds).slots[i] == calls[i]
    {
      SlotsFoldSeparately(AllCalls(ds), i);
      if i in calls {
        SplitFoldsBack(Project(AllCalls(ds), i), calls[i]);
      }
    }
  }
}
