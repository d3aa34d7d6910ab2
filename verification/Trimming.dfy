/**
 The budget logic of the audio cap (`cap_audio` in
 src/oumigo/service/manager/router/shaping.py), apart from what a part looks like:
 `mark` tells the audio parts of a list from the others, `span` is what one is billed.
*/
module Trimming {
  import opened Prelude

  function Min(a: int, b: int): int { if a < b then a else b }

  /** The audio parts, in order. */
  function Marked<P>(xs: seq<P>, mark: P -> bool): seq<P> {
    if xs == [] then []
    else
      var k := |xs| - 1;
      Marked(xs[..k], mark) + (if mark(xs[k]) then [xs[k]] else [])
  }

  /** The other parts, in order. */
  function Others<P>(xs: seq<P>, mark: P -> bool): seq<P> {
    if xs == [] then []
    else
      var k := |xs| - 1;
      Others(xs[..k], mark) + (if mark(xs[k]) then [] else [xs[k]])
  }

  /** Every audio part of a request, in order across its messages. */
  function AllMarked<P>(xss: seq<seq<P>>, mark: P -> bool): seq<P> {
    if xss == [] then []
    else
      var k := |xss| - 1;
      AllMarked(xss[..k], mark) + Marked(xss[k], mark)
  }

  function Total<P>(xs: seq<P>, span: P -> real): real {
    if xs == [] then 0.0
    else
      var k := |xs| - 1;
      Total(xs[..k], span) + span(xs[k])
  }

  // ---------------------------------------------------------------- the longest prefix

  ghost predicate AllPositive<P>(xs: seq<P>, span: P -> real) {
    forall k | 0 <= k < |xs| :: span(xs[k]) > 0.0
  }

  ghost predicate Fits<P>(xs: seq<P>, span: P -> real, limit: Option<real>, n: nat)
    requires n <= |xs|
  {
    limit.None? || Total(xs[..n], span) <= limit.value
  }

  /** How many leading parts fit the limit together. */
  function LongestFit<P>(xs: seq<P>, span: P -> real, limit: Option<real>): (n: nat)
    ensures n <= |xs|
  {
    if xs == [] then 0
    else
      var k := |xs| - 1;
      var n := LongestFit(xs[..k], span, limit);
      if n == k && (limit.None? || Total(xs, span) <= limit.value) then |xs| else n
  }

  /** The characterization: every non-empty prefix up to it fits, and none beyond it does. */
  lemma {:induction false} LongestFitIsLongest<P>(xs: seq<P>, span: P -> real, limit: Option<real>)
    requires AllPositive(xs, span)
    ensures forall j | 1 <= j <= |xs| :: Fits(xs, span, limit, j) <==> j <= LongestFit(xs, span, limit)
  {
    if xs != [] {
      var k := |xs| - 1;
      var front := xs[..k];
      LongestFitIsLongest(front, span, limit);
      assert xs[..|xs|] == xs && front[..k] == front;
      forall j | 1 <= j <= |xs|
        ensures Fits(xs, span, limit, j) <==> j <= LongestFit(xs, span, limit)
      {
        if j <= k {
          assert front[..j] == xs[..j];
          assert Fits(xs, span, limit, j) <==> Fits(front, span, limit, j);
        } else if LongestFit(front, span, limit) < k {
          assert !Fits(front, span, limit, k);
        }
      }
    }
  }

  lemma {:induction false} LongestFitOfKept<P>(xs: seq<P>, span: P -> real, limit: Option<real>)
    ensures var n := LongestFit(xs, span, limit); LongestFit(xs[..n], span, limit) == n
  {
    if xs != [] {
      var k := |xs| - 1;
      var n := LongestFit(xs, span, limit);
      if n == |xs| {
        assert xs[..n] == xs;
      } else {
        LongestFitOfKept(xs[..k], span, limit);
        assert xs[..k][..n] == xs[..n];
      }
    }
  }

  // ---------------------------------------------------------------- trimming one list

  /** A message's parts with the audio after the first `n` of it removed. */
  function Kept<P>(xs: seq<P>, mark: P -> bool, n: int): seq<P> {
    if xs == [] then []
    else
      var k := |xs| - 1;
      Kept(xs[..k], mark, n) + (if mark(xs[k]) && |Marked(xs[..k], mark)| >= n then [] else [xs[k]])
  }

  /** The first `n` audio parts of a list. */
  function Leading<P>(xs: seq<P>, mark: P -> bool, n: int): seq<P> {
    var audio := Marked(xs, mark);
    if n <= 0 then [] else audio[..Min(n, |audio|)]
  }

  lemma {:induction false} MarkedSplits<P>(a: seq<P>, b: seq<P>, mark: P -> bool)
    ensures Marked(a + b, mark) == Marked(a, mark) + Marked(b, mark)
    decreases |b|
  {
    if b == [] {
      assert a + b == a;
    } else {
      var k := |b| - 1;
      MarkedSplits(a, b[..k], mark);
      assert (a + b)[..|a| + k] == a + b[..k];
    }
  }

  lemma {:induction false} OthersSplits<P>(a: seq<P>, b: seq<P>, mark: P -> bool)
    ensures Others(a + b, mark) == Others(a, mark) + Others(b, mark)
    decreases |b|
  {
    if b == [] {
      assert a + b == a;
    } else {
      var k := |b| - 1;
      OthersSplits(a, b[..k], mark);
      assert (a + b)[..|a| + k] == a + b[..k];
    }
  }

  lemma MarkedSnoc<P>(xs: seq<P>, x: P, mark: P -> bool)
    ensures Marked(xs + [x], mark) == if mark(x) then Marked(xs, mark) + [x] else Marked(xs, mark)
    ensures Others(xs + [x], mark) == if mark(x) then Others(xs, mark) else Others(xs, mark) + [x]
  {
    assert (xs + [x])[..|xs|] == xs;
  }

  lemma KeptSnoc<P>(xs: seq<P>, x: P, mark: P -> bool, n: int)
    ensures Kept(xs + [x], mark, n)
         == if mark(x) && |Marked(xs, mark)| >= n then Kept(xs, mark, n) else Kept(xs, mark, n) + [x]
  {
    assert (xs + [x])[..|xs|] == xs;
  }

  /** Trimming keeps every other part, and exactly the leading audio. */
  lemma {:induction false} KeptParts<P>(xs: seq<P>, mark: P -> bool, n: int)
    ensures Others(Kept(xs, mark, n), mark) == Others(xs, mark)
    ensures Marked(Kept(xs, mark, n), mark) == Leading(xs, mark, n)
  {
    if xs != [] {
      var k := |xs| - 1;
      var front, x := xs[..k], xs[k];
      assert xs == front + [x];
      KeptParts(front, mark, n);
      KeptSnoc(front, x, mark, n);
      MarkedSnoc(front, x, mark);
      MarkedSnoc(Kept(front, mark, n), x, mark);
      LeadingSnoc(front, x, mark, n);
    }
  }

  /** `out` is `xs` without some parts, in their order: part `j` of it is part `ix[j]` of `xs`. */
  ghost predicate Picks<P>(xs: seq<P>, out: seq<P>, ix: seq<nat>) {
    && |ix| == |out|
    && (forall j | 0 <= j < |ix| :: ix[j] < |xs| && out[j] == xs[ix[j]])
    && (forall j, k | 0 <= j < k < |ix| :: ix[j] < ix[k])
  }

  lemma PicksSnoc<P>(xs: seq<P>, x: P, out: seq<P>, ix: seq<nat>)
    requires Picks(xs, out, ix)
    ensures Picks(xs + [x], out, ix) && Picks(xs + [x], out + [x], ix + [|xs|])
  {
  }

  /** Part `i` is not audio that comes after `n` audio parts of the list. */
  predicate Spared<P>(xs: seq<P>, mark: P -> bool, n: int, i: nat)
    requires i < |xs|
  {
    !mark(xs[i]) || |Marked(xs[..i], mark)| < n
  }

  lemma SparedSnoc<P>(xs: seq<P>, x: P, mark: P -> bool, n: int, i: nat)
    requires i <= |xs|
    ensures Spared(xs + [x], mark, n, i) <==> if i < |xs| then Spared(xs, mark, n, i) else !mark(x) || |Marked(xs, mark)| < n
  {
    assert (xs + [x])[..i] == xs[..i];
    assert xs[..|xs|] == xs;
  }

  /** Trimming leaves every part in its place among the others, and picks exactly the spared. */
  lemma {:induction false} KeptInPlace<P>(xs: seq<P>, mark: P -> bool, n: int) returns (ix: seq<nat>)
    ensures Picks(xs, Kept(xs, mark, n), ix)
    ensures forall i | 0 <= i < |xs| :: i in ix <==> Spared(xs, mark, n, i)
  {
    ix := [];
    if xs != [] {
      var k := |xs| - 1;
      var front, x := xs[..k], xs[k];
      assert xs == front + [x];
      var jx := KeptInPlace(front, mark, n);
      PicksSnoc(front, x, Kept(front, mark, n), jx);
      KeptSnoc(front, x, mark, n);
      ix := if mark(x) && |Marked(front, mark)| >= n then jx else jx + [k];
      forall i | 0 <= i < |xs|
        ensures i in ix <==> Spared(xs, mark, n, i)
      {
        SparedSnoc(front, x, mark, n, i);
        InSnoc(jx, k, i);
        assert i == k ==> i !in jx;
      }
    }
  }

  lemma InSnoc(ix: seq<nat>, k: nat, i: nat)
    ensures i in ix + [k] <==> i in ix || i == k
  {
  }

  lemma LeadingSnoc<P>(xs: seq<P>, x: P, mark: P -> bool, n: int)
    ensures Leading(xs + [x], mark, n)
         == if mark(x) && |Marked(xs, mark)| < n then Leading(xs, mark, n) + [x] else Leading(xs, mark, n)
  {
    MarkedSnoc(xs, x, mark);
    var a := Marked(xs, mark);
    if mark(x) && n > 0 {
      assert (a + [x])[..Min(n, |a| + 1)] == if |a| < n then a + [x] else a[..n];
      assert |a| < n ==> a[..|a|] == a;
    }
  }

  lemma {:induction false} MarkedPrefix<P>(xs: seq<P>, mark: P -> bool, j: nat)
    requires j <= |xs|
    ensures |Marked(xs[..j], mark)| <= |Marked(xs, mark)|
    ensures Marked(xs, mark)[..|Marked(xs[..j], mark)|] == Marked(xs[..j], mark)
  {
    assert xs == xs[..j] + xs[j..];
    MarkedSplits(xs[..j], xs[j..], mark);
  }

  // ---------------------------------------------------------------- trimming a list of lists

  /** Whether list `i` loses audio when the request keeps its first `n` audio parts. */
  predicate Loses<P>(xss: seq<seq<P>>, mark: P -> bool, i: nat, n: nat)
    requires i < |xss|
  {
    var here := |Marked(xss[i], mark)|;
    here > 0 && |AllMarked(xss[..i], mark)| + here > n
  }

  function TrimAt<P>(xss: seq<seq<P>>, mark: P -> bool, i: nat, n: nat): seq<P>
    requires i < |xss|
  {
    Kept(xss[i], mark, n - |AllMarked(xss[..i], mark)|)
  }

  /** The first of the leading `m` lists that loses audio; `m` when none does. */
  function FirstLoss<P>(xss: seq<seq<P>>, mark: P -> bool, m: nat, n: nat): (f: nat)
    requires m <= |xss|
    ensures f <= m
    ensures f < m ==> Loses(xss, mark, f, n)
    ensures forall i | 0 <= i < f :: !Loses(xss, mark, i, n)
  {
    if m == 0 then 0
    else
      var f := FirstLoss(xss, mark, m - 1, n);
      if f < m - 1 || Loses(xss, mark, m - 1, n) then f else m
  }

  lemma MarkedOfNext<P>(xss: seq<seq<P>>, mark: P -> bool, i: nat)
    requires i < |xss|
    ensures AllMarked(xss[..i + 1], mark) == AllMarked(xss[..i], mark) + Marked(xss[i], mark)
  {
    assert xss[..i + 1][..i] == xss[..i];
  }

  /** Nothing is lost iff all the audio is kept. */
  lemma {:induction false} NoLossIffAllKept<P>(xss: seq<seq<P>>, mark: P -> bool, m: nat, n: nat)
    requires m <= |xss|
    ensures FirstLoss(xss, mark, m, n) == m <==> |AllMarked(xss[..m], mark)| <= n
  {
    if m > 0 {
      NoLossIffAllKept(xss, mark, m - 1, n);
      MarkedOfNext(xss, mark, m - 1);
    }
  }

  lemma PrefixOfBoth<P>(a: seq<P>, b: seq<P>, n: nat)
    ensures a[..Min(n, |a|)] + (if n <= |a| then [] else b[..Min(n - |a|, |b|)]) == (a + b)[..Min(n, |a + b|)]
  {
  }

  /** Every list holds its share of the first `n` audio parts. */
  ghost predicate Shares<P>(xss: seq<seq<P>>, out: seq<seq<P>>, mark: P -> bool, n: nat)
    requires |out| == |xss|
  {
    forall i | 0 <= i < |xss| :: Marked(out[i], mark) == Leading(xss[i], mark, n - |AllMarked(xss[..i], mark)|)
  }

  /** Lists that hold each their share of the first `n` audio parts hold exactly those, in order. */
  lemma {:induction false} SharesAreThePrefix<P>(xss: seq<seq<P>>, out: seq<seq<P>>, mark: P -> bool, n: nat, m: nat)
    requires |out| == |xss| && m <= |xss| && Shares(xss, out, mark, n)
    ensures AllMarked(out[..m], mark) == AllMarked(xss[..m], mark)[..Min(n, |AllMarked(xss[..m], mark)|)]
  {
    if m > 0 {
      var k := m - 1;
      SharesAreThePrefix(xss, out, mark, n, k);
      MarkedOfNext(out, mark, k);
      MarkedOfNext(xss, mark, k);
      PrefixOfBoth(AllMarked(xss[..k], mark), Marked(xss[k], mark), n);
    }
  }

  /** Trimming without touching the lists that lose nothing. */
  function TrimmedAt<P>(xss: seq<seq<P>>, mark: P -> bool, n: nat, i: nat): seq<P>
    requires i < |xss|
  {
    if Loses(xss, mark, i, n) then TrimAt(xss, mark, i, n) else xss[i]
  }

  /** Every list trimmed, and a note in front of the first that lost audio. */
  function Noted<P>(xss: seq<seq<P>>, mark: P -> bool, n: nat, note: P): (out: seq<seq<P>>)
    ensures |out| == |xss|
  {
    seq(|xss|, i requires 0 <= i < |xss| => NotedAt(xss, mark, n, note, i))
  }

  function NotedAt<P>(xss: seq<seq<P>>, mark: P -> bool, n: nat, note: P, i: nat): seq<P>
    requires i < |xss|
  {
    (if i == FirstLoss(xss, mark, |xss|, n) then [note] else []) + TrimmedAt(xss, mark, n, i)
  }

  lemma TrimmedList<P>(xss: seq<seq<P>>, mark: P -> bool, n: nat, i: nat)
    requires i < |xss|
    ensures Marked(TrimmedAt(xss, mark, n, i), mark) == Leading(xss[i], mark, n - |AllMarked(xss[..i], mark)|)
    ensures Others(TrimmedAt(xss, mark, n, i), mark) == Others(xss[i], mark)
  {
    var n' := n - |AllMarked(xss[..i], mark)|;
    if Loses(xss, mark, i, n) {
      KeptParts(xss[i], mark, n');
    } else {
      LeadingAll(xss[i], mark, n');
    }
  }

  lemma LeadingAll<P>(xs: seq<P>, mark: P -> bool, n: int)
    requires Marked(xs, mark) == [] || |Marked(xs, mark)| <= n
    ensures Leading(xs, mark, n) == Marked(xs, mark)
  {
    var audio := Marked(xs, mark);
    assert audio[..|audio|] == audio;
  }

  lemma NoteIsOther<P>(note: P, xs: seq<P>, mark: P -> bool)
    requires !mark(note)
    ensures Marked([note] + xs, mark) == Marked(xs, mark)
    ensures Others([note] + xs, mark) == [note] + Others(xs, mark)
  {
    assert [note][..0] == [];
    assert Others([note], mark) == [] + [note] == [note];
    MarkedSplits([note], xs, mark);
    OthersSplits([note], xs, mark);
  }

  /** One list of the result: its audio is cut to its share of the first `n`, its other
      parts survive in order, and only the first loser has a note in front of them. */
  lemma NotedList<P>(xss: seq<seq<P>>, mark: P -> bool, n: nat, note: P, i: nat)
    requires i < |xss| && !mark(note)
    ensures var r := Noted(xss, mark, n, note)[i];
      && Marked(r, mark) == Leading(xss[i], mark, n - |AllMarked(xss[..i], mark)|)
      && Others(r, mark) == (if i == FirstLoss(xss, mark, |xss|, n) then [note] else []) + Others(xss[i], mark)
  {
    var trimmed := TrimmedAt(xss, mark, n, i);
    TrimmedList(xss, mark, n, i);
    NoteIsOther(note, trimmed, mark);
    assert [] + trimmed == trimmed;
  }

  lemma PicksAll<P>(xs: seq<P>) returns (ix: seq<nat>)
    ensures Picks(xs, xs, ix)
  {
    ix := seq(|xs|, j => j);
  }

  lemma TrimmedInPlace<P>(xss: seq<seq<P>>, mark: P -> bool, n: nat, i: nat) returns (ix: seq<nat>)
    requires i < |xss|
    ensures Picks(xss[i], TrimmedAt(xss, mark, n, i), ix)
  {
    if Loses(xss, mark, i, n) {
      ix := KeptInPlace(xss[i], mark, n - |AllMarked(xss[..i], mark)|);
    } else {
      ix := PicksAll(xss[i]);
    }
  }

  /** But for the note, the parts of a list of the result are picked from those it had. */
  lemma NotedInPlace<P>(xss: seq<seq<P>>, mark: P -> bool, n: nat, note: P, i: nat) returns (ix: seq<nat>)
    requires i < |xss|
    ensures var out := Noted(xss, mark, n, note)[i];
      if i == FirstLoss(xss, mark, |xss|, n) then out != [] && Picks(xss[i], out[1..], ix) else Picks(xss[i], out, ix)
  {
    var trimmed := TrimmedAt(xss, mark, n, i);
    ix := TrimmedInPlace(xss, mark, n, i);
    assert ([note] + trimmed)[1..] == trimmed && [] + trimmed == trimmed;
  }

  lemma NotedShares<P>(xss: seq<seq<P>>, mark: P -> bool, n: nat, note: P)
    requires !mark(note)
    ensures Shares(xss, Noted(xss, mark, n, note), mark, n)
  {
    forall i | 0 <= i < |xss|
      ensures Marked(Noted(xss, mark, n, note)[i], mark) == Leading(xss[i], mark, n - |AllMarked(xss[..i], mark)|)
    {
      NotedList(xss, mark, n, note, i);
    }
  }

  /** What is kept is exactly the first `n` audio parts of the request. */
  lemma NotedKeepsPrefix<P>(xss: seq<seq<P>>, mark: P -> bool, n: nat, note: P)
    requires !mark(note) && n <= |AllMarked(xss, mark)|
    ensures AllMarked(Noted(xss, mark, n, note), mark) == AllMarked(xss, mark)[..n]
  {
    var out := Noted(xss, mark, n, note);
    NotedShares(xss, mark, n, note);
    SharesAreThePrefix(xss, out, mark, n, |xss|);
    assert out[..|xss|] == out && xss[..|xss|] == xss;
  }

  lemma {:induction false} AllMarkedPrefix<P>(xss: seq<seq<P>>, mark: P -> bool, i: nat)
    requires i <= |xss|
    ensures |AllMarked(xss[..i], mark)| <= |AllMarked(xss, mark)|
    ensures AllMarked(xss, mark)[..|AllMarked(xss[..i], mark)|] == AllMarked(xss[..i], mark)
  {
    if i == |xss| {
      assert xss[..i] == xss;
    } else {
      var k := |xss| - 1;
      AllMarkedPrefix(xss[..k], mark, i);
      assert xss[..k][..i] == xss[..i];
    }
  }

  /** The audio seen when `j` parts of list `i` are done is a prefix of all of it. */
  lemma SeenIsPrefix<P>(xss: seq<seq<P>>, mark: P -> bool, i: nat, j: nat)
    requires i < |xss| && j <= |xss[i]|
    ensures var seen := AllMarked(xss[..i], mark) + Marked(xss[i][..j], mark);
      |seen| <= |AllMarked(xss, mark)| && AllMarked(xss, mark)[..|seen|] == seen
  {
    AllMarkedPrefix(xss, mark, i + 1);
    MarkedPrefix(xss[i], mark, j);
    MarkedOfNext(xss, mark, i);
  }

  /** Where the next part stands in the audio of the whole request. */
  lemma NextPart<P>(xss: seq<seq<P>>, mark: P -> bool, i: nat, j: nat)
    requires i < |xss| && j < |xss[i]|
    ensures var xs, t := xss[i], |AllMarked(xss[..i], mark)| + |Marked(xss[i][..j], mark)|;
      && (mark(xs[j]) ==> t < |AllMarked(xss, mark)| && AllMarked(xss, mark)[t] == xs[j])
      && |Marked(xs[..j + 1], mark)| == |Marked(xs[..j], mark)| + (if mark(xs[j]) then 1 else 0)
  {
    var xs := xss[i];
    assert xs[..j + 1][..j] == xs[..j];
    SeenIsPrefix(xss, mark, i, j + 1);
    if mark(xs[j]) {
      var seen := AllMarked(xss[..i], mark) + Marked(xs[..j + 1], mark);
      assert seen[|seen| - 1] == xs[j];
    }
  }

  // ---------------------------------------------------------------- the running totals

  /** The totals when `t` of the request's audio parts are done. */
  datatype Tally = Tally(seconds: real, items: nat, dropped: nat, kept: real, spent: bool) {
    ghost predicate Counts<P>(all: seq<P>, span: P -> real, n: nat, t: nat)
      requires n <= |all| && t <= |all|
    {
      && items == t && seconds == Total(all[..t], span)
      && dropped == t - Min(t, n) && kept == Total(all[..Min(t, n)], span)
      && spent == (t > n)
    }
  }

  /** Bills one audio part: dropped once the budget is spent, or when it would not fit. */
  function Billed(t: Tally, span: real, limit: Option<real>): Tally {
    if limit.Some? && (t.spent || t.kept + span > limit.value)
    then Tally(t.seconds + span, t.items + 1, t.dropped + 1, t.kept, true)
    else Tally(t.seconds + span, t.items + 1, t.dropped, t.kept + span, t.spent)
  }

  lemma BillsNext<P>(all: seq<P>, span: P -> real, limit: Option<real>, n: nat, t: nat, tally: Tally)
    requires AllPositive(all, span)
    requires n == LongestFit(all, span, limit) && t < |all| && tally.Counts(all, span, n, t)
    ensures var next := Billed(tally, span(all[t]), limit);
      next.Counts(all, span, n, t + 1) && (next.dropped > tally.dropped <==> t >= n)
  {
    LongestFitIsLongest(all, span, limit);
    assert all[..t + 1][..t] == all[..t];
    assert Fits(all, span, limit, t + 1) <==> t + 1 <= n;
    if t > n {
      assert !Fits(all, span, limit, t);
    }
  }

  /** When `j` parts of list `i` are done, `t` audio parts of the request are. */
  ghost predicate SeenAt<P>(xss: seq<seq<P>>, mark: P -> bool, i: nat, j: nat, t: nat)
    requires i < |xss| && j <= |xss[i]|
  {
    t == |AllMarked(xss[..i], mark)| + |Marked(xss[i][..j], mark)| && t <= |AllMarked(xss, mark)|
  }

  lemma SeenNext<P>(xss: seq<seq<P>>, mark: P -> bool, i: nat, j: nat, t: nat)
    requires i < |xss| && j < |xss[i]| && SeenAt(xss, mark, i, j, t)
    ensures mark(xss[i][j]) ==> t < |AllMarked(xss, mark)| && AllMarked(xss, mark)[t] == xss[i][j]
    ensures SeenAt(xss, mark, i, j + 1, if mark(xss[i][j]) then t + 1 else t)
  {
    NextPart(xss, mark, i, j);
  }

  /** What is kept of the first `j` parts of list `i`. */
  ghost function KeptOf<P>(xss: seq<seq<P>>, mark: P -> bool, n: nat, i: nat, j: nat): seq<P>
    requires i < |xss| && j <= |xss[i]|
  {
    Kept(xss[i][..j], mark, n - |AllMarked(xss[..i], mark)|)
  }

  lemma KeptNext<P>(xss: seq<seq<P>>, mark: P -> bool, n: nat, i: nat, j: nat, t: nat)
    requires i < |xss| && j < |xss[i]| && SeenAt(xss, mark, i, j, t)
    ensures KeptOf(xss, mark, n, i, j + 1)
         == if mark(xss[i][j]) && t >= n then KeptOf(xss, mark, n, i, j) else KeptOf(xss, mark, n, i, j) + [xss[i][j]]
  {
    var xs := xss[i];
    assert xs[..j + 1] == xs[..j] + [xs[j]];
    KeptSnoc(xs[..j], xs[j], mark, n - |AllMarked(xss[..i], mark)|);
  }

  lemma SeenAll<P>(xss: seq<seq<P>>, mark: P -> bool, n: nat, i: nat, t: nat)
    requires i < |xss| && SeenAt(xss, mark, i, |xss[i]|, t)
    ensures KeptOf(xss, mark, n, i, |xss[i]|) == TrimAt(xss, mark, i, n)
    ensures t == |AllMarked(xss[..i + 1], mark)| <= |AllMarked(xss, mark)|
    ensures Loses(xss, mark, i, n) <==> t > n && t > |AllMarked(xss[..i], mark)|
  {
    assert xss[i][..|xss[i]|] == xss[i];
    MarkedOfNext(xss, mark, i);
  }

  lemma SeenNone<P>(xss: seq<seq<P>>, mark: P -> bool, n: nat, i: nat)
    requires i < |xss| && |AllMarked(xss[..i], mark)| <= |AllMarked(xss, mark)|
    ensures SeenAt(xss, mark, i, 0, |AllMarked(xss[..i], mark)|) && KeptOf(xss, mark, n, i, 0) == []
  {
    assert xss[i][..0] == [];
  }

  /** The inner loop: one message's content. */
  method TrimContent<P>(ghost xss: seq<seq<P>>, ghost i: nat, ghost n: nat, xs: seq<P>, mark: P -> bool, span: P -> real,
                        limit: Option<real>, start: Tally)
    returns (kept: seq<P>, lost: nat, tally: Tally)
    requires i < |xss| && xs == xss[i] && AllPositive(AllMarked(xss, mark), span)
    requires n == LongestFit(AllMarked(xss, mark), span, limit)
    requires |AllMarked(xss[..i], mark)| <= |AllMarked(xss, mark)|
    requires start.Counts(AllMarked(xss, mark), span, n, |AllMarked(xss[..i], mark)|)
    ensures kept == TrimAt(xss, mark, i, n)
    ensures lost > 0 <==> Loses(xss, mark, i, n)
    ensures |AllMarked(xss[..i + 1], mark)| <= |AllMarked(xss, mark)|
    ensures tally.Counts(AllMarked(xss, mark), span, n, |AllMarked(xss[..i + 1], mark)|)
  {
    ghost var all, before := AllMarked(xss, mark), |AllMarked(xss[..i], mark)|;
    ghost var t := before;
    kept, lost, tally := [], 0, start;
    SeenNone(xss, mark, n, i);
    for j := 0 to |xs|
      invariant before <= t <= |all| && SeenAt(xss, mark, i, j, t) && tally.Counts(all, span, n, t)
      invariant kept == KeptOf(xss, mark, n, i, j)
      invariant lost == (t - Min(t, n)) - (before - Min(before, n))
    {
      SeenNext(xss, mark, i, j, t);
      KeptNext(xss, mark, n, i, j, t);
      if !mark(xs[j]) {
        kept := kept + [xs[j]];
      } else {
        BillsNext(all, span, limit, n, t, tally);
        var next := Billed(tally, span(xs[j]), limit);
        if next.dropped > tally.dropped {
          lost := lost + 1;
        } else {
          kept := kept + [xs[j]];
        }
        tally := next;
        t := t + 1;
      }
    }
    SeenAll(xss, mark, n, i, t);
  }
}
