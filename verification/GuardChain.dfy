/**
 Guard chains (src/oumigo/guard/chain.py): an ordered list of guards evaluated at one
 intercept point. `C` is the type of the screened content and `X` the rest of the context a
 guard may look at.
*/
module GuardChains {
  import opened Prelude

  datatype Point = UserInput | AssembledPrompt | ToolCall | ToolResult | AssistantTurn | FinalAnswer

  datatype Verdict<C> =
    | Allow
    | Transform(content: C)
    | Flag(reason: string)
    | Skip(reason: string)
    | Block(reason: string)
    | Stop(reason: string)
  {
    predicate Halts() {
      Skip? || Block? || Stop?
    }
  }

  /** What consulting a guard does: it returns a verdict or raises. */
  datatype Answer<C> = Returns(verdict: Verdict<C>) | Raises(error: string)

  /** `points` None: the guard did not narrow itself and is consulted everywhere. */
  datatype Guard<!C, !X> = Guard(points: Option<set<Point>>, intercept: (Point, C, X) -> Answer<C>)

  datatype Outcome<C> = Outcome(verdict: Verdict<C>, content: C, flags: seq<Verdict<C>>)

  predicate Applies<C, X>(g: Guard<C, X>, p: Point) {
    g.points.None? || p in g.points.value
  }

  /** A guard that raises denies. */
  function Consult<C, X>(g: Guard<C, X>, p: Point, content: C, x: X): Verdict<C> {
    match g.intercept(p, content, x)
    case Returns(v) => v
    case Raises(e) => Block("guard error: " + e)
  }

  /** The chain's meaning, guard by guard. */
  function Evaluate<C, X>(gs: seq<Guard<C, X>>, p: Point, content: C, x: X): Outcome<C> {
    if gs == [] then Outcome(Allow, content, [])
    else if !Applies(gs[0], p) then Evaluate(gs[1..], p, content, x)
    else
      match Consult(gs[0], p, content, x)
      case Allow => Evaluate(gs[1..], p, content, x)
      case Flag(r) =>
        var o := Evaluate(gs[1..], p, content, x);
        o.(flags := [Verdict<C>.Flag(r)] + o.flags)
      case Transform(c) => Evaluate(gs[1..], p, c, x)
      case v => Outcome(v, content, [])
  }

  /** Run the second chain on what the first one left, unless the first one halted. */
  function Then<C, X>(o: Outcome<C>, gs: seq<Guard<C, X>>, p: Point, x: X): Outcome<C> {
    if o.verdict.Halts() then o
    else
      var o2 := Evaluate(gs, p, o.content, x);
      o2.(flags := o.flags + o2.flags)
  }

  /** CONCATENATION: a chain of two chains is the first and then, if it did not halt, the
      second on its transformed content, with flags in order. */
  lemma {:induction false} ConcatIsThen<C, X>(a: seq<Guard<C, X>>, b: seq<Guard<C, X>>, p: Point, content: C, x: X)
    ensures Evaluate(a + b, p, content, x) == Then(Evaluate(a, p, content, x), b, p, x)
  {
    if a == [] {
      assert a + b == b;
      var o := Evaluate(b, p, content, x);
      assert [] + o.flags == o.flags;
    } else {
      assert (a + b)[1..] == a[1..] + b;
      var c := if Applies(a[0], p) && Consult(a[0], p, content, x).Transform? then Consult(a[0], p, content, x).content else content;
      ConcatIsThen(a[1..], b, p, c, x);
      if Applies(a[0], p) && Consult(a[0], p, content, x).Flag? {
        var f := [Consult(a[0], p, content, x)];
        var o := Evaluate(a[1..], p, content, x);
        var o2 := Evaluate(b, p, o.content, x);
        assert (f + o.flags) + o2.flags == f + (o.flags + o2.flags);
      }
    }
  }

  /** Only halting verdicts and ALLOW come out of a chain; only FLAGs are collected. */
  lemma {:induction false} OutcomeShape<C, X>(gs: seq<Guard<C, X>>, p: Point, content: C, x: X)
    ensures var o := Evaluate(gs, p, content, x);
      (o.verdict.Allow? || o.verdict.Halts()) && forall v | v in o.flags :: v.Flag?
  {
    if gs != [] {
      OutcomeShape(gs[1..], p, content, x);
      if Applies(gs[0], p) && Consult(gs[0], p, content, x).Transform? {
        OutcomeShape(gs[1..], p, Consult(gs[0], p, content, x).content, x);
      }
    }
  }

  lemma SingleGuard<C, X>(g: Guard<C, X>, p: Point, content: C, x: X)
    ensures var o := Evaluate([g], p, content, x);
      var v := Consult(g, p, content, x);
      o == if !Applies(g, p) || v.Allow? then Outcome(Allow, content, [])
           else if v.Flag? then Outcome(Allow, content, [v])
           else if v.Transform? then Outcome(Allow, v.content, [])
           else Outcome(v, content, [])
  {
    assert [g][1..] == [];
    if Consult(g, p, content, x).Transform? {
      assert Evaluate<C, X>([], p, Consult(g, p, content, x).content, x).content == Consult(g, p, content, x).content;
    }
  }

  /** The guard is consulted at `p`, and what it does denies: it answers the halting verdict
      `v` itself, or it raises, whatever the error, and then `v` blocks. */
  ghost predicate Denies<C, X>(g: Guard<C, X>, p: Point, content: C, x: X, v: Verdict<C>) {
    && (g.points.Some? ==> p in g.points.value)
    && match g.intercept(p, content, x)
       case Returns(answer) => v == answer && (v.Skip? || v.Block? || v.Stop?)
       case Raises(error) => v == Block("guard error: " + error)
  }

  lemma DeniesIffHalts<C, X>(g: Guard<C, X>, p: Point, content: C, x: X, v: Verdict<C>)
    ensures Denies(g, p, content, x, v) <==> Applies(g, p) && v.Halts() && v == Consult(g, p, content, x)
  {
  }

  /** FIRST HALT DECIDES: a chain halts exactly when some applicable guard, shown what the
      guards before it left, answers a halting verdict or raises while none before it did;
      that is then the chain's verdict, and no later guard has a say. */
  lemma {:induction false} FirstHaltDecides<C, X>(gs: seq<Guard<C, X>>, p: Point, content: C, x: X)
    ensures var o := Evaluate(gs, p, content, x);
      o.verdict.Halts() <==>
        exists i | 0 <= i < |gs| ::
          var before := Evaluate(gs[..i], p, content, x);
          && !before.verdict.Halts() && Denies(gs[i], p, before.content, x, o.verdict)
          && o.content == before.content && o.flags == before.flags
  {
    if gs != [] {
      var n := |gs| - 1;
      var init := gs[..n];
      FirstHaltDecides(init, p, content, x);
      assert gs == init + [gs[n]];
      assert gs[..n] == init;
      ConcatIsThen(init, [gs[n]], p, content, x);
      var o := Evaluate(gs, p, content, x);
      var before := Evaluate(init, p, content, x);
      SingleGuard(gs[n], p, before.content, x);
      assert before.flags + [] == before.flags;
      DeniesIffHalts(gs[n], p, before.content, x, o.verdict);
      if before.verdict.Halts() {
        var i :| 0 <= i < n && var b := Evaluate(init[..i], p, content, x);
          && !b.verdict.Halts() && Denies(init[i], p, b.content, x, before.verdict)
          && before.content == b.content && before.flags == b.flags;
        assert gs[..i] == init[..i] && gs[i] == init[i];
      }
    }
  }

  // ---------- what each guard is shown ----------

  /** The contents a chain goes through: guard `i` is shown `cs[i]`, and only a guard that is
      consulted and answers a transform changes it. */
  ghost predicate Passes<C, X>(gs: seq<Guard<C, X>>, p: Point, x: X, cs: seq<C>) {
    |cs| == |gs| + 1 &&
    forall i | 0 <= i < |gs| :: ShownNext(gs[i], p, x, cs[i], cs[i + 1])
  }

  ghost predicate ShownNext<C, X>(g: Guard<C, X>, p: Point, x: X, c: C, next: C) {
    if g.points.Some? && p !in g.points.value then next == c
    else match g.intercept(p, c, x)
      case Returns(Transform(t)) => next == t
      case _ => next == c
  }

  /** The flag a guard that is shown this content raises, if it does. */
  ghost function FlagOf<C, X>(g: Guard<C, X>, p: Point, content: C, x: X): seq<Verdict<C>> {
    if g.points.Some? && p !in g.points.value then []
    else match g.intercept(p, content, x)
      case Returns(Flag(reason)) => [Flag(reason)]
      case _ => []
  }

  /** The flags raised, in order, by guards that are shown these contents. */
  ghost function Raised<C, X>(gs: seq<Guard<C, X>>, p: Point, x: X, cs: seq<C>): seq<Verdict<C>>
    requires |cs| >= |gs|
  {
    if gs == [] then [] else FlagOf(gs[0], p, cs[0], x) + Raised(gs[1..], p, x, cs[1..])
  }

  /** The guard is not consulted, or allows, flags or rewrites what it is shown. */
  ghost predicate LetsPass<C, X>(g: Guard<C, X>, p: Point, content: C, x: X) {
    || (g.points.Some? && p !in g.points.value)
    || match g.intercept(p, content, x)
       case Returns(v) => v.Allow? || v.Flag? || v.Transform?
       case Raises(_) => false
  }

  ghost predicate AllLetPass<C, X>(gs: seq<Guard<C, X>>, p: Point, x: X, cs: seq<C>)
    requires |cs| >= |gs|
  {
    forall i | 0 <= i < |gs| :: LetsPass(gs[i], p, cs[i], x)
  }

  /** What a guard that lets pass makes of the content. */
  function NextShown<C, X>(g: Guard<C, X>, p: Point, content: C, x: X): C {
    if Applies(g, p) && Consult(g, p, content, x).Transform? then Consult(g, p, content, x).content else content
  }

  /** One more guard in front. */
  lemma GuardInFront<C, X>(g: Guard<C, X>, gs: seq<Guard<C, X>>, p: Point, x: X, content: C, cs: seq<C>)
    requires Passes(gs, p, x, cs) && AllLetPass(gs, p, x, cs)
    requires ShownNext(g, p, x, content, cs[0]) && LetsPass(g, p, content, x)
    ensures Passes([g] + gs, p, x, [content] + cs) && AllLetPass([g] + gs, p, x, [content] + cs)
  {
    var all, shown := [g] + gs, [content] + cs;
    forall i | 0 <= i < |all|
      ensures ShownNext(all[i], p, x, shown[i], shown[i + 1]) && LetsPass(all[i], p, shown[i], x)
    {
      if i > 0 {
        assert all[i] == gs[i - 1] && shown[i] == cs[i - 1] && shown[i + 1] == cs[i];
      }
    }
  }

  lemma RaisedInFront<C, X>(g: Guard<C, X>, gs: seq<Guard<C, X>>, p: Point, x: X, content: C, cs: seq<C>)
    requires |cs| >= |gs|
    ensures Raised([g] + gs, p, x, [content] + cs) == FlagOf(g, p, content, x) + Raised(gs, p, x, cs)
  {
    assert ([g] + gs)[1..] == gs && ([content] + cs)[1..] == cs;
  }

  /** The first guard and the rest. */
  lemma FirstGuard<C, X>(gs: seq<Guard<C, X>>, p: Point, content: C, x: X)
    requires gs != []
    ensures var o, rest := Evaluate(gs, p, content, x), Evaluate(gs[1..], p, NextShown(gs[0], p, content, x), x);
      if LetsPass(gs[0], p, content, x) then
        && ShownNext(gs[0], p, x, content, NextShown(gs[0], p, content, x))
        && o == rest.(flags := FlagOf(gs[0], p, content, x) + rest.flags)
      else Denies(gs[0], p, content, x, o.verdict) && o.content == content && o.flags == []
  {
    var rest := Evaluate(gs[1..], p, NextShown(gs[0], p, content, x), x);
    assert [] + rest.flags == rest.flags;
  }

  /** THE MEANING OF A CHAIN, guard by guard: the `k` guards before the first that denies, or
      all of them, are shown what those before them made of the content; the chain's content
      is what the last of them left, its flags are theirs, and its verdict is the denial, or
      ALLOW without one. */
  lemma {:induction false} ChainMeaning<C, X>(gs: seq<Guard<C, X>>, p: Point, content: C, x: X) returns (k: nat, cs: seq<C>)
    ensures k <= |gs| && Passes(gs[..k], p, x, cs) && cs[0] == content && AllLetPass(gs[..k], p, x, cs)
    ensures var o := Evaluate(gs, p, content, x);
      && o.content == cs[k] && o.flags == Raised(gs[..k], p, x, cs)
      && (if k < |gs| then Denies(gs[k], p, cs[k], x, o.verdict) else o.verdict == Allow)
  {
    k, cs := 0, [content];
    if gs != [] {
      FirstGuard(gs, p, content, x);
      if LetsPass(gs[0], p, content, x) {
        k, cs := ChainMeaning(gs[1..], p, NextShown(gs[0], p, content, x), x);
        var front := gs[1..][..k];
        GuardInFront(gs[0], front, p, x, content, cs);
        RaisedInFront(gs[0], front, p, x, content, cs);
        assert gs[..k + 1] == [gs[0]] + front;
        k, cs := k + 1, [content] + cs;
      }
    }
  }

  // ---------- where a chain is active ----------

  const ALL_POINTS: set<Point> := {UserInput, AssembledPrompt, ToolCall, ToolResult, AssistantTurn, FinalAnswer}

  ghost predicate Active<C, X>(gs: seq<Guard<C, X>>, p: Point) {
    exists i | 0 <= i < |gs| :: Applies(gs[i], p)
  }

  /** `active_points`: exactly the points some guard is consulted at. */
  method ActivePoints<C, X>(gs: seq<Guard<C, X>>) returns (points: set<Point>)
    ensures forall p :: p in points <==> Active(gs, p)
  {
    points := {};
    for i := 0 to |gs|
      invariant forall p :: p in points <==> exists j | 0 <= j < i :: Applies(gs[j], p)
    {
      if gs[i].points.None? {
        forall p ensures p in ALL_POINTS && Active(gs, p) {
          match p { case UserInput => case AssembledPrompt => case ToolCall =>
                    case ToolResult => case AssistantTurn => case FinalAnswer => }
          assert Applies(gs[i], p);
        }
        return ALL_POINTS;
      }
      points := points + gs[i].points.value;
    }
  }

  /** OUTSIDE those points the chain is the identity with ALLOW. */
  lemma {:induction false} InactiveIsIdentity<C, X>(gs: seq<Guard<C, X>>, p: Point, content: C, x: X)
    requires !Active(gs, p)
    ensures Evaluate(gs, p, content, x) == Outcome(Allow, content, [])
  {
    if gs != [] {
      assert !Applies(gs[0], p);
      forall i | 0 <= i < |gs[1..]| ensures !Applies(gs[1..][i], p) {
        assert gs[1..][i] == gs[i + 1];
      }
      InactiveIsIdentity(gs[1..], p, content, x);
    }
  }

  /** One guard of the loop. */
  lemma ThenStep<C, X>(current: C, flags: seq<Verdict<C>>, gs: seq<Guard<C, X>>, p: Point, x: X)
    requires gs != []
    ensures var v := Consult(gs[0], p, current, x);
      Then(Outcome(Allow, current, flags), gs, p, x)
        == if !Applies(gs[0], p) || v.Allow? then Then(Outcome(Allow, current, flags), gs[1..], p, x)
           else if v.Flag? then Then(Outcome(Allow, current, flags + [v]), gs[1..], p, x)
           else if v.Transform? then Then(Outcome(Allow, v.content, flags), gs[1..], p, x)
           else Outcome(v, current, flags)
  {
    var v := Consult(gs[0], p, current, x);
    var rest := Evaluate(gs[1..], p, current, x);
    assert flags + ([v] + rest.flags) == (flags + [v]) + rest.flags;
    assert flags + [] == flags;
  }

  /** `GuardChain.evaluate`: the loop computes the chain's meaning. */
  method EvaluateChain<C, X>(gs: seq<Guard<C, X>>, p: Point, content: C, x: X) returns (o: Outcome<C>)
    ensures o == Evaluate(gs, p, content, x)
  {
    var current := content;
    var flags: seq<Verdict<C>> := [];
    ghost var meant := Evaluate(gs, p, content, x);
    assert gs[0..] == gs && [] + meant.flags == meant.flags;
    for i := 0 to |gs|
      invariant meant == Then(Outcome(Allow, current, flags), gs[i..], p, x)
    {
      ThenStep(current, flags, gs[i..], p, x);
      assert gs[i..][1..] == gs[i + 1..];
      if Applies(gs[i], p) {
        var v := Consult(gs[i], p, current, x);
        if v.Flag? {
          flags := flags + [v];
        } else if v.Transform? {
          current := v.content;
        } else if v.Halts() {
          return Outcome(v, current, flags);
        }
      }
    }
    o := Outcome(Allow, current, flags);
    assert flags + [] == flags;
  }
}
