/**
 Consuming a response (`OumiGoResponse.__iter__` and `consume` in
 src/oumigo/api/agent/response.py). The request's generator is the sequence of events it
 will still yield; pulling one leaves `text` as the loop had it at that yield.
*/
module Responses {
  import opened Prelude
  import opened Chat
  import opened ChatProtocol

  function Joined(pieces: seq<string>): string {
    if pieces == [] then "" else Joined(pieces[..|pieces| - 1]) + pieces[|pieces| - 1]
  }

  /** Every event of the generator knows the text as it was at its yield. */
  ghost predicate KnowsText(all: seq<Event>) {
    forall i | 0 <= i < |all| :: TextAt(all, i)
  }

  lemma PullOne(all: seq<Event>, pulled: seq<Event>, pending: seq<Event>)
    requires KnowsText(all) && all == pulled + pending && pending != []
    ensures var e := pending[0];
      && pulled + [e] + pending[1..] == all
      && e.textThen == AnswerText(pulled + [e]) == (if e.answer then AnswerText(pulled) + e.piece else AnswerText(pulled))
  {
    var e := pending[0];
    assert TextAt(all, |pulled|);
    assert all[..|pulled| + 1] == pulled + [e] && all[|pulled|] == e;
    assert (pulled + [e])[..|pulled|] == pulled;
  }

  lemma JoinedSnoc(pieces: seq<string>, piece: string)
    ensures Joined(pieces + [piece]) == Joined(pieces) + piece
  {
    assert (pieces + [piece])[..|pieces|] == pieces;
  }

  class OumiGoResponse {
    var text: string
    var consumed: bool
    var pending: seq<Event>    // what the generator will still yield
    ghost const all: seq<Event>  // all it ever yields
    ghost var pulled: seq<Event>

    ghost predicate Valid()
      reads this
    {
      && pulled + pending == all && KnowsText(all) && text == AnswerText(pulled)
      && (consumed ==> pending == [])
    }

    constructor (run: St)
      requires TextIsYielded(run)
      ensures Valid() && all == run.events && pending == run.events && text == "" && !consumed
    {
      text, consumed, pending, pulled, all := "", false, run.events, [], run.events;
      new;
      assert pulled + pending == all;
    }

    /** `next` on the generator: one event, with the text as the loop had it at that yield. */
    method Pull() returns (e: Event)
      requires Valid() && pending != []
      modifies this
      ensures Valid() && consumed == old(consumed)
      ensures e == old(pending[0]) && pending == old(pending)[1..]
      ensures text == if e.answer then old(text) + e.piece else old(text)
    {
      PullOne(all, pulled, pending);
      e := pending[0];
      text := e.textThen;
      pending, pulled := pending[1..], pulled + [e];
    }

    /** Iterating a consumed response: the whole text once, if there is any. */
    method Again() returns (pieces: seq<string>)
      requires Valid() && consumed
      ensures Joined(pieces) == text == AnswerText(all) && |pieces| <= 1
    {
      pieces := if |text| > 0 then [text] else [];
      JoinedSnoc([], text);
      assert [] + [text] == [text] && pulled + [] == pulled;
    }

    /** Iterate, and stop early after `want` pieces if the caller does. Pieces join to what the
        text gained; once the response is consumed, iterating yields the whole text once. */
    method Iterate(want: Option<nat>) returns (pieces: seq<string>)
      requires Valid()
      modifies this
      ensures Valid()
      ensures old(consumed) ==> Joined(pieces) == text == old(text) && |pieces| <= 1
      ensures !old(consumed) ==> text == old(text) + Joined(pieces)
      ensures want.None? ==> consumed && text == AnswerText(all)
    {
      pieces := [];
      if consumed {
        pieces := Again();
        return;
      }
      while |pending| > 0
        invariant Valid() && !consumed && text == old(text) + Joined(pieces)
        decreases |pending|
      {
        if want == Some(|pieces|) {
          return;
        }
        var e := Pull();
        if e.answer {
          JoinedSnoc(pieces, e.piece);
          pieces := pieces + [e.piece];
        }
      }
      consumed := true;
      assert pulled + [] == pulled;
    }
  }
}
