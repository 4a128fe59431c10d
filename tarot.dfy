/** The deck state of the tarot app (apps/tarot/services/TarotContext.tsx): drawing a card from
    the Major Arcana, confirming it into the history, viewing a past draw, and resetting. */
module Tarot {
  import opened Strings

  /** A card of the deck, by its id; its name, meanings, description and image are display
      text only. */
  datatype Card = Card(id: string)

  /** One draw: the card, whether it came up reversed, and `Date.now()` at the draw. */
  datatype DrawResult = DrawResult(card: Card, isReversed: bool, timestamp: int)

  /** The id of the `k`-th Major Arcana card: `ar00` .. `ar21`. */
  function ArcanaId(k: nat): string {
    "ar" + Pad2(k)
  }

  /** `MAJOR_ARCANA`: the twenty-two cards in order. */
  function MajorArcana(): (r: seq<Card>)
    ensures |r| == 22 && forall k :: 0 <= k < 22 ==> r[k].id == ArcanaId(k)
  {
    seq(22, (k: int) requires 0 <= k => Card(ArcanaId(k)))
  }

  /** Distinct indexes give distinct ids. */
  lemma ArcanaIdInjective(a: nat, b: nat)
    requires a < 100 && b < 100 && ArcanaId(a) == ArcanaId(b)
    ensures a == b
  {
    assert Pad2(a) == ArcanaId(a)[2..] && Pad2(b) == ArcanaId(b)[2..];
    ParsePad2(a);
    ParsePad2(b);
  }

  /** No two cards of `cards` share an id. */
  predicate IdsDistinct(cards: seq<Card>) {
    forall p, q :: 0 <= p < q < |cards| ==> cards[p].id != cards[q].id
  }

  lemma ArcanaIdsDistinct()
    ensures IdsDistinct(MajorArcana())
  {
    var m := MajorArcana();
    forall p, q | 0 <= p < q < |m| ensures m[p].id != m[q].id {
      if m[p].id == m[q].id {
        ArcanaIdInjective(p, q);
      }
    }
  }

  function DeckIds(cards: seq<Card>): set<string> {
    set c | c in cards :: c.id
  }

  lemma DeckIdsHas(cards: seq<Card>, c: Card)
    requires c in cards
    ensures c.id in DeckIds(cards)
  {
  }

  function HistoryIds(h: seq<DrawResult>): set<string> {
    set d | d in h :: d.card.id
  }

  /** `cards.filter((c) => c.id !== id)`. */
  function Without(cards: seq<Card>, id: string): (r: seq<Card>)
    ensures |r| <= |cards|
  {
    if cards == [] then []
    else (if cards[0].id != id then [cards[0]] else []) + Without(cards[1..], id)
  }

  /** The filter keeps exactly the cards of another id. */
  lemma {:induction false} WithoutMembers(cards: seq<Card>, id: string)
    ensures forall c :: c in Without(cards, id) <==> c in cards && c.id != id
  {
    if cards != [] {
      WithoutMembers(cards[1..], id);
      assert forall c :: c in cards <==> c == cards[0] || c in cards[1..];
    }
  }

  /** Removing the id of a card of a deck with distinct ids removes exactly that card. */
  lemma {:induction false} WithoutOne(cards: seq<Card>, c: Card)
    requires IdsDistinct(cards) && c in cards
    ensures |Without(cards, c.id)| == |cards| - 1 && IdsDistinct(Without(cards, c.id))
  {
    var rest := cards[1..];
    assert IdsDistinct(rest) by {
      forall p, q | 0 <= p < q < |rest| ensures rest[p].id != rest[q].id {
        assert rest[p] == cards[p + 1] && rest[q] == cards[q + 1];
      }
    }
    if cards[0] == c {
      assert forall k :: 0 <= k < |rest| ==> rest[k].id != c.id by {
        forall k | 0 <= k < |rest| ensures rest[k].id != c.id {
          assert rest[k] == cards[k + 1];
        }
      }
      WithoutNone(rest, c.id);
    } else {
      assert c in rest;
      WithoutOne(rest, c);
      WithoutMembers(rest, c.id);
      var r := Without(cards, c.id);
      var r' := Without(rest, c.id);
      assert r == [cards[0]] + r';
      forall p, q | 0 <= p < q < |r| ensures r[p].id != r[q].id {
        assert r[q] == r'[q - 1] && r[q] in rest;
        if p > 0 {
          assert r[p] == r'[p - 1];
        } else {
          var j :| 0 <= j < |rest| && rest[j] == r[q];
          assert cards[j + 1] == r[q];
        }
      }
    }
  }

  /** Removing an id no card has changes nothing. */
  lemma {:induction false} WithoutNone(cards: seq<Card>, id: string)
    requires forall k :: 0 <= k < |cards| ==> cards[k].id != id
    ensures Without(cards, id) == cards
  {
    if cards != [] {
      WithoutNone(cards[1..], id);
    }
  }

  lemma DeckIdsWithout(cards: seq<Card>, id: string)
    ensures DeckIds(Without(cards, id)) == DeckIds(cards) - {id}
  {
    WithoutMembers(cards, id);
  }

  lemma HistoryIdsCons(d: DrawResult, rest: seq<DrawResult>)
    ensures HistoryIds([d] + rest) == HistoryIds(rest) + {d.card.id}
  {
    assert forall e :: e in [d] + rest <==> e == d || e in rest;
  }

  /** A draw whose id is new in front of a history with distinct ids keeps them distinct. */
  lemma ConsDistinctDraws(d: DrawResult, rest: seq<DrawResult>)
    requires d.card.id !in HistoryIds(rest)
    requires forall p, q :: 0 <= p < q < |rest| ==> rest[p].card.id != rest[q].card.id
    ensures var h := [d] + rest; forall p, q :: 0 <= p < q < |h| ==> h[p].card.id != h[q].card.id
  {
    var h := [d] + rest;
    forall p, q | 0 <= p < q < |h| ensures h[p].card.id != h[q].card.id {
      assert h[q] == rest[q - 1];
      if p > 0 {
        assert h[p] == rest[p - 1];
      } else {
        assert h[q] in rest;
      }
    }
  }

  /** The deck left of `full` after the draws of `h`, the latest first: the id of each
      confirmed card filtered out in turn. */
  function Remaining(full: seq<Card>, h: seq<DrawResult>): seq<Card>
    decreases |h|
  {
    if h == [] then full else Without(Remaining(full, h[1..]), h[0].card.id)
  }

  /** Every confirmed card was in the deck when it was drawn. */
  predicate WellDrawn(full: seq<Card>, h: seq<DrawResult>)
    decreases |h|
  {
    h == [] || (h[0].card in Remaining(full, h[1..]) && WellDrawn(full, h[1..]))
  }

  /** The deck and the history split the ids of the full deck between them: no id is in both,
      none is lost, no card was drawn twice, and each confirmed draw took exactly one card off
      the deck. */
  lemma {:induction false} Partition(full: seq<Card>, h: seq<DrawResult>)
    requires IdsDistinct(full) && WellDrawn(full, h)
    ensures var deck := Remaining(full, h);
      && DeckIds(deck) + HistoryIds(h) == DeckIds(full)
      && DeckIds(deck) * HistoryIds(h) == {}
      && IdsDistinct(deck) && |deck| + |h| == |full|
      && forall p, q :: 0 <= p < q < |h| ==> h[p].card.id != h[q].card.id
    decreases |h|
  {
    if h != [] {
      assert h[0].card in Remaining(full, h[1..]) && WellDrawn(full, h[1..]);
      Partition(full, h[1..]);
      assert h == [h[0]] + h[1..];
      PartitionStep(full, h[0], h[1..]);
    }
  }

  /** One confirmed draw keeps the split: the card leaves the deck and joins the history. */
  lemma PartitionStep(full: seq<Card>, d: DrawResult, rest: seq<DrawResult>)
    requires d.card in Remaining(full, rest)
    requires var deck := Remaining(full, rest);
      && DeckIds(deck) + HistoryIds(rest) == DeckIds(full)
      && DeckIds(deck) * HistoryIds(rest) == {}
      && IdsDistinct(deck) && |deck| + |rest| == |full|
      && forall p, q :: 0 <= p < q < |rest| ==> rest[p].card.id != rest[q].card.id
    ensures var h := [d] + rest; var deck := Remaining(full, h);
      && DeckIds(deck) + HistoryIds(h) == DeckIds(full)
      && DeckIds(deck) * HistoryIds(h) == {}
      && IdsDistinct(deck) && |deck| + |h| == |full|
      && forall p, q :: 0 <= p < q < |h| ==> h[p].card.id != h[q].card.id
  {
    var before := Remaining(full, rest);
    assert ([d] + rest)[1..] == rest;
    WithoutOne(before, d.card);
    DeckIdsWithout(before, d.card.id);
    HistoryIdsCons(d, rest);
    DeckIdsHas(before, d.card);
    DisjointMiss(DeckIds(before), HistoryIds(rest), d.card.id);
    ConsDistinctDraws(d, rest);
  }

  /** An id of one of two disjoint sets is not in the other. */
  lemma DisjointMiss(a: set<string>, b: set<string>, x: string)
    requires a * b == {} && x in a
    ensures x !in b
  {
    assert x !in a * b;
  }

  /** `Math.floor(Math.random() * n)`: an index into a deck of `n` cards. */
  function DrawIndex(random: real, n: nat): (k: nat)
    requires 0.0 <= random < 1.0 && n > 0
    ensures k < n
  {
    var x := random * n as real;
    assert x < n as real;
    x.Floor
  }

  /** The invariant of the deck state over the full deck `full`: the deck is what the history
      leaves of it, every confirmed card came from the deck, a pending draw is a card of the
      deck, and a pending draw and a viewed past draw are never shown together. */
  predicate Consistent(full: seq<Card>, deck: seq<Card>, history: seq<DrawResult>,
                       current: Option<DrawResult>, viewing: Option<DrawResult>) {
    && deck == Remaining(full, history) && WellDrawn(full, history)
    && (current.Some? ==> current.value.card in deck)
    && !(current.Some? && viewing.Some?)
  }

  /** Confirming the pending draw keeps the invariant and takes exactly one card off the deck. */
  lemma ConfirmKeeps(full: seq<Card>, deck: seq<Card>, history: seq<DrawResult>,
                     drawn: DrawResult, viewing: Option<DrawResult>)
    requires IdsDistinct(full) && Consistent(full, deck, history, Some(drawn), viewing)
    ensures Consistent(full, Without(deck, drawn.card.id), [drawn] + history, None, viewing)
    ensures |Without(deck, drawn.card.id)| == |deck| - 1
  {
    Partition(full, history);
    WithoutOne(deck, drawn.card);
    var h := [drawn] + history;
    assert h[1..] == history;
  }

  /** In every consistent state the deck and the history split the twenty-two ids `ar00` ..
      `ar21` between them, and the deck has lost one card per confirmed draw. */
  lemma StatePartition(deck: seq<Card>, history: seq<DrawResult>, current: Option<DrawResult>, viewing: Option<DrawResult>)
    requires Consistent(MajorArcana(), deck, history, current, viewing)
    ensures DeckIds(deck) + HistoryIds(history) == ArcanaIdRange(22)
    ensures DeckIds(deck) * HistoryIds(history) == {}
    ensures |deck| + |history| == 22
  {
    ArcanaIdsDistinct();
    ArcanaIdSet();
    Partition(MajorArcana(), history);
  }

  /** The ids of the full deck are `ar00` .. `ar21`. */
  lemma ArcanaIdSet()
    ensures DeckIds(MajorArcana()) == ArcanaIdRange(22)
  {
    IdsOfNumbered(MajorArcana());
  }

  /** The ids `ArcanaId(k)` for `k < n`. */
  function ArcanaIdRange(n: nat): set<string> {
    set k | 0 <= k < n :: ArcanaId(k)
  }

  /** A deck whose `k`-th card has id `ArcanaId(k)` has the ids of its positions. */
  lemma IdsOfNumbered(m: seq<Card>)
    requires forall k :: 0 <= k < |m| ==> m[k].id == ArcanaId(k)
    ensures DeckIds(m) == ArcanaIdRange(|m|)
  {
    forall x | x in DeckIds(m) ensures x in ArcanaIdRange(|m|) {
      var c :| c in m && c.id == x;
      var k :| 0 <= k < |m| && m[k] == c;
    }
    forall k | 0 <= k < |m| ensures ArcanaId(k) in DeckIds(m) {
      assert m[k] in m;
    }
  }

  /** The same over the Major Arcana. */
  lemma ArcanaConfirmKeeps(deck: seq<Card>, history: seq<DrawResult>, drawn: DrawResult, viewing: Option<DrawResult>)
    requires Consistent(MajorArcana(), deck, history, Some(drawn), viewing)
    ensures Consistent(MajorArcana(), Without(deck, drawn.card.id), [drawn] + history, None, viewing)
    ensures |Without(deck, drawn.card.id)| == |deck| - 1
  {
    ArcanaIdsDistinct();
    ConfirmKeeps(MajorArcana(), deck, history, drawn, viewing);
  }

  /** The state behind `useTarot()`. */
  class TarotState {
    var deck: seq<Card>
    var history: seq<DrawResult>
    var currentCard: Option<DrawResult>
    var viewingCard: Option<DrawResult>

    predicate Valid()
      reads this
    {
      Consistent(MajorArcana(), deck, history, currentCard, viewingCard)
    }

    /** `TarotProvider`'s initial state: the full deck, nothing drawn. */
    constructor ()
      ensures Valid()
      ensures deck == MajorArcana() && history == [] && currentCard == None && viewingCard == None
    {
      deck := MajorArcana();
      history := [];
      currentCard := None;
      viewingCard := None;
    }

    /** `drawCard`, with `Math.random()` passed in as `random` and `flip` and `Date.now()` as
        `now`: on an empty deck nothing happens; otherwise the card at the random index becomes
        the pending draw, reversed when `flip < 0.5`, and any viewed draw is closed. */
    method DrawCard(random: real, flip: real, now: int) returns (r: Option<DrawResult>)
      requires Valid() && 0.0 <= random < 1.0
      modifies this
      ensures Valid()
      ensures old(deck) == [] ==> r == None && currentCard == old(currentCard) && viewingCard == old(viewingCard)
      ensures old(deck) != [] ==>
        r == Some(DrawResult(old(deck)[DrawIndex(random, |old(deck)|)], flip < 0.5, now))
        && currentCard == r && viewingCard == None
      ensures deck == old(deck) && history == old(history)
    {
      if |deck| == 0 {
        return None;
      }
      var card := deck[DrawIndex(random, |deck|)];
      var result := DrawResult(card, flip < 0.5, now);
      currentCard := Some(result);
      viewingCard := None;
      r := Some(result);
    }

    /** `confirmCard`: the pending draw goes to the front of the history and its card leaves
        the deck; without a pending draw nothing happens. */
    method ConfirmCard()
      requires Valid()
      modifies this
      ensures Valid()
      ensures old(currentCard).None? ==>
        deck == old(deck) && history == old(history) && currentCard == None && viewingCard == old(viewingCard)
      ensures old(currentCard).Some? ==>
        && history == [old(currentCard).value] + old(history)
        && deck == Without(old(deck), old(currentCard).value.card.id)
        && |deck| == |old(deck)| - 1
        && currentCard == None && viewingCard == old(viewingCard)
    {
      if currentCard.None? {
        return;
      }
      var drawn := currentCard.value;
      ArcanaConfirmKeeps(deck, history, drawn, viewingCard);
      history := [drawn] + history;
      deck := Without(deck, drawn.card.id);
      currentCard := None;
    }

    /** `resetDeck`: back to the full deck with nothing drawn, pending or viewed. */
    method ResetDeck()
      modifies this
      ensures Valid()
      ensures deck == MajorArcana() && history == [] && currentCard == None && viewingCard == None
    {
      deck := MajorArcana();
      history := [];
      currentCard := None;
      viewingCard := None;
    }

    /** `viewHistoryCard`: shows a past draw and drops the pending one. */
    method ViewHistoryCard(card: DrawResult)
      requires Valid()
      modifies this
      ensures Valid()
      ensures viewingCard == Some(card) && currentCard == None
      ensures deck == old(deck) && history == old(history)
    {
      viewingCard := Some(card);
      currentCard := None;
    }

    /** `clearViewingCard`: closes the viewed draw and changes nothing else. */
    method ClearViewingCard()
      requires Valid()
      modifies this
      ensures Valid()
      ensures viewingCard == None
      ensures deck == old(deck) && history == old(history) && currentCard == old(currentCard)
    {
      viewingCard := None;
    }
  }
}
