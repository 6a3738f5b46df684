/** The tool catalogue: the search filter, each card's availability badge and image. */
module ToolsPage {
  import opened Wrappers
  import Text
  import ClientUtils

  /** A tool as the catalogue reads it. */
  datatype Card = Card(id: string, name: string, description: string, quantityAvailable: int, images: seq<string>)

  /** A card is kept when its lower-cased name or description contains the lower-cased search. */
  predicate Keeps(c: Card, search: string)
  {
    Text.Contains(Text.Lower(c.name), Text.Lower(search))
    || Text.Contains(Text.Lower(c.description), Text.Lower(search))
  }

  /** `a` is `b` with some elements left out, the rest in their order. */
  predicate SubsequenceOf(a: seq<Card>, b: seq<Card>)
    decreases |b|
  {
    if a == [] then true
    else if b == [] then false
    else if a[0] == b[0] then SubsequenceOf(a[1..], b[1..])
    else SubsequenceOf(a, b[1..])
  }

  function Filter(cards: seq<Card>, search: string): (r: seq<Card>)
    ensures |r| <= |cards|
    ensures forall i :: 0 <= i < |r| ==> r[i] in cards && Keeps(r[i], search)
    ensures forall i :: 0 <= i < |cards| && Keeps(cards[i], search) ==> cards[i] in r
    ensures forall c :: multiset(r)[c] == if Keeps(c, search) then multiset(cards)[c] else 0
  {
    if cards == [] then []
    else
      assert cards == [cards[0]] + cards[1..];
      if Keeps(cards[0], search) then [cards[0]] + Filter(cards[1..], search)
      else Filter(cards[1..], search)
  }

  /** The filtered list keeps the catalogue's order. */
  lemma {:induction false} FilterIsSubsequence(cards: seq<Card>, search: string)
    ensures SubsequenceOf(Filter(cards, search), cards)
  {
    if cards != [] {
      FilterIsSubsequence(cards[1..], search);
      if !Keeps(cards[0], search) {
        SkipHead(Filter(cards[1..], search), cards);
      }
    }
  }

  /** Dropping the first element of `b` never helps: a subsequence of its tail is one of `b`. */
  lemma {:induction false} SkipHead(a: seq<Card>, b: seq<Card>)
    requires b != [] && SubsequenceOf(a, b[1..])
    ensures SubsequenceOf(a, b)
    decreases 2 * |b|
  {
    if a != [] && a[0] == b[0] {
      SubsequenceDropHead(a, b[1..]);
    }
  }

  lemma {:induction false} SubsequenceDropHead(a: seq<Card>, b: seq<Card>)
    requires a != [] && SubsequenceOf(a, b)
    ensures SubsequenceOf(a[1..], b)
    decreases 2 * |b| + 1
  {
    if b != [] {
      if a[0] == b[0] {
        SkipHead(a[1..], b);
      } else {
        SubsequenceDropHead(a, b[1..]);
        SkipHead(a[1..], b);
      }
    }
  }

  /** The empty string occurs in every string, so an empty search keeps the whole catalogue. */
  lemma {:induction false} EmptySearchKeepsAll(cards: seq<Card>)
    ensures Filter(cards, "") == cards
  {
    if cards != [] {
      assert Text.Lower("") == "";
      assert Text.OccursAt(Text.Lower(cards[0].name), "", 0);
      EmptySearchKeepsAll(cards[1..]);
    }
  }

  /** The badge: ACTIVE while any unit is available. */
  function Badge(c: Card): (b: string)
    ensures b == "ACTIVE" <==> c.quantityAvailable > 0
    ensures b == "OFFLINE" <==> c.quantityAvailable <= 0
  {
    if c.quantityAvailable > 0 then "ACTIVE" else "OFFLINE"
  }

  /** The card's picture: the first image resolved against the API base, when there is one. */
  function CardImage(c: Card, env: Option<string>): (src: Option<string>)
    ensures src.None? <==> c.images == []
    ensures src.Some? ==> src.value == ClientUtils.ImageUrl(Some(c.images[0]), env)
  {
    if |c.images| > 0 then Some(ClientUtils.ImageUrl(Some(c.images[0]), env)) else None
  }
}
