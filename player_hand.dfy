/**
 * The player hand of Bombs and Bunnies: it shows the hand's cards in ascending order
 * (a sorted copy; the hand itself is left as it is) in a container whose width grows
 * with the hand, and reports clicks to an optional `selectCard` callback. The fan
 * geometry of each card is not modelled.
 */
module PlayerHand {
  import opened Wrappers

  /** The CardType enum, numbered in declaration order: Bunny = 0, Bomb = 1. */
  type CardType = int
  const BUNNY: CardType := 0
  const BOMB: CardType := 1

  /** Which card component is drawn. */
  datatype CardKind = BunnyCard | BombCard

  /** One drawn card: its component, the index its click reports, whether it is selectable. */
  datatype CardView = CardView(kind: CardKind, clickIndex: nat, selectable: bool)

  /** What `renderCards` draws: the "No Cards left..." title, or the cards in a container. */
  datatype HandView = NoCardsLeft | Cards(width: int, cards: seq<CardView>)

  /** `_selectCard`: the index passed on to `selectCard`, or nothing when there is no callback. */
  function SelectCard(hasSelectCard: bool, handIndex: int): (forwarded: Option<int>)
    ensures forwarded.Some? <==> hasSelectCard
    ensures forwarded.Some? ==> forwarded.value == handIndex
  {
    if !hasSelectCard then None else Some(handIndex)
  }

  predicate IsSorted(s: seq<CardType>) {
    forall i, j :: 0 <= i < j < |s| ==> s[i] <= s[j]
  }

  /** Places `card` into the sorted `s`. */
  function Insert(card: CardType, s: seq<CardType>): (r: seq<CardType>)
    requires IsSorted(s)
    ensures IsSorted(r) && multiset(r) == multiset(s) + multiset{card} && |r| == |s| + 1
    ensures r[0] == card || (s != [] && r[0] == s[0])
  {
    if s == [] || card <= s[0] then [card] + s
    else
      var rest := Insert(card, s[1..]);
      assert s == [s[0]] + s[1..];
      assert s[0] <= rest[0];
      [s[0]] + rest
  }

  /** `[...hand].sort((a, b) => a - b)`: the hand in ascending order. */
  function Sorted(hand: seq<CardType>): (r: seq<CardType>)
    ensures IsSorted(r) && multiset(r) == multiset(hand) && |r| == |hand|
  {
    if hand == [] then []
    else
      assert hand == [hand[0]] + hand[1..];
      Insert(hand[0], Sorted(hand[1..]))
  }

  /** The smallest element of a sorted sequence is its first. */
  lemma SortedHeadIsLeast(s: seq<CardType>, x: CardType)
    requires IsSorted(s) && x in multiset(s)
    ensures s != [] && s[0] <= x
  {
    var i :| 0 <= i < |s| && s[i] == x;
  }

  /**
   * There is only one ascending arrangement of a hand, so any sort with the comparator
   * `a - b` produces `Sorted(hand)`.
   */
  lemma {:induction false} SortedIsUnique(a: seq<CardType>, b: seq<CardType>)
    requires IsSorted(a) && IsSorted(b) && multiset(a) == multiset(b)
    ensures a == b
  {
    if a != [] {
      assert a[0] in multiset(a);
      SortedHeadIsLeast(b, a[0]);
      assert b[0] in multiset(b);
      SortedHeadIsLeast(a, b[0]);
      assert a[0] == b[0];
      assert a == [a[0]] + a[1..] && b == [b[0]] + b[1..];
      assert multiset(a) == multiset{a[0]} + multiset(a[1..]);
      assert multiset(b) == multiset{b[0]} + multiset(b[1..]);
      assert multiset(a[1..]) == multiset(a) - multiset{a[0]};
      assert multiset(b[1..]) == multiset(b) - multiset{b[0]};
      SortedIsUnique(a[1..], b[1..]);
    } else {
      assert |multiset(b)| == 0;
    }
  }

  /** Sorting an already ascending hand leaves it as it is. */
  lemma SortedOfSortedHand(hand: seq<CardType>)
    requires IsSorted(hand)
    ensures Sorted(hand) == hand
  {
    SortedIsUnique(Sorted(hand), hand);
  }

  /** `renderCard` (without its geometry): the bunny component exactly for bunnies. */
  function RenderCard(card: CardType, index: nat, hasSelectCard: bool): (v: CardView)
    ensures v.kind == BunnyCard <==> card == BUNNY
    ensures v.clickIndex == index && v.selectable == hasSelectCard
  {
    if card == BUNNY then CardView(BunnyCard, index, hasSelectCard)
    else CardView(BombCard, index, hasSelectCard)
  }

  /** `renderHand`: one card per element of the sorted copy, numbered by sorted position. */
  function RenderHand(hand: seq<CardType>, hasSelectCard: bool): (cards: seq<CardView>)
    ensures |cards| == |hand|
    ensures forall i :: 0 <= i < |cards| ==>
      cards[i] == RenderCard(Sorted(hand)[i], i, hasSelectCard)
  {
    var sorted := Sorted(hand);
    seq(|sorted|, i requires 0 <= i < |sorted| => RenderCard(sorted[i], i, hasSelectCard))
  }

  /** `renderCards`: the title for an empty hand; otherwise the cards, 40 units per card plus 80. */
  function RenderCards(hand: seq<CardType>, hasSelectCard: bool): (view: HandView)
    ensures view == NoCardsLeft <==> hand == []
    ensures view.Cards? ==> view.width == 40 * |hand| + 80 && view.cards == RenderHand(hand, hasSelectCard)
  {
    if |hand| == 0 then NoCardsLeft
    else Cards(|hand| * 40 + 80, RenderHand(hand, hasSelectCard))
  }

  /** The bunnies are drawn first, then the bombs, and as many of each as the hand holds. */
  lemma BunniesDrawnFirst(hand: seq<CardType>, i: nat, j: nat)
    requires forall k :: 0 <= k < |hand| ==> hand[k] == BUNNY || hand[k] == BOMB
    requires i < j < |hand|
    ensures var cards := RenderHand(hand, false);
      cards[j].kind == BunnyCard ==> cards[i].kind == BunnyCard
  {
    var s := Sorted(hand);
    assert s[j] in multiset(hand) && s[i] in multiset(hand);
  }

  /** A click on the `i`-th drawn card reports `i`, its place in the sorted order. */
  lemma ClickReportsSortedIndex(hand: seq<CardType>, i: nat)
    requires i < |hand|
    ensures SelectCard(true, RenderHand(hand, true)[i].clickIndex) == Some(i)
  {
  }

  /**
   * The reported index is not the card's index in the hand: in the hand [Bomb, Bunny]
   * the bomb (hand index 0) is drawn second and its click reports 1.
   */
  lemma ReportedIndexIsNotHandIndex()
    ensures RenderHand([BOMB, BUNNY], true) == [CardView(BunnyCard, 0, true), CardView(BombCard, 1, true)]
  {
    assert Sorted([BUNNY]) == [BUNNY];
    assert Sorted([BOMB, BUNNY]) == [BUNNY, BOMB];
  }
}
