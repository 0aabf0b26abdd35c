/**
 * The grid controller: the list of cards, its initial construction, the
 * relayout done on window resize and on reset, and the swap of two cards
 * when one is dropped onto another.
 */
module CardGrid {
  import opened Wrappers
  import opened GridLayout

  /** One entry of the externally supplied content list. */
  datatype ContentItem = ContentItem(title: string, description: string, image: string, backColor: string)

  /** One card of the grid: a stable id, its position, and the content copied onto it. */
  datatype Card = Card(id: int, position: Position, backColor: string, frontImage: string,
                       title: string, description: string)

  /** Card `c` carries the fields of content item `item`. */
  predicate HasContent(c: Card, item: ContentItem)
  {
    c.backColor == item.backColor && c.frontImage == item.image
    && c.title == item.title && c.description == item.description
  }

  /** `c` and `c'` are the same card, except perhaps for its position. */
  predicate SameCardElsewhere(c: Card, c': Card)
  {
    c'.(position := c.position) == c
  }

  /** The positions of the cards, in list order. */
  function Positions(cards: seq<Card>): (s: seq<Position>)
    ensures |s| == |cards|
    ensures forall i :: 0 <= i < |cards| ==> s[i] == cards[i].position
  {
    seq(|cards|, i requires 0 <= i < |cards| => cards[i].position)
  }

  /** The card with list index `k` is where the builder puts it for layout `d`. */
  predicate Placed(c: Card, k: nat, d: Dimensions, cardData: seq<ContentItem>)
    requires d.cols > 0 && |cardData| > 0
  {
    c.id == k && c.position == LayoutAt(k, d) && HasContent(c, cardData[k % |cardData|])
  }

  // ---------------------------------------------------------------------
  // Initialisation
  // ---------------------------------------------------------------------

  /**
   * The initial card list: the grid is filled row by row, card ids run
   * 0, 1, 2, ... and the content list is cycled.
   */
  method InitialCards(innerWidth: int, cardData: seq<ContentItem>) returns (cards: seq<Card>)
    requires |cardData| > 0
    ensures |cards| == GridDimensions(innerWidth).rows * GridDimensions(innerWidth).cols
    ensures forall k :: 0 <= k < |cards| ==> Placed(cards[k], k, GridDimensions(innerWidth), cardData)
  {
    var d := GridDimensions(innerWidth);
    var rows, cols := d.rows, d.cols;
    cards := [];
    var cardId: nat := 0;
    var row := 0;
    while row < rows
      invariant 0 <= row <= rows
      invariant cardId == row * cols && |cards| == cardId
      invariant forall k :: 0 <= k < |cards| ==> Placed(cards[k], k, d, cardData)
    {
      var col := 0;
      while col < cols
        invariant 0 <= col <= cols
        invariant cardId == row * cols + col && |cards| == cardId
        invariant forall k :: 0 <= k < |cards| ==> Placed(cards[k], k, d, cardData)
      {
        var dataIndex := cardId % |cardData|;
        var item := cardData[dataIndex];
        SlotOfIndex(row, col, cols);
        cards := cards + [Card(cardId, SlotPosition(row, col, d), item.backColor, item.image,
                               item.title, item.description)];
        cardId := cardId + 1;
        col := col + 1;
      }
      row := row + 1;
    }
  }

  // ---------------------------------------------------------------------
  // Resize and reset
  // ---------------------------------------------------------------------

  /**
   * Every card moves to the slot of its list index under layout `d`; its
   * id and content stay.
   */
  function Relayout(cards: seq<Card>, d: Dimensions): (r: seq<Card>)
    requires d.cols > 0
    ensures |r| == |cards|
    ensures forall i :: 0 <= i < |r| ==> SameCardElsewhere(cards[i], r[i])
    ensures Positions(r) == Slots(d, |cards|)
  {
    seq(|cards|, i requires 0 <= i < |cards| => cards[i].(position := LayoutAt(i, d)))
  }

  /** Laying out twice is laying out once. */
  lemma RelayoutIdempotent(cards: seq<Card>, d: Dimensions)
    requires d.cols > 0
    ensures Relayout(Relayout(cards, d), d) == Relayout(cards, d)
  {
    var once := Relayout(cards, d);
    var twice := Relayout(once, d);
    assert forall i :: 0 <= i < |once| ==> twice[i] == once[i] by {
      forall i | 0 <= i < |once| ensures twice[i] == once[i] {
        assert twice[i].position == Positions(twice)[i] == Slots(d, |cards|)[i] == Positions(once)[i];
      }
    }
  }

  /** A list already in grid order is left as it is by a relayout. */
  lemma RelayoutKeepsGridOrder(cards: seq<Card>, d: Dimensions)
    requires d.cols > 0
    requires forall k :: 0 <= k < |cards| ==> cards[k].position == LayoutAt(k, d)
    ensures Relayout(cards, d) == cards
  {
    var r := Relayout(cards, d);
    forall i | 0 <= i < |cards| ensures r[i] == cards[i] {
      assert r[i].position == Positions(r)[i] == Slots(d, |cards|)[i];
    }
  }

  /** Resting cards sit on grid slots, so they lie in the plane z = 0. */
  lemma SlotPermutationLiesFlat(cards: seq<Card>, d: Dimensions)
    requires d.cols > 0
    requires multiset(Positions(cards)) == multiset(Slots(d, |cards|))
    ensures forall i :: 0 <= i < |cards| ==> cards[i].position.z == 0.0
  {
    var slots := Slots(d, |cards|);
    forall i | 0 <= i < |cards| ensures cards[i].position.z == 0.0 {
      var q := Positions(cards)[i];
      assert q in multiset(Positions(cards));
      assert q in slots;
      var k :| 0 <= k < |slots| && slots[k] == q;
      assert q == LayoutAt(k, d);
    }
  }

  // ---------------------------------------------------------------------
  // Swap on drop
  // ---------------------------------------------------------------------

  /** Squared distance in the XY plane; z is ignored. */
  function DistanceSquared(p: Position, q: Position): (r: real)
    ensures r >= 0.0
  {
    (p.x - q.x) * (p.x - q.x) + (p.y - q.y) * (p.y - q.y)
  }

  /**
   * A drop swaps when the nearest other card is closer than 2.0; on the
   * squared distance the bound is 2.0 * 2.0.
   */
  const SwapThresholdSquared: real := 4.0

  /**
   * Among the first `n` cards, `j` is the card other than `cardIndex`
   * nearest to `p`, and the first one at that distance.
   */
  ghost predicate IsNearest(cards: seq<Card>, cardIndex: nat, p: Position, j: nat, n: nat)
    requires n <= |cards|
  {
    && j < n && j != cardIndex
    && (forall k :: 0 <= k < n && k != cardIndex ==>
          DistanceSquared(p, cards[j].position) <= DistanceSquared(p, cards[k].position))
    && (forall k :: 0 <= k < j && k != cardIndex ==>
          DistanceSquared(p, cards[j].position) < DistanceSquared(p, cards[k].position))
  }

  /** There is at least one card other than `cardIndex` among the first `n`. */
  predicate HasOther(cardIndex: nat, n: nat)
  {
    n >= 2 || (n == 1 && cardIndex != 0)
  }

  /**
   * The scan over the first `n` cards: the nearest card other than
   * `cardIndex`, keeping the earlier card on a tie.
   */
  function NearestAmong(cards: seq<Card>, cardIndex: nat, p: Position, n: nat): (r: Option<nat>)
    requires n <= |cards|
    ensures r.Some? <==> HasOther(cardIndex, n)
    ensures r.Some? ==> IsNearest(cards, cardIndex, p, r.value, n)
    decreases n
  {
    if n == 0 then None
    else
      var best := NearestAmong(cards, cardIndex, p, n - 1);
      var k := n - 1;
      if k == cardIndex then best
      else if best.None? || DistanceSquared(p, cards[k].position) < DistanceSquared(p, cards[best.value].position)
      then Some(k)
      else best
  }

  /** The nearest card other than `cardIndex`, if there is another card. */
  function Nearest(cards: seq<Card>, cardIndex: nat, p: Position): (r: Option<nat>)
    ensures r.Some? <==> HasOther(cardIndex, |cards|)
    ensures r.Some? ==> IsNearest(cards, cardIndex, p, r.value, |cards|)
  {
    NearestAmong(cards, cardIndex, p, |cards|)
  }

  /** At most one card is the nearest: ties are broken by the lowest index. */
  lemma NearestIsUnique(cards: seq<Card>, cardIndex: nat, p: Position, j1: nat, j2: nat)
    requires IsNearest(cards, cardIndex, p, j1, |cards|)
    requires IsNearest(cards, cardIndex, p, j2, |cards|)
    ensures j1 == j2
  {
    var d1, d2 := DistanceSquared(p, cards[j1].position), DistanceSquared(p, cards[j2].position);
    assert d1 <= d2 && d2 <= d1;
    assert j1 < j2 ==> d2 < d1;
    assert j2 < j1 ==> d1 < d2;
  }

  /** The card a drop of card `cardIndex` at `p` is swapped with, if any. */
  function SwapPartner(cards: seq<Card>, cardIndex: nat, p: Position): (r: Option<nat>)
    ensures r.Some? ==> && IsNearest(cards, cardIndex, p, r.value, |cards|)
                        && DistanceSquared(p, cards[r.value].position) < SwapThresholdSquared
  {
    match Nearest(cards, cardIndex, p)
    case Some(j) => if DistanceSquared(p, cards[j].position) < SwapThresholdSquared then Some(j) else None
    case None => None
  }

  /** The two cards `i` and `j` exchange positions; nothing else changes. */
  function ExchangePositions(cards: seq<Card>, i: nat, j: nat): (r: seq<Card>)
    requires i < |cards| && j < |cards|
    ensures |r| == |cards|
    ensures r[i].position == cards[j].position && r[j].position == cards[i].position
    ensures forall k :: 0 <= k < |cards| ==> SameCardElsewhere(cards[k], r[k])
    ensures forall k :: 0 <= k < |cards| && k != i && k != j ==> r[k] == cards[k]
  {
    cards[j := cards[j].(position := cards[i].position)][i := cards[i].(position := cards[j].position)]
  }

  /**
   * The card list after card `cardIndex` was dropped at `p`: it swaps
   * places with the nearest other card when that card is closer than 2.0,
   * and otherwise nothing changes.  `p` itself is stored nowhere.
   */
  function SwapOnDrop(cards: seq<Card>, cardIndex: nat, p: Position): (r: seq<Card>)
    requires cardIndex < |cards|
    ensures |r| == |cards|
    ensures forall k :: 0 <= k < |cards| ==> SameCardElsewhere(cards[k], r[k])
    ensures forall k :: 0 <= k < |cards| && k != cardIndex && r[k] != cards[k] ==>
              SwapPartner(cards, cardIndex, p) == Some(k)
  {
    match SwapPartner(cards, cardIndex, p)
    case Some(j) => ExchangePositions(cards, cardIndex, j)
    case None => cards
  }

  /** A drop swaps exactly when some other card lies closer than 2.0 to the drop point. */
  lemma SwapPartnerExists(cards: seq<Card>, cardIndex: nat, p: Position)
    requires cardIndex < |cards|
    ensures SwapPartner(cards, cardIndex, p).Some?
            <==> exists k :: 0 <= k < |cards| && k != cardIndex
                             && DistanceSquared(p, cards[k].position) < SwapThresholdSquared
  {
    var near := Nearest(cards, cardIndex, p);
    if k :| 0 <= k < |cards| && k != cardIndex && DistanceSquared(p, cards[k].position) < SwapThresholdSquared {
      assert HasOther(cardIndex, |cards|);
      assert DistanceSquared(p, cards[near.value].position) <= DistanceSquared(p, cards[k].position);
    }
  }

  /**
   * When `j` is the nearest other card and closer than 2.0, the dragged
   * card and `j` exchange their positions from before the drop, whatever
   * the drop point, and every other card is unchanged.
   */
  lemma SwapExchanges(cards: seq<Card>, cardIndex: nat, p: Position, j: nat)
    requires cardIndex < |cards|
    requires IsNearest(cards, cardIndex, p, j, |cards|)
    requires DistanceSquared(p, cards[j].position) < SwapThresholdSquared
    ensures var r := SwapOnDrop(cards, cardIndex, p);
            && |r| == |cards|
            && r[cardIndex].position == cards[j].position
            && r[j].position == cards[cardIndex].position
            && (forall k :: 0 <= k < |cards| && k != cardIndex && k != j ==> r[k] == cards[k])
  {
    NearestIsUnique(cards, cardIndex, p, Nearest(cards, cardIndex, p).value, j);
  }

  /** When no other card lies closer than 2.0 (exactly 2.0 included), the list comes back unchanged. */
  lemma NoSwapWhenFar(cards: seq<Card>, cardIndex: nat, p: Position)
    requires cardIndex < |cards|
    requires forall k :: 0 <= k < |cards| && k != cardIndex ==>
               DistanceSquared(p, cards[k].position) >= SwapThresholdSquared
    ensures SwapOnDrop(cards, cardIndex, p) == cards
  {
    SwapPartnerExists(cards, cardIndex, p);
  }

  /**
   * A drop never adds or removes cards, keeps every card's id and content
   * at its list index, and only permutes the positions.
   */
  lemma SwapOnDropPermutesPositions(cards: seq<Card>, cardIndex: nat, p: Position)
    requires cardIndex < |cards|
    ensures var r := SwapOnDrop(cards, cardIndex, p);
            && |r| == |cards|
            && (forall k :: 0 <= k < |cards| ==> SameCardElsewhere(cards[k], r[k]))
            && multiset(Positions(r)) == multiset(Positions(cards))
  {
    var partner := SwapPartner(cards, cardIndex, p);
    if partner.Some? {
      var j := partner.value;
      var r := ExchangePositions(cards, cardIndex, j);
      var s := Positions(cards);
      assert Positions(r) == s[j := s[cardIndex]][cardIndex := s[j]];
    }
  }

  /**
   * The controller's invariant: ten cards, card `i` with id `i` and
   * content item `i` (cycled), and the positions a permutation of the
   * slots of `layout`.
   */
  ghost predicate WellFormed(cards: seq<Card>, cardData: seq<ContentItem>, layout: Dimensions)
  {
    && |cardData| > 0 && layout.cols > 0
    && |cards| == layout.rows * layout.cols == CardCount
    && (forall i :: 0 <= i < |cards| ==>
          cards[i].id == i && HasContent(cards[i], cardData[i % |cardData|]))
    && multiset(Positions(cards)) == multiset(Slots(layout, |cards|))
  }

  /** A drop keeps the controller's invariant. */
  lemma SwapOnDropKeepsWellFormed(cards: seq<Card>, cardData: seq<ContentItem>, layout: Dimensions,
                                  cardIndex: nat, p: Position)
    requires WellFormed(cards, cardData, layout) && cardIndex < |cards|
    ensures WellFormed(SwapOnDrop(cards, cardIndex, p), cardData, layout)
  {
    SwapOnDropPermutesPositions(cards, cardIndex, p);
  }

  /** Dragging the card at (0, 0) to (4.9, 0) next to a card at (5, 0) swaps the two. */
  lemma SwapScenario(a: Card, b: Card)
    requires a.position == Position(0.0, 0.0, 0.0) && b.position == Position(5.0, 0.0, 0.0)
    ensures SwapOnDrop([a, b], 0, Position(4.9, 0.0, 0.0)) == [a.(position := b.position), b.(position := a.position)]
  {
  }

  /** A drop exactly 2.0 away from the nearest other card does not swap. */
  lemma BoundaryScenario(a: Card, b: Card)
    requires a.position == Position(0.0, 0.0, 0.0) && b.position == Position(5.0, 0.0, 0.0)
    ensures SwapOnDrop([a, b], 0, Position(3.0, 0.0, 0.0)) == [a, b]
  {
  }

  /**
   * The drop handler as the controller runs it: copy the list into an
   * array, scan it for the nearest other card, and exchange the two
   * positions in the copy when that card is closer than 2.0.
   */
  method HandleDrop(prevCards: seq<Card>, cardIndex: nat, newPosition: Position) returns (newCards: seq<Card>)
    requires cardIndex < |prevCards|
    ensures newCards == SwapOnDrop(prevCards, cardIndex, newPosition)
  {
    var a := new Card[|prevCards|](i requires 0 <= i < |prevCards| => prevCards[i]);
    var draggedCard := a[cardIndex];

    // `found` is false while the minimum distance is still infinite
    var closestIndex: nat := 0;
    var found := false;
    var minDistanceSquared := 0.0;
    var index := 0;
    while index < a.Length
      invariant 0 <= index <= a.Length
      invariant a[..] == prevCards
      invariant found ==> NearestAmong(prevCards, cardIndex, newPosition, index) == Some(closestIndex)
      invariant !found ==> NearestAmong(prevCards, cardIndex, newPosition, index) == None
      invariant found ==> closestIndex < a.Length
                          && minDistanceSquared == DistanceSquared(newPosition, prevCards[closestIndex].position)
    {
      if index != cardIndex {
        var distanceSquared := DistanceSquared(newPosition, a[index].position);
        if !found || distanceSquared < minDistanceSquared {
          minDistanceSquared := distanceSquared;
          closestIndex := index;
          found := true;
        }
      }
      index := index + 1;
    }

    if found && minDistanceSquared < SwapThresholdSquared {
      var targetCard := a[closestIndex];
      var tempPosition := targetCard.position;
      a[closestIndex] := targetCard.(position := draggedCard.position);
      a[cardIndex] := draggedCard.(position := tempPosition);
    }
    newCards := a[..];
  }

  /** A card list's entry at index `k` is fixed by `Placed`, so reset rebuilds the initial list. */
  lemma PlacedIsUnique(c1: Card, c2: Card, k: nat, d: Dimensions, cardData: seq<ContentItem>)
    requires d.cols > 0 && |cardData| > 0
    requires Placed(c1, k, d, cardData) && Placed(c2, k, d, cardData)
    ensures c1 == c2
  {
  }

  /** Two lists whose every entry is `Placed` at its index are the same list. */
  lemma PlacedListsEqual(a: seq<Card>, b: seq<Card>, d: Dimensions, cardData: seq<ContentItem>)
    requires d.cols > 0 && |cardData| > 0 && |a| == |b|
    requires forall k :: 0 <= k < |a| ==> Placed(a[k], k, d, cardData) && Placed(b[k], k, d, cardData)
    ensures a == b
  {
    forall k | 0 <= k < |a| ensures a[k] == b[k] {
      PlacedIsUnique(a[k], b[k], k, d, cardData);
    }
  }

  // ---------------------------------------------------------------------
  // The controller's state
  // ---------------------------------------------------------------------

  /**
   * The grid controller: the card list, the flip-reset token handed to
   * every card, and, as a ghost, the layout whose slots the resting cards
   * occupy.  Every operation keeps each card's id and content at its list
   * index and keeps the positions a permutation of that layout's slots.
   */
  class Grid {
    const cardData: seq<ContentItem>
    var cards: seq<Card>
    var resetFlipTrigger: int
    ghost var layout: Dimensions

    ghost predicate Valid()
      reads this
    {
      WellFormed(cards, cardData, layout)
    }

    /** The controller as mounted in a window of inner width `innerWidth`. */
    constructor (innerWidth: int, cardData: seq<ContentItem>)
      requires |cardData| > 0
      ensures Valid() && this.cardData == cardData && resetFlipTrigger == 0
      ensures layout == GridDimensions(innerWidth)
      ensures forall k :: 0 <= k < |cards| ==> Placed(cards[k], k, layout, cardData)
    {
      var initial := InitialCards(innerWidth, cardData);
      this.cardData := cardData;
      cards := initial;
      resetFlipTrigger := 0;
      layout := GridDimensions(innerWidth);
      new;
      assert Positions(cards) == Slots(layout, |cards|);
    }

    /** The window was resized: every card moves to its slot in the new layout. */
    method HandleResize(innerWidth: int)
      requires Valid()
      modifies this
      ensures Valid()
      ensures cards == Relayout(old(cards), GridDimensions(innerWidth))
      ensures layout == GridDimensions(innerWidth) && resetFlipTrigger == old(resetFlipTrigger)
    {
      cards := Relayout(cards, GridDimensions(innerWidth));
      layout := GridDimensions(innerWidth);
    }

    /**
     * The reset control: every card moves back to its slot, which rebuilds
     * exactly the list a fresh controller would build, and the flip-reset
     * token moves on by one.
     */
    method ResetCards(innerWidth: int)
      requires Valid()
      modifies this
      ensures Valid()
      ensures cards == Relayout(old(cards), GridDimensions(innerWidth))
      ensures forall k :: 0 <= k < |cards| ==> Placed(cards[k], k, GridDimensions(innerWidth), cardData)
      ensures layout == GridDimensions(innerWidth)
      ensures resetFlipTrigger == old(resetFlipTrigger) + 1
    {
      cards := Relayout(cards, GridDimensions(innerWidth));
      layout := GridDimensions(innerWidth);
      assert forall k :: 0 <= k < |cards| ==> cards[k].position == Positions(cards)[k];
      resetFlipTrigger := resetFlipTrigger + 1;
    }

    /** Card `cardIndex` was dropped at `newPosition`. */
    method HandleCardPositionChange(cardIndex: nat, newPosition: Position)
      requires Valid() && cardIndex < |cards|
      modifies this
      ensures Valid()
      ensures cards == SwapOnDrop(old(cards), cardIndex, newPosition)
      ensures layout == old(layout) && resetFlipTrigger == old(resetFlipTrigger)
    {
      var newCards := HandleDrop(cards, cardIndex, newPosition);
      SwapOnDropKeepsWellFormed(cards, cardData, layout, cardIndex, newPosition);
      cards := newCards;
    }

    /** Resting cards lie in the plane z = 0. */
    lemma RestingCardsLieFlat()
      requires Valid()
      ensures forall i :: 0 <= i < |cards| ==> cards[i].position.z == 0.0
    {
      SlotPermutationLiesFlat(cards, layout);
    }
  }

  /**
   * Whatever was dropped where, and whatever the window did meanwhile, a
   * reset leaves the controller with exactly the list a controller mounted
   * at the reset's width would start with.
   */
  method ResetRestoresInitialList(mountWidth: int, resetWidth: int, cardData: seq<ContentItem>,
                                  cardIndex: nat, newPosition: Position)
    returns (afterReset: seq<Card>, initial: seq<Card>)
    requires |cardData| > 0 && cardIndex < CardCount
    ensures afterReset == initial
  {
    var grid := new Grid(mountWidth, cardData);
    grid.HandleCardPositionChange(cardIndex, newPosition);
    grid.ResetCards(resetWidth);
    afterReset := grid.cards;
    initial := InitialCards(resetWidth, cardData);
    PlacedListsEqual(afterReset, initial, GridDimensions(resetWidth), cardData);
  }
}
