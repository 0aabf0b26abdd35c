/**
 * The grid controller and its card views wired together.  Every render
 * of the controller hands view `i` the list index `i`, the position of
 * card `i` and the flip-reset token; a view reports the end of a drag to
 * the controller, which then renders again.
 */
module Scene {
  import opened Wrappers
  import opened GridLayout
  import opened CardGrid
  import opened Card

  /**
   * One view per card, view `i` showing list index `i`; so no view appears
   * twice.
   */
  predicate ViewsOf(views: seq<CardView>)
  {
    && |views| == CardCount
    && (forall i :: 0 <= i < |views| ==> views[i].cardIndex == i)
  }

  /** Every view keeps its invariant. */
  ghost predicate AllValid(views: seq<CardView>)
    reads views
  {
    forall i :: 0 <= i < |views| ==> views[i].Valid()
  }

  /** View `i` holds the props `cards[i].position` and `token`. */
  ghost predicate Shows(views: seq<CardView>, cards: seq<CardGrid.Card>, token: int)
    reads views
  {
    && |views| == |cards|
    && (forall i :: 0 <= i < |views| ==>
          views[i].position == cards[i].position && views[i].resetFlip == Some(token))
  }

  /** Every view holds the props of the controller's latest render. */
  ghost predicate Rendered(grid: Grid, views: seq<CardView>)
    reads grid, views
  {
    ViewsOf(views) && AllValid(views) && Shows(views, grid.cards, grid.resetFlipTrigger)
  }

  /**
   * The controller renders with its cards `cards` and its token `token`:
   * view `i` gets the position of card `i` and the token.  A view not
   * being dragged moves to its new position; a view whose token changed
   * turns to its front.  Nothing else of any view changes.
   */
  method Render(cards: seq<CardGrid.Card>, token: int, views: seq<CardView>)
    requires ViewsOf(views) && AllValid(views) && |cards| == |views|
    modifies views
    ensures AllValid(views) && Shows(views, cards, token)
    ensures forall i :: 0 <= i < |views| ==>
              && views[i].isDragging == old(views[i].isDragging)
              && views[i].memo == old(views[i].memo)
              && views[i].hovered == old(views[i].hovered)
              && (views[i].isDragging ==> views[i].meshPosition == old(views[i].meshPosition))
    ensures forall i :: 0 <= i < |views| ==>
              if old(views[i].resetFlip) == Some(token)
              then views[i].isFlipped == old(views[i].isFlipped) && views[i].rotationY == old(views[i].rotationY)
              else !views[i].isFlipped && views[i].rotationY == 0.0
  {
    var n := 0;
    while n < |views|
      modifies views
      invariant 0 <= n <= |views|
      invariant AllValid(views)
      invariant forall i :: 0 <= i < n ==>
                  views[i].position == cards[i].position && views[i].resetFlip == Some(token)
      invariant forall i :: 0 <= i < |views| ==>
                  && views[i].isDragging == old(views[i].isDragging)
                  && views[i].memo == old(views[i].memo)
                  && views[i].hovered == old(views[i].hovered)
                  && (views[i].isDragging ==> views[i].meshPosition == old(views[i].meshPosition))
      invariant forall i :: 0 <= i < n ==>
                  if old(views[i].resetFlip) == Some(token)
                  then views[i].isFlipped == old(views[i].isFlipped) && views[i].rotationY == old(views[i].rotationY)
                  else !views[i].isFlipped && views[i].rotationY == 0.0
      invariant forall i :: n <= i < |views| ==>
                  && views[i].resetFlip == old(views[i].resetFlip)
                  && views[i].isFlipped == old(views[i].isFlipped)
                  && views[i].rotationY == old(views[i].rotationY)
    {
      var view := views[n];
      assert forall i :: 0 <= i < |views| && i != n ==> views[i] != view;
      view.SetPosition(cards[n].position);
      view.SetResetFlip(Some(token));
      n := n + 1;
    }
  }

  /**
   * A view's drag ends: it reports where it was let go, and the controller
   * swaps that card with the nearest card when it is close enough.
   */
  method ReportDrop(grid: Grid, view: CardView, movementX: real, movementY: real, v: Viewport)
    requires grid.Valid() && view.Valid() && view.cardIndex < |grid.cards|
    modifies grid, view`isDragging, view`memo, view`meshPosition
    ensures grid.Valid() && view.Valid() && !view.isDragging
    ensures grid.cards == SwapOnDrop(old(grid.cards), view.cardIndex,
                                     Position(old(view.meshPosition).x, old(view.meshPosition).y, 0.0))
    ensures grid.resetFlipTrigger == old(grid.resetFlipTrigger) && grid.layout == old(grid.layout)
  {
    ghost var dropPoint := Position(view.meshPosition.x, view.meshPosition.y, 0.0);
    var report := view.OnDrag(false, movementX, movementY, v);
    match report
    case Some(drop) =>
      assert drop.cardIndex == view.cardIndex && drop.position == dropPoint;
      grid.HandleCardPositionChange(drop.cardIndex, drop.position);
    case None =>
      assert false;
  }

  /**
   * The drag of view `n` ends: the drop is reported, and the next render
   * hands every view its card's position, so view `n` comes to rest at the
   * slot the swap left for its card.
   */
  method EndDrag(grid: Grid, views: seq<CardView>, n: nat, movementX: real, movementY: real, v: Viewport)
    requires grid.Valid() && Rendered(grid, views) && n < |views|
    modifies grid, views
    ensures grid.Valid() && Rendered(grid, views)
    ensures grid.cards == SwapOnDrop(old(grid.cards), n,
                                     Position(old(views[n].meshPosition).x, old(views[n].meshPosition).y, 0.0))
    ensures grid.resetFlipTrigger == old(grid.resetFlipTrigger) && grid.layout == old(grid.layout)
    ensures !views[n].isDragging && views[n].meshPosition == grid.cards[n].position
  {
    var view := views[n];
    assert forall i :: 0 <= i < |views| && i != n ==> views[i] != view;
    ReportDrop(grid, view, movementX, movementY, v);
    assert AllValid(views);
    Render(grid.cards, grid.resetFlipTrigger, views);
  }

  /**
   * The reset control: the controller relays the cards and moves its
   * token on, and the next render turns every view to its front and moves
   * every view not being dragged to its relaid slot.
   */
  method ResetAll(grid: Grid, views: seq<CardView>, innerWidth: int)
    requires grid.Valid() && Rendered(grid, views)
    modifies grid, views
    ensures grid.Valid() && Rendered(grid, views)
    ensures grid.resetFlipTrigger == old(grid.resetFlipTrigger) + 1
    ensures forall k :: 0 <= k < |grid.cards| ==>
              Placed(grid.cards[k], k, GridDimensions(innerWidth), grid.cardData)
    ensures forall i :: 0 <= i < |views| ==>
              && views[i].RenderedFace() == Front && views[i].rotationY == 0.0
              && views[i].isDragging == old(views[i].isDragging)
              && views[i].memo == old(views[i].memo)
              && views[i].hovered == old(views[i].hovered)
              && (views[i].isDragging ==> views[i].meshPosition == old(views[i].meshPosition))
              && (!views[i].isDragging ==> views[i].meshPosition == LayoutAt(i, GridDimensions(innerWidth)))
  {
    grid.ResetCards(innerWidth);
    assert forall i :: 0 <= i < |grid.cards| ==> grid.cards[i].position == LayoutAt(i, GridDimensions(innerWidth));
    Render(grid.cards, grid.resetFlipTrigger, views);
  }
}
