/**
 * One card of the scene as a view: which face it shows, whether it is
 * being dragged, where its mesh is displayed, and what it reports to the
 * grid controller when a drag ends.
 */
module Card {
  import opened Wrappers
  import opened GridLayout

  /** The canvas size in pixels and the width, in world units, of what it shows. */
  datatype Viewport = Viewport(sizeWidth: real, sizeHeight: real, viewportWidth: real)

  /** What a card reports at the end of a drag: its list index and where it was let go. */
  datatype Drop = Drop(cardIndex: nat, position: Position)

  /** The face of a card that is rendered. */
  datatype Face = Front | Back

  /** The camera's base zoom. */
  const BaseZoom: real := 40.0
  /** The z coordinate of a card while it is dragged, above the resting cards. */
  const LiftedZ: real := 1.0
  /** The rotation about the y axis of a card turned to its back (Math.PI). */
  const Pi: real := 3.141592653589793

  function Min(a: real, b: real): (m: real)
    ensures m <= a && m <= b && (m == a || m == b)
  {
    if a <= b then a else b
  }

  /**
   * The zoom factor used to convert a drag from pixels to world units:
   * 0.4 below 500 pixels of canvas, 0.55 below 800, 1 from 800 on.
   */
  function ZoomFactor(minDimension: real): (f: real)
    ensures f == 0.4 <==> minDimension < 500.0
    ensures f == 0.55 <==> 500.0 <= minDimension < 800.0
    ensures f == 1.0 <==> minDimension >= 800.0
  {
    var zoomFactor :=
      if minDimension < 500.0 then 0.4
      else if minDimension < 800.0 then 0.55
      else 1.0;
    zoomFactor
  }

  /** A larger canvas never gets a smaller zoom factor. */
  lemma ZoomFactorMonotone(m1: real, m2: real)
    requires m1 <= m2
    ensures ZoomFactor(m1) <= ZoomFactor(m2)
  {
  }

  /**
   * World units per pixel of drag movement: the world width per pixel
   * divided by the zoom factor.
   */
  function DragFactor(v: Viewport): (f: real)
    requires v.sizeWidth > 0.0
    ensures f == (v.viewportWidth / v.sizeWidth) / ZoomFactor(Min(v.sizeWidth, v.sizeHeight))
  {
    var zoomFactor := ZoomFactor(Min(v.sizeWidth, v.sizeHeight));
    var effectiveZoom := BaseZoom * zoomFactor;
    assert 40.0 / effectiveZoom == 1.0 / zoomFactor;
    (v.viewportWidth / v.sizeWidth) * (40.0 / effectiveZoom)
  }

  /**
   * The logical state of one card view.  `position` is where the grid
   * controller puts the card; `meshPosition` is where it is displayed,
   * with each animation taken at its end state; `rotationY` is the target
   * of the flip rotation; `memo` is the position the current drag started
   * from.
   */
  class CardView {
    const cardIndex: nat
    var position: Position
    var meshPosition: Position
    var rotationY: real
    var isFlipped: bool
    var isDragging: bool
    var hovered: bool
    var memo: Option<Position>
    var resetFlip: Option<int>

    /**
     * The rotation agrees with the face shown; a drag is in progress
     * exactly when it has an anchor, and lifts the card; a card not being
     * dragged is displayed where the grid puts it.
     */
    ghost predicate Valid()
      reads this
    {
      && rotationY == (if isFlipped then Pi else 0.0)
      && (isDragging <==> memo.Some?)
      && (isDragging ==> meshPosition.z == LiftedZ)
      && (!isDragging ==> meshPosition == position)
    }

    /** A fresh card view shows its front at the position it is given. */
    constructor (cardIndex: nat, position: Position, resetFlip: Option<int>)
      ensures Valid()
      ensures this.cardIndex == cardIndex && this.position == position && this.resetFlip == resetFlip
      ensures meshPosition == position && !isFlipped && !isDragging && !hovered && memo.None?
    {
      this.cardIndex := cardIndex;
      this.position := position;
      this.resetFlip := resetFlip;
      meshPosition := position;
      rotationY := 0.0;
      isFlipped := false;
      isDragging := false;
      hovered := false;
      memo := None;
    }

    /** Exactly one face is rendered: the front when the card is not flipped. */
    function RenderedFace(): (f: Face)
      reads this
      ensures f == Front <==> !isFlipped
      ensures f == Back <==> isFlipped
    {
      if isFlipped then Back else Front
    }

    /** A click: turns the card over, unless it is being dragged. */
    method HandleFlip()
      requires Valid()
      modifies this`isFlipped, this`rotationY
      ensures Valid()
      ensures old(isDragging) ==> isFlipped == old(isFlipped) && rotationY == old(rotationY)
      ensures !old(isDragging) ==> isFlipped == !old(isFlipped)
      ensures !old(isDragging) ==> rotationY == (if old(isFlipped) then 0.0 else Pi)
    {
      if isDragging {
        return;
      }
      var wasFlipped := isFlipped;
      isFlipped := !wasFlipped;
      rotationY := if wasFlipped then 0.0 else Pi;
    }

    /**
     * The `resetFlip` prop takes the value `token`: when it changed and is
     * defined, the card turns back to its front at once.
     */
    method SetResetFlip(token: Option<int>)
      requires Valid()
      modifies this`resetFlip, this`isFlipped, this`rotationY
      ensures Valid() && resetFlip == token
      ensures token != old(resetFlip) && token.Some? ==> !isFlipped && rotationY == 0.0
      ensures token == old(resetFlip) || token.None? ==>
                isFlipped == old(isFlipped) && rotationY == old(rotationY)
    {
      if token != resetFlip {
        resetFlip := token;
        if token.Some? {
          isFlipped := false;
          rotationY := 0.0;
        }
      }
    }

    /** The pointer entered the card. */
    method PointerOver()
      modifies this`hovered
      ensures hovered
    {
      hovered := true;
    }

    /** The pointer left the card. */
    method PointerOut()
      modifies this`hovered
      ensures !hovered
    {
      hovered := false;
    }

    /**
     * The grid controller moved the card to `p`: the mesh follows unless
     * the card is being dragged.
     */
    method SetPosition(p: Position)
      requires Valid()
      modifies this`position, this`meshPosition
      ensures Valid() && position == p
      ensures !isDragging ==> meshPosition == p
      ensures isDragging ==> meshPosition == old(meshPosition)
    {
      position := p;
      if !isDragging {
        meshPosition := p;
      }
    }

    /**
     * One drag event with cumulative pixel movement (`movementX`,
     * `movementY`).  While `active` the card follows the pointer from the
     * position the drag started at, lifted to `LiftedZ`, with the y axis
     * turned upwards.  When the drag ends the card reports its index and
     * its displayed x and y with z = 0, and goes back to where the grid
     * put it.
     */
    method OnDrag(active: bool, movementX: real, movementY: real, v: Viewport) returns (report: Option<Drop>)
      requires Valid() && (active ==> v.sizeWidth > 0.0)
      modifies this`isDragging, this`memo, this`meshPosition
      ensures Valid() && isDragging == active
      ensures var anchor := old(memo).GetOr(old(meshPosition));
              active ==>
                && report.None? && memo == Some(anchor)
                && meshPosition == Position(anchor.x + movementX * DragFactor(v),
                                            anchor.y - movementY * DragFactor(v), LiftedZ)
      ensures !active ==>
                && report == Some(Drop(cardIndex, Position(old(meshPosition).x, old(meshPosition).y, 0.0)))
                && memo.None? && meshPosition == position
    {
      var anchor := memo.GetOr(meshPosition);
      isDragging := active;
      if active {
        // `DragFactor(v)` is `factor` at Card.tsx:133
        meshPosition := Position(anchor.x + movementX * DragFactor(v), anchor.y - movementY * DragFactor(v), LiftedZ);
        memo := Some(anchor);
        report := None;
      } else {
        report := Some(Drop(cardIndex, Position(meshPosition.x, meshPosition.y, 0.0)));
        meshPosition := position;
        memo := None;
      }
    }
  }

  /** Two clicks on a card that is not being dragged leave it as it was. */
  method ClickTwice(c: CardView)
    requires c.Valid() && !c.isDragging
    modifies c
    ensures c.Valid()
    ensures c.isFlipped == old(c.isFlipped) && c.rotationY == old(c.rotationY)
  {
    c.HandleFlip();
    c.HandleFlip();
  }
}
