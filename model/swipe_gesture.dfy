/** Swiping between tabs (`useSwipeGesture`): the touch handlers keep where a
    touch started, lock its direction once it has moved far enough, decide
    whether to block the page's own scrolling, and on release pick the
    neighbouring tab to open. The latest active tab, the modal and transition
    flags, and the container's scroll measures are parameters of the
    handlers; registering the listeners is left out. */
module SwipeGesture {
  import opened Wrappers

  /** `layoutMode`: 'vertical' or 'horizontal'. */
  datatype Layout = VerticalLayout | HorizontalLayout

  /** `swipeDirection`: `null`, 'horizontal' or 'vertical'. */
  datatype Direction = Undecided | Sideways | UpDown

  /** The default `minSwipeDistance`. */
  const DefaultMinSwipe: real := 30.0

  /** How far a touch must move before its direction is locked. */
  const LockThreshold: real := 10.0

  /** How close to the top or bottom counts as being there. */
  const EdgeSlack: real := 5.0

  function Abs(x: real): real { if x < 0.0 then -x else x }

  /** `!touchStartRef.current` is false: a start was recorded and it is not
      the coordinate 0, which JavaScript also reads as false. */
  predicate Truthy(x: Option<real>) { x.Some? && x.value != 0.0 }

  /** `tabs.findIndex(t => t.id === id)`: the first position, or -1. */
  function FindIndex(tabs: seq<string>, id: string): (i: int)
    ensures -1 <= i < |tabs|
    ensures i >= 0 ==> tabs[i] == id && forall j :: 0 <= j < i ==> tabs[j] != id
    ensures i == -1 ==> id !in tabs
  {
    if tabs == [] then -1
    else if tabs[0] == id then 0
    else
      var j := FindIndex(tabs[1..], id);
      assert forall k :: 1 <= k < |tabs| ==> tabs[k] == tabs[1..][k - 1];
      if j == -1 then -1 else j + 1
  }

  /** The direction a touch locks to: sideways when it moved further across
      than along. */
  function LockedDirection(diffX: real, diffY: real): Direction {
    if diffX > diffY then Sideways else UpDown
  }

  /** Whether the move handler blocks the page's scrolling (when the event
      allows it): a sideways swipe in the vertical layout, and in the
      horizontal layout a downward swipe of more than 10 that began at the
      top of the page. */
  predicate BlocksScroll(layout: Layout, dir: Direction, dy: real, initialScrollTop: real) {
    if layout.VerticalLayout? then dir.Sideways?
    else dir.UpDown? && initialScrollTop <= EdgeSlack && dy > 0.0 && Abs(dy) > LockThreshold
  }

  /** The tab the release handler opens, if any. A sideways swipe longer than
      the minimum goes to the next tab when it moved left and to the previous
      one when it moved right, in both layouts. In the horizontal layout an
      up-down swipe longer than the minimum goes to the previous tab when it
      moved down from the top of the page, and to the next one when it moved
      up from the bottom. */
  function SwipeTarget(layout: Layout, dir: Direction, dx: real, dy: real, minSwipeDistance: real,
                       tabs: seq<string>, activeTab: string, wasAtTop: bool, wasAtBottom: bool)
    : (r: Option<string>)
    ensures r.Some? ==> r.value in tabs
  {
    var i := FindIndex(tabs, activeTab);
    if dir.Sideways? && Abs(dx) > minSwipeDistance then
      if dx < 0.0 && i < |tabs| - 1 then Some(tabs[i + 1])
      else if dx > 0.0 && i > 0 then Some(tabs[i - 1])
      else None
    else if layout.HorizontalLayout? && dir.UpDown? && Abs(dy) > minSwipeDistance then
      if dy > 0.0 && i > 0 && wasAtTop then Some(tabs[i - 1])
      else if dy < 0.0 && i < |tabs| - 1 && wasAtBottom then Some(tabs[i + 1])
      else None
    else None
  }

  /** A swipe opens a neighbour of the active tab: the one after it or the one
      before it, or the first tab when the active tab is not shown. An
      undecided gesture, a short one, or an up-down gesture in the vertical
      layout opens nothing. */
  lemma SwipeTargetSpec(layout: Layout, dir: Direction, dx: real, dy: real, minSwipeDistance: real,
                        tabs: seq<string>, activeTab: string, wasAtTop: bool, wasAtBottom: bool)
    ensures var r := SwipeTarget(layout, dir, dx, dy, minSwipeDistance, tabs, activeTab, wasAtTop, wasAtBottom);
      var i := FindIndex(tabs, activeTab);
      (r.Some? ==>
        (0 <= i && ((i + 1 < |tabs| && r.value == tabs[i + 1]) || (i > 0 && r.value == tabs[i - 1])))
        || (i == -1 && r.value == tabs[0]))
      && (dir.Undecided? ==> r.None?)
      && (layout.VerticalLayout? && dir.UpDown? ==> r.None?)
      && (Abs(dx) <= minSwipeDistance && Abs(dy) <= minSwipeDistance ==> r.None?)
  {
  }

  /** A long enough sideways swipe always moves one tab, left to the next and
      right to the previous, unless the active tab is already the last or
      the first. */
  lemma SidewaysSwipe(layout: Layout, dx: real, dy: real, minSwipeDistance: real,
                      tabs: seq<string>, activeTab: string, wasAtTop: bool, wasAtBottom: bool)
    requires activeTab in tabs && Abs(dx) > minSwipeDistance
    ensures var r := SwipeTarget(layout, Sideways, dx, dy, minSwipeDistance, tabs, activeTab, wasAtTop, wasAtBottom);
      var i := FindIndex(tabs, activeTab);
      (dx < 0.0 && i + 1 < |tabs| ==> r == Some(tabs[i + 1]))
      && (dx > 0.0 && i > 0 ==> r == Some(tabs[i - 1]))
      && (dx < 0.0 && i + 1 == |tabs| ==> r.None?)
      && (dx > 0.0 && i == 0 ==> r.None?)
  {
    var i := FindIndex(tabs, activeTab);
    assert 0 <= i < |tabs|;
    var r := SwipeTarget(layout, Sideways, dx, dy, minSwipeDistance, tabs, activeTab, wasAtTop, wasAtBottom);
    if dx < 0.0 {
      assert r == (if i < |tabs| - 1 then Some(tabs[i + 1]) else None);
    } else if dx > 0.0 {
      assert r == (if i > 0 then Some(tabs[i - 1]) else None);
    }
  }

  /** The state kept between the touch events. */
  class SwipeTracker {
    const tabs: seq<string>
    const layout: Layout
    const minSwipeDistance: real

    var touchStartX: Option<real>
    var touchStartY: Option<real>
    var swipeDirection: Direction
    var initialScrollTop: real

    /** Both start coordinates are recorded together. */
    predicate Valid()
      reads this
    {
      touchStartX.Some? <==> touchStartY.Some?
    }

    constructor (tabs: seq<string>, layout: Layout, minSwipeDistance: real)
      ensures Valid()
      ensures this.tabs == tabs && this.layout == layout && this.minSwipeDistance == minSwipeDistance
      ensures touchStartX.None? && touchStartY.None? && swipeDirection.Undecided? && initialScrollTop == 0.0
    {
      this.tabs := tabs;
      this.layout := layout;
      this.minSwipeDistance := minSwipeDistance;
      touchStartX := None;
      touchStartY := None;
      swipeDirection := Undecided;
      initialScrollTop := 0.0;
    }

    /** `touchstart`: ignored while a modal is open or a transition runs;
        otherwise records where the touch began and the scroll position, and
        forgets the direction. */
    method TouchStart(x: real, y: real, scrollTop: real, isModalOpen: bool, isTransitioning: bool)
      requires Valid()
      modifies this
      ensures Valid()
      ensures (isModalOpen || isTransitioning) ==>
        touchStartX == old(touchStartX) && touchStartY == old(touchStartY)
        && swipeDirection == old(swipeDirection) && initialScrollTop == old(initialScrollTop)
      ensures !(isModalOpen || isTransitioning) ==>
        touchStartX == Some(x) && touchStartY == Some(y) && swipeDirection.Undecided? && initialScrollTop == scrollTop
    {
      if isModalOpen {
        return;
      }
      if isTransitioning {
        return;
      }
      touchStartX := Some(x);
      touchStartY := Some(y);
      swipeDirection := Undecided;
      initialScrollTop := scrollTop;
    }

    /** `touchmove`: once the touch has moved more than 10 either way its
        direction is locked and stays; the result says whether the page's
        scrolling is blocked. */
    method TouchMove(x: real, y: real, isTransitioning: bool, cancelable: bool) returns (prevented: bool)
      requires Valid()
      modifies this
      ensures Valid()
      ensures touchStartX == old(touchStartX) && touchStartY == old(touchStartY) && initialScrollTop == old(initialScrollTop)
      ensures !old(swipeDirection).Undecided? ==> swipeDirection == old(swipeDirection)
      ensures (!Truthy(touchStartX) || isTransitioning) ==> swipeDirection == old(swipeDirection) && !prevented
      ensures Truthy(touchStartX) && !isTransitioning && old(swipeDirection).Undecided? ==>
        var dx, dy := Abs(x - touchStartX.value), Abs(y - touchStartY.value);
        swipeDirection == (if dx > LockThreshold || dy > LockThreshold then LockedDirection(dx, dy) else Undecided)
      ensures Truthy(touchStartX) && !isTransitioning ==>
        prevented == (cancelable && BlocksScroll(layout, swipeDirection, y - touchStartY.value, initialScrollTop))
    {
      if !Truthy(touchStartX) || isTransitioning {
        return false;
      }
      var diffX := Abs(x - touchStartX.value);
      var diffY := Abs(y - touchStartY.value);
      if swipeDirection.Undecided? {
        if diffX > LockThreshold || diffY > LockThreshold {
          swipeDirection := LockedDirection(diffX, diffY);
        }
      }
      prevented := false;
      if layout.VerticalLayout? && swipeDirection.Sideways? {
        prevented := cancelable;
      } else if layout.HorizontalLayout? && swipeDirection.UpDown? {
        var actualDiffY := y - touchStartY.value;
        if initialScrollTop <= EdgeSlack && actualDiffY > 0.0 && diffY > LockThreshold {
          prevented := cancelable;
        }
      }
    }

    /** `touchend`: picks the tab to open, if any, and clears the gesture; a
        touch with no recorded start (or one that started at coordinate 0)
        is ignored and clears nothing. */
    method TouchEnd(x: real, y: real, activeTab: string, scrollHeight: real, clientHeight: real)
      returns (target: Option<string>)
      requires Valid()
      modifies this
      ensures Valid()
      ensures !Truthy(old(touchStartX)) ==>
        target.None? && touchStartX == old(touchStartX) && touchStartY == old(touchStartY)
        && swipeDirection == old(swipeDirection) && initialScrollTop == old(initialScrollTop)
      ensures Truthy(old(touchStartX)) ==>
        target == SwipeTarget(layout, old(swipeDirection), x - old(touchStartX).value, y - old(touchStartY).value,
                              minSwipeDistance, tabs, activeTab, old(initialScrollTop) <= EdgeSlack,
                              old(initialScrollTop) + clientHeight >= scrollHeight - EdgeSlack)
        && touchStartX.None? && touchStartY.None? && swipeDirection.Undecided? && initialScrollTop == 0.0
      ensures target.Some? ==> target.value in tabs
    {
      if !Truthy(touchStartX) {
        return None;
      }
      var diffX := x - touchStartX.value;
      var diffY := y - touchStartY.value;
      var wasAtTop := initialScrollTop <= EdgeSlack;
      var wasAtBottom := initialScrollTop + clientHeight >= scrollHeight - EdgeSlack;
      target := SwipeTarget(layout, swipeDirection, diffX, diffY, minSwipeDistance, tabs, activeTab,
                            wasAtTop, wasAtBottom);
      touchStartX := None;
      touchStartY := None;
      swipeDirection := Undecided;
      initialScrollTop := 0.0;
    }
  }
}
