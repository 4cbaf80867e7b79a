/** The touch gesture hook (src/hooks/useTouchGestures.ts): a recognizer
    that remembers where and when a one-finger touch started and when the
    last tap was, and classifies each touch end as a swipe, a double tap or
    a tap. The clock is a parameter; coordinates are integers. */
module TouchGestures {
  import opened Wrappers

  datatype Direction = Left | Right | Up | Down

  /** The gesture callbacks; each fires only if it is given. Pan and pinch
      callbacks are accepted by the hook but never called. */
  datatype Gesture = Swipe(direction: Direction) | DoubleTap | Tap

  datatype Handlers = Handlers(onSwipe: bool, onDoubleTap: bool, onTap: bool)

  /** The hook's options; `None` stands for an omitted option. */
  datatype Options = Options(
    swipeThreshold: Option<int>,
    doubleTapThreshold: Option<int>,
    enableSwipe: Option<bool>,
    enableDoubleTap: Option<bool>,
    enableTap: Option<bool>)

  const DefaultSwipeThreshold := 50
  const DefaultDoubleTapThreshold := 300
  /** A swipe must end within this many milliseconds of its start. */
  const SwipeWindow := 500

  /** The options after the destructuring defaults. */
  datatype Settings = Settings(
    swipeThreshold: int,
    doubleTapThreshold: int,
    enableSwipe: bool,
    enableDoubleTap: bool,
    enableTap: bool)

  function Resolve(o: Options): (s: Settings)
    ensures o == Options(None, None, None, None, None) ==>
              s == Settings(DefaultSwipeThreshold, DefaultDoubleTapThreshold, true, true, true)
  {
    Settings(o.swipeThreshold.GetOr(DefaultSwipeThreshold),
             o.doubleTapThreshold.GetOr(DefaultDoubleTapThreshold),
             o.enableSwipe.GetOr(true), o.enableDoubleTap.GetOr(true), o.enableTap.GetOr(true))
  }

  datatype Point = Point(x: int, y: int)

  /** A recorded touch start: where, and the clock reading. */
  datatype TouchStart = TouchStart(x: int, y: int, time: int)

  function Abs(n: int): nat { if n < 0 then -n else n }

  /** How a touch end is read: a horizontal swipe, a vertical swipe, or a
      press, which is a double tap, a tap, or neither when taps are off. */
  datatype Classification = HorizontalSwipe(right: bool) | VerticalSwipe(down: bool) | Press(gesture: Option<Gesture>)

  /** The branches of `handleTouchEnd`, in their order: the horizontal test
      wins over the vertical one, and anything that is not a swipe is a
      press. */
  function Classify(s: Settings, start: TouchStart, end: Point, now: int, lastTap: int): (c: Classification)
    ensures c.HorizontalSwipe? <==>
              s.enableSwipe && Abs(end.x - start.x) > s.swipeThreshold && now - start.time < SwipeWindow
    ensures c.HorizontalSwipe? ==> (c.right <==> end.x - start.x > 0)
    ensures c.VerticalSwipe? <==>
              !c.HorizontalSwipe? && s.enableSwipe && Abs(end.y - start.y) > s.swipeThreshold
              && now - start.time < SwipeWindow
    ensures c.VerticalSwipe? ==> (c.down <==> end.y - start.y > 0)
    ensures c.Press? ==>
              (c.gesture == Some(DoubleTap) <==> s.enableDoubleTap && now - lastTap < s.doubleTapThreshold)
              && (c.gesture == Some(Tap) <==> !(s.enableDoubleTap && now - lastTap < s.doubleTapThreshold) && s.enableTap)
              && c.gesture != Some(Swipe(Left)) && c.gesture != Some(Swipe(Right))
              && c.gesture != Some(Swipe(Up)) && c.gesture != Some(Swipe(Down))
  {
    var dx := end.x - start.x;
    var dy := end.y - start.y;
    var dt := now - start.time;
    if s.enableSwipe && Abs(dx) > s.swipeThreshold && dt < SwipeWindow then HorizontalSwipe(dx > 0)
    else if s.enableSwipe && Abs(dy) > s.swipeThreshold && dt < SwipeWindow then VerticalSwipe(dy > 0)
    else if s.enableDoubleTap && now - lastTap < s.doubleTapThreshold then Press(Some(DoubleTap))
    else if s.enableTap then Press(Some(Tap))
    else Press(None)
  }

  /** The gesture a classification reports, before asking whether its
      callback is given. */
  function GestureOf(c: Classification): Option<Gesture> {
    match c
    case HorizontalSwipe(right) => Some(Swipe(if right then Right else Left))
    case VerticalSwipe(down) => Some(Swipe(if down then Down else Up))
    case Press(g) => g
  }

  /** The callbacks actually called: the gesture's, when it is given. */
  function Fired(h: Handlers, g: Option<Gesture>): (calls: seq<Gesture>)
    ensures |calls| <= 1
    ensures |calls| == 1 ==> g == Some(calls[0])
  {
    match g
    case None => []
    case Some(Swipe(d)) => if h.onSwipe then [Swipe(d)] else []
    case Some(DoubleTap) => if h.onDoubleTap then [DoubleTap] else []
    case Some(Tap) => if h.onTap then [Tap] else []
  }

  /** The element's gesture recognizer. */
  class Recognizer {
    const settings: Settings
    const handlers: Handlers
    var touchStart: Option<TouchStart>
    var lastTap: int
    /** The callbacks called so far, in order. */
    var fired: seq<Gesture>

    constructor (handlers: Handlers, options: Options)
      ensures settings == Resolve(options) && this.handlers == handlers
      ensures touchStart == None && lastTap == 0 && fired == []
    {
      settings := Resolve(options);
      this.handlers := handlers;
      touchStart := None;
      lastTap := 0;
      fired := [];
    }

    /** `handleTouchStart`: only a one-finger touch is recorded. */
    method HandleTouchStart(touches: seq<Point>, now: int)
      modifies this
      ensures |touches| == 1 ==> touchStart == Some(TouchStart(touches[0].x, touches[0].y, now))
      ensures |touches| != 1 ==> touchStart == old(touchStart)
      ensures lastTap == old(lastTap) && fired == old(fired)
    {
      if |touches| == 1 {
        var touch := touches[0];
        touchStart := Some(TouchStart(touch.x, touch.y, now));
      }
    }

    /** `handleTouchEnd` with the first changed touch at `end`: nothing
        without a recorded start; otherwise at most one callback, the tap
        clock updated for a press, and the start cleared. */
    method HandleTouchEnd(end: Point, now: int)
      modifies this
      ensures old(touchStart).None? ==> touchStart == None && lastTap == old(lastTap) && fired == old(fired)
      ensures old(touchStart).Some? ==>
                var c := Classify(settings, old(touchStart).value, end, now, old(lastTap));
                touchStart == None
                && fired == old(fired) + Fired(handlers, GestureOf(c))
                && lastTap == (if c.Press? then now else old(lastTap))
    {
      if touchStart.None? {
        return;
      }
      var start := touchStart.value;
      var deltaX := end.x - start.x;
      var deltaY := end.y - start.y;
      var deltaTime := now - start.time;
      if settings.enableSwipe && Abs(deltaX) > settings.swipeThreshold && deltaTime < SwipeWindow {
        if handlers.onSwipe {
          fired := fired + [Swipe(if deltaX > 0 then Right else Left)];
        }
      } else if settings.enableSwipe && Abs(deltaY) > settings.swipeThreshold && deltaTime < SwipeWindow {
        if handlers.onSwipe {
          fired := fired + [Swipe(if deltaY > 0 then Down else Up)];
        }
      } else {
        if settings.enableDoubleTap && now - lastTap < settings.doubleTapThreshold {
          if handlers.onDoubleTap {
            fired := fired + [DoubleTap];
          }
        } else if settings.enableTap {
          if handlers.onTap {
            fired := fired + [Tap];
          }
        }
        lastTap := now;
      }
      touchStart := None;
    }
  }

  // ---------------------------------------------------------------------
  // Properties of the classification

  /** With the defaults, a drag of more than 50 to the right ending within
      500 ms is a right swipe, and a press within 300 ms of the last one is
      a double tap. */
  lemma DefaultClassification(start: TouchStart, end: Point, now: int, lastTap: int)
    requires end.x - start.x > 50 && now - start.time < 500
    ensures Classify(Resolve(Options(None, None, None, None, None)), start, end, now, lastTap)
            == HorizontalSwipe(true)
  {
  }

  lemma DoubleTapWindow(start: TouchStart, end: Point, now: int, lastTap: int)
    requires end == Point(start.x, start.y) && now - lastTap < 300
    ensures Classify(Resolve(Options(None, None, None, None, None)), start, end, now, lastTap)
            == Press(Some(DoubleTap))
  {
  }

  /** With swiping disabled every end is a press. */
  lemma SwipeDisabled(s: Settings, start: TouchStart, end: Point, now: int, lastTap: int)
    requires !s.enableSwipe
    ensures Classify(s, start, end, now, lastTap).Press?
  {
  }

  /** The direction reported agrees with the sign of the movement along
      the axis that was tested. */
  lemma SwipeDirection(s: Settings, start: TouchStart, end: Point, now: int, lastTap: int)
    ensures var g := GestureOf(Classify(s, start, end, now, lastTap));
            (g == Some(Swipe(Right)) ==> end.x > start.x)
            && (g == Some(Swipe(Left)) ==> end.x <= start.x && Abs(end.x - start.x) > s.swipeThreshold)
            && (g == Some(Swipe(Down)) ==> end.y > start.y)
            && (g == Some(Swipe(Up)) ==> end.y <= start.y && Abs(end.y - start.y) > s.swipeThreshold)
  {
  }
}
