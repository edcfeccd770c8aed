/** The swipe-gesture interpreter of ProfileCard.tsx: two React state cells,
    `isDragging` and `dragOffset`, driven by the mouse handlers, plus the
    pure rules that turn the offset into a swipe decision, the accept and
    reject badges, the card tilt and the fluency colour.

    The pointer offset is an input (the model does not compute it from the
    card's bounding box) and is a `real`: JavaScript numbers are doubles,
    and no rule here depends on rounding. */
module ProfileCard {
  import opened Wrappers

  datatype Direction = Left | Right

  /** Pointer position relative to the card's centre. */
  datatype Offset = Offset(x: real, y: real)

  const Origin: Offset := Offset(0.0, 0.0)

  /** Horizontal distance a release must exceed to count as a swipe. */
  const Threshold: real := 100.0

  /** Horizontal distance the offset must exceed for the badges to render. */
  const IndicatorThreshold: real := 50.0

  function Abs(x: real): real { if x < 0.0 then -x else x }

  /** The two state cells of the component. */
  datatype Drag = Drag(isDragging: bool, dragOffset: Offset)

  const Initial: Drag := Drag(false, Origin)

  /** Invariant: an idle card sits at the origin. */
  predicate AtRest(d: Drag) { !d.isDragging ==> d.dragOffset == Origin }

  /** The decision taken at release from the horizontal offset alone. */
  function Classify(x: real): (r: Option<Direction>)
    ensures r == Some(Right) <==> x > Threshold
    ensures r == Some(Left) <==> x < -Threshold
    ensures r == None <==> -Threshold <= x <= Threshold
  {
    if Abs(x) > Threshold then Some(if x > 0.0 then Right else Left) else None
  }

  /** `handleMouseDown`: always enters the dragging state; the offset is kept. */
  function MouseDown(d: Drag): (r: Drag)
    ensures r.isDragging
    ensures r.dragOffset == d.dragOffset
    ensures AtRest(d) ==> AtRest(r)
  {
    d.(isDragging := true)
  }

  /** `handleMouseMove`: records the offset, but only while dragging and
      while the card element is mounted (`hasElement`). */
  function MouseMove(d: Drag, x: real, y: real, hasElement: bool): (r: Drag)
    ensures !d.isDragging ==> r == d
    ensures !hasElement ==> r == d
    ensures d.isDragging && hasElement ==> r == Drag(true, Offset(x, y))
    ensures AtRest(d) ==> AtRest(r)
  {
    if !d.isDragging || !hasElement then d else d.(dragOffset := Offset(x, y))
  }

  /** What a release leaves behind and what it emits through `onSwipe`. */
  datatype Release = Release(after: Drag, swipe: Option<Direction>)

  /** `handleMouseUp`: a no-op when idle; otherwise classifies the
      horizontal offset and resets to the idle state at the origin. */
  function MouseUp(d: Drag): (r: Release)
    ensures !d.isDragging ==> r == Release(d, None)
    ensures d.isDragging ==> r.after == Initial
    ensures AtRest(d) ==> r.after == Initial
    ensures r.swipe.Some? <==> d.isDragging && Abs(d.dragOffset.x) > Threshold
    ensures r.swipe == Some(Right) <==> d.isDragging && d.dragOffset.x > Threshold
  {
    if !d.isDragging then Release(d, None)
    else Release(Initial, Classify(d.dragOffset.x))
  }

  /** The vertical offset never influences what a release emits. */
  lemma MouseUpIgnoresY(dragging: bool, x: real, y1: real, y2: real)
    ensures MouseUp(Drag(dragging, Offset(x, y1))).swipe == MouseUp(Drag(dragging, Offset(x, y2))).swipe
  {
  }

  /** The threshold is exclusive: a release at exactly +100 or -100 is a cancel. */
  lemma BoundaryIsCancel(y: real)
    ensures MouseUp(Drag(true, Offset(Threshold, y))).swipe == None
    ensures MouseUp(Drag(true, Offset(-Threshold, y))).swipe == None
  {
  }

  // ----- gestures as event sequences -----

  datatype Event = Down | Move(x: real, y: real, hasElement: bool) | Up

  function Step(d: Drag, e: Event): Release
  {
    match e
    case Down => Release(MouseDown(d), None)
    case Move(x, y, hasElement) => Release(MouseMove(d, x, y, hasElement), None)
    case Up => MouseUp(d)
  }

  function Emitted(o: Option<Direction>): seq<Direction>
  {
    if o.Some? then [o.value] else []
  }

  /** The final state and the swipes emitted, in order, by a run of events. */
  datatype Outcome = Outcome(final: Drag, swipes: seq<Direction>)

  function Run(d: Drag, es: seq<Event>): Outcome
    decreases |es|
  {
    if es == [] then Outcome(d, [])
    else
      var step := Step(d, es[0]);
      var rest := Run(step.after, es[1..]);
      Outcome(rest.final, Emitted(step.swipe) + rest.swipes)
  }

  function CountUps(es: seq<Event>): nat
    decreases |es|
  {
    if es == [] then 0 else (if es[0] == Up then 1 else 0) + CountUps(es[1..])
  }

  /** The idle-at-origin invariant holds after any sequence of mouse events. */
  lemma {:induction false} RunKeepsAtRest(d: Drag, es: seq<Event>)
    requires AtRest(d)
    ensures AtRest(Run(d, es).final)
    decreases |es|
  {
    if es != [] {
      RunKeepsAtRest(Step(d, es[0]).after, es[1..]);
    }
  }

  /** Each release emits at most one swipe, and nothing else emits one. */
  lemma {:induction false} RunSwipesAtMostUps(d: Drag, es: seq<Event>)
    ensures |Run(d, es).swipes| <= CountUps(es)
    decreases |es|
  {
    if es != [] {
      RunSwipesAtMostUps(Step(d, es[0]).after, es[1..]);
    }
  }

  /** From a state that satisfies the invariant, a run that ends with a
      release leaves the card idle at the origin, so the next gesture
      starts fresh. */
  lemma {:induction false} RunEndingInUpIsIdle(d: Drag, es: seq<Event>)
    requires AtRest(d)
    requires es != [] && es[|es| - 1] == Up
    ensures Run(d, es).final == Initial
    decreases |es|
  {
    if |es| > 1 {
      RunEndingInUpIsIdle(Step(d, es[0]).after, es[1..]);
    }
  }

  // ----- derived visual values -----

  /** Badge opacity `|x| / 200`; it is not clamped to 1. */
  function Opacity(x: real): (r: real)
    ensures r >= 0.0
    ensures r == 0.0 <==> x == 0.0
    ensures Abs(x) > 200.0 ==> r > 1.0
  {
    Abs(x) / 200.0
  }

  /** Opacity grows strictly with the horizontal distance. */
  lemma OpacityIncreases(x1: real, x2: real)
    requires Abs(x1) < Abs(x2)
    ensures Opacity(x1) < Opacity(x2)
  {
  }

  /** The badges: not rendered at all, or rendered with the reject (X)
      badge's and the accept (heart) badge's opacities. */
  datatype Indicators = Hidden | Shown(rejectOpacity: real, acceptOpacity: real)

  function IndicatorsFor(x: real): (r: Indicators)
    ensures r.Shown? <==> Abs(x) > IndicatorThreshold
    ensures r.Shown? ==> (r.rejectOpacity > 0.0 <==> x < 0.0)
    ensures r.Shown? ==> (r.acceptOpacity > 0.0 <==> x > 0.0)
    ensures r.Shown? ==> r.rejectOpacity >= 0.0 && r.acceptOpacity >= 0.0
    ensures r.Shown? ==> r.rejectOpacity + r.acceptOpacity == Opacity(x)
  {
    if Abs(x) > IndicatorThreshold then
      Shown(if x < 0.0 then Opacity(x) else 0.0, if x > 0.0 then Opacity(x) else 0.0)
    else
      Hidden
  }

  /** Card tilt in degrees, `x * 0.1`: leans the way the card is dragged. */
  function Rotation(x: real): (r: real)
    ensures r > 0.0 <==> x > 0.0
    ensures r < 0.0 <==> x < 0.0
  {
    x * 0.1
  }

  /** `getFluencyColor`: the colour class of the fluency dot. */
  function FluencyColor(level: string): (r: string)
    ensures r == "bg-green-500" <==> level == "Advanced"
    ensures r == "bg-yellow-500" <==> level == "Intermediate"
    ensures r == "bg-red-500" <==> level == "Beginner"
    ensures r == "bg-gray-500" <==> level !in {"Advanced", "Intermediate", "Beginner"}
  {
    match level
    case "Advanced" => "bg-green-500"
    case "Intermediate" => "bg-yellow-500"
    case "Beginner" => "bg-red-500"
    case _ => "bg-gray-500"
  }

  /** The component's state cells and its event handlers. */
  class Card {
    var dragOffset: Offset
    var isDragging: bool

    function State(): Drag
      reads this
    {
      Drag(isDragging, dragOffset)
    }

    ghost predicate Valid()
      reads this
    {
      AtRest(State())
    }

    constructor ()
      ensures Valid()
      ensures State() == Initial
    {
      dragOffset := Origin;
      isDragging := false;
    }

    method HandleMouseDown()
      requires Valid()
      modifies this
      ensures Valid()
      ensures State() == MouseDown(old(State()))
    {
      isDragging := true;
    }

    method HandleMouseMove(x: real, y: real, hasElement: bool)
      requires Valid()
      modifies this
      ensures Valid()
      ensures State() == MouseMove(old(State()), x, y, hasElement)
    {
      if !isDragging || !hasElement {
        return;
      }
      dragOffset := Offset(x, y);
    }

    method HandleMouseUp() returns (swipe: Option<Direction>)
      requires Valid()
      modifies this
      ensures Valid()
      ensures State() == Initial
      ensures Release(State(), swipe) == MouseUp(old(State()))
    {
      swipe := None;
      if !isDragging {
        return;
      }
      if Abs(dragOffset.x) > Threshold {
        swipe := Some(if dragOffset.x > 0.0 then Right else Left);
      }
      dragOffset := Origin;
      isDragging := false;
    }
  }

}
