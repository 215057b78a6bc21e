/** The before/after comparison widget of slider.js: the `LuxurySlider` class,
    its pointer protocol, its rendering of the boundary and its intro animation.
    Pixel offsets, widths and milliseconds are modelled as `real`. */
module Slider {
  import opened Options

  /** Position written by the constructor, before anything else runs. */
  const InitialPosition: real := 50.0

  /** The intro animation runs the position from IntroStart to IntroEnd in IntroDuration ms. */
  const IntroStart: real := 0.0
  const IntroEnd: real := 50.0
  const IntroDuration: real := 1500.0
  /** The timeout between reading the intro's start time and asking for its first frame. */
  const IntroDelay: real := 500.0

  /** The before-label is hidden below this position, the after-label above the other. */
  const BeforeLabelMin: real := 10.0
  const AfterLabelMax: real := 90.0

  /** Opacity of the instruction hint while the pointer is neither over the widget nor dragging. */
  const InstructionIdle: real := 0.8

  function Min(a: real, b: real): real { if a <= b then a else b }
  function Max(a: real, b: real): real { if a >= b then a else b }

  /** `Math.max(0, Math.min(100, v))`. */
  function Clamp(v: real): (r: real)
    ensures 0.0 <= r <= 100.0
    ensures 0.0 <= v <= 100.0 ==> r == v
    ensures v < 0.0 ==> r == 0.0
    ensures v > 100.0 ==> r == 100.0
  {
    Max(0.0, Min(100.0, v))
  }

  /** The percentage `updatePosition` derives from a pointer `x` pixels right of the
      container's left edge, in a container `width` pixels wide. */
  function PointerPosition(x: real, width: real): (r: real)
    requires width > 0.0
    ensures 0.0 <= r <= 100.0
    ensures 0.0 <= x <= width ==> r * width == 100.0 * x
    ensures x <= 0.0 ==> r == 0.0
    ensures x >= width ==> r == 100.0
  {
    assert 0.0 <= x <= width ==> 0.0 <= x / width <= 1.0;
    assert x >= width ==> x / width >= 1.0;
    Clamp((x / width) * 100.0)
  }

  /** Moving the pointer right never moves the boundary left. */
  lemma PointerPositionMonotone(x1: real, x2: real, width: real)
    requires width > 0.0 && x1 <= x2
    ensures PointerPosition(x1, width) <= PointerPosition(x2, width)
  {
    assert x1 / width <= x2 / width;
  }

  // ---------------------------------------------------------------- rendering

  /** The styles `updateSliderPosition` writes: the before-layer's width and the
      handle's left offset (both in percent) and the two label opacities. */
  datatype View = View(beforeWidth: real, handleLeft: real, beforeLabelOpacity: real, afterLabelOpacity: real)

  function Project(position: real): (v: View)
    ensures v.beforeWidth == position && v.handleLeft == position
    ensures v.beforeLabelOpacity == 0.0 <==> position < BeforeLabelMin
    ensures v.afterLabelOpacity == 0.0 <==> position > AfterLabelMax
    ensures v.beforeLabelOpacity in {0.0, 1.0} && v.afterLabelOpacity in {0.0, 1.0}
  {
    View(position, position,
         if position < BeforeLabelMin then 0.0 else 1.0,
         if position > AfterLabelMax then 0.0 else 1.0)
  }

  /** The two dead zones are disjoint: at most one label is hidden at a time. */
  lemma LabelsNeverBothHidden(position: real)
    ensures Project(position).beforeLabelOpacity == 1.0 || Project(position).afterLabelOpacity == 1.0
  {
  }

  /** Opacity of the instruction hint as `handleHover` writes it. */
  function InstructionOpacity(hovered: bool, dragging: bool): (o: real)
    ensures o == 0.0 <==> hovered || dragging
    ensures o == 0.0 || o == InstructionIdle
  {
    if hovered || dragging then 0.0 else InstructionIdle
  }

  // ---------------------------------------------------------- intro animation

  function Pow4(y: real): real { y * y * y * y }

  lemma Pow4Monotone(a: real, b: real)
    requires 0.0 <= a <= b
    ensures 0.0 <= Pow4(a) <= Pow4(b)
  {
    assert 0.0 <= a * a <= a * b <= b * b;
    var a2, b2 := a * a, b * b;
    assert 0.0 <= a2 * a2 <= a2 * b2 <= b2 * b2;
    assert Pow4(a) == a2 * a2 && Pow4(b) == b2 * b2;
  }

  lemma Pow4Positive(y: real)
    requires y > 0.0
    ensures Pow4(y) > 0.0
  {
    Pow4Monotone(0.0, y);
    if Pow4(y) == 0.0 {
      ZeroProduct(y * y * y, y);
      ZeroProduct(y * y, y);
      ZeroProduct(y, y);
    }
  }

  lemma ZeroProduct(a: real, b: real)
    requires a * b == 0.0
    ensures a == 0.0 || b == 0.0
  {
  }

  /** `Math.min(elapsed / duration, 1)` for a frame `elapsed` ms after the start time. */
  function Progress(elapsed: real): (p: real)
    requires elapsed >= 0.0
    ensures 0.0 <= p <= 1.0
    ensures p == 1.0 <==> elapsed >= IntroDuration
  {
    Min(elapsed / IntroDuration, 1.0)
  }

  lemma ProgressMonotone(e1: real, e2: real)
    requires 0.0 <= e1 <= e2
    ensures Progress(e1) <= Progress(e2)
  {
  }

  /** Quart ease-out, `1 - (1 - p)^4`. */
  function EaseOutQuart(p: real): (e: real)
    requires 0.0 <= p <= 1.0
    ensures 0.0 <= e <= 1.0
    ensures p == 0.0 ==> e == 0.0
    ensures p == 1.0 ==> e == 1.0
  {
    Pow4Monotone(1.0 - p, 1.0);
    1.0 - Pow4(1.0 - p)
  }

  /** The position one intro frame writes at progress `p`. */
  function IntroPosition(p: real): (r: real)
    requires 0.0 <= p <= 1.0
    ensures IntroStart <= r <= IntroEnd
    ensures p == 0.0 ==> r == IntroStart
    ensures p == 1.0 ==> r == IntroEnd
  {
    IntroStart + (IntroEnd - IntroStart) * EaseOutQuart(p)
  }

  /** The intro never moves the boundary backwards. */
  lemma IntroPositionMonotone(p: real, q: real)
    requires 0.0 <= p <= q <= 1.0
    ensures IntroPosition(p) <= IntroPosition(q)
  {
    Pow4Monotone(1.0 - q, 1.0 - p);
  }

  /** The intro reaches its end value exactly when the full duration has elapsed. */
  lemma IntroEndsExactlyAtDuration(elapsed: real)
    requires elapsed >= 0.0
    ensures IntroPosition(Progress(elapsed)) == IntroEnd <==> elapsed >= IntroDuration
  {
    var p := Progress(elapsed);
    if p < 1.0 {
      Pow4Positive(1.0 - p);
    }
  }

  /** The start time is read before the 500 ms timeout that precedes the first
      frame, so that frame is already a third of the way through the intro and
      shows the boundary beyond 40 % (50 * (1 - (2/3)^4) = 3250/81). */
  lemma DelayedFirstFrame(elapsed: real)
    requires elapsed >= IntroDelay
    ensures IntroPosition(Progress(elapsed)) > 40.0
  {
    var p := Progress(elapsed);
    assert p >= 1.0 / 3.0;
    Pow4Monotone(1.0 - p, 2.0 / 3.0);
    assert Pow4(2.0 / 3.0) == 16.0 / 81.0;
  }

  predicate NonDecreasing(s: seq<real>)
  {
    forall i, j :: 0 <= i <= j < |s| ==> s[i] <= s[j]
  }

  /** Every frame arrives after the intro's start time. */
  predicate AfterStart(frames: seq<real>)
  {
    forall k :: 0 <= k < |frames| ==> frames[k] >= 0.0
  }

  /** The positions a run of intro frames writes, one per frame. */
  function IntroTrace(frames: seq<real>): (r: seq<real>)
    requires AfterStart(frames)
    ensures |r| == |frames|
    ensures forall k :: 0 <= k < |frames| ==> r[k] == IntroPosition(Progress(frames[k]))
    decreases |frames|
  {
    if frames == [] then []
    else IntroTrace(frames[..|frames| - 1]) + [IntroPosition(Progress(frames[|frames| - 1]))]
  }

  /** How many of the delivered frames the intro runs: it stops requesting
      frames after the first one whose progress reaches 1. */
  function FramesRun(frames: seq<real>): (n: nat)
    requires AfterStart(frames)
    ensures n <= |frames|
    ensures forall k :: 0 <= k < n - 1 ==> Progress(frames[k]) < 1.0
    ensures n < |frames| ==> n > 0 && Progress(frames[n - 1]) == 1.0
    decreases |frames|
  {
    if frames == [] then 0
    else if Progress(frames[0]) == 1.0 then 1
    else 1 + FramesRun(frames[1..])
  }

  /** FramesRun is the only count consistent with the loop's stopping rule:
      all frames but the last ran unfinished, and fewer frames than delivered
      ran only because the last one finished. */
  lemma {:induction false} FramesRunIsFirstFinished(frames: seq<real>, n: nat)
    requires AfterStart(frames) && n <= |frames|
    requires forall k :: 0 <= k < n - 1 ==> Progress(frames[k]) < 1.0
    requires n < |frames| ==> n > 0 && Progress(frames[n - 1]) == 1.0
    ensures FramesRun(frames) == n
    decreases n
  {
    if n == 0 {
    } else if n == 1 {
    } else {
      assert Progress(frames[0]) < 1.0;
      FramesRunIsFirstFinished(frames[1..], n - 1);
    }
  }

  /** When the host delivers more frames than the intro runs, the last one it
      runs leaves the boundary at its end value. */
  lemma IntroStopsAtEnd(frames: seq<real>)
    requires AfterStart(frames) && FramesRun(frames) < |frames|
    ensures IntroTrace(frames[..FramesRun(frames)])[FramesRun(frames) - 1] == IntroEnd
  {
  }

  /** Frames delivered in time order write a non-decreasing run of positions. */
  lemma IntroTraceMonotone(frames: seq<real>)
    requires AfterStart(frames) && NonDecreasing(frames)
    ensures NonDecreasing(IntroTrace(frames))
  {
    var r := IntroTrace(frames);
    forall a, b | 0 <= a <= b < |r|
      ensures r[a] <= r[b]
    {
      ProgressMonotone(frames[a], frames[b]);
      IntroPositionMonotone(Progress(frames[a]), Progress(frames[b]));
    }
  }

  /** The positions written by the first `n` frames, one by one, are the
      intro trace of those frames, and in time order they never decrease. */
  lemma IntroTraceOfRun(frames: seq<real>, n: nat, written: seq<real>)
    requires AfterStart(frames) && n <= |frames| && |written| == n
    requires forall k :: 0 <= k < n ==> written[k] == IntroPosition(Progress(frames[k]))
    ensures written == IntroTrace(frames[..n])
    ensures NonDecreasing(frames) ==> NonDecreasing(written)
  {
    assert written == IntroTrace(frames[..n]);
    if NonDecreasing(frames) {
      IntroTraceMonotone(frames[..n]);
    }
  }

  // ------------------------------------------------------- the abstract state

  /** The three fields the constructor initialises: `sliderPosition`,
      `isDragging` and `isHovered`. */
  datatype SliderState = SliderState(position: real, dragging: bool, hovered: bool)

  predicate InRange(s: SliderState)
  {
    0.0 <= s.position <= 100.0
  }

  function Initial(): SliderState
  {
    SliderState(InitialPosition, false, false)
  }

  /** `handleStart`: dragging begins and the boundary jumps to the pointer. */
  function Pressed(s: SliderState, x: real, width: real): SliderState
    requires width > 0.0
  {
    SliderState(PointerPosition(x, width), true, s.hovered)
  }

  /** `handleMove`: only a dragging slider follows the pointer. */
  function Moved(s: SliderState, x: real, width: real): SliderState
    requires s.dragging ==> width > 0.0
  {
    if s.dragging then s.(position := PointerPosition(x, width)) else s
  }

  /** `handleEnd`. */
  function Released(s: SliderState): SliderState
  {
    s.(dragging := false)
  }

  /** `handleHover`. */
  function Hovered(s: SliderState, inside: bool): SliderState
  {
    s.(hovered := inside)
  }

  /** One frame of the intro animation, `elapsed` ms after its start time. */
  function IntroFrame(s: SliderState, elapsed: real): SliderState
    requires elapsed >= 0.0
  {
    s.(position := IntroPosition(Progress(elapsed)))
  }

  /** Releasing twice is releasing once. */
  lemma ReleaseIdempotent(s: SliderState)
    ensures Released(Released(s)) == Released(s) && !Released(s).dragging
  {
  }

  /** A move while not dragging changes nothing. */
  lemma IdleMoveIgnored(s: SliderState, x: real, width: real)
    requires !s.dragging
    ensures Moved(s, x, width) == s
  {
  }

  /** The events the widget listens to, as one interleaved history. */
  datatype Event =
    | Press(x: real, width: real)    // mousedown / touchstart on the container
    | Drag(x: real, width: real)     // mousemove / touchmove on the document
    | Release                        // mouseup / touchend on the document
    | Hover(inside: bool)            // mouseenter / mouseleave
    | Frame(elapsed: real)           // one intro animation frame

  /** Pointer events come from a laid-out container; frames come after the start time. */
  predicate Admissible(e: Event)
  {
    match e
    case Press(_, w) => w > 0.0
    case Drag(_, w) => w > 0.0
    case Frame(t) => t >= 0.0
    case _ => true
  }

  function Step(s: SliderState, e: Event): (t: SliderState)
    requires Admissible(e)
    ensures InRange(s) ==> InRange(t)
  {
    match e
    case Press(x, w) => Pressed(s, x, w)
    case Drag(x, w) => Moved(s, x, w)
    case Release => Released(s)
    case Hover(inside) => Hovered(s, inside)
    case Frame(t) => IntroFrame(s, t)
  }

  function Run(s: SliderState, events: seq<Event>): SliderState
    requires forall i :: 0 <= i < |events| ==> Admissible(events[i])
    decreases |events|
  {
    if events == [] then s else Run(Step(s, events[0]), events[1..])
  }

  /** No history of events moves the boundary outside [0, 100]. */
  lemma {:induction false} RunKeepsRange(s: SliderState, events: seq<Event>)
    requires InRange(s)
    requires forall i :: 0 <= i < |events| ==> Admissible(events[i])
    ensures InRange(Run(s, events))
    decreases |events|
  {
    if events != [] {
      RunKeepsRange(Step(s, events[0]), events[1..]);
    }
  }

  /** A history that ends with a release leaves the slider idle, whatever came before. */
  lemma {:induction false} ReleaseEndsDrag(s: SliderState, events: seq<Event>)
    requires events != [] && events[|events| - 1] == Release
    requires forall i :: 0 <= i < |events| ==> Admissible(events[i])
    ensures !Run(s, events).dragging
    decreases |events|
  {
    if |events| > 1 {
      ReleaseEndsDrag(Step(s, events[0]), events[1..]);
    }
  }

  /** An idle slider ignores any number of document-level moves. */
  lemma {:induction false} IdleIgnoresDrags(s: SliderState, events: seq<Event>)
    requires !s.dragging
    requires forall i :: 0 <= i < |events| ==> events[i].Drag? && Admissible(events[i])
    ensures Run(s, events) == s
    decreases |events|
  {
    if events != [] {
      IdleIgnoresDrags(Step(s, events[0]), events[1..]);
    }
  }

  // ---------------------------------------------------------------- the class

  /** Which of the optional hooks `querySelector` finds inside the container. */
  datatype Parts = Parts(beforeContainer: bool, handle: bool, beforeLabel: bool, afterLabel: bool, instruction: bool)

  /** The inline styles `updateSliderPosition` writes; None while the element
      is missing or nothing was written yet. */
  datatype Styles = Styles(beforeWidth: Option<real>, handleLeft: Option<real>,
                           beforeLabelOpacity: Option<real>, afterLabelOpacity: Option<real>)

  /** What the page shows for `position`: each present element carries its
      part of `Project(position)`, a missing one carries nothing. */
  function Rendering(parts: Parts, position: real): Styles
  {
    var v := Project(position);
    Styles(if parts.beforeContainer then Some(v.beforeWidth) else None,
           if parts.handle then Some(v.handleLeft) else None,
           if parts.beforeLabel then Some(v.beforeLabelOpacity) else None,
           if parts.afterLabel then Some(v.afterLabelOpacity) else None)
  }

  /** No style has been written to a missing element. */
  predicate Untouched(parts: Parts, styles: Styles)
  {
    && (!parts.beforeContainer ==> styles.beforeWidth == None)
    && (!parts.handle ==> styles.handleLeft == None)
    && (!parts.beforeLabel ==> styles.beforeLabelOpacity == None)
    && (!parts.afterLabel ==> styles.afterLabelOpacity == None)
  }

  class LuxurySlider {
    /** False when no element has the container's id: the constructor then
        returns early and no listener is ever attached. */
    const found: bool
    const parts: Parts

    var sliderPosition: real
    var isDragging: bool
    var isHovered: bool
    /** The `dragging` class on the container. */
    var draggingClass: bool
    var styles: Styles
    /** The instruction hint's opacity, written only by `handleHover`. */
    var instructionOpacity: Option<real>

    function State(): SliderState
      reads this
    {
      SliderState(sliderPosition, isDragging, isHovered)
    }

    /** The position is a percentage, the page shows it, and the `dragging`
        class marks a drag. */
    ghost predicate Valid()
      reads this
    {
      && found
      && InRange(State())
      && styles == Rendering(parts, sliderPosition)
      && draggingClass == isDragging
      && (!parts.instruction ==> instructionOpacity == None)
    }

    constructor (found: bool, parts: Parts)
      ensures this.found == found && this.parts == parts
      ensures found ==> Valid() && State() == Initial()
    {
      this.found := found;
      this.parts := parts;
      if found {
        sliderPosition := InitialPosition;
        isDragging := false;
        isHovered := false;
      }
      draggingClass := false;
      styles := Styles(None, None, None, None);
      instructionOpacity := None;
      new;
      if found {
        UpdateSliderPosition();
      }
    }

    /** Projects the position onto whichever of the four elements exist; never
        changes the position itself. Also run on every window resize. */
    method UpdateSliderPosition()
      requires Untouched(parts, styles)
      modifies this
      ensures styles == Rendering(parts, sliderPosition)
      ensures State() == old(State()) && draggingClass == old(draggingClass)
      ensures instructionOpacity == old(instructionOpacity)
    {
      if parts.beforeContainer {
        styles := styles.(beforeWidth := Some(sliderPosition));
      }
      if parts.handle {
        styles := styles.(handleLeft := Some(sliderPosition));
      }
      if parts.beforeLabel {
        styles := styles.(beforeLabelOpacity := Some(if sliderPosition < BeforeLabelMin then 0.0 else 1.0));
      }
      if parts.afterLabel {
        styles := styles.(afterLabelOpacity := Some(if sliderPosition > AfterLabelMax then 0.0 else 1.0));
      }
    }

    /** Sets the position from a pointer `x` pixels right of the container's
        left edge, `width` being the container's width, and re-renders. */
    method UpdatePosition(x: real, width: real)
      requires Untouched(parts, styles) && width > 0.0
      modifies this
      ensures sliderPosition == PointerPosition(x, width)
      ensures styles == Rendering(parts, sliderPosition)
      ensures isDragging == old(isDragging) && isHovered == old(isHovered)
      ensures draggingClass == old(draggingClass) && instructionOpacity == old(instructionOpacity)
    {
      sliderPosition := Max(0.0, Min(100.0, (x / width) * 100.0));
      UpdateSliderPosition();
    }

    method HandleStart(x: real, width: real)
      requires Valid() && width > 0.0
      modifies this
      ensures Valid() && State() == Pressed(old(State()), x, width)
      ensures instructionOpacity == old(instructionOpacity)
    {
      isDragging := true;
      draggingClass := true;
      UpdatePosition(x, width);
    }

    /** Returns whether the event's default action (page scroll) is suppressed. */
    method HandleMove(x: real, width: real) returns (prevented: bool)
      requires Valid() && (isDragging ==> width > 0.0)
      modifies this
      ensures Valid() && State() == Moved(old(State()), x, width)
      ensures prevented == old(isDragging)
      ensures !prevented ==> unchanged(this)
      ensures instructionOpacity == old(instructionOpacity)
    {
      prevented := false;
      if isDragging {
        prevented := true;
        UpdatePosition(x, width);
      }
    }

    method HandleEnd()
      requires Valid()
      modifies this
      ensures Valid() && State() == Released(old(State())) && !draggingClass
      ensures styles == old(styles) && instructionOpacity == old(instructionOpacity)
    {
      isDragging := false;
      draggingClass := false;
    }

    method HandleHover(inside: bool)
      requires Valid()
      modifies this
      ensures Valid() && State() == Hovered(old(State()), inside) && styles == old(styles)
      ensures instructionOpacity ==
        if parts.instruction then Some(InstructionOpacity(inside, isDragging)) else old(instructionOpacity)
    {
      isHovered := inside;
      if parts.instruction {
        instructionOpacity := Some(if inside || isDragging then 0.0 else InstructionIdle);
      }
    }

    /** The `animate` frame callback, `elapsed` ms after the intro's start
        time: writes and renders the eased position and says whether another
        frame is requested. */
    method AnimateFrame(elapsed: real) returns (more: bool)
      requires Valid() && elapsed >= 0.0
      modifies this
      ensures Valid() && State() == IntroFrame(old(State()), elapsed)
      ensures more <==> Progress(elapsed) < 1.0
      ensures instructionOpacity == old(instructionOpacity)
    {
      var progress := Min(elapsed / IntroDuration, 1.0);
      var easeOut := 1.0 - Pow4(1.0 - progress);
      sliderPosition := IntroStart + (IntroEnd - IntroStart) * easeOut;
      assert sliderPosition == IntroPosition(Progress(elapsed));
      UpdateSliderPosition();
      more := progress < 1.0;
    }

    /** The intro animation's frame loop. `elapsed[k]` is how many ms after the
        start time the host delivers the k-th frame; the loop asks for another
        frame only while progress is below 1. Returns how many frames ran. */
    method RunIntroAnimation(elapsed: seq<real>) returns (frames: nat, ghost trace: seq<real>)
      requires Valid() && AfterStart(elapsed)
      modifies this
      ensures Valid() && isDragging == old(isDragging) && isHovered == old(isHovered)
      ensures instructionOpacity == old(instructionOpacity)
      ensures frames == FramesRun(elapsed)
      ensures trace == IntroTrace(elapsed[..frames])
      ensures sliderPosition == if frames == 0 then old(sliderPosition) else trace[frames - 1]
      ensures NonDecreasing(elapsed) ==> NonDecreasing(trace)
    {
      frames := 0;
      trace := [];
      var more := true;
      while more && frames < |elapsed|
        invariant frames <= |elapsed|
        invariant forall k :: 0 <= k < frames - 1 ==> Progress(elapsed[k]) < 1.0
        invariant more <==> frames == 0 || Progress(elapsed[frames - 1]) < 1.0
        invariant |trace| == frames
        invariant forall k :: 0 <= k < frames ==> trace[k] == IntroPosition(Progress(elapsed[k]))
        invariant frames == 0 ==> sliderPosition == old(sliderPosition)
        invariant frames > 0 ==> sliderPosition == trace[frames - 1]
        invariant Valid() && isDragging == old(isDragging) && isHovered == old(isHovered)
        invariant instructionOpacity == old(instructionOpacity)
      {
        more := AnimateFrame(elapsed[frames]);
        trace := trace + [sliderPosition];
        frames := frames + 1;
      }
      FramesRunIsFirstFinished(elapsed, frames);
      IntroTraceOfRun(elapsed, frames, trace);
    }
  }

  /** The end-to-end drag of a 400 px wide container: press 100 px from its
      left edge, drag to its right edge, release, then move again. */
  method DragScenario()
  {
    var slider := new LuxurySlider(true, Parts(true, true, true, true, true));
    assert slider.sliderPosition == 50.0;
    slider.HandleStart(100.0, 400.0);
    assert slider.sliderPosition == 25.0 && slider.styles.beforeLabelOpacity == Some(1.0);
    var prevented := slider.HandleMove(400.0, 400.0);
    assert prevented && slider.sliderPosition == 100.0 && slider.styles.afterLabelOpacity == Some(0.0);
    slider.HandleEnd();
    prevented := slider.HandleMove(0.0, 400.0);
    assert !prevented && slider.sliderPosition == 100.0;
  }
}
