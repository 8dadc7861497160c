/** The clickable button (`objects/buttons.py`) and the text sprite
    (`objects/textboxes.py`). */
module Widgets {
  import opened Geometry
  import opened Common

  const DefaultPressDelayMs: int := 500
  const NsPerMs: int := 1000000

  /** Whether a button update posts its event: the mouse is on the button, the
      left button is held, and more than the delay has passed since the last post. */
  predicate Fires(rect: Rect, wasPressedOnNs: int, pressDelayNs: int, mouse: Point, leftHeld: bool, nowNs: int)
  {
    Contains(rect, mouse) && leftHeld && nowNs - wasPressedOnNs > pressDelayNs
  }

  class Button {
    const rect: Rect
    const buttonEventName: string
    const pressDelayNs: int
    var wasPressedOnNs: int

    /** `Button(pos, image, button_event_name, press_delay_ms)` created at time `nowNs`. */
    constructor (pos: Point, image: Surface, buttonEventName: string, pressDelayMs: int, nowNs: int)
      ensures rect == Rect(pos.x, pos.y, image.w, image.h)
      ensures this.buttonEventName == buttonEventName
      ensures pressDelayNs == pressDelayMs * NsPerMs
      ensures wasPressedOnNs == nowNs
    {
      rect := Rect(pos.x, pos.y, image.w, image.h);
      this.buttonEventName := buttonEventName;
      pressDelayNs := pressDelayMs * NsPerMs;
      wasPressedOnNs := nowNs;
    }

    /** `Button.update`: posts at most one button-pressed event carrying the
        button's name and restarts the cooldown when it does. */
    method Update(mouse: Point, leftHeld: bool, nowNs: int) returns (posted: seq<Event>)
      modifies this
      ensures Fires(rect, old(wasPressedOnNs), pressDelayNs, mouse, leftHeld, nowNs) ==>
        posted == [ButtonPressed(buttonEventName)] && wasPressedOnNs == nowNs
      ensures !Fires(rect, old(wasPressedOnNs), pressDelayNs, mouse, leftHeld, nowNs) ==>
        posted == [] && wasPressedOnNs == old(wasPressedOnNs)
    {
      posted := [];
      if Contains(rect, mouse) {
        if leftHeld && nowNs - wasPressedOnNs > pressDelayNs {
          wasPressedOnNs := nowNs;
          posted := [ButtonPressed(buttonEventName)];
        }
      }
    }
  }

  /** The cooldown stamp and the times at which the button posted, over a run of
      updates starting from the creation stamp `t0`. */
  function Firings(rect: Rect, delay: int, t0: int, mice: seq<Point>, held: seq<bool>, times: seq<int>): (r: (int, seq<int>))
    requires |mice| == |held| == |times|
    ensures r.0 == (if |r.1| == 0 then t0 else r.1[|r.1| - 1])
    decreases |times|
  {
    if |times| == 0 then (t0, [])
    else
      var n := |times| - 1;
      var (stamp, fired) := Firings(rect, delay, t0, mice[..n], held[..n], times[..n]);
      if Fires(rect, stamp, delay, mice[n], held[n], times[n]) then (times[n], fired + [times[n]])
      else (stamp, fired)
  }

  /** Posted events are spaced by more than the delay: the first comes more than
      the delay after creation, and each later one more than the delay after the
      one before it. */
  lemma {:induction false} FiringsAreSpaced(rect: Rect, delay: int, t0: int, mice: seq<Point>, held: seq<bool>, times: seq<int>)
    requires |mice| == |held| == |times|
    ensures var fired := Firings(rect, delay, t0, mice, held, times).1;
      (|fired| > 0 ==> fired[0] > t0 + delay) &&
      forall k :: 0 <= k < |fired| - 1 ==> fired[k + 1] > fired[k] + delay
    decreases |times|
  {
    if |times| > 0 {
      var n := |times| - 1;
      FiringsAreSpaced(rect, delay, t0, mice[..n], held[..n], times[..n]);
    }
  }

  /** A freshly created button cannot fire within its delay. */
  lemma NoFireRightAfterCreation(rect: Rect, createdNs: int, delay: int, mouse: Point, leftHeld: bool, nowNs: int)
    requires createdNs <= nowNs <= createdNs + delay
    ensures !Fires(rect, createdNs, delay, mouse, leftHeld, nowNs)
  {
  }

  /** The text bookkeeping of `TextSprite.update(text=...)`: a text that differs
      from the PREVIOUS text shifts current into previous; anything else is ignored. */
  function TextStep(previous: Option<string>, current: string, text: Option<string>): (Option<string>, string)
  {
    if text.Some? && Some(text.value) != previous then (Some(current), text.value) else (previous, current)
  }

  class TextSprite {
    var previousText: Option<string>
    var currentText: string

    /** `TextSprite(text, font, color, pos)`; font, colour and position are rendering. */
    constructor (text: string)
      ensures previousText == None && currentText == text
    {
      previousText := None;
      currentText := text;
    }

    /** `TextSprite.update(text=...)`; the re-rendered image is not modelled. */
    method Update(text: Option<string>)
      modifies this
      ensures (previousText, currentText) == TextStep(old(previousText), old(currentText), text)
    {
      if text.Some? && Some(text.value) != previousText {
        previousText := Some(currentText);
        currentText := text.value;
      }
    }
  }

  /** No text, or the previous text, changes nothing; a new text is shown and the
      old current text becomes the previous one. */
  lemma TextStepCases(previous: Option<string>, current: string, text: Option<string>)
    ensures text.None? ==> TextStep(previous, current, text) == (previous, current)
    ensures text.Some? && previous == Some(text.value) ==> TextStep(previous, current, text) == (previous, current)
    ensures text.Some? && previous != Some(text.value) ==> TextStep(previous, current, text) == (Some(current), text.value)
  {
  }

  /** Because the test is against the previous text, the same new text shifts the
      state twice; after that previous and current both hold it and it is ignored. */
  lemma SameTextTwice(previous: Option<string>, current: string, t: string)
    requires previous != Some(t)
    ensures var (p1, c1) := TextStep(previous, current, Some(t));
      var (p2, c2) := TextStep(p1, c1, Some(t));
      p1 == Some(current) && c1 == t &&
      (current != t ==> p2 == Some(t) && c2 == t && TextStep(p2, c2, Some(t)) == (p2, c2)) &&
      (current == t ==> (p2, c2) == (p1, c1))
  {
  }
}
