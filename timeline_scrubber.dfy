/**
 * The `TimelineScrubber` component: the progress bar's fill, the conversion of a pointer
 * position on the bar into a seek time, and the `isDragging` flag driven by pointer
 * down / move / up events. Seeks are issued to the parent through `onSeek`; the model
 * records them, in order, in `Scrubber.seeks`.
 */
module TimelineScrubber {
  import opened Wrappers
  import RealFacts

  /** The bar's bounding box on screen, as far as the seek computation reads it. */
  datatype Rect = Rect(left: real, width: real)

  /** `progress`: how much of the bar is filled, in percent; 0 while the duration is unknown or not positive. */
  function Progress(currentTime: real, duration: real): (p: real)
    ensures duration <= 0.0 ==> p == 0.0
    ensures 0.0 < duration ==> p * duration == currentTime * 100.0
    ensures 0.0 < duration && 0.0 <= currentTime <= duration ==> 0.0 <= p <= 100.0
  {
    if duration > 0.0 then
      var q := currentTime / duration;
      RealFacts.ScalesBack(currentTime, duration);
      assert q * 100.0 * duration == q * duration * 100.0;
      if 0.0 <= currentTime <= duration then
        RealFacts.UnitQuotient(currentTime, duration);
        q * 100.0
      else
        q * 100.0
    else 0.0
  }

  /**
   * Whether `x / width` has a value the clamp can use: a bounding box never has a negative
   * width, and on a zero-width bar only a pointer exactly on the edge gives `0 / 0`, which is `NaN`.
   */
  predicate Measurable(x: real, width: real)
  {
    0.0 < width || (width == 0.0 && x != 0.0)
  }

  /**
   * `Math.max(0, Math.min(100, (x / width) * 100))`: the pointer's offset from the bar's
   * left edge as a percentage of its width, clamped to the bar. On a zero-width bar `x / 0`
   * is plus or minus infinity, which the clamp turns into 100 or 0.
   */
  function Percentage(x: real, width: real): (pct: real)
    requires Measurable(x, width)
    ensures 0.0 <= pct <= 100.0
    ensures x <= 0.0 ==> pct == 0.0
    ensures width <= x ==> pct == 100.0
    ensures 0.0 < width && 0.0 <= x <= width ==> pct * width == x * 100.0
  {
    if width == 0.0 then
      if 0.0 < x then 100.0 else 0.0
    else
      var raw := x / width * 100.0;
      RealFacts.QuotientAgainstUnit(x, width);
      RealFacts.ScalesBack(x, width);
      assert raw * width == x / width * width * 100.0;
      var capped := if raw < 100.0 then raw else 100.0;
      if capped > 0.0 then capped else 0.0
  }

  /** The time a pointer at `clientX` seeks to: the clamped percentage of `duration`. */
  function SeekTime(clientX: real, rect: Rect, duration: real): (t: real)
    requires Measurable(clientX - rect.left, rect.width)
    ensures 0.0 <= duration ==> 0.0 <= t <= duration
    ensures clientX <= rect.left ==> t == 0.0
    ensures rect.left + rect.width <= clientX ==> t == duration
  {
    var pct := Percentage(clientX - rect.left, rect.width);
    if 0.0 <= duration then
      RealFacts.MultiplyMonotone(0.0, pct / 100.0, duration);
      RealFacts.MultiplyMonotone(pct / 100.0, 1.0, duration);
      PercentOf(pct, duration)
    else
      PercentOf(pct, duration)
  }

  /** `(percentage / 100) * duration`. */
  function PercentOf(pct: real, duration: real): (t: real)
  {
    pct / 100.0 * duration
  }

  /** Moving the pointer to the right never seeks to an earlier time. */
  lemma SeekTimeMonotone(x1: real, x2: real, rect: Rect, duration: real)
    requires Measurable(x1 - rect.left, rect.width) && Measurable(x2 - rect.left, rect.width)
    requires 0.0 <= duration
    requires x1 <= x2
    ensures SeekTime(x1, rect, duration) <= SeekTime(x2, rect, duration)
  {
    var p1 := Percentage(x1 - rect.left, rect.width);
    var p2 := Percentage(x2 - rect.left, rect.width);
    PercentageMonotone(x1 - rect.left, x2 - rect.left, rect.width);
    PercentOfMonotone(p1, p2, duration);
    assert SeekTime(x1, rect, duration) == PercentOf(p1, duration);
    assert SeekTime(x2, rect, duration) == PercentOf(p2, duration);
  }

  /** A larger percentage of a non-negative duration is a later time. */
  lemma PercentOfMonotone(p1: real, p2: real, duration: real)
    requires p1 <= p2 && 0.0 <= duration
    ensures PercentOf(p1, duration) <= PercentOf(p2, duration)
  {
    RealFacts.MultiplyMonotone(p1 / 100.0, p2 / 100.0, duration);
  }

  /** The clamped percentage never decreases as the offset grows. */
  lemma PercentageMonotone(a: real, b: real, w: real)
    requires Measurable(a, w) && Measurable(b, w)
    requires a <= b
    ensures Percentage(a, w) <= Percentage(b, w)
  {
    if 0.0 < w {
      RealFacts.DivideMonotone(a, b, w);
    }
  }

  /**
   * `updatePosition`: no seek without the bar element or while the duration is 0;
   * otherwise the seek time for the pointer position.
   */
  function SeekRequest(hasElement: bool, duration: real, clientX: real, rect: Rect): (seek: Option<real>)
    requires hasElement && duration != 0.0 ==> Measurable(clientX - rect.left, rect.width)
    ensures seek.None? <==> !hasElement || duration == 0.0
    ensures seek.Some? ==> seek.value == SeekTime(clientX, rect, duration)
    ensures seek.Some? && 0.0 < duration ==> 0.0 <= seek.value <= duration
  {
    if !hasElement || duration == 0.0 then None
    else Some(SeekTime(clientX, rect, duration))
  }

  /** The `onSeek` calls one request issues: none or exactly one. */
  function Issued(seek: Option<real>): (calls: seq<real>)
    ensures |calls| <= 1
    ensures seek.None? ==> calls == []
    ensures seek.Some? ==> calls == [seek.value]
  {
    match seek
    case None => []
    case Some(t) => [t]
  }

  /** One mounted `TimelineScrubber`: whether its bar element exists, the drag flag, and the seeks it issued. */
  class Scrubber {
    const hasElement: bool
    var isDragging: bool
    var seeks: seq<real>

    constructor (hasElement: bool)
      ensures this.hasElement == hasElement
      ensures !isDragging && seeks == []
    {
      this.hasElement := hasElement;
      isDragging := false;
      seeks := [];
    }

    /** `updatePosition`: issue the seek for the pointer position, if any. */
    method UpdatePosition(clientX: real, rect: Rect, duration: real)
      requires hasElement && duration != 0.0 ==> Measurable(clientX - rect.left, rect.width)
      modifies this
      ensures isDragging == old(isDragging)
      ensures seeks == old(seeks) + Issued(SeekRequest(hasElement, duration, clientX, rect))
    {
      if !hasElement || duration == 0.0 {
        return;
      }
      var newTime := SeekTime(clientX, rect, duration);
      seeks := seeks + [newTime];
    }

    /** `handlePointerDown`: start dragging and seek to the pointer. */
    method HandlePointerDown(clientX: real, rect: Rect, duration: real)
      requires hasElement && duration != 0.0 ==> Measurable(clientX - rect.left, rect.width)
      modifies this
      ensures isDragging
      ensures seeks == old(seeks) + Issued(SeekRequest(hasElement, duration, clientX, rect))
    {
      isDragging := true;
      UpdatePosition(clientX, rect, duration);
    }

    /** `handlePointerMove`: follow the pointer only while dragging. */
    method HandlePointerMove(clientX: real, rect: Rect, duration: real)
      requires hasElement && duration != 0.0 ==> Measurable(clientX - rect.left, rect.width)
      modifies this
      ensures isDragging == old(isDragging)
      ensures old(isDragging) ==> seeks == old(seeks) + Issued(SeekRequest(hasElement, duration, clientX, rect))
      ensures !old(isDragging) ==> seeks == old(seeks)
    {
      if isDragging {
        UpdatePosition(clientX, rect, duration);
      }
    }

    /** `handlePointerUp`: stop dragging; no seek. */
    method HandlePointerUp()
      modifies this
      ensures !isDragging && seeks == old(seeks)
    {
      isDragging := false;
    }
  }
}
