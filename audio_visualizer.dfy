/**
 * The playback controller of the `AudioVisualizer` component: the values derived
 * from the audio clock on every animation frame (sample index, amplitude window,
 * normalised amplitude, distance travelled) and the state machine driven by the
 * Play, Pause/Continue buttons and the self-rescheduling `draw` frame callback.
 *
 * Numbers are exact `real`s and `int`s; IEEE rounding is not modelled.
 */
module AudioVisualizer {
  import opened Wrappers
  import RealFacts

  /** Entries of the amplitude window handed to the artboard: three samples either side of the current one. */
  const WindowWidth: nat := 7
  const HalfWindow: nat := 3

  /** The brush's travel: 122 cm covered in 264 one-second steps. */
  const TotalLengthCm: real := 122.0
  const Steps: real := 264.0

  // ---------------------------------------------------------------------------
  // Derivations from the audio clock
  // ---------------------------------------------------------------------------

  /** `Math.min(...amps)` over a non-empty track. */
  function MinAmp(amps: seq<real>): (m: real)
    requires |amps| > 0
    ensures m in amps
    ensures forall i :: 0 <= i < |amps| ==> m <= amps[i]
  {
    if |amps| == 1 then amps[0]
    else
      var rest := MinAmp(amps[1..]);
      if amps[0] <= rest then amps[0] else rest
  }

  /** `Math.max(...amps)` over a non-empty track. */
  function MaxAmp(amps: seq<real>): (m: real)
    requires |amps| > 0
    ensures m in amps
    ensures forall i :: 0 <= i < |amps| ==> amps[i] <= m
  {
    if |amps| == 1 then amps[0]
    else
      var rest := MaxAmp(amps[1..]);
      if amps[0] >= rest then amps[0] else rest
  }

  /**
   * The sample shown at playback time `elapsed`: `Math.min(Math.floor(elapsed), len - 1)`.
   * It is the smaller of the whole seconds elapsed and the last index, so it never
   * passes the last sample, and inside the track it is exactly the whole seconds elapsed.
   */
  function SampleIndex(elapsed: real, len: int): (idx: int)
    ensures idx <= len - 1 && idx <= elapsed.Floor
    ensures idx == elapsed.Floor || idx == len - 1
    ensures 0.0 <= elapsed < len as real ==> idx == elapsed.Floor
    ensures 0.0 <= elapsed && 0 < len ==> 0 <= idx < len
  {
    if elapsed.Floor < len - 1 then elapsed.Floor else len - 1
  }

  /** `amps[i] ?? 0`: reading a JavaScript array outside its bounds gives `undefined`, which `??` turns into 0. */
  function AmpAt(amps: seq<real>, i: int): (a: real)
  {
    if 0 <= i < |amps| then amps[i] else 0.0
  }

  /** The seven amplitudes around sample `idx`, earliest first, padded with 0 past either end of the track. */
  function AmpWindow(amps: seq<real>, idx: int): (w: seq<real>)
    ensures |w| == WindowWidth
    ensures forall k :: 0 <= k < |w| ==>
      w[k] == (if 0 <= idx - HalfWindow + k < |amps| then amps[idx - HalfWindow + k] else 0.0)
    ensures 0 <= idx < |amps| ==> w[HalfWindow] == amps[idx]
  {
    [ AmpAt(amps, idx - 3), AmpAt(amps, idx - 2), AmpAt(amps, idx - 1), AmpAt(amps, idx),
      AmpAt(amps, idx + 1), AmpAt(amps, idx + 2), AmpAt(amps, idx + 3) ]
  }

  /**
   * `getAmpWindow`: with no audio element (`clock` is `None`) seven zeros; otherwise
   * the window around the sample the clock's current time selects.
   */
  function GetAmpWindow(amps: seq<real>, clock: Option<real>): (w: seq<real>)
    ensures |w| == WindowWidth
    ensures clock.None? ==> forall k :: 0 <= k < |w| ==> w[k] == 0.0
    ensures clock.Some? && 0.0 <= clock.value && 0 < |amps| ==>
      w[HalfWindow] == amps[SampleIndex(clock.value, |amps|)]
  {
    match clock
    case None => [0.0, 0.0, 0.0, 0.0, 0.0, 0.0, 0.0]
    case Some(t) => AmpWindow(amps, SampleIndex(t, |amps|))
  }

  /**
   * `(amps[idx] - minAmp) / (maxAmp - minAmp)`, the input of the angle curve. The source
   * divides by zero when every sample is equal, so a track with distinct extremes is required.
   */
  function AmpNorm(amps: seq<real>, idx: int): (n: real)
    requires 0 <= idx < |amps|
    requires MinAmp(amps) < MaxAmp(amps)
    ensures 0.0 <= n <= 1.0
    ensures n == 0.0 <==> amps[idx] == MinAmp(amps)
    ensures n == 1.0 <==> amps[idx] == MaxAmp(amps)
  {
    var lo, hi := MinAmp(amps), MaxAmp(amps);
    assert lo <= amps[idx] <= hi;
    Normalise(amps[idx], lo, hi)
  }

  /** The normalisation formula `(x - lo) / (hi - lo)` for a value between two distinct extremes. */
  function Normalise(x: real, lo: real, hi: real): (n: real)
    requires lo <= x <= hi && lo < hi
    ensures 0.0 <= n <= 1.0
    ensures n == 0.0 <==> x == lo
    ensures n == 1.0 <==> x == hi
    ensures n * (hi - lo) == x - lo
  {
    RealFacts.UnitQuotient(x - lo, hi - lo);
    RealFacts.ScalesBack(x - lo, hi - lo);
    (x - lo) / (hi - lo)
  }

  /** Normalisation keeps the order of values. */
  lemma NormaliseMonotone(x: real, y: real, lo: real, hi: real)
    requires lo <= x <= y <= hi && lo < hi
    ensures Normalise(x, lo, hi) <= Normalise(y, lo, hi)
  {
    RealFacts.DivideMonotone(x - lo, y - lo, hi - lo);
  }

  /** A louder sample never gets a smaller normalised amplitude. */
  lemma AmpNormMonotone(amps: seq<real>, i: int, j: int)
    requires 0 <= i < |amps| && 0 <= j < |amps|
    requires MinAmp(amps) < MaxAmp(amps)
    requires amps[i] <= amps[j]
    ensures AmpNorm(amps, i) <= AmpNorm(amps, j)
  {
    var lo, hi := MinAmp(amps), MaxAmp(amps);
    assert lo <= amps[i] && amps[j] <= hi;
    NormaliseMonotone(amps[i], amps[j], lo, hi);
  }

  /** `makeDistance`: the distance travelled after `idx` steps of 122/264 cm. */
  function Distance(idx: int): (d: real)
    ensures d * Steps == idx as real * TotalLengthCm
  {
    idx as real * (TotalLengthCm / Steps)
  }

  /** The last of the 264 steps lands exactly on the full 122 cm. */
  lemma DistanceAtLastStep()
    ensures Distance(264) == 122.0
  {
  }

  // ---------------------------------------------------------------------------
  // The playback state machine as a function of the state
  // ---------------------------------------------------------------------------

  /** The parts of the audio element the component reads and writes. */
  datatype Media = Media(currentTime: real, paused: bool, ended: bool)

  /** The numeric content of what one `draw` call displays: counter index and amplitude, distance, window. */
  datatype Shown = Shown(counterIndex: int, counterAmp: real, distance: real, window: seq<real>)

  /**
   * The component's state: `isPlaying`, `isPaused`, `pausedTime`, whether an animation
   * frame is pending (`requestRef`), the audio element if attached, and the last display
   * (`None` before the first frame).
   */
  datatype Playback = Playback(
    isPlaying: bool,
    isPaused: bool,
    pausedTime: real,
    frameScheduled: bool,
    media: Option<Media>,
    shown: Option<Shown>)

  /** A track has at least one sample, and clock positions are never negative. */
  ghost predicate WellFormed(s: Playback, amps: seq<real>)
  {
    0 < |amps| && 0.0 <= s.pausedTime && (s.media.Some? ==> 0.0 <= s.media.value.currentTime)
  }

  /** The state at mount: stopped, not paused, no frame pending, nothing displayed. */
  function Initial(media: Option<Media>): (s: Playback)
    ensures !s.isPlaying && !s.isPaused && !s.frameScheduled && s.shown.None?
    ensures s.media == media
  {
    Playback(false, false, 0.0, false, media, None)
  }

  /** `handlePauseContinue`: pause records the clock and cancels the frame; continue restores it and schedules one. */
  function PauseContinueStep(s: Playback): (t: Playback)
    ensures t.isPlaying == s.isPlaying && t.shown == s.shown
    ensures s.media.Some? ==> t.isPaused == !s.isPaused && t.media.Some?
    ensures s.media.Some? ==> t.frameScheduled == s.isPaused
    ensures forall amps :: WellFormed(s, amps) ==> WellFormed(t, amps)
  {
    match s.media
    case None => s
    case Some(m) =>
      if !s.isPaused then
        s.(media := Some(m.(paused := true)), pausedTime := m.currentTime,
           isPaused := true, frameScheduled := false)
      else
        s.(media := Some(m.(currentTime := s.pausedTime, paused := false)),
           isPaused := false, frameScheduled := true)
  }

  /** `handlePlay`: clear the pause; with an audio element, rewind to 0, play, and schedule a frame. */
  function PlayStep(s: Playback): (t: Playback)
    ensures !t.isPaused
    ensures s.media.Some? ==> t.isPlaying && t.frameScheduled && t.media.Some?
    ensures s.media.Some? ==> t.media.value.currentTime == 0.0 && !t.media.value.paused
    ensures s.media.None? ==> t == s.(isPaused := false)
    ensures t.shown == s.shown && t.pausedTime == s.pausedTime
    ensures forall amps :: WellFormed(s, amps) ==> WellFormed(t, amps)
  {
    var s1 := if s.isPaused then s.(isPaused := false) else s;
    match s1.media
    case None => s1
    case Some(m) =>
      s1.(media := Some(m.(currentTime := 0.0, paused := false)), isPlaying := true, frameScheduled := true)
  }

  /** What one `draw` call displays when the audio element's clock reads `elapsed`. */
  function ShownAt(amps: seq<real>, elapsed: real): (v: Shown)
    requires 0 < |amps| && 0.0 <= elapsed
    ensures 0 <= v.counterIndex < |amps| && v.counterIndex == SampleIndex(elapsed, |amps|)
    ensures |v.window| == WindowWidth
    ensures v.counterAmp == amps[v.counterIndex] && v.window[HalfWindow] == v.counterAmp
    ensures v.distance * Steps == v.counterIndex as real * TotalLengthCm
  {
    var idx := SampleIndex(elapsed, |amps|);
    Shown(idx, amps[idx], Distance(idx), GetAmpWindow(amps, Some(elapsed)))
  }

  /** Whether `draw` re-arms itself: the audio is neither paused nor ended and the last sample is not yet shown. */
  predicate KeepsDrawing(amps: seq<real>, m: Media)
  {
    !m.paused && !m.ended && SampleIndex(m.currentTime, |amps|) < |amps| - 1
  }

  /**
   * `draw`: without canvas, 2-D context or audio element nothing happens; otherwise the
   * display is refreshed from the clock, and the callback either schedules the next frame
   * or marks playback as stopped.
   */
  function DrawStep(s: Playback, amps: seq<real>, hasCanvas: bool, hasContext: bool): (t: Playback)
    requires WellFormed(s, amps)
    ensures WellFormed(t, amps)
    ensures !hasCanvas || !hasContext || s.media.None? ==> t == s
    ensures t.media == s.media && t.isPaused == s.isPaused && t.pausedTime == s.pausedTime
  {
    if !hasCanvas then s
    else
      match s.media
      case None => s
      case Some(m) =>
        if !hasContext then s
        else
          var v := ShownAt(amps, m.currentTime);
          if !m.paused && !m.ended && v.counterIndex < |amps| - 1 then
            s.(shown := Some(v), frameScheduled := true)
          else
            s.(shown := Some(v), isPlaying := false)
  }

  /** The browser delivers the pending animation frame: the request is consumed and `draw` runs. */
  function FrameStep(s: Playback, amps: seq<real>, hasCanvas: bool, hasContext: bool): (t: Playback)
    requires WellFormed(s, amps) && s.frameScheduled
    ensures WellFormed(t, amps)
  {
    DrawStep(s.(frameScheduled := false), amps, hasCanvas, hasContext)
  }

  // ---------------------------------------------------------------------------
  // Properties of the state machine
  // ---------------------------------------------------------------------------

  /**
   * Pause followed by continue puts the clock back where it was when paused, whatever
   * happened to the audio element in between (`between`), and leaves playback running
   * with a frame scheduled.
   */
  lemma PauseThenContinueRestoresPosition(s: Playback, between: Media)
    requires s.media.Some? && !s.isPaused
    ensures var p := PauseContinueStep(s);
            var c := PauseContinueStep(p.(media := Some(between)));
            p.isPaused && p.pausedTime == s.media.value.currentTime && !p.frameScheduled &&
            p.media.value.paused &&
            !c.isPaused && c.frameScheduled && !c.media.value.paused &&
            c.media.value.currentTime == s.media.value.currentTime
  {
  }

  /** Without an audio element Pause/Continue changes nothing at all. */
  lemma PauseContinueWithoutAudio(s: Playback)
    requires s.media.None?
    ensures PauseContinueStep(s) == s
  {
  }

  /** Without an audio element Play still clears `isPaused`, and changes nothing else. */
  lemma PlayWithoutAudio(s: Playback)
    requires s.media.None?
    ensures PlayStep(s) == s.(isPaused := false)
  {
  }

  /**
   * When a frame is delivered and canvas, context and audio are all present, the display
   * shows the clock's sample, and `draw` re-arms itself exactly when the audio is playing,
   * not ended, and short of the last sample; otherwise it clears `isPlaying`.
   */
  lemma FrameReschedulesIff(s: Playback, amps: seq<real>)
    requires WellFormed(s, amps) && s.frameScheduled && s.media.Some?
    ensures var t := FrameStep(s, amps, true, true);
            var m := s.media.value;
            && t.shown == Some(ShownAt(amps, m.currentTime))
            && (t.frameScheduled <==> KeepsDrawing(amps, m))
            && (t.frameScheduled ==> t.isPlaying == s.isPlaying)
            && (!t.frameScheduled ==> !t.isPlaying)
  {
  }

  /** Once the clock has reached the last sample, the next frame stops the loop and clears `isPlaying`. */
  lemma LastSampleStopsPlayback(s: Playback, amps: seq<real>)
    requires WellFormed(s, amps) && s.frameScheduled && s.media.Some?
    requires s.media.value.currentTime >= (|amps| - 1) as real
    ensures var t := FrameStep(s, amps, true, true);
            !t.frameScheduled && !t.isPlaying &&
            t.shown.value.counterIndex == |amps| - 1
  {
  }

  /** Pausing stops the draw loop: a paused clock is never re-armed by a frame. */
  lemma PausedClockStopsDrawing(s: Playback, amps: seq<real>, hasCanvas: bool, hasContext: bool)
    requires WellFormed(s, amps) && s.frameScheduled && s.media.Some? && s.media.value.paused
    ensures !FrameStep(s, amps, hasCanvas, hasContext).frameScheduled
  {
  }

  /**
   * Every entry of the displayed window is 0 or lies between the track's smallest and
   * largest sample.
   */
  lemma WindowWithinTrackRange(amps: seq<real>, clock: Option<real>)
    requires 0 < |amps|
    ensures var w := GetAmpWindow(amps, clock);
            forall k :: 0 <= k < |w| ==> w[k] == 0.0 || MinAmp(amps) <= w[k] <= MaxAmp(amps)
  {
  }

  // ---------------------------------------------------------------------------
  // The component as objects that change in place
  // ---------------------------------------------------------------------------

  /** The audio element: a clock the component reads and seeks, and play/pause commands. */
  class AudioElement {
    var currentTime: real
    var paused: bool
    var ended: bool

    constructor ()
      ensures currentTime == 0.0 && paused && !ended
    {
      currentTime := 0.0;
      paused := true;
      ended := false;
    }

    /** `audio.play()`: the element is no longer paused; the position is kept. */
    method Play()
      modifies this
      ensures !paused && currentTime == old(currentTime) && ended == old(ended)
    {
      paused := false;
    }

    /** `audio.pause()`: the element is paused; the position is kept. */
    method Pause()
      modifies this
      ensures paused && currentTime == old(currentTime) && ended == old(ended)
    {
      paused := true;
    }
  }

  /** One mounted `AudioVisualizer`: its track, its refs and its state. */
  class Visualizer {
    const amps: seq<real>
    const audio: AudioElement?
    const hasCanvas: bool
    const hasContext: bool

    var isPlaying: bool
    var isPaused: bool
    var pausedTime: real
    var frameScheduled: bool
    var shown: Option<Shown>

    /** The component's state as a value. */
    function State(): Playback
      reads this, audio
    {
      Playback(isPlaying, isPaused, pausedTime, frameScheduled,
               if audio == null then None else Some(Media(audio.currentTime, audio.paused, audio.ended)),
               shown)
    }

    ghost predicate Valid()
      reads this, audio
    {
      WellFormed(State(), amps)
    }

    constructor (amps: seq<real>, audio: AudioElement?, hasCanvas: bool, hasContext: bool)
      requires 0 < |amps|
      requires audio != null ==> 0.0 <= audio.currentTime
      ensures Valid()
      ensures this.amps == amps && this.audio == audio
      ensures this.hasCanvas == hasCanvas && this.hasContext == hasContext
      ensures State() == Initial(State().media)
    {
      this.amps := amps;
      this.audio := audio;
      this.hasCanvas := hasCanvas;
      this.hasContext := hasContext;
      isPlaying := false;
      isPaused := false;
      pausedTime := 0.0;
      frameScheduled := false;
      shown := None;
    }

    /** The Pause/Continue button. */
    method HandlePauseContinue()
      requires Valid()
      modifies this, audio
      ensures Valid()
      ensures State() == PauseContinueStep(old(State()))
    {
      if audio == null {
        return;
      }
      if !isPaused {
        audio.Pause();
        pausedTime := audio.currentTime;
        isPaused := true;
        if frameScheduled {
          frameScheduled := false;
        }
      } else {
        audio.currentTime := pausedTime;
        audio.Play();
        isPaused := false;
        frameScheduled := true;
      }
    }

    /** The Play / restart button. */
    method HandlePlay()
      requires Valid()
      modifies this, audio
      ensures Valid()
      ensures State() == PlayStep(old(State()))
    {
      if isPaused {
        isPaused := false;
      }
      if audio == null {
        return;
      }
      audio.currentTime := 0.0;
      audio.Play();
      isPlaying := true;
      frameScheduled := true;
    }

    /** The `draw` frame callback. */
    method Draw()
      requires Valid()
      modifies this
      ensures Valid()
      ensures State() == DrawStep(old(State()), amps, hasCanvas, hasContext)
    {
      if !hasCanvas {
        return;
      }
      if audio == null || !hasContext {
        return;
      }
      var elapsed := audio.currentTime;
      var idx := SampleIndex(elapsed, |amps|);
      var distance := Distance(idx);
      var window := GetAmpWindow(amps, Some(audio.currentTime));
      shown := Some(Shown(idx, amps[idx], distance, window));
      if !audio.paused && !audio.ended && idx < |amps| - 1 {
        frameScheduled := true;
      } else {
        isPlaying := false;
      }
    }

    /** The browser runs the pending animation frame. */
    method AnimationFrame()
      requires Valid() && frameScheduled
      modifies this
      ensures Valid()
      ensures State() == FrameStep(old(State()), amps, hasCanvas, hasContext)
    {
      frameScheduled := false;
      Draw();
    }
  }
}
