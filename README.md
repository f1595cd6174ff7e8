# brush-tool playback core in Dafny

This project models the logic of three React components of the brush-tool app. The rest of the app draws the screen.

- **AudioVisualizer** (`audio_visualizer.dfy`, module `AudioVisualizer`). On every animation frame, `draw` reads the audio element's clock. From it, `draw` derives:
  - the sample index `min(floor(currentTime), len - 1)`;
  - a 7-entry amplitude window, padded with 0;
  - the normalised amplitude `(a - min) / (max - min)`;
  - the distance travelled, `idx * 122/264` cm.

  The Play, Pause/Continue and `draw` handlers drive a small state machine over `isPlaying`, `isPaused`, `pausedTime`, the pending animation frame and the audio element.
  - The state machine is specified by step functions over a `Playback` value: `PlayStep`, `PauseContinueStep`, `DrawStep` and `FrameStep`.
  - The class `Visualizer` holds the same state as fields and an `AudioElement?` reference. Each handler method is proved to move `State()` exactly as its step function says.
  - The source's promises are proved as lemmas about the step functions.
- **TimelineScrubber** (`timeline_scrubber.dfy`). This covers the fill percentage of the progress bar and the clamp from a pointer position to a seek time in `[0, duration]`. The `Scrubber` class holds the `isDragging` flag, driven by pointer down, move and up events. Every seek it issues through `onSeek` is recorded, in order, in `seeks`.
- **Line** (`line.dfy`). This covers the optional track index, the Previous and Next buttons, their disabled flags, and the write of the index to storage. The flags use JavaScript truthiness, and the model keeps the code's behaviour exactly:
  - index `0` behaves like an undefined index;
  - the Next check never compares the index with the last track.

  Lemmas state what follows from this: index 0 is a dead end, and with more than one track Next is enabled only where clicking it does nothing.

- **RealFacts** (`real_facts.dfy`). This holds small order facts about multiplying and dividing reals, one step each. The normalisation, progress and percentage proofs use them.

Numbers are Dafny `real`s and `int`s. IEEE rounding and `NaN` are not modelled. The one place where the source produces an infinity, a pointer off the edge of a zero-width progress bar, is modelled by its clamped result. `Wrappers.Option` stands for a value that may be `undefined` or `null`.

## Model

| member | source | states |
|---|---|---|
| AudioVisualizer.MinAmp | src/components/AudioVisualizer.tsx:64 | `Math.min(...amps)`: a sample of the track that is no larger than any sample |
| AudioVisualizer.MaxAmp | src/components/AudioVisualizer.tsx:65 | `Math.max(...amps)`: a sample of the track that is no smaller than any sample |
| AudioVisualizer.SampleIndex | src/components/AudioVisualizer.tsx:63 | the index is the smaller of `floor(currentTime)` and `len - 1`, so it never passes `len - 1`; for `0 <= t < len` it equals `floor(t)`; for `t >= 0` it is a valid index |
| AudioVisualizer.AmpWindow | src/components/AudioVisualizer.tsx:87-95 | exactly 7 entries; entry `k` is `amps[idx-3+k]` when that index is in `[0, len)` and 0 otherwise; entry 3 is `amps[idx]` |
| AudioVisualizer.GetAmpWindow | src/components/AudioVisualizer.tsx:82-96 | always 7 entries; all 0 without an audio element; otherwise entry 3 is the sample the clock selects |
| AudioVisualizer.WindowWithinTrackRange | src/components/AudioVisualizer.tsx:87-95 | every window entry is 0 or lies between the track's minimum and maximum |
| AudioVisualizer.AmpNorm | src/components/AudioVisualizer.tsx:66 | when `min < max`, the normalised amplitude lies in `[0, 1]`; it is 0 exactly at a minimum sample and 1 exactly at a maximum sample |
| AudioVisualizer.Normalise | src/components/AudioVisualizer.tsx:66 | `(x - lo)/(hi - lo)` lies in `[0, 1]`, is 0 only at `lo` and 1 only at `hi`, and scales back to `x - lo` |
| AudioVisualizer.NormaliseMonotone | src/components/AudioVisualizer.tsx:66 | normalisation preserves order |
| AudioVisualizer.AmpNormMonotone | src/components/AudioVisualizer.tsx:64-66 | a louder sample never gets a smaller normalised amplitude |
| AudioVisualizer.Distance | src/components/AudioVisualizer.tsx:73-80 | the distance times 264 equals the index times 122: `idx` steps of 122/264 cm |
| AudioVisualizer.DistanceAtLastStep | src/components/AudioVisualizer.tsx:74-78 | index 264 gives exactly 122 cm |
| AudioVisualizer.PauseContinueStep | src/components/AudioVisualizer.tsx:36-54 | with audio, the step flips `isPaused`; a frame is pending afterwards exactly when it was a continue; `isPlaying` and the display never change; non-negative clock positions are preserved |
| AudioVisualizer.PlayStep | src/components/AudioVisualizer.tsx:119-128 | `isPaused` is always cleared; with audio, the clock is rewound to 0 and played, `isPlaying` is set and a frame is scheduled; without audio nothing else changes |
| AudioVisualizer.ShownAt | src/components/AudioVisualizer.tsx:62-98 | what a frame displays: a valid index equal to `SampleIndex`, that sample's amplitude, the matching distance, and a 7-entry window centred on the same sample |
| AudioVisualizer.DrawStep | src/components/AudioVisualizer.tsx:56-117 | without canvas, context or audio the state is unchanged; the step never touches the clock, `isPaused` or `pausedTime`; well-formedness is preserved |
| AudioVisualizer.FrameStep | src/components/AudioVisualizer.tsx:113 | delivering the pending frame consumes the request and runs `draw`; well-formedness is preserved |
| AudioVisualizer.PauseThenContinueRestoresPosition | src/components/AudioVisualizer.tsx:41-52 | pause records `pausedTime = currentTime`, sets `isPaused`, pauses the audio and leaves no frame pending; the next continue writes that same time back to the clock (whatever the element did meanwhile), plays it, clears `isPaused` and schedules a frame |
| AudioVisualizer.PauseContinueWithoutAudio | src/components/AudioVisualizer.tsx:37-38 | without an audio element the Pause/Continue handler changes nothing |
| AudioVisualizer.PlayWithoutAudio | src/components/AudioVisualizer.tsx:120-122 | without an audio element Play still clears `isPaused` and changes nothing else |
| AudioVisualizer.FrameReschedulesIff | src/components/AudioVisualizer.tsx:112-116 | with canvas, context and audio present, a frame shows the clock's sample and re-arms itself iff the audio is not paused, not ended and `idx < len - 1`; otherwise `isPlaying` becomes false |
| AudioVisualizer.LastSampleStopsPlayback | src/components/AudioVisualizer.tsx:112-116 | once the clock reaches the last sample, the frame shows index `len - 1`, does not reschedule and clears `isPlaying` |
| AudioVisualizer.PausedClockStopsDrawing | src/components/AudioVisualizer.tsx:112 | a frame never re-arms while the audio is paused |
| AudioVisualizer.AudioElement.Play | src/components/AudioVisualizer.tsx:50 | `audio.play()` unpauses the element and keeps its position |
| AudioVisualizer.AudioElement.Pause | src/components/AudioVisualizer.tsx:41 | `audio.pause()` pauses the element and keeps its position |
| AudioVisualizer.Visualizer.constructor | src/components/AudioVisualizer.tsx:9-21 | the mounted component starts not playing, not paused, with no frame pending and nothing displayed, holding its track and audio element |
| AudioVisualizer.Visualizer.HandlePauseContinue | src/components/AudioVisualizer.tsx:36-54 | the handler moves the state exactly as `PauseContinueStep` and keeps it well formed |
| AudioVisualizer.Visualizer.HandlePlay | src/components/AudioVisualizer.tsx:119-128 | the handler moves the state exactly as `PlayStep` and keeps it well formed |
| AudioVisualizer.Visualizer.Draw | src/components/AudioVisualizer.tsx:56-117 | the callback moves the state exactly as `DrawStep` and keeps it well formed |
| AudioVisualizer.Visualizer.AnimationFrame | src/components/AudioVisualizer.tsx:113 | a delivered frame moves the state exactly as `FrameStep` |
| TimelineScrubber.Progress | src/components/TimelineScrubber.tsx:24 | 0 when `duration <= 0`; otherwise `progress * duration == currentTime * 100`, which lies in `[0, 100]` for a time within the track |
| TimelineScrubber.Percentage | src/components/TimelineScrubber.tsx:49 | the percentage is clamped to `[0, 100]`; it is 0 left of the bar, 100 right of it, and proportional to the offset on the bar; on a zero-width bar, where the division gives an infinity, it is 0 or 100 by the pointer's side |
| TimelineScrubber.SeekTime | src/components/TimelineScrubber.tsx:48-50 | every seek time lies in `[0, duration]`; at or left of the left edge it is exactly 0; at or right of the right edge it is exactly `duration`, including on a zero-width bar |
| TimelineScrubber.SeekTimeMonotone | src/components/TimelineScrubber.tsx:48-50 | the seek time is non-decreasing in the pointer's x position |
| TimelineScrubber.PercentageMonotone | src/components/TimelineScrubber.tsx:49 | the clamped percentage never decreases as the pointer's offset grows, on a zero-width bar too |
| TimelineScrubber.PercentOfMonotone | src/components/TimelineScrubber.tsx:50 | a larger percentage of a non-negative duration is a later seek time |
| TimelineScrubber.SeekRequest | src/components/TimelineScrubber.tsx:43-53 | no seek exactly when the bar element is missing or `duration == 0`; otherwise the seek time for the pointer, within `[0, duration]` |
| TimelineScrubber.Scrubber.constructor | src/components/TimelineScrubber.tsx:21-22 | starts not dragging, with no seeks issued |
| TimelineScrubber.Scrubber.UpdatePosition | src/components/TimelineScrubber.tsx:43-53 | appends the one seek `SeekRequest` gives, or nothing; `isDragging` is unchanged |
| TimelineScrubber.Scrubber.HandlePointerDown | src/components/TimelineScrubber.tsx:26-30 | sets `isDragging` and issues one position update |
| TimelineScrubber.Scrubber.HandlePointerMove | src/components/TimelineScrubber.tsx:32-36 | issues a position update only while dragging; otherwise nothing changes |
| TimelineScrubber.Scrubber.HandlePointerUp | src/components/TimelineScrubber.tsx:38-41 | clears `isDragging` and issues no seek |
| Line.Clicked | src/components/Line.tsx:21-25 | an undefined or 0 index stays as it is; otherwise next steps +1 and previous steps -1, with no bound check |
| Line.PreviousDisabled | src/components/Line.tsx:27-30 | disabled exactly when the index is undefined or negative; index 0 gives false |
| Line.NextDisabled | src/components/Line.tsx:32-35 | disabled exactly when the index is undefined, or when it is non-zero and the track count is not 1; never compared with `len - 1` |
| Line.RendersVisualizer | src/components/Line.tsx:38 | the visualizer is rendered exactly where a Previous click, and equally a Next click, would move the index: where the stepping handler is live |
| Line.Persisted | src/components/Line.tsx:18 | storage is either left alone or receives the index, and only when that index is defined and non-zero, so 0 is never written |
| Line.NextThenPrevious | src/components/Line.tsx:23 | Next then Previous returns to the start index, unless the first step landed on 0 |
| Line.PreviousThenNext | src/components/Line.tsx:23 | Previous then Next returns to the start index, unless the first step landed on 0 |
| Line.ZeroIsStuck | src/components/Line.tsx:21-25 | at index 0 Previous is enabled, but no click moves the index and no visualizer is shown |
| Line.NextNeverMovesUnlessOneTrack | src/components/Line.tsx:32-35 | with any track count other than 1, Next is enabled only where clicking it leaves the index unchanged |
| Line.NextUnboundedWithOneTrack | src/components/Line.tsx:32-35 | with one track, Next stays enabled for every non-zero index and steps past the last track |
| Line.LineView.constructor | src/components/Line.tsx:9-14 | mounts with the index read back from storage |
| Line.LineView.SetIndex | src/components/Line.tsx:17-19 | sets the index; the storage effect runs only when the index changed, and writes it only when it is truthy |
| Line.LineView.ClickHandler | src/components/Line.tsx:21-25 | the index becomes `Clicked(old index)`; storage is rewritten only after a real step, and only with a truthy index |

## Left out

- Canvas sizing and the window resize listener (`AudioVisualizer.tsx:24-34`) are not modelled. Neither is the line drawing on the canvas (`:100-110`). These are DOM and pixel output. Only whether a canvas and a 2-D context exist is modelled (`hasCanvas`, `hasContext`).
- The angle curve `ampNorm^1.5 * π/2`, its degree conversion and the `toFixed` text are not modelled. These are floating-point transcendental maths and float-to-string formatting. The display keeps the numeric parts: the counter index, the counter amplitude, the distance and the window. `AmpNorm` is the value the curve would consume.
- AudioVisualizer.AmpNorm: requires `min < max`. When every sample is equal the source divides by zero and yields `NaN`, and it has no guard.
- AudioVisualizer.Distance: the value is exact. The source rounds it to one decimal place with `toFixed(1)` and computes it in doubles.
- React's asynchronous `setState` is not modelled. Neither are the stale state that `draw` and the handlers capture from the render that created them, nor frame timing. Each handler sees and updates the current state at once.
- The pending animation frame is a flag: scheduling sets it and cancelling clears it. `requestRef` keeps only the latest id, so a restart while a loop is running can queue a second `draw` loop. The model does not count pending frames, so it does not capture this. In the source, Restart while playing (`AudioVisualizer.tsx:127`) leaves two loops; Pause cancels only the latest frame (`:44-46`); the other loop's next `draw` sees the paused clock, sets `isPlaying` to false (`:115`) and so hides the Pause/Continue button (`:153`). AudioVisualizer.PauseThenContinueRestoresPosition and AudioVisualizer.PausedClockStopsDrawing hold for the one-loop state the model tracks; after such a restart the continue half of the round trip cannot be reached from the interface.
- The audio element is abstract. `play()` unpauses it, `pause()` pauses it, and the handlers write `currentTime`. Browser behaviour is not modelled: the clock's own advance, `ended` changing, the promise `play()` returns, and seeking clearing `ended`. Between handler calls the environment may change any of the element's fields. The model only assumes the position is never negative.
- `startTimeRef` and `performance.now()` (`AudioVisualizer.tsx:125`) are a clock that nothing reads. They are not modelled.
- The model requires every track to have at least one sample. With an empty track `amps[idx]` is `undefined` and the counter text throws. An index past the end of the track table (from `Line`) is also not modelled.
- TimelineScrubber.SeekTime: requires `Measurable`: a width that is not negative, and on a zero-width bar a pointer that is not exactly on the edge. There `0 / 0` is `NaN`, `Math.min`/`Math.max` pass it through and `onSeek` receives `NaN`; that one input is left out. A pointer off the edge of a zero-width bar gives an infinity, which the clamp turns into 0 or 100, and is modelled. `getBoundingClientRect` is not modelled: the bar's left edge and width are inputs.
- Pointer capture and release (`TimelineScrubber.tsx:29, 40`) are not modelled, and neither is what the parent does with `onSeek`. `NaN` durations before the metadata loads are not modelled either.
- Reading the stored index from `localStorage` and parsing it with `Number` (`Line.tsx:9-14`) are not modelled. The parsed value is the constructor's `loaded` argument, and a non-integer or `NaN` index is not modelled. The storage write is kept as the ghost field `stored`.
- JSX layout and styling are not modelled. `BrushAngle`, `PlaybackButtons`, `VerticalButton`, `SVGArtboard` and `Measurements` are presentational and are not part of this model. React also prints the number `0` as text for `{index && …}` at index 0, which the model does not capture.
