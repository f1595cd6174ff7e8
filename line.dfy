/**
 * The `Line` component: the selected track index (possibly undefined), its Previous/Next
 * buttons, their disabled flags, the write of the index to storage, and whether the
 * visualizer is shown. Every test on the index uses JavaScript truthiness, so an index of
 * 0 behaves like an undefined one; this model keeps that behaviour exactly as written.
 */
module Line {
  import opened Wrappers

  /** JavaScript truthiness of the optional index: `undefined` and `0` are false. */
  predicate Truthy(index: Option<int>)
  {
    index.Some? && index.value != 0
  }

  /** The new index after `clickHandler(increment)`: one step, in either direction, only from a truthy index. */
  function Clicked(index: Option<int>, increment: bool): (next: Option<int>)
    ensures !Truthy(index) ==> next == index
    ensures Truthy(index) ==> next.Some? && next.value - index.value == (if increment then 1 else -1)
  {
    if Truthy(index) then Some(if !increment then index.value - 1 else index.value + 1)
    else index
  }

  /** `previousDisabled`: set when the index is undefined, and again when it is truthy and not positive. */
  function PreviousDisabled(index: Option<int>): (disabled: bool)
    ensures disabled <==> index.None? || index.value < 0
  {
    var disabled := index.None?;
    if Truthy(index) && index.value <= 0 then true else disabled
  }

  /** `nextDisabled`: set when the index is undefined, and again when it is truthy and `trackCount - 1` is too. */
  function NextDisabled(index: Option<int>, trackCount: int): (disabled: bool)
    ensures disabled <==> index.None? || (index.value != 0 && trackCount != 1)
  {
    var disabled := index.None?;
    if Truthy(index) && trackCount - 1 != 0 then true else disabled
  }

  /**
   * `{index && <AudioVisualizer/>}`: the visualizer is mounted only for a defined, non-zero
   * index, which are exactly the indices a Previous or a Next click can move.
   */
  function RendersVisualizer(index: Option<int>): (shown: bool)
    ensures shown <==> Clicked(index, true) != index
    ensures shown <==> Clicked(index, false) != index
  {
    Truthy(index)
  }

  /** The index effect: the index is written to storage only when it is truthy, so 0 is never written. */
  function Persisted(stored: Option<int>, index: Option<int>): (next: Option<int>)
    ensures next == stored || (next == index && next.Some? && next.value != 0)
    ensures Truthy(index) ==> next == index
  {
    if Truthy(index) then index else stored
  }

  /** A Next click followed by a Previous click returns to the start, unless the step landed on 0. */
  lemma NextThenPrevious(index: Option<int>)
    requires Truthy(index) && index.value != -1
    ensures Clicked(Clicked(index, true), false) == index
  {
  }

  /** A Previous click followed by a Next click returns to the start, unless the step landed on 0. */
  lemma PreviousThenNext(index: Option<int>)
    requires Truthy(index) && index.value != 1
    ensures Clicked(Clicked(index, false), true) == index
  {
  }

  /** Index 0 is a trap: Previous stays enabled there, but no click moves away from it and no visualizer shows. */
  lemma ZeroIsStuck(increment: bool)
    ensures !PreviousDisabled(Some(0))
    ensures Clicked(Some(0), increment) == Some(0)
    ensures !RendersVisualizer(Some(0))
  {
  }

  /** With any track count other than 1, Next is enabled only where clicking it does nothing. */
  lemma NextNeverMovesUnlessOneTrack(index: Option<int>, trackCount: int)
    requires trackCount != 1
    requires !NextDisabled(index, trackCount)
    ensures Clicked(index, true) == index
  {
  }

  /** With a single track Next stays enabled for every non-zero index and keeps stepping past the last track. */
  lemma NextUnboundedWithOneTrack(index: Option<int>)
    requires Truthy(index)
    ensures !NextDisabled(index, 1)
    ensures Clicked(index, true) == Some(index.value + 1)
  {
  }

  /** One mounted `Line`: the track count, the selected index, and the stored index. */
  class LineView {
    const trackCount: nat
    var index: Option<int>
    ghost var stored: Option<int>

    /** Mounting with the index read back from storage (`None` when nothing was stored). */
    constructor (trackCount: nat, loaded: Option<int>)
      ensures this.trackCount == trackCount
      ensures index == loaded && stored == loaded
    {
      this.trackCount := trackCount;
      index := loaded;
      stored := loaded;
    }

    /** `setIndex` followed by the index effect, which runs only when the index actually changes. */
    method SetIndex(next: Option<int>)
      modifies this
      ensures index == next
      ensures stored == if next != old(index) then Persisted(old(stored), next) else old(stored)
    {
      if next != index {
        index := next;
        if Truthy(index) {
          stored := index;
        }
      }
    }

    /** `clickHandler`: step the index when it is truthy. */
    method ClickHandler(increment: bool)
      modifies this
      ensures index == Clicked(old(index), increment)
      ensures stored == if Truthy(old(index)) then Persisted(old(stored), index) else old(stored)
    {
      if Truthy(index) {
        SetIndex(Some(if !increment then index.value - 1 else index.value + 1));
      }
    }
  }
}
