/**
  The window of visible channel bars: the visibility test of
  mixer_cbar_get_pos and the scroll at the head of mixer_update_cbars.
  The number of visible bars comes from the screen layout and is a
  parameter here.
*/
module Window {
  import opened CMacros

  /** mixer_cbar_get_pos succeeds for a channel: it lies in the window of
      `nVis` channels starting at `first`. */
  function IsVisible(first: int, nVis: int, ch: int): (r: bool)
    ensures r <==> first <= ch < first + nVis
    ensures r ==> nVis >= 1
  {
    !(ch < first || ch - first >= nVis)
  }

  /** The new first visible channel: unchanged when the focus is on screen,
      otherwise the window moves so that the focus becomes its first bar
      (focus above the window) or its last bar (focus below it). */
  function Scroll(first: int, focus: int, nVis: int): (r: int)
    ensures nVis >= 1 ==> IsVisible(r, nVis, focus)
    ensures IsVisible(first, nVis, focus) ==> r == first
    ensures nVis >= 1 ==> forall f :: IsVisible(f, nVis, focus) ==> Dist(r, first) <= Dist(f, first)
  {
    if IsVisible(first, nVis, focus) then first
    else if focus < first then focus
    else if focus >= first + nVis then focus - nVis + 1
    else first
  }

  /** A second scroll for the same focus changes nothing. */
  lemma ScrollIsIdempotent(first: int, focus: int, nVis: int)
    requires nVis >= 1
    ensures Scroll(Scroll(first, focus, nVis), focus, nVis) == Scroll(first, focus, nVis)
  {
  }

  /** The window stays within the channel list: if it fitted before and the
      focus is a channel, it fits after the scroll. */
  lemma ScrollKeepsWindowInRange(first: int, focus: int, nVis: int, channels: int)
    requires 1 <= nVis <= channels
    requires 0 <= first <= channels - nVis
    requires 0 <= focus < channels
    ensures 0 <= Scroll(first, focus, nVis) <= channels - nVis
  {
  }

  /** Without room for a single bar nothing is ever visible, and the scroll
      moves the window just past the focus or onto it. */
  lemma EmptyWindowShowsNothing(first: int, focus: int)
    ensures !IsVisible(first, 0, focus)
    ensures Scroll(first, focus, 0) == (if focus < first then focus else focus + 1)
  {
  }
}
