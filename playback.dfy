/** The play button. The auto-play timer's `max_intervals` is 0 while paused (the
    timer fires no more) and -1 while playing (it fires without bound). */
module Playback {
  import opened Reply

  const PAUSED: int := 0
  const PLAYING: int := -1

  /** The play callback: no update before the button was ever clicked; otherwise a
      playing timer is paused and any other timer is set playing. */
  function Play(nClicks: Option<int>, maxIntervals: int): (r: Outcome<int>)
    ensures r != Fault
    ensures r == NoUpdate <==> nClicks.None?
    ensures r.Update? ==> (r.value == PAUSED <==> maxIntervals == PLAYING)
    ensures r.Update? ==> r.value == PAUSED || r.value == PLAYING
  {
    if nClicks.None? then NoUpdate
    else if maxIntervals == -1 then Update(0)
    else Update(-1)
  }

  /** Clicking twice restores a paused or playing timer: on those two states the
      button is an involution that always changes the state. */
  lemma PlayToggles(nClicks: int, maxIntervals: int)
    requires maxIntervals == PAUSED || maxIntervals == PLAYING
    ensures Play(Some(nClicks), maxIntervals).value != maxIntervals
    ensures Play(Some(nClicks), Play(Some(nClicks), maxIntervals).value) == Update(maxIntervals)
  {
  }
}
