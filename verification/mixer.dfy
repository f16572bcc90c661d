/**
  The front end's main loop: redraw the visible bars (applying what the
  last key left pending to the focused channel), read one key, and again
  until Escape. A redraw asks the driver about every visible channel; a
  channel index the driver does not have ends the program in mixer_abort.
*/
module Mixer {
  import opened UiState
  import opened Channel
  import opened Keys
  import opened Window

  /** The front end's state and the channels of the mixer device. */
  datatype State = State(ui: Ui, channels: seq<Channel>)

  /** Either the state after a step, or the driver call whose failure made
      the program abort. */
  datatype Outcome = Ok(state: State) | Aborted(call: string)

  /** The state after the focused channel's bar has been redrawn: the edit
      the last key requested lands on the focused channel when anything is
      pending, and every pending request is cleared. */
  function Consumed(s: State): (r: State)
    requires 0 <= s.ui.focus < |s.channels|
    ensures r.ui == s.ui.(pending := NoPending)
    ensures |r.channels| == |s.channels|
    ensures forall j :: 0 <= j < |s.channels| && j != s.ui.focus ==> r.channels[j] == s.channels[j]
    ensures s.ui.pending == NoPending ==> r == s
    ensures s.ui.pending != NoPending ==>
      r.channels[s.ui.focus] == ApplyPending(s.channels[s.ui.focus], s.ui.inputVolumes, s.ui.pending)
  {
    if s.ui.pending == NoPending then s
    else
      var f := s.ui.focus;
      State(s.ui.(pending := NoPending),
            s.channels[f := ApplyPending(s.channels[f], s.ui.inputVolumes, s.ui.pending)])
  }

  /** Consuming twice is consuming once: nothing is pending the second time. */
  lemma ConsumedIsIdempotent(s: State)
    requires 0 <= s.ui.focus < |s.channels|
    ensures Consumed(Consumed(s)) == Consumed(s)
  {
  }

  /** Every channel reports a range and holds levels inside it. */
  predicate ChannelsSound(channels: seq<Channel>) {
    forall j :: 0 <= j < |channels| ==> WellFormed(channels[j]) && LevelsInRange(channels[j])
  }

  /** Consuming the pending edit keeps every channel's levels in range. */
  lemma ConsumedKeepsChannelsSound(s: State)
    requires 0 <= s.ui.focus < |s.channels|
    requires ChannelsSound(s.channels)
    ensures ChannelsSound(Consumed(s).channels)
  {
    var r := Consumed(s);
    forall j | 0 <= j < |r.channels|
      ensures WellFormed(r.channels[j]) && LevelsInRange(r.channels[j])
    {
      if j == s.ui.focus && s.ui.pending != NoPending {
        assert WellFormed(s.channels[j]) && LevelsInRange(s.channels[j]);
      }
    }
  }

  /** mixer_update_cbar on one channel index: the driver's channel_info
      call fails for an index the device does not have; otherwise the
      focused channel consumes the pending edit and any other channel is
      only drawn. */
  function UpdateCbar(s: State, index: int): (r: Outcome)
    ensures r.Aborted? <==> !(0 <= index < |s.channels|)
    ensures r.Ok? && index == s.ui.focus ==> r.state == Consumed(s)
    ensures r.Ok? && index != s.ui.focus ==> r.state == s
  {
    if !(0 <= index < |s.channels|) then Aborted("snd_mixer_channel_info")
    else if index == s.ui.focus then Ok(Consumed(s))
    else Ok(s)
  }

  /** The loop of mixer_update_cbars: `count` consecutive bars from
      `from` on, stopping at the first abort. */
  function UpdateRange(s: State, from: int, count: nat): (r: Outcome)
    decreases count
    ensures r.Ok? <==> count == 0 || (0 <= from && from + count <= |s.channels|)
    ensures r.Ok? ==> r.state == if from <= s.ui.focus < from + count then Consumed(s) else s
  {
    if count == 0 then Ok(s)
    else
      match UpdateCbar(s, from)
      case Aborted(call) => Aborted(call)
      case Ok(t) => UpdateRange(t, from + 1, count - 1)
  }

  /** The window fits the channel list and holds at least one bar; the
      focus is a channel. */
  predicate WindowInRange(s: State, nVis: int) {
    1 <= nVis <= |s.channels|
    && 0 <= s.ui.firstVisible <= |s.channels| - nVis
    && 0 <= s.ui.focus < |s.channels|
  }

  /** mixer_update_cbars: scroll the focus into view, then redraw the
      `nVis` bars of the window. */
  function Redraw(s: State, nVis: int): (r: Outcome)
    ensures r.Ok? ==> r.state.ui.firstVisible == Scroll(s.ui.firstVisible, s.ui.focus, nVis)
    ensures WindowInRange(s, nVis) ==>
      r.Ok? && WindowInRange(r.state, nVis)
      && IsVisible(r.state.ui.firstVisible, nVis, r.state.ui.focus)
      && r.state.ui.pending == NoPending
  {
    var first := Scroll(s.ui.firstVisible, s.ui.focus, nVis);
    var scrolled := s.(ui := s.ui.(firstVisible := first));
    var count: nat := if nVis > 0 then nVis else 0;
    if WindowInRange(s, nVis) then
      ScrollKeepsWindowInRange(s.ui.firstVisible, s.ui.focus, nVis, |s.channels|);
      UpdateRange(scrolled, first, count)
    else
      UpdateRange(scrolled, first, count)
  }

  /** The state main builds before the first redraw. */
  function Initial(exact: bool, channels: seq<Channel>): (r: State)
    ensures forall nVis :: 1 <= nVis <= |channels| ==> WindowInRange(r, nVis)
  {
    State(InitialUi(exact), channels)
  }

  /** How a session ends: Escape was read, the keys ran out while the
      program waited for the next one, or a driver call failed. */
  datatype SessionEnd = Finished(state: State) | Waiting(state: State) | Abort(call: string)

  /** The loop in main: redraw, then handle one key, until mixer_iteration
      reports that Escape was read. */
  function Session(s: State, keys: seq<Key>, nVis: int): (r: SessionEnd)
    decreases |keys|
    ensures r.Finished? ==> Escape in keys
    ensures !r.Abort? ==> |r.state.channels| == |s.channels|
  {
    match Redraw(s, nVis)
    case Aborted(call) => Abort(call)
    case Ok(t) =>
      if |keys| == 0 then Waiting(t)
      else
        var h := HandleKey(t.ui, keys[0], |t.channels|);
        var u := t.(ui := h.ui);
        if h.finished then Finished(u) else Session(u, keys[1..], nVis)
  }

  /** What a redraw leaves behind: the window fits, the focus is on screen
      and nothing is pending. */
  predicate Settled(t: State, nVis: int) {
    WindowInRange(t, nVis) && IsVisible(t.ui.firstVisible, nVis, t.ui.focus) && t.ui.pending == NoPending
  }

  /** A redraw of a fitting window succeeds and settles it. */
  lemma RedrawSettles(s: State, nVis: int)
    requires WindowInRange(s, nVis)
    ensures Redraw(s, nVis).Ok? && Settled(Redraw(s, nVis).state, nVis)
  {
  }

  /** The state after one key has been handled. */
  function Next(t: State, key: Key): State {
    t.(ui := HandleKey(t.ui, key, |t.channels|).ui)
  }

  /** One pass of main's loop from a fitting window: the redraw settles
      the window; then the session waits, ends on Escape with nothing
      changed by the key, or goes on from a window that still fits. */
  lemma SessionStep(s: State, keys: seq<Key>, nVis: int)
    requires WindowInRange(s, nVis)
    ensures Redraw(s, nVis).Ok? && Settled(Redraw(s, nVis).state, nVis)
    ensures |keys| == 0 ==> Session(s, keys, nVis) == Waiting(Redraw(s, nVis).state)
    ensures |keys| > 0 && keys[0] == Escape ==> Session(s, keys, nVis) == Finished(Redraw(s, nVis).state)
    ensures |keys| > 0 && keys[0] != Escape ==>
      WindowInRange(Next(Redraw(s, nVis).state, keys[0]), nVis)
      && Session(s, keys, nVis) == Session(Next(Redraw(s, nVis).state, keys[0]), keys[1..], nVis)
  {
    RedrawSettles(s, nVis);
  }

  /** Past a first key other than Escape, Escape is in the keys iff it is
      in the rest of them. */
  lemma EscapeInTail(keys: seq<Key>)
    requires |keys| > 0 && keys[0] != Escape
    ensures Escape in keys <==> Escape in keys[1..]
  {
    assert keys == [keys[0]] + keys[1..];
  }

  /** The invariant of main's loop: with a window of at least one bar the
      focus stays a channel, the window stays inside the channel list, no
      driver call is made for a channel that does not exist, the session
      ends exactly at the first Escape, and when it ends the focus is on
      screen with nothing pending. */
  lemma {:induction false} SessionStaysInWindow(s: State, keys: seq<Key>, nVis: int)
    requires WindowInRange(s, nVis)
    ensures !Session(s, keys, nVis).Abort?
    ensures Session(s, keys, nVis).Finished? <==> Escape in keys
    ensures Settled(Session(s, keys, nVis).state, nVis)
    decreases |keys|
  {
    SessionStep(s, keys, nVis);
    if |keys| > 0 && keys[0] != Escape {
      SessionStaysInWindow(Next(Redraw(s, nVis).state, keys[0]), keys[1..], nVis);
      EscapeInTail(keys);
    }
  }

  /** On channels whose levels are all in range, the session keeps them in
      range, on top of the invariant of SessionStaysInWindow. */
  lemma {:induction false} SessionKeepsInvariant(s: State, keys: seq<Key>, nVis: int)
    requires WindowInRange(s, nVis)
    requires ChannelsSound(s.channels)
    ensures !Session(s, keys, nVis).Abort?
    ensures ChannelsSound(Session(s, keys, nVis).state.channels)
    decreases |keys|
  {
    SessionStep(s, keys, nVis);
    RedrawKeepsChannelsSound(s, nVis);
    if |keys| > 0 && keys[0] != Escape {
      SessionKeepsInvariant(Next(Redraw(s, nVis).state, keys[0]), keys[1..], nVis);
    }
  }

  /** A redraw in a fitting window lands the pending edit on the focused
      channel and leaves every other channel as it was: the channels
      afterwards are those of the consumed state. */
  lemma RedrawConsumes(s: State, nVis: int)
    requires WindowInRange(s, nVis)
    ensures Redraw(s, nVis).state.channels == Consumed(s).channels
    ensures Redraw(s, nVis).state.ui
      == s.ui.(firstVisible := Scroll(s.ui.firstVisible, s.ui.focus, nVis), pending := NoPending)
  {
    ScrollKeepsWindowInRange(s.ui.firstVisible, s.ui.focus, nVis, |s.channels|);
  }

  /** A redraw changes at most the focused channel, through its pending
      edit, so every channel keeps its levels in range. */
  lemma RedrawKeepsChannelsSound(s: State, nVis: int)
    requires WindowInRange(s, nVis)
    requires ChannelsSound(s.channels)
    ensures ChannelsSound(Redraw(s, nVis).state.channels)
  {
    var first := Scroll(s.ui.firstVisible, s.ui.focus, nVis);
    var scrolled := s.(ui := s.ui.(firstVisible := first));
    ScrollKeepsWindowInRange(s.ui.firstVisible, s.ui.focus, nVis, |s.channels|);
    ConsumedKeepsChannelsSound(scrolled);
  }

  /** From the state main builds, on a device with at least one channel
      and a window of at least one bar that fits, the session never
      aborts, whatever keys are read. */
  lemma SessionFromStartNeverAborts(exact: bool, channels: seq<Channel>, keys: seq<Key>, nVis: int)
    requires 1 <= nVis <= |channels|
    ensures !Session(Initial(exact, channels), keys, nVis).Abort?
  {
    SessionStaysInWindow(Initial(exact, channels), keys, nVis);
  }
}
