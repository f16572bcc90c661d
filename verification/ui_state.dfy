/**
  The front end's own state: the focused channel, the first visible
  channel, the exact and record-view modes, and the edits a key press
  leaves pending for the next redraw of the focused channel.
*/
module UiState {

  /** Edits requested by keys and not yet applied to the focused channel
      (the mixer_*_delta, mixer_balance_volumes, mixer_toggle_* and
      mixer_route_*_in globals). */
  datatype Pending = Pending(
    leftDelta: int,
    rightDelta: int,
    balance: bool,
    muteLeft: bool,
    muteRight: bool,
    recordLeft: bool,
    recordRight: bool,
    routeLeftToRight: bool,
    routeRightToLeft: bool)

  /** Nothing pending: every delta zero and every request flag clear. */
  const NoPending := Pending(0, 0, false, false, false, false, false, false, false)

  /** The user-interface state.
      `inputVolumes` is the record view: volume keys act on input data. */
  datatype Ui = Ui(
    focus: int,
    firstVisible: int,
    exact: bool,
    inputVolumes: bool,
    pending: Pending)

  /** The state main sets up before the first redraw: focus and window at
      channel 0, record view off, nothing pending; `exact` is the -e option. */
  function InitialUi(exact: bool): Ui {
    Ui(0, 0, exact, false, NoPending)
  }
}
