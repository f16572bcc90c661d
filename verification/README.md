# alsamixer (curses front end): key handling, channel edits and the visible window

This project models the control logic of the curses mixer front end in
`alsamixer/alsamixer_abramo.c`. It proves properties of that model in Dafny.

The front end runs one loop. It redraws the visible channel bars, then reads
one key, and repeats until Escape is read. (The source also leaves the loop
when its wait for input fails; the model does not, see "Left out".) A key does not change the mixer
itself. Instead it leaves requests pending:

- the left and right volume deltas;
- a balance request;
- the mute, record and routing toggles.

It can also change the focus, exact mode and the record view. The next redraw
of the focused channel applies the pending requests and clears them. That
redraw works as follows:

- each side of the selected direction moves by its delta, clamped to the
  channel's range;
- balance replaces both sides by their average, truncated toward zero;
- mute, record and routing requests XOR single flag bits;
- the decibel flag is cleared.

Before the bars are drawn, the window of visible channels scrolls so that the
focused channel is on screen.

Modules:

- `CMacros` (`cmacros.dfy`): the `CLAMP` macro and C's truncating `/ 2`.
- `UiState` (`ui_state.dfy`): the front end's globals. These are the focus,
  the first visible channel, exact mode, the record view, and the pending
  requests.
- `Channel` (`channel.dfy`): a channel as the driver reports it.
  - It has an output and an input direction, each with a range, a volume
    capability, two levels and a flag set.
  - It also holds the edit the focused channel undergoes (`ApplyPending`).
- `Keys` (`keys.dfy`): the switch of `mixer_iteration`, modelled as C runs it.
  - The case labels jump into a list of arms in source order.
  - Execution falls through until an arm ends in `break`.
  - `SwitchFollowsKeyTable` proves that this switch matches an independent
    table of net effects (`CommandOf`, `Perform`) for every key and state.
  - `HandleKey` is the key's effect followed by the focus clamp.
- `Window` (`window.dfy`): the visibility test of `mixer_cbar_get_pos` and
  the scroll of `mixer_update_cbars`.
- `Mixer` (`mixer.dfy`): the redraw of one bar and of the window, and the main
  loop as a function of the keys read. Its invariant is proved over any key
  sequence.
- `CommandLine` (`command_line.dfy`): the `-m` option's clamp.

## Model

| member | source | states |
|---|---|---|
| CMacros.Clamp | alsamixer/alsamixer_abramo.c:58 | On a non-empty range the result lies in the range, and a value already inside is kept. The result is always the value, `low` or `high`. |
| CMacros.ClampIsNearest | alsamixer/alsamixer_abramo.c:58 | On a non-empty range, CLAMP returns the point of the range nearest to the value. |
| CMacros.ClampIsMonotone | alsamixer/alsamixer_abramo.c:58 | CLAMP preserves order on a non-empty range. |
| CMacros.CHalf | alsamixer/alsamixer_abramo.c:358-361 | The remainder of C's division by two is 0 or has the sign of the dividend (truncation toward zero). The quotient is never larger in magnitude than half the dividend. |
| CMacros.HalfOfSumInRange | alsamixer/alsamixer_abramo.c:366-369 | The truncated average of two levels of a range stays in that range. |
| Channel.Toggle | alsamixer/alsamixer_abramo.c:377-382 | XOR of one bit flips exactly that flag and keeps every other flag. |
| Channel.ToggleInvolutive | alsamixer/alsamixer_abramo.c:376-383 | XOR-ing the same bit twice restores the flag word. |
| Channel.ToggleIf | alsamixer/alsamixer_abramo.c:386-391 | A guarded XOR flips the bit exactly when the request is raised. |
| Channel.FlipOutput | alsamixer/alsamixer_abramo.c:376-383 | After the two guarded XORs, a flag is set iff it was set before XOR it is one the mute requests name. |
| Channel.FlipInput | alsamixer/alsamixer_abramo.c:386-400 | After the four guarded XORs, a flag is set iff it was set before XOR it is one the record or routing requests name. |
| Channel.AdjustVolume | alsamixer/alsamixer_abramo.c:354-371 | The range and flags are kept, and on a non-empty range both levels end in range. With balance both sides are equal and take the average of the two clamped levels, truncated toward zero: twice the result is their sum, or the sum minus its sign. Without balance, each side moves by exactly its delta when there is room and otherwise stops at `max` or `min`. |
| Channel.BalanceAverages | alsamixer/alsamixer_abramo.c:356-361 | Whatever the deltas, the balanced level lies between the two clamped levels it averages. With levels in range and no deltas, it is the average of the levels themselves: twice it is their sum, or the sum minus its sign. |
| Channel.HasVolumeControl | alsamixer/alsamixer_abramo.c:334-337 | The volume keys act on a channel only if the direction the view selects exists on it. |
| Channel.EditOutput | alsamixer/alsamixer_abramo.c:352-383 | The output edit keeps the range. Levels follow the volume edit only when the view selects output. Exactly the requested mute bits flip, and the decibel bit is cleared. |
| Channel.EditInput | alsamixer/alsamixer_abramo.c:353-400 | The input edit keeps the range. Levels follow the volume edit only when the view selects input. Exactly the requested record and routing bits flip, and the decibel bit is cleared. |
| Channel.ApplyPending | alsamixer/alsamixer_abramo.c:334-410 | A direction the channel lacks is untouched. The volume edit lands only on the direction the view selects, and only if it has a volume control. Levels in range stay in range. The flags of each present direction change exactly by the requested XORs plus the cleared decibel bit. |
| Channel.SameTogglesTwiceRestoreFlags | alsamixer/alsamixer_abramo.c:376-400 | Applying the same requests twice restores every flag except the cleared decibel bit. |
| Channel.TogglesKeepLevels | alsamixer/alsamixer_abramo.c:354-371 | A request with no deltas and no balance leaves in-range levels as they were. |
| Keys.Arms | alsamixer/alsamixer_abramo.c:712-851 | The arm bodies of the switch in source order, each with whether it ends in `break`. |
| Keys.Exec | alsamixer/alsamixer_abramo.c:713-850 | One assignment of an arm body never moves the window and never clears `finished`. |
| Keys.StmtKeepsRequests | alsamixer/alsamixer_abramo.c:713-850 | No assignment of an arm body lowers a raised request flag. |
| Keys.ExecBody | alsamixer/alsamixer_abramo.c:712-851 | An arm's statements run in order; together they never move the window, never clear `finished` and never lower a raised request flag. |
| Keys.RunFrom | alsamixer/alsamixer_abramo.c:711-852 | Running from any arm through its fall-throughs never moves the window, never clears `finished` and never lowers a raised request flag. |
| Keys.RunSwitch | alsamixer/alsamixer_abramo.c:711-852 | A key with no case label leaves the state as it was; any key keeps the window, `finished` once set, and every raised request. |
| Keys.CommandOf | alsamixer/alsamixer_abramo.c:711-852 | Only Escape quits and only Tab flips exact mode. Only Right/'n' and Left/'p' move the focus, by +1 and -1. |
| Keys.Perform | alsamixer/alsamixer_abramo.c:711-852 | A command keeps the window, sets `finished` iff it is the quit command, and moves the focus by exactly its step. |
| Keys.PerformKeepsRequests | alsamixer/alsamixer_abramo.c:711-852 | No command lowers a raised request flag, so a request stays pending until a redraw consumes it. |
| Keys.EntryOf | alsamixer/alsamixer_abramo.c:711-852 | Every jump lands on an arm of the switch, and function keys the switch does not name have no case. |
| Keys.CasesAreTheBoundKeys | alsamixer/alsamixer_abramo.c:711-852 | The switch has a case for exactly the keys the key table gives an effect; every other key is ignored by both. |
| Keys.SwitchFollowsKeyTable | alsamixer/alsamixer_abramo.c:711-852 | For every key and state, the switch with its fall-throughs has exactly the net effect in the key table. |
| Keys.CharEntry | alsamixer/alsamixer_abramo.c:712-850 | The character case labels: every character with a label jumps to an arm of the switch. |
| Keys.ClampFocus | alsamixer/alsamixer_abramo.c:853 | The focus becomes its CLAMP to [0, n-1], a channel when there is one; a focus that already is a channel stays, and nothing else changes. |
| Keys.HandleKey | alsamixer/alsamixer_abramo.c:711-853 | The new focus is the old focus plus the key's step, clamped to [0, n-1]. With at least one channel it is a valid channel index. The window is untouched, and the key reports the end of the loop iff it is Escape. |
| Keys.HandleKeyIsTheSwitch | alsamixer/alsamixer_abramo.c:711-853 | The key handler equals the switch as written, followed by the focus clamp. |
| Keys.FocusStopsAtEnds | alsamixer/alsamixer_abramo.c:853 | Right/'n' on the last channel and Left/'p' on the first leave the focus where it is, with no wrap-around. |
| Keys.TabFlipsExactMode | alsamixer/alsamixer_abramo.c:715-717 | Tab flips exact mode and changes nothing else except the focus clamp. |
| Keys.UpKeysRaiseBothByTwo | alsamixer/alsamixer_abramo.c:762-769 | 'w' and Up fall through into 'W', which leaves both deltas at +2 and every other request unchanged. |
| Keys.DownKeysLowerBothByTwo | alsamixer/alsamixer_abramo.c:770-777 | 'x' and Down fall through into 'X', which leaves both deltas at -2. |
| Keys.LeftUpKeyRaisesLeftByTwo | alsamixer/alsamixer_abramo.c:778-782 | 'q' leaves the left delta at +2. The right delta is untouched. |
| Keys.LeftDownKeysLowerLeftByTwo | alsamixer/alsamixer_abramo.c:783-789 | 'y' and 'z' leave the left delta at -2. The right delta is untouched. |
| Keys.RightUpKeyRaisesRightByTwo | alsamixer/alsamixer_abramo.c:790-794 | 'e' leaves the right delta at +2. The left delta is untouched. |
| Keys.RightDownKeyLowersRightByTwo | alsamixer/alsamixer_abramo.c:795-799 | 'c' leaves the right delta at -2. The left delta is untouched. |
| Keys.CapitalKeysStepBoth | alsamixer/alsamixer_abramo.c:766-777 | 'W' and 'X' add +1 and -1 to both pending deltas. |
| Keys.CapitalKeysStepLeft | alsamixer/alsamixer_abramo.c:780-789 | 'Q' adds +1 to the left delta and 'Y'/'Z' add -1. The right delta is untouched. |
| Keys.CapitalKeysStepRight | alsamixer/alsamixer_abramo.c:792-799 | 'E' adds +1 to the right delta and 'C' adds -1. The left delta is untouched. |
| Keys.StepKeysSetBoth | alsamixer/alsamixer_abramo.c:754-761 | '+' and '-' set both deltas to +1 and -1. |
| Keys.PageKeysSetBoth | alsamixer/alsamixer_abramo.c:726-743 | PageUp and PageDown set both deltas to +-8 in exact mode and +-10 otherwise. |
| Keys.HomeEndKeysSetBoth | alsamixer/alsamixer_abramo.c:744-753 | Home/Beg set both deltas to +512, and End/LL set them to -512. |
| Keys.MuteKeysSelectPlayback | alsamixer/alsamixer_abramo.c:800-820 | The mute keys select the playback view. They raise the mute request of exactly the sides they name and keep the requests already raised. |
| Keys.RecordKeysSelectRecord | alsamixer/alsamixer_abramo.c:829-843 | The record keys select the record view and raise the record request of exactly the sides they name. |
| Keys.RouteKeysSelectRecord | alsamixer/alsamixer_abramo.c:844-851 | '1' and '2' select the record view. '1' raises the right-to-left routing request and '2' the left-to-right one. |
| Keys.ViewKeyFlipsView | alsamixer/alsamixer_abramo.c:821-824 | 'r'/'R' flips the record view and changes nothing else except the focus clamp. |
| Keys.UnboundKeysOnlyClamp | alsamixer/alsamixer_abramo.c:711-853 | A key with no case label changes nothing except the focus clamp. |
| Window.IsVisible | alsamixer/alsamixer_abramo.c:277-279 | `mixer_cbar_get_pos` succeeds iff `first <= ch < first + nVis`. |
| Window.Scroll | alsamixer/alsamixer_abramo.c:567-573 | With at least one visible bar the focus is visible after the scroll. A visible focus leaves the window alone, and the window moves no farther than any window that shows the focus. |
| Window.ScrollIsIdempotent | alsamixer/alsamixer_abramo.c:567-573 | A second scroll for the same focus changes nothing. |
| Window.ScrollKeepsWindowInRange | alsamixer/alsamixer_abramo.c:567-573 | If the window fitted inside the channel list and the focus is a channel, the window still fits after the scroll. |
| Window.EmptyWindowShowsNothing | alsamixer/alsamixer_abramo.c:567-573 | With no room for a bar, nothing is visible. The scroll puts the window on the focus or just past it. |
| Mixer.Consumed | alsamixer/alsamixer_abramo.c:341-402 | After the focused bar's redraw, every pending request is cleared and no other channel changes. The focused channel takes the pending edit only when something was pending. |
| Mixer.ConsumedIsIdempotent | alsamixer/alsamixer_abramo.c:341-346 | A second redraw of the focused bar changes nothing more. |
| Mixer.ConsumedKeepsChannelsSound | alsamixer/alsamixer_abramo.c:354-371 | The redraw keeps every channel's levels within its range. |
| Mixer.UpdateCbar | alsamixer/alsamixer_abramo.c:321-410 | Redrawing a bar aborts iff the index is not a channel of the device. It consumes the pending edit on the focused channel and changes nothing on any other. |
| Mixer.UpdateRange | alsamixer/alsamixer_abramo.c:574-575 | Redrawing `count` bars from `from` succeeds iff they are all channels. The result is then the consumed state if the focus is among them and the unchanged state otherwise. |
| Mixer.Redraw | alsamixer/alsamixer_abramo.c:565-575 | The new first visible channel is the scroll of the old one toward the focus. If the window fits, the redraw succeeds; the window still fits, the focus is on screen and nothing is left pending. |
| Mixer.RedrawConsumes | alsamixer/alsamixer_abramo.c:565-575 | In a fitting window the redraw lands the pending edit on the focused channel and leaves every other channel as it was. Of the front end's state it changes only the first visible channel (to the scroll) and the pending requests (cleared): the focus, exact mode and record view stay. |
| Mixer.RedrawKeepsChannelsSound | alsamixer/alsamixer_abramo.c:565-575 | A redraw keeps every channel's levels within its range. |
| Mixer.Initial | alsamixer/alsamixer_abramo.c:94-112 | The start state (focus and window at channel 0, nothing pending) puts the window inside any channel list at least as long as the window. |
| Mixer.Session | alsamixer/alsamixer_abramo.c:956-961 | The loop finishes only if Escape was read, and it never changes the number of channels. |
| Mixer.SessionStep | alsamixer/alsamixer_abramo.c:956-961 | One pass of the loop from a fitting window: with no key left the session waits, on Escape it ends with the redrawn state unchanged by the key, and on any other key it goes on from a window that still fits. |
| Mixer.SessionStaysInWindow | alsamixer/alsamixer_abramo.c:956-961 | From a fitting window, for any key sequence, the loop never makes a driver call for a channel that does not exist, and (with no failed wait, which the model leaves out) it finishes iff Escape is read. At the end the window fits, the focus is on screen and nothing is pending. |
| Mixer.SessionKeepsInvariant | alsamixer/alsamixer_abramo.c:956-961 | From a fitting window, if every channel's levels start in range, they stay in range for any key sequence. |
| Mixer.SessionFromStartNeverAborts | alsamixer/alsamixer_abramo.c:956-961 | From the start state, on a device with at least one channel and a window of one to `n_channels` bars, no key sequence makes the loop abort. |
| CommandLine.CharValue | alsamixer/alsamixer_abramo.c:917 | A byte below 0x80 reads as its own value. A higher byte reads as negative iff `char` is signed. |
| CommandLine.MixerIdOption | alsamixer/alsamixer_abramo.c:917 | `-m` always selects mixer 0 or 1. It selects 1 iff the argument's first character is at least '1'. |
| CommandLine.MixerDigitsRoundTrip | alsamixer/alsamixer_abramo.c:917 | Typing the number of either mixer selects that mixer, and any larger digit selects mixer 1. |
| CommandLine.HighBytesDependOnCharSign | alsamixer/alsamixer_abramo.c:917 | A first byte from 0x80 up selects mixer 0 where `char` is signed and mixer 1 where it is unsigned. |

## Left out

- Drawing: the curses calls, draw contexts, colours, the bar graphs and the frame are not modelled. The 'l' key's screen clear is a no-op in the model.
- The screen layout in `mixer_init_screen` uses floating point, so it is not modelled. The number of visible bars is a parameter `nVis`; the invariant assumes `1 <= nVis <= n_channels`, which the layout's `MIN(..., n_channels)` bounds from above.
- The model's loop ends only on Escape. In the source, `mixer_iteration` also returns 1 when `select` fails (for example when a signal interrupts the wait), and `main` then exits; that exit is not modelled.
- The `select` loop on stdin and the driver descriptor is left out, and so are the driver's change callbacks, which redraw a bar outside the key loop. Signal handlers and `SIGWINCH` are left out too. The model reads one key per loop pass from a given key sequence.
- The driver calls are not modelled: exact-mode switching, info, reads and writes, and the re-read for display. A channel is a plain record. The only driver failure modelled is `snd_mixer_channel_info` on an index the device does not have, which ends in `mixer_abort`. Every other call is taken to succeed.
- A channel's range and levels are in the units of the current exact mode, which `mixer_update_cbar` sets before every read. The model keeps one record per channel across Tab and does not convert between the two units.
- The flag word is a set of named flags. The bit values of the driver header are not part of this model.
- C `int` overflow of the levels and deltas is not modelled. Deltas are at most 512 in size when the focused bar is redrawn between keys, which clears them. With no bar drawn (no channels, so no visible bar) repeated keys such as 'W' keep adding to them without bound.
- `getopt` and the other options (`-c`, `-e`, `-g`, `-h`) are not modelled. `-e` only decides the initial exact mode, which is a parameter of `Mixer.Initial`.
- `alsamixer/mainloop.h` holds prototypes only.
