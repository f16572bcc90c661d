/**
  A hardware mixer channel as the front end sees it, and the edit the
  focused channel undergoes when its pending requests are applied
  (the value-mutation block of mixer_update_cbar).
*/
module Channel {
  import opened CMacros
  import opened UiState

  /** The data flags the front end reads or changes. Every other bit of
      the driver's flag word is an `OtherFlag`. */
  datatype Flag = MuteLeft | MuteRight | LeftToRight | RightToLeft | Decibel | OtherFlag(bit: nat)

  /** One direction (output or input) of a channel: the range and the
      volume capability the driver reports, and the current data. */
  datatype Direction = Direction(
    min: int,
    max: int,
    hasVolume: bool,
    left: int,
    right: int,
    flags: set<Flag>)

  /** A channel: which directions it has, and their state. The state of a
      direction the channel lacks is never read or written. */
  datatype Channel = Channel(
    hasOutput: bool,
    hasInput: bool,
    output: Direction,
    input: Direction)

  predicate SameLimits(a: Direction, b: Direction) {
    a.min == b.min && a.max == b.max && a.hasVolume == b.hasVolume
  }

  predicate SameLevels(a: Direction, b: Direction) {
    a.left == b.left && a.right == b.right
  }

  /** Both sides lie within the reported range. */
  predicate InRange(d: Direction) {
    d.min <= d.left <= d.max && d.min <= d.right <= d.max
  }

  /** Every direction the channel has reports a non-empty range. */
  predicate WellFormed(ch: Channel) {
    (ch.hasOutput ==> ch.output.min <= ch.output.max)
    && (ch.hasInput ==> ch.input.min <= ch.input.max)
  }

  /** Every direction the channel has holds levels within its range. */
  predicate LevelsInRange(ch: Channel) {
    (ch.hasOutput ==> InRange(ch.output)) && (ch.hasInput ==> InRange(ch.input))
  }

  /** XOR of one flag bit into the flag word. */
  function Toggle(flags: set<Flag>, f: Flag): (r: set<Flag>)
    ensures f in r <==> f !in flags
    ensures forall g :: g != f ==> (g in r <==> g in flags)
  {
    if f in flags then flags - {f} else flags + {f}
  }

  /** A toggle applied twice restores the flag word. */
  lemma ToggleInvolutive(flags: set<Flag>, f: Flag)
    ensures Toggle(Toggle(flags, f), f) == flags
  {
  }

  function ToggleIf(flags: set<Flag>, requested: bool, f: Flag): (r: set<Flag>)
    ensures forall g :: g in r <==> ((g in flags) != (requested && g == f))
  {
    if requested then Toggle(flags, f) else flags
  }

  /** The output bits the pending mute requests flip. */
  function OutputToggles(p: Pending): set<Flag> {
    (if p.muteLeft then {MuteLeft} else {}) + (if p.muteRight then {MuteRight} else {})
  }

  /** The input bits the pending record and routing requests flip: a record
      request flips the input's mute bit on that side. */
  function InputToggles(p: Pending): set<Flag> {
    (if p.recordLeft then {MuteLeft} else {})
    + (if p.recordRight then {MuteRight} else {})
    + (if p.routeLeftToRight then {LeftToRight} else {})
    + (if p.routeRightToLeft then {RightToLeft} else {})
  }

  /** The mute requests applied to an output flag word, one XOR after the other. */
  function FlipOutput(flags: set<Flag>, p: Pending): (r: set<Flag>)
    ensures forall g :: g in r <==> ((g in flags) != (g in OutputToggles(p)))
  {
    var f1 := ToggleIf(flags, p.muteLeft, MuteLeft);
    ToggleIf(f1, p.muteRight, MuteRight)
  }

  /** The record and routing requests applied to an input flag word, one
      XOR after the other. */
  function FlipInput(flags: set<Flag>, p: Pending): (r: set<Flag>)
    ensures forall g :: g in r <==> ((g in flags) != (g in InputToggles(p)))
  {
    var f1 := ToggleIf(flags, p.recordLeft, MuteLeft);
    var f2 := ToggleIf(f1, p.recordRight, MuteRight);
    var f3 := ToggleIf(f2, p.routeLeftToRight, LeftToRight);
    ToggleIf(f3, p.routeRightToLeft, RightToLeft)
  }

  /** Whether the volume keys act on this channel: the direction the view
      selects exists and has a volume control. */
  predicate HasVolumeControl(ch: Channel, inputVolumes: bool)
    ensures HasVolumeControl(ch, inputVolumes) ==> if inputVolumes then ch.hasInput else ch.hasOutput
  {
    if inputVolumes then ch.hasInput && ch.input.hasVolume
    else ch.hasOutput && ch.output.hasVolume
  }

  /** Each side moves by its delta, clamped to the range; then, on a
      balance request, both sides take the truncated average. */
  function AdjustVolume(d: Direction, p: Pending): (r: Direction)
    ensures SameLimits(r, d) && r.flags == d.flags
    ensures d.min <= d.max ==> InRange(r)
    ensures p.balance ==> r.left == r.right
    ensures p.balance ==>
      var sum := Clamp(d.left + p.leftDelta, d.min, d.max) + Clamp(d.right + p.rightDelta, d.min, d.max);
      2 * r.left == sum || 2 * r.left == sum - (if sum < 0 then -1 else 1)
    ensures !p.balance && d.min <= d.left + p.leftDelta <= d.max ==> r.left == d.left + p.leftDelta
    ensures !p.balance && d.min <= d.right + p.rightDelta <= d.max ==> r.right == d.right + p.rightDelta
    ensures !p.balance && d.min <= d.max && d.left + p.leftDelta > d.max ==> r.left == d.max
    ensures !p.balance && d.min <= d.max && d.right + p.rightDelta > d.max ==> r.right == d.max
    ensures !p.balance && d.min <= d.max && d.left + p.leftDelta < d.min ==> r.left == d.min
    ensures !p.balance && d.min <= d.max && d.right + p.rightDelta < d.min ==> r.right == d.min
  {
    var left := Clamp(d.left + p.leftDelta, d.min, d.max);
    var right := Clamp(d.right + p.rightDelta, d.min, d.max);
    if p.balance then
      var mid := CHalf(left + right);
      if d.min <= d.max then
        HalfOfSumInRange(left, right, d.min, d.max);
        d.(left := mid, right := mid)
      else
        d.(left := mid, right := mid)
    else
      d.(left := left, right := right)
  }

  /** A balance request leaves both sides between the two clamped levels
      it averages; on levels already in range with no deltas, it replaces
      both sides by their own average truncated toward zero. */
  lemma BalanceAverages(d: Direction, p: Pending)
    ensures p.balance ==>
      var l := Clamp(d.left + p.leftDelta, d.min, d.max);
      var r := Clamp(d.right + p.rightDelta, d.min, d.max);
      (l <= AdjustVolume(d, p).left <= r) || (r <= AdjustVolume(d, p).left <= l)
    ensures p.balance && InRange(d) && p.leftDelta == 0 && p.rightDelta == 0 ==>
      2 * AdjustVolume(d, p).left == d.left + d.right
      || 2 * AdjustVolume(d, p).left == d.left + d.right - (if d.left + d.right < 0 then -1 else 1)
  {
  }

  /** The edit of the output data: the decibel bit is cleared, the volume
      edit is applied when `volume` says the view selects this direction,
      and each mute request flips that side's mute bit. */
  function EditOutput(d: Direction, volume: bool, p: Pending): (r: Direction)
    ensures SameLimits(r, d)
    ensures !volume ==> SameLevels(r, d)
    ensures volume ==> SameLevels(r, AdjustVolume(d, p))
    ensures forall g :: g in r.flags <==> g != Decibel && ((g in d.flags) != (g in OutputToggles(p)))
  {
    var levels := if volume then AdjustVolume(d, p) else d;
    levels.(flags := FlipOutput(d.flags - {Decibel}, p))
  }

  /** The edit of the input data: the decibel bit is cleared, the volume
      edit is applied when `volume` says the view selects this direction,
      each record request flips that side's mute bit, and each routing
      request flips its routing bit. */
  function EditInput(d: Direction, volume: bool, p: Pending): (r: Direction)
    ensures SameLimits(r, d)
    ensures !volume ==> SameLevels(r, d)
    ensures volume ==> SameLevels(r, AdjustVolume(d, p))
    ensures forall g :: g in r.flags <==> g != Decibel && ((g in d.flags) != (g in InputToggles(p)))
  {
    var levels := if volume then AdjustVolume(d, p) else d;
    levels.(flags := FlipInput(d.flags - {Decibel}, p))
  }

  /** The edit applied to the focused channel when some request is
      pending: the decibel bit of each present direction is cleared, the
      volume edit goes to the direction the view selects when it has a
      volume control, mute requests flip output mute bits, record and
      routing requests flip input bits. A direction the channel lacks is
      left alone. */
  function ApplyPending(ch: Channel, inputVolumes: bool, p: Pending): (r: Channel)
    ensures r.hasOutput == ch.hasOutput && r.hasInput == ch.hasInput
    ensures SameLimits(r.output, ch.output) && SameLimits(r.input, ch.input)
    ensures !ch.hasOutput ==> r.output == ch.output
    ensures !ch.hasInput ==> r.input == ch.input
    // volume edits land only on the selected direction, and only with a volume control
    ensures !(HasVolumeControl(ch, inputVolumes) && !inputVolumes) ==> SameLevels(r.output, ch.output)
    ensures !(HasVolumeControl(ch, inputVolumes) && inputVolumes) ==> SameLevels(r.input, ch.input)
    ensures HasVolumeControl(ch, inputVolumes) && !inputVolumes ==> SameLevels(r.output, AdjustVolume(ch.output, p))
    ensures HasVolumeControl(ch, inputVolumes) && inputVolumes ==> SameLevels(r.input, AdjustVolume(ch.input, p))
    // levels in range stay in range
    ensures WellFormed(ch) && LevelsInRange(ch) ==> LevelsInRange(r)
    // flags: exactly the requested bits flip, and the decibel bit is cleared
    ensures ch.hasOutput ==> forall g :: g in r.output.flags <==> g != Decibel && ((g in ch.output.flags) != (g in OutputToggles(p)))
    ensures ch.hasInput ==> forall g :: g in r.input.flags <==> g != Decibel && ((g in ch.input.flags) != (g in InputToggles(p)))
  {
    var volume := HasVolumeControl(ch, inputVolumes);
    ch.(output := if ch.hasOutput then EditOutput(ch.output, volume && !inputVolumes, p) else ch.output,
        input := if ch.hasInput then EditInput(ch.input, volume && inputVolumes, p) else ch.input)
  }

  /** The channel with the decibel bit cleared in every direction it has. */
  function WithoutDecibel(ch: Channel): Channel {
    ch.(output := if ch.hasOutput then ch.output.(flags := ch.output.flags - {Decibel}) else ch.output,
        input := if ch.hasInput then ch.input.(flags := ch.input.flags - {Decibel}) else ch.input)
  }

  /** Applying the same mute, record and routing requests twice restores
      every flag except the cleared decibel bit. */
  lemma SameTogglesTwiceRestoreFlags(ch: Channel, inputVolumes: bool, p: Pending)
    ensures ApplyPending(ApplyPending(ch, inputVolumes, p), inputVolumes, p).output.flags == WithoutDecibel(ch).output.flags
    ensures ApplyPending(ApplyPending(ch, inputVolumes, p), inputVolumes, p).input.flags == WithoutDecibel(ch).input.flags
  {
    var once := ApplyPending(ch, inputVolumes, p);
    var twice := ApplyPending(once, inputVolumes, p);
    if ch.hasOutput {
      forall g ensures g in twice.output.flags <==> g in ch.output.flags - {Decibel} {
      }
    }
    if ch.hasInput {
      forall g ensures g in twice.input.flags <==> g in ch.input.flags - {Decibel} {
      }
    }
  }

  /** A pure toggle request on a channel whose levels are in range leaves
      the levels untouched. */
  lemma TogglesKeepLevels(ch: Channel, inputVolumes: bool, p: Pending)
    requires WellFormed(ch) && LevelsInRange(ch)
    requires p.leftDelta == 0 && p.rightDelta == 0 && !p.balance
    ensures SameLevels(ApplyPending(ch, inputVolumes, p).output, ch.output)
    ensures SameLevels(ApplyPending(ch, inputVolumes, p).input, ch.input)
  {
  }
}
