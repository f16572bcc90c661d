/**
  The key switch of mixer_iteration. The switch is modelled the way C
  runs it: the case labels form a jump table into a list of arms kept in
  source order, and execution runs from the selected arm through every
  following arm until one ends in `break` (fall-through). An independent
  table of what each key means to the user, `CommandOf` with `Perform`,
  is proved to give the same result for every key and every state; the
  key handler is written with the table, and the lemmas about single keys
  follow from it.
*/
module Keys {
  import opened CMacros
  import opened UiState

  /** A key code as getch returns it: an ordinary character, one of the
      curses function keys the switch names, or any other function key.
      `OtherKey` stands only for codes the switch has no case for: an
      ordinary character is always a `Ch`, Escape included. getch returns
      ordinary characters below 256; codes from 256 up are function keys,
      so a `Ch` is only ever built from a character below 256. */
  datatype Key =
    | Ch(c: char)
    | KeyUp | KeyDown | KeyLeft | KeyRight
    | KeyHome | KeyBeg | KeyEnd | KeyLL
    | KeyPageUp | KeyPageDown | KeyInsert | KeyDelete
    | OtherKey(code: int)

  const Escape: Key := Ch(27 as char)
  const Tab: Key := Ch(9 as char)

  /** The state the switch works on: the user-interface state and the
      `finished` result of mixer_iteration. */
  datatype KeyResult = KeyResult(ui: Ui, finished: bool)

  // ---------------------------------------------------------------------
  // The switch as written

  /** One assignment of an arm body. */
  datatype Stmt =
    | SetFinished                              // finished = 1
    | FlipExact                                // mixer_exact = !mixer_exact
    | AddFocus(step: int)                      // mixer_focus_channel += step
    | SetBothByMode(exact: int, normal: int)   // both deltas := exact mode ? exact : normal
    | SetLeft(v: int)                          // mixer_lvolume_delta = v
    | SetRight(v: int)                         // mixer_rvolume_delta = v
    | AddLeft(v: int)                          // mixer_lvolume_delta += v
    | AddRight(v: int)                         // mixer_rvolume_delta += v
    | SetInputVolumes(on: bool)                // mixer_input_volumes = on
    | FlipInputVolumes                         // mixer_input_volumes = !mixer_input_volumes
    | RaiseMuteLeft | RaiseMuteRight | RaiseBalance
    | RaiseRecordLeft | RaiseRecordRight
    | RaiseRouteLeftToRight | RaiseRouteRightToLeft
    | ClearScreen                              // mixer_clear(): drawing only

  /** An arm: its statements, and whether it ends in `break`. */
  datatype Arm = Arm(body: seq<Stmt>, breaks: bool)

  /** The arms of the switch in source order. */
  const Arms: seq<Arm> := [
    /*  0 Escape      */ Arm([SetFinished], true),
    /*  1 Tab         */ Arm([FlipExact], true),
    /*  2 Right, n    */ Arm([AddFocus(1)], true),
    /*  3 Left, p     */ Arm([AddFocus(-1)], true),
    /*  4 PageUp      */ Arm([SetBothByMode(8, 10)], true),
    /*  5 PageDown    */ Arm([SetBothByMode(-8, -10)], true),
    /*  6 Beg, Home   */ Arm([SetLeft(512), SetRight(512)], true),
    /*  7 LL, End     */ Arm([SetLeft(-512), SetRight(-512)], true),
    /*  8 +           */ Arm([SetLeft(1), SetRight(1)], true),
    /*  9 -           */ Arm([SetLeft(-1), SetRight(-1)], true),
    /* 10 w, Up       */ Arm([SetLeft(1), SetRight(1)], false),
    /* 11 W           */ Arm([AddLeft(1), AddRight(1)], true),
    /* 12 x, Down     */ Arm([SetLeft(-1), SetRight(-1)], false),
    /* 13 X           */ Arm([AddLeft(-1), AddRight(-1)], true),
    /* 14 q           */ Arm([SetLeft(1)], false),
    /* 15 Q           */ Arm([AddLeft(1)], true),
    /* 16 y, z        */ Arm([SetLeft(-1)], false),
    /* 17 Y, Z        */ Arm([AddLeft(-1)], true),
    /* 18 e           */ Arm([SetRight(1)], false),
    /* 19 E           */ Arm([AddRight(1)], true),
    /* 20 c           */ Arm([SetRight(-1)], false),
    /* 21 C           */ Arm([AddRight(-1)], true),
    /* 22 m, M        */ Arm([SetInputVolumes(false), RaiseMuteLeft, RaiseMuteRight], true),
    /* 23 b, B, =     */ Arm([RaiseBalance], true),
    /* 24 <, ,        */ Arm([SetInputVolumes(false), RaiseMuteLeft], true),
    /* 25 >, .        */ Arm([SetInputVolumes(false), RaiseMuteRight], true),
    /* 26 R, r        */ Arm([FlipInputVolumes], true),
    /* 27 L, l        */ Arm([ClearScreen], true),
    /* 28 space       */ Arm([SetInputVolumes(true), RaiseRecordLeft, RaiseRecordRight], true),
    /* 29 Insert, ;   */ Arm([SetInputVolumes(true), RaiseRecordLeft], true),
    /* 30 ', Delete   */ Arm([SetInputVolumes(true), RaiseRecordRight], true),
    /* 31 1           */ Arm([SetInputVolumes(true), RaiseRouteRightToLeft], true),
    /* 32 2           */ Arm([SetInputVolumes(true), RaiseRouteLeftToRight], true)
  ]

  /** Where the switch jumps for a key: an arm index, or no case at all. */
  datatype Entry = NoCase | Jump(arm: nat)

  /** The case labels of the switch. */
  function EntryOf(key: Key): (r: Entry)
    ensures r.Jump? ==> r.arm < |Arms|
    ensures key.OtherKey? ==> r == NoCase
  {
    match key
    case KeyRight => Jump(2)
    case KeyLeft => Jump(3)
    case KeyPageUp => Jump(4)
    case KeyPageDown => Jump(5)
    case KeyBeg | KeyHome => Jump(6)
    case KeyLL | KeyEnd => Jump(7)
    case KeyUp => Jump(10)
    case KeyDown => Jump(12)
    case KeyInsert => Jump(29)
    case KeyDelete => Jump(30)
    case OtherKey(_) => NoCase
    case Ch(c) => CharEntry(c)
  }

  function CharEntry(c: char): (r: Entry)
    ensures r.Jump? ==> r.arm < |Arms|
  {
    if c == '\U{1B}' then Jump(0)
    else if c == '\t' then Jump(1)
    else if c == 'n' then Jump(2)
    else if c == 'p' then Jump(3)
    else if c == '+' then Jump(8)
    else if c == '-' then Jump(9)
    else if c == 'w' then Jump(10)
    else if c == 'W' then Jump(11)
    else if c == 'x' then Jump(12)
    else if c == 'X' then Jump(13)
    else if c == 'q' then Jump(14)
    else if c == 'Q' then Jump(15)
    else if c == 'y' || c == 'z' then Jump(16)
    else if c == 'Y' || c == 'Z' then Jump(17)
    else if c == 'e' then Jump(18)
    else if c == 'E' then Jump(19)
    else if c == 'c' then Jump(20)
    else if c == 'C' then Jump(21)
    else if c == 'm' || c == 'M' then Jump(22)
    else if c == 'b' || c == 'B' || c == '=' then Jump(23)
    else if c == '<' || c == ',' then Jump(24)
    else if c == '>' || c == '.' then Jump(25)
    else if c == 'R' || c == 'r' then Jump(26)
    else if c == 'L' || c == 'l' then Jump(27)
    else if c == ' ' then Jump(28)
    else if c == ';' then Jump(29)
    else if c == '\'' then Jump(30)
    else if c == '1' then Jump(31)
    else if c == '2' then Jump(32)
    else NoCase
  }

  function WithPending(s: KeyResult, p: Pending): KeyResult {
    s.(ui := s.ui.(pending := p))
  }

  /** Every request flag raised in `p` is still raised in `q`. */
  predicate KeepsRequests(p: Pending, q: Pending) {
    (p.balance ==> q.balance)
    && (p.muteLeft ==> q.muteLeft) && (p.muteRight ==> q.muteRight)
    && (p.recordLeft ==> q.recordLeft) && (p.recordRight ==> q.recordRight)
    && (p.routeLeftToRight ==> q.routeLeftToRight) && (p.routeRightToLeft ==> q.routeRightToLeft)
  }

  /** One assignment. No assignment of the switch touches the window,
      clears `finished` or lowers a request flag. */
  function Exec(stmt: Stmt, s: KeyResult): (r: KeyResult)
    ensures r.ui.firstVisible == s.ui.firstVisible
    ensures s.finished ==> r.finished
  {
    var p := s.ui.pending;
    match stmt
    case SetFinished => s.(finished := true)
    case FlipExact => s.(ui := s.ui.(exact := !s.ui.exact))
    case AddFocus(step) => s.(ui := s.ui.(focus := s.ui.focus + step))
    case SetBothByMode(e, n) =>
      var v := if s.ui.exact then e else n;
      WithPending(s, p.(leftDelta := v, rightDelta := v))
    case SetLeft(v) => WithPending(s, p.(leftDelta := v))
    case SetRight(v) => WithPending(s, p.(rightDelta := v))
    case AddLeft(v) => WithPending(s, p.(leftDelta := p.leftDelta + v))
    case AddRight(v) => WithPending(s, p.(rightDelta := p.rightDelta + v))
    case SetInputVolumes(on) => s.(ui := s.ui.(inputVolumes := on))
    case FlipInputVolumes => s.(ui := s.ui.(inputVolumes := !s.ui.inputVolumes))
    case RaiseMuteLeft => WithPending(s, p.(muteLeft := true))
    case RaiseMuteRight => WithPending(s, p.(muteRight := true))
    case RaiseBalance => WithPending(s, p.(balance := true))
    case RaiseRecordLeft => WithPending(s, p.(recordLeft := true))
    case RaiseRecordRight => WithPending(s, p.(recordRight := true))
    case RaiseRouteLeftToRight => WithPending(s, p.(routeLeftToRight := true))
    case RaiseRouteRightToLeft => WithPending(s, p.(routeRightToLeft := true))
    case ClearScreen => s
  }

  /** The statements of one arm body, in order. */
  function ExecBody(body: seq<Stmt>, s: KeyResult): (r: KeyResult)
    decreases |body|
    ensures r.ui.firstVisible == s.ui.firstVisible
    ensures s.finished ==> r.finished
    ensures KeepsRequests(s.ui.pending, r.ui.pending)
  {
    if |body| == 0 then s
    else
      StmtKeepsRequests(body[0], s);
      ExecBody(body[1..], Exec(body[0], s))
  }

  /** No assignment of the switch lowers a raised request flag: each one
      raises a flag or leaves them all alone. */
  lemma StmtKeepsRequests(stmt: Stmt, s: KeyResult)
    ensures KeepsRequests(s.ui.pending, Exec(stmt, s).ui.pending)
  {
    match stmt
    case SetBothByMode(e, n) =>
    case SetLeft(v) =>
    case SetRight(v) =>
    case AddLeft(v) =>
    case AddRight(v) =>
    case _ =>
  }

  /** Execution from arm `i` on: each arm's body, then on to the next arm
      unless the arm ended in `break`. */
  function RunFrom(i: nat, s: KeyResult): (r: KeyResult)
    decreases |Arms| - i
    ensures r.ui.firstVisible == s.ui.firstVisible
    ensures s.finished ==> r.finished
    ensures KeepsRequests(s.ui.pending, r.ui.pending)
  {
    if i >= |Arms| then s
    else
      var t := ExecBody(Arms[i].body, s);
      if Arms[i].breaks then t else RunFrom(i + 1, t)
  }

  /** The switch statement: jump to the key's arm, or do nothing when no
      case matches (the switch has no default). */
  function RunSwitch(key: Key, s: KeyResult): (r: KeyResult)
    ensures EntryOf(key) == NoCase ==> r == s
    ensures r.ui.firstVisible == s.ui.firstVisible
    ensures s.finished ==> r.finished
    ensures KeepsRequests(s.ui.pending, r.ui.pending)
  {
    match EntryOf(key)
    case NoCase => s
    case Jump(i) => RunFrom(i, s)
  }

  // ---------------------------------------------------------------------
  // What each key means, as one net effect

  /** How one volume delta changes. */
  datatype DeltaOp = Keep | SetTo(v: int) | AddBy(v: int)

  function ApplyOp(op: DeltaOp, d: int): int {
    match op
    case Keep => d
    case SetTo(v) => v
    case AddBy(v) => d + v
  }

  /** The net effect of a key. */
  datatype Command =
    | Quit
    | ToggleExactMode
    | MoveFocus(step: int)
    | Page(up: bool)                         // +-8 in exact mode, +-10 otherwise
    | Deltas(leftOp: DeltaOp, rightOp: DeltaOp)
    | Mute(left: bool, right: bool)          // selects the playback view
    | Record(left: bool, right: bool)        // selects the record view
    | Route(leftToRight: bool, rightToLeft: bool)  // selects the record view
    | Balance
    | ToggleView
    | ClearAndRedraw
    | Ignore

  /** The key bindings, grouped by meaning. Only Escape quits, only Tab
      changes the exact mode, and only the focus keys move the focus. */
  function CommandOf(key: Key): (r: Command)
    ensures r == Quit <==> key == Escape
    ensures r == ToggleExactMode <==> key == Tab
    ensures r.MoveFocus? <==> FocusStep(key) != 0
    ensures r.MoveFocus? ==> r.step == FocusStep(key)
  {
    match key
    case KeyRight | Ch('n') => MoveFocus(1)
    case KeyLeft | Ch('p') => MoveFocus(-1)
    case KeyPageUp => Page(true)
    case KeyPageDown => Page(false)
    case KeyHome | KeyBeg => Deltas(SetTo(512), SetTo(512))
    case KeyEnd | KeyLL => Deltas(SetTo(-512), SetTo(-512))
    case KeyUp | Ch('w') => Deltas(SetTo(2), SetTo(2))
    case KeyDown | Ch('x') => Deltas(SetTo(-2), SetTo(-2))
    case KeyInsert | Ch(';') => Record(true, false)
    case KeyDelete | Ch('\'') => Record(false, true)
    case OtherKey(_) => Ignore
    case Ch(c) =>
      if c == 27 as char then Quit
      else if c == 9 as char then ToggleExactMode
      else if c == '+' then Deltas(SetTo(1), SetTo(1))
      else if c == '-' then Deltas(SetTo(-1), SetTo(-1))
      else if c == 'W' then Deltas(AddBy(1), AddBy(1))
      else if c == 'X' then Deltas(AddBy(-1), AddBy(-1))
      else if c == 'q' then Deltas(SetTo(2), Keep)
      else if c == 'Q' then Deltas(AddBy(1), Keep)
      else if c == 'y' || c == 'z' then Deltas(SetTo(-2), Keep)
      else if c == 'Y' || c == 'Z' then Deltas(AddBy(-1), Keep)
      else if c == 'e' then Deltas(Keep, SetTo(2))
      else if c == 'E' then Deltas(Keep, AddBy(1))
      else if c == 'c' then Deltas(Keep, SetTo(-2))
      else if c == 'C' then Deltas(Keep, AddBy(-1))
      else if c == 'm' || c == 'M' then Mute(true, true)
      else if c == '<' || c == ',' then Mute(true, false)
      else if c == '>' || c == '.' then Mute(false, true)
      else if c == 'b' || c == 'B' || c == '=' then Balance
      else if c == 'r' || c == 'R' then ToggleView
      else if c == 'l' || c == 'L' then ClearAndRedraw
      else if c == ' ' then Record(true, true)
      else if c == '1' then Route(false, true)
      else if c == '2' then Route(true, false)
      else Ignore
  }

  /** The effect of a command on the state. Request flags are raised,
      never lowered. */
  function Perform(cmd: Command, s: KeyResult): (r: KeyResult)
    ensures r.ui.firstVisible == s.ui.firstVisible
    ensures r.finished <==> s.finished || cmd == Quit
    ensures r.ui.focus == s.ui.focus + (if cmd.MoveFocus? then cmd.step else 0)
  {
    var p := s.ui.pending;
    match cmd
    case Quit => s.(finished := true)
    case ToggleExactMode => s.(ui := s.ui.(exact := !s.ui.exact))
    case MoveFocus(step) => s.(ui := s.ui.(focus := s.ui.focus + step))
    case Page(up) =>
      var step := if s.ui.exact then 8 else 10;
      var v := if up then step else -step;
      WithPending(s, p.(leftDelta := v, rightDelta := v))
    case Deltas(l, r) =>
      WithPending(s, p.(leftDelta := ApplyOp(l, p.leftDelta), rightDelta := ApplyOp(r, p.rightDelta)))
    case Mute(l, r) =>
      s.(ui := s.ui.(inputVolumes := false,
                     pending := p.(muteLeft := p.muteLeft || l, muteRight := p.muteRight || r)))
    case Record(l, r) =>
      s.(ui := s.ui.(inputVolumes := true,
                     pending := p.(recordLeft := p.recordLeft || l, recordRight := p.recordRight || r)))
    case Route(lr, rl) =>
      s.(ui := s.ui.(inputVolumes := true,
                     pending := p.(routeLeftToRight := p.routeLeftToRight || lr,
                                   routeRightToLeft := p.routeRightToLeft || rl)))
    case Balance => WithPending(s, p.(balance := true))
    case ToggleView => s.(ui := s.ui.(inputVolumes := !s.ui.inputVolumes))
    case ClearAndRedraw => s
    case Ignore => s
  }

  /** No command lowers a raised request flag: a request stays pending
      until the next redraw consumes it. */
  lemma PerformKeepsRequests(cmd: Command, s: KeyResult)
    ensures KeepsRequests(s.ui.pending, Perform(cmd, s).ui.pending)
  {
    match cmd
    case Deltas(l, r) =>
    case Mute(l, r) =>
    case Record(l, r) =>
    case Route(lr, rl) =>
    case _ =>
  }

  /** The switch has a case for exactly the keys the key table gives an
      effect. */
  lemma CasesAreTheBoundKeys(key: Key)
    ensures EntryOf(key) == NoCase <==> CommandOf(key) == Ignore
  {
  }

  /** The switch with its fall-throughs has, for every key and every
      state, exactly the net effect the key table gives it. */
  lemma SwitchFollowsKeyTable(key: Key, s: KeyResult)
    ensures RunSwitch(key, s) == Perform(CommandOf(key), s)
  {
    if key in {Escape, Tab} {
      QuitAndModeKeys(key, s);
    } else if key in {KeyRight, Ch('n'), KeyLeft, Ch('p')} {
      FocusKeys(key, s);
    } else if key in {KeyPageUp, KeyPageDown} {
      PageKeys(key, s);
    } else if key in {KeyBeg, KeyHome, KeyLL, KeyEnd} {
      HomeEndKeys(key, s);
    } else if key in {Ch('+'), Ch('-')} {
      StepKeys(key, s);
    } else if key in {Ch('w'), KeyUp, Ch('W')} {
      UpKeys(key, s);
    } else if key in {Ch('x'), KeyDown, Ch('X')} {
      DownKeys(key, s);
    } else if key in {Ch('q'), Ch('Q')} {
      LeftUpKeys(key, s);
    } else if key in {Ch('y'), Ch('z'), Ch('Y'), Ch('Z')} {
      LeftDownKeys(key, s);
    } else if key in {Ch('e'), Ch('E')} {
      RightUpKeys(key, s);
    } else if key in {Ch('c'), Ch('C')} {
      RightDownKeys(key, s);
    } else if key in {Ch('m'), Ch('M')} {
      MuteBothKeys(key, s);
    } else if key in {Ch('<'), Ch(','), Ch('>'), Ch('.')} {
      MuteSideKeys(key, s);
    } else if key in {Ch('b'), Ch('B'), Ch('=')} {
      BalanceKeys(key, s);
    } else if key in {Ch('R'), Ch('r'), Ch('L'), Ch('l')} {
      ViewKeys(key, s);
    } else if key in {Ch(' '), KeyInsert, Ch(';')} {
      RecordLeftKeys(key, s);
    } else if key in {Ch('\''), KeyDelete} {
      RecordRightKeys(key, s);
    } else if key in {Ch('1'), Ch('2')} {
      RouteKeys(key, s);
    } else {
      assert EntryOf(key) == NoCase;
    }
  }

  /** Escape quits; Tab flips exact mode. */
  lemma QuitAndModeKeys(key: Key, s: KeyResult)
    requires key in {Escape, Tab}
    ensures RunSwitch(key, s) == Perform(CommandOf(key), s)
  {
    if key == Escape {
      assert EntryOf(key) == Jump(0);
      assert CommandOf(key) == Quit;
      ArmEffect0(s);
    } else if key == Tab {
      assert EntryOf(key) == Jump(1);
      assert CommandOf(key) == ToggleExactMode;
      ArmEffect1(s);
    }
  }

  /** The focus keys. */
  lemma FocusKeys(key: Key, s: KeyResult)
    requires key in {KeyRight, Ch('n'), KeyLeft, Ch('p')}
    ensures RunSwitch(key, s) == Perform(CommandOf(key), s)
  {
    if key == KeyRight {
      assert EntryOf(key) == Jump(2);
      assert CommandOf(key) == MoveFocus(1);
      ArmEffect2(s);
    } else if key == Ch('n') {
      assert EntryOf(key) == Jump(2);
      assert CommandOf(key) == MoveFocus(1);
      ArmEffect2(s);
    } else if key == KeyLeft {
      assert EntryOf(key) == Jump(3);
      assert CommandOf(key) == MoveFocus(-1);
      ArmEffect3(s);
    } else if key == Ch('p') {
      assert EntryOf(key) == Jump(3);
      assert CommandOf(key) == MoveFocus(-1);
      ArmEffect3(s);
    }
  }

  /** The page keys. */
  lemma PageKeys(key: Key, s: KeyResult)
    requires key in {KeyPageUp, KeyPageDown}
    ensures RunSwitch(key, s) == Perform(CommandOf(key), s)
  {
    if key == KeyPageUp {
      assert EntryOf(key) == Jump(4);
      assert CommandOf(key) == Page(true);
      ArmEffect4(s);
    } else if key == KeyPageDown {
      assert EntryOf(key) == Jump(5);
      assert CommandOf(key) == Page(false);
      ArmEffect5(s);
    }
  }

  /** The home and end keys. */
  lemma HomeEndKeys(key: Key, s: KeyResult)
    requires key in {KeyBeg, KeyHome, KeyLL, KeyEnd}
    ensures RunSwitch(key, s) == Perform(CommandOf(key), s)
  {
    if key == KeyBeg {
      assert EntryOf(key) == Jump(6);
      assert CommandOf(key) == Deltas(SetTo(512), SetTo(512));
      ArmEffect6(s);
    } else if key == KeyHome {
      assert EntryOf(key) == Jump(6);
      assert CommandOf(key) == Deltas(SetTo(512), SetTo(512));
      ArmEffect6(s);
    } else if key == KeyLL {
      assert EntryOf(key) == Jump(7);
      assert CommandOf(key) == Deltas(SetTo(-512), SetTo(-512));
      ArmEffect7(s);
    } else if key == KeyEnd {
      assert EntryOf(key) == Jump(7);
      assert CommandOf(key) == Deltas(SetTo(-512), SetTo(-512));
      ArmEffect7(s);
    }
  }

  /** '+' and '-' set both deltas to one step. */
  lemma StepKeys(key: Key, s: KeyResult)
    requires key in {Ch('+'), Ch('-')}
    ensures RunSwitch(key, s) == Perform(CommandOf(key), s)
  {
    if key == Ch('+') {
      assert EntryOf(key) == Jump(8);
      assert CommandOf(key) == Deltas(SetTo(1), SetTo(1));
      ArmEffect8(s);
    } else if key == Ch('-') {
      assert EntryOf(key) == Jump(9);
      assert CommandOf(key) == Deltas(SetTo(-1), SetTo(-1));
      ArmEffect9(s);
    }
  }

  /** 'w' and Up fall through into 'W'. */
  lemma UpKeys(key: Key, s: KeyResult)
    requires key in {Ch('w'), KeyUp, Ch('W')}
    ensures RunSwitch(key, s) == Perform(CommandOf(key), s)
  {
    if key == Ch('w') {
      assert EntryOf(key) == Jump(10);
      assert CommandOf(key) == Deltas(SetTo(2), SetTo(2));
      ArmEffect10(s);
    } else if key == KeyUp {
      assert EntryOf(key) == Jump(10);
      assert CommandOf(key) == Deltas(SetTo(2), SetTo(2));
      ArmEffect10(s);
    } else if key == Ch('W') {
      assert EntryOf(key) == Jump(11);
      assert CommandOf(key) == Deltas(AddBy(1), AddBy(1));
      ArmEffect11(s);
    }
  }

  /** 'x' and Down fall through into 'X'. */
  lemma DownKeys(key: Key, s: KeyResult)
    requires key in {Ch('x'), KeyDown, Ch('X')}
    ensures RunSwitch(key, s) == Perform(CommandOf(key), s)
  {
    if key == Ch('x') {
      assert EntryOf(key) == Jump(12);
      assert CommandOf(key) == Deltas(SetTo(-2), SetTo(-2));
      ArmEffect12(s);
    } else if key == KeyDown {
      assert EntryOf(key) == Jump(12);
      assert CommandOf(key) == Deltas(SetTo(-2), SetTo(-2));
      ArmEffect12(s);
    } else if key == Ch('X') {
      assert EntryOf(key) == Jump(13);
      assert CommandOf(key) == Deltas(AddBy(-1), AddBy(-1));
      ArmEffect13(s);
    }
  }

  /** 'q' falls through into 'Q'. */
  lemma LeftUpKeys(key: Key, s: KeyResult)
    requires key in {Ch('q'), Ch('Q')}
    ensures RunSwitch(key, s) == Perform(CommandOf(key), s)
  {
    if key == Ch('q') {
      assert EntryOf(key) == Jump(14);
      assert CommandOf(key) == Deltas(SetTo(2), Keep);
      ArmEffect14(s);
    } else if key == Ch('Q') {
      assert EntryOf(key) == Jump(15);
      assert CommandOf(key) == Deltas(AddBy(1), Keep);
      ArmEffect15(s);
    }
  }

  /** 'y' and 'z' fall through into 'Y' and 'Z'. */
  lemma LeftDownKeys(key: Key, s: KeyResult)
    requires key in {Ch('y'), Ch('z'), Ch('Y'), Ch('Z')}
    ensures RunSwitch(key, s) == Perform(CommandOf(key), s)
  {
    if key == Ch('y') {
      assert EntryOf(key) == Jump(16);
      assert CommandOf(key) == Deltas(SetTo(-2), Keep);
      ArmEffect16(s);
    } else if key == Ch('z') {
      assert EntryOf(key) == Jump(16);
      assert CommandOf(key) == Deltas(SetTo(-2), Keep);
      ArmEffect16(s);
    } else if key == Ch('Y') {
      assert EntryOf(key) == Jump(17);
      assert CommandOf(key) == Deltas(AddBy(-1), Keep);
      ArmEffect17(s);
    } else if key == Ch('Z') {
      assert EntryOf(key) == Jump(17);
      assert CommandOf(key) == Deltas(AddBy(-1), Keep);
      ArmEffect17(s);
    }
  }

  /** 'e' falls through into 'E'. */
  lemma RightUpKeys(key: Key, s: KeyResult)
    requires key in {Ch('e'), Ch('E')}
    ensures RunSwitch(key, s) == Perform(CommandOf(key), s)
  {
    if key == Ch('e') {
      assert EntryOf(key) == Jump(18);
      assert CommandOf(key) == Deltas(Keep, SetTo(2));
      ArmEffect18(s);
    } else if key == Ch('E') {
      assert EntryOf(key) == Jump(19);
      assert CommandOf(key) == Deltas(Keep, AddBy(1));
      ArmEffect19(s);
    }
  }

  /** 'c' falls through into 'C'. */
  lemma RightDownKeys(key: Key, s: KeyResult)
    requires key in {Ch('c'), Ch('C')}
    ensures RunSwitch(key, s) == Perform(CommandOf(key), s)
  {
    if key == Ch('c') {
      assert EntryOf(key) == Jump(20);
      assert CommandOf(key) == Deltas(Keep, SetTo(-2));
      ArmEffect20(s);
    } else if key == Ch('C') {
      assert EntryOf(key) == Jump(21);
      assert CommandOf(key) == Deltas(Keep, AddBy(-1));
      ArmEffect21(s);
    }
  }

  /** 'm' and 'M' mute both sides. */
  lemma MuteBothKeys(key: Key, s: KeyResult)
    requires key in {Ch('m'), Ch('M')}
    ensures RunSwitch(key, s) == Perform(CommandOf(key), s)
  {
    if key == Ch('m') {
      assert EntryOf(key) == Jump(22);
      assert CommandOf(key) == Mute(true, true);
      ArmEffect22(s);
    } else if key == Ch('M') {
      assert EntryOf(key) == Jump(22);
      assert CommandOf(key) == Mute(true, true);
      ArmEffect22(s);
    }
  }

  /** The one-sided mute keys. */
  lemma MuteSideKeys(key: Key, s: KeyResult)
    requires key in {Ch('<'), Ch(','), Ch('>'), Ch('.')}
    ensures RunSwitch(key, s) == Perform(CommandOf(key), s)
  {
    if key == Ch('<') {
      assert EntryOf(key) == Jump(24);
      assert CommandOf(key) == Mute(true, false);
      ArmEffect24(s);
    } else if key == Ch(',') {
      assert EntryOf(key) == Jump(24);
      assert CommandOf(key) == Mute(true, false);
      ArmEffect24(s);
    } else if key == Ch('>') {
      assert EntryOf(key) == Jump(25);
      assert CommandOf(key) == Mute(false, true);
      ArmEffect25(s);
    } else if key == Ch('.') {
      assert EntryOf(key) == Jump(25);
      assert CommandOf(key) == Mute(false, true);
      ArmEffect25(s);
    }
  }

  /** The balance keys. */
  lemma BalanceKeys(key: Key, s: KeyResult)
    requires key in {Ch('b'), Ch('B'), Ch('=')}
    ensures RunSwitch(key, s) == Perform(CommandOf(key), s)
  {
    if key == Ch('b') {
      assert EntryOf(key) == Jump(23);
      assert CommandOf(key) == Balance;
      ArmEffect23(s);
    } else if key == Ch('B') {
      assert EntryOf(key) == Jump(23);
      assert CommandOf(key) == Balance;
      ArmEffect23(s);
    } else if key == Ch('=') {
      assert EntryOf(key) == Jump(23);
      assert CommandOf(key) == Balance;
      ArmEffect23(s);
    }
  }

  /** The view and redraw keys. */
  lemma ViewKeys(key: Key, s: KeyResult)
    requires key in {Ch('R'), Ch('r'), Ch('L'), Ch('l')}
    ensures RunSwitch(key, s) == Perform(CommandOf(key), s)
  {
    if key == Ch('R') {
      assert EntryOf(key) == Jump(26);
      assert CommandOf(key) == ToggleView;
      ArmEffect26(s);
    } else if key == Ch('r') {
      assert EntryOf(key) == Jump(26);
      assert CommandOf(key) == ToggleView;
      ArmEffect26(s);
    } else if key == Ch('L') {
      assert EntryOf(key) == Jump(27);
      assert CommandOf(key) == ClearAndRedraw;
      ArmEffect27(s);
    } else if key == Ch('l') {
      assert EntryOf(key) == Jump(27);
      assert CommandOf(key) == ClearAndRedraw;
      ArmEffect27(s);
    }
  }

  /** Space records both sides; Insert and ';' the left side. */
  lemma RecordLeftKeys(key: Key, s: KeyResult)
    requires key in {Ch(' '), KeyInsert, Ch(';')}
    ensures RunSwitch(key, s) == Perform(CommandOf(key), s)
  {
    if key == Ch(' ') {
      assert EntryOf(key) == Jump(28);
      assert CommandOf(key) == Record(true, true);
      ArmEffect28(s);
    } else if key == KeyInsert {
      assert EntryOf(key) == Jump(29);
      assert CommandOf(key) == Record(true, false);
      ArmEffect29(s);
    } else if key == Ch(';') {
      assert EntryOf(key) == Jump(29);
      assert CommandOf(key) == Record(true, false);
      ArmEffect29(s);
    }
  }

  /** The keys that record the right side. */
  lemma RecordRightKeys(key: Key, s: KeyResult)
    requires key in {Ch('\''), KeyDelete}
    ensures RunSwitch(key, s) == Perform(CommandOf(key), s)
  {
    if key == Ch('\'') {
      assert EntryOf(key) == Jump(30);
      assert CommandOf(key) == Record(false, true);
      ArmEffect30(s);
    } else if key == KeyDelete {
      assert EntryOf(key) == Jump(30);
      assert CommandOf(key) == Record(false, true);
      ArmEffect30(s);
    }
  }

  /** The routing keys. */
  lemma RouteKeys(key: Key, s: KeyResult)
    requires key in {Ch('1'), Ch('2')}
    ensures RunSwitch(key, s) == Perform(CommandOf(key), s)
  {
    if key == Ch('1') {
      assert EntryOf(key) == Jump(31);
      assert CommandOf(key) == Route(false, true);
      ArmEffect31(s);
    } else if key == Ch('2') {
      assert EntryOf(key) == Jump(32);
      assert CommandOf(key) == Route(true, false);
      ArmEffect32(s);
    }
  }

  // Execution from each arm on, one lemma per arm: the statements of the
  // arm, and of the arm it falls into, add up to the arm's command.

  lemma ArmEffect0(s: KeyResult)
    ensures RunFrom(0, s) == Perform(Quit, s)
  {
  }

  lemma ArmEffect1(s: KeyResult)
    ensures RunFrom(1, s) == Perform(ToggleExactMode, s)
  {
    assert Arms[1] == Arm([FlipExact], true);
  }

  lemma ArmEffect2(s: KeyResult)
    ensures RunFrom(2, s) == Perform(MoveFocus(1), s)
  {
    assert Arms[2] == Arm([AddFocus(1)], true);
  }

  lemma ArmEffect3(s: KeyResult)
    ensures RunFrom(3, s) == Perform(MoveFocus(-1), s)
  {
    assert Arms[3] == Arm([AddFocus(-1)], true);
  }

  lemma ArmEffect4(s: KeyResult)
    ensures RunFrom(4, s) == Perform(Page(true), s)
  {
    assert Arms[4] == Arm([SetBothByMode(8, 10)], true);
  }

  lemma ArmEffect5(s: KeyResult)
    ensures RunFrom(5, s) == Perform(Page(false), s)
  {
    assert Arms[5] == Arm([SetBothByMode(-8, -10)], true);
  }

  lemma ArmEffect6(s: KeyResult)
    ensures RunFrom(6, s) == Perform(Deltas(SetTo(512), SetTo(512)), s)
  {
    assert Arms[6] == Arm([SetLeft(512), SetRight(512)], true);
  }

  lemma ArmEffect7(s: KeyResult)
    ensures RunFrom(7, s) == Perform(Deltas(SetTo(-512), SetTo(-512)), s)
  {
    assert Arms[7] == Arm([SetLeft(-512), SetRight(-512)], true);
  }

  lemma ArmEffect8(s: KeyResult)
    ensures RunFrom(8, s) == Perform(Deltas(SetTo(1), SetTo(1)), s)
  {
    assert Arms[8] == Arm([SetLeft(1), SetRight(1)], true);
  }

  lemma ArmEffect9(s: KeyResult)
    ensures RunFrom(9, s) == Perform(Deltas(SetTo(-1), SetTo(-1)), s)
  {
    assert Arms[9] == Arm([SetLeft(-1), SetRight(-1)], true);
  }

  lemma ArmEffect10(s: KeyResult)
    ensures RunFrom(10, s) == Perform(Deltas(SetTo(2), SetTo(2)), s)
  {
    assert Arms[10] == Arm([SetLeft(1), SetRight(1)], false);
    ArmEffect11(ExecBody(Arms[10].body, s));
  }

  lemma ArmEffect11(s: KeyResult)
    ensures RunFrom(11, s) == Perform(Deltas(AddBy(1), AddBy(1)), s)
  {
    assert Arms[11] == Arm([AddLeft(1), AddRight(1)], true);
  }

  lemma ArmEffect12(s: KeyResult)
    ensures RunFrom(12, s) == Perform(Deltas(SetTo(-2), SetTo(-2)), s)
  {
    assert Arms[12] == Arm([SetLeft(-1), SetRight(-1)], false);
    ArmEffect13(ExecBody(Arms[12].body, s));
  }

  lemma ArmEffect13(s: KeyResult)
    ensures RunFrom(13, s) == Perform(Deltas(AddBy(-1), AddBy(-1)), s)
  {
    assert Arms[13] == Arm([AddLeft(-1), AddRight(-1)], true);
  }

  lemma ArmEffect14(s: KeyResult)
    ensures RunFrom(14, s) == Perform(Deltas(SetTo(2), Keep), s)
  {
    assert Arms[14] == Arm([SetLeft(1)], false);
    ArmEffect15(ExecBody(Arms[14].body, s));
  }

  lemma ArmEffect15(s: KeyResult)
    ensures RunFrom(15, s) == Perform(Deltas(AddBy(1), Keep), s)
  {
    assert Arms[15] == Arm([AddLeft(1)], true);
  }

  lemma ArmEffect16(s: KeyResult)
    ensures RunFrom(16, s) == Perform(Deltas(SetTo(-2), Keep), s)
  {
    assert Arms[16] == Arm([SetLeft(-1)], false);
    ArmEffect17(ExecBody(Arms[16].body, s));
  }

  lemma ArmEffect17(s: KeyResult)
    ensures RunFrom(17, s) == Perform(Deltas(AddBy(-1), Keep), s)
  {
    assert Arms[17] == Arm([AddLeft(-1)], true);
  }

  lemma ArmEffect18(s: KeyResult)
    ensures RunFrom(18, s) == Perform(Deltas(Keep, SetTo(2)), s)
  {
    assert Arms[18] == Arm([SetRight(1)], false);
    ArmEffect19(ExecBody(Arms[18].body, s));
  }

  lemma ArmEffect19(s: KeyResult)
    ensures RunFrom(19, s) == Perform(Deltas(Keep, AddBy(1)), s)
  {
    assert Arms[19] == Arm([AddRight(1)], true);
  }

  lemma ArmEffect20(s: KeyResult)
    ensures RunFrom(20, s) == Perform(Deltas(Keep, SetTo(-2)), s)
  {
    assert Arms[20] == Arm([SetRight(-1)], false);
    ArmEffect21(ExecBody(Arms[20].body, s));
  }

  lemma ArmEffect21(s: KeyResult)
    ensures RunFrom(21, s) == Perform(Deltas(Keep, AddBy(-1)), s)
  {
  }

  lemma ArmEffect22(s: KeyResult)
    ensures RunFrom(22, s) == Perform(Mute(true, true), s)
  {
    assert Arms[22] == Arm([SetInputVolumes(false), RaiseMuteLeft, RaiseMuteRight], true);
  }

  lemma ArmEffect23(s: KeyResult)
    ensures RunFrom(23, s) == Perform(Balance, s)
  {
  }

  lemma ArmEffect24(s: KeyResult)
    ensures RunFrom(24, s) == Perform(Mute(true, false), s)
  {
  }

  lemma ArmEffect25(s: KeyResult)
    ensures RunFrom(25, s) == Perform(Mute(false, true), s)
  {
  }

  lemma ArmEffect26(s: KeyResult)
    ensures RunFrom(26, s) == Perform(ToggleView, s)
  {
  }

  lemma ArmEffect27(s: KeyResult)
    ensures RunFrom(27, s) == Perform(ClearAndRedraw, s)
  {
  }

  lemma ArmEffect28(s: KeyResult)
    ensures RunFrom(28, s) == Perform(Record(true, true), s)
  {
    assert Arms[28] == Arm([SetInputVolumes(true), RaiseRecordLeft, RaiseRecordRight], true);
  }

  lemma ArmEffect29(s: KeyResult)
    ensures RunFrom(29, s) == Perform(Record(true, false), s)
  {
  }

  lemma ArmEffect30(s: KeyResult)
    ensures RunFrom(30, s) == Perform(Record(false, true), s)
  {
  }

  lemma ArmEffect31(s: KeyResult)
    ensures RunFrom(31, s) == Perform(Route(false, true), s)
  {
  }

  lemma ArmEffect32(s: KeyResult)
    ensures RunFrom(32, s) == Perform(Route(true, false), s)
  {
  }

  // ---------------------------------------------------------------------
  // mixer_iteration after the key has been read

  /** How far a key moves the focus before it is clamped. */
  function FocusStep(key: Key): int {
    if key == KeyRight || key == Ch('n') then 1
    else if key == KeyLeft || key == Ch('p') then -1
    else 0
  }

  /** The clamp mixer_iteration applies to the focus after the switch. */
  function ClampFocus(s: KeyResult, channels: int): (r: KeyResult)
    ensures r.ui.focus == Clamp(s.ui.focus, 0, channels - 1)
    ensures channels >= 1 ==> 0 <= r.ui.focus < channels
    ensures 0 <= s.ui.focus < channels ==> r == s
    ensures r.finished == s.finished && r.ui.(focus := s.ui.focus) == s.ui
  {
    s.(ui := s.ui.(focus := Clamp(s.ui.focus, 0, channels - 1)))
  }

  /** One pass of mixer_iteration once a key has been read: the key's
      effect, then the focus clamped to [0, channels - 1] (with no channels
      the clamp leaves it at -1 or 0). Nothing here touches the window.
      HandleKeyIsTheSwitch shows this is the switch as written. */
  function HandleKey(ui: Ui, key: Key, channels: int): (r: KeyResult)
    ensures r.ui.focus == Clamp(ui.focus + FocusStep(key), 0, channels - 1)
    ensures channels >= 1 ==> 0 <= r.ui.focus < channels
    ensures r.ui.firstVisible == ui.firstVisible
    ensures r.finished <==> key == Escape
  {
    ClampFocus(Perform(CommandOf(key), KeyResult(ui, false)), channels)
  }

  /** The key handler is the switch with its fall-throughs, followed by the
      clamp. */
  lemma HandleKeyIsTheSwitch(ui: Ui, key: Key, channels: int)
    ensures HandleKey(ui, key, channels) == ClampFocus(RunSwitch(key, KeyResult(ui, false)), channels)
  {
    SwitchFollowsKeyTable(key, KeyResult(ui, false));
  }

  /** 'w' and Up set both deltas to 1 and fall through into 'W', which adds
      1 more. */
  lemma UpKeysRaiseBothByTwo(ui: Ui, key: Key, channels: int)
    requires key == Ch('w') || key == KeyUp
    ensures HandleKey(ui, key, channels).ui.pending == ui.pending.(leftDelta := 2, rightDelta := 2)
  {
  }

  /** 'x' and Down fall through into 'X': both deltas become -2. */
  lemma DownKeysLowerBothByTwo(ui: Ui, key: Key, channels: int)
    requires key == Ch('x') || key == KeyDown
    ensures HandleKey(ui, key, channels).ui.pending == ui.pending.(leftDelta := -2, rightDelta := -2)
  {
  }

  /** 'q' falls through into 'Q': the left delta becomes 2, the right one
      is left as it was. */
  lemma LeftUpKeyRaisesLeftByTwo(ui: Ui, key: Key, channels: int)
    requires key == Ch('q')
    ensures HandleKey(ui, key, channels).ui.pending == ui.pending.(leftDelta := 2)
  {
  }

  /** 'y' and 'z' fall through into 'Y' and 'Z': the left delta becomes -2. */
  lemma LeftDownKeysLowerLeftByTwo(ui: Ui, key: Key, channels: int)
    requires key == Ch('y') || key == Ch('z')
    ensures HandleKey(ui, key, channels).ui.pending == ui.pending.(leftDelta := -2)
  {
    assert CommandOf(key) == Deltas(SetTo(-2), Keep);
  }

  /** 'e' falls through into 'E': the right delta becomes 2. */
  lemma RightUpKeyRaisesRightByTwo(ui: Ui, key: Key, channels: int)
    requires key == Ch('e')
    ensures HandleKey(ui, key, channels).ui.pending == ui.pending.(rightDelta := 2)
  {
  }

  /** 'c' falls through into 'C': the right delta becomes -2. */
  lemma RightDownKeyLowersRightByTwo(ui: Ui, key: Key, channels: int)
    requires key == Ch('c')
    ensures HandleKey(ui, key, channels).ui.pending == ui.pending.(rightDelta := -2)
  {
  }

  /** 'W' and 'X' add one step to both pending deltas. */
  lemma CapitalKeysStepBoth(ui: Ui, key: Key, channels: int)
    requires key == Ch('W') || key == Ch('X')
    ensures var step := if key == Ch('W') then 1 else -1;
      HandleKey(ui, key, channels).ui.pending == ui.pending.(leftDelta := ui.pending.leftDelta + step, rightDelta := ui.pending.rightDelta + step)
  {
    var step := if key == Ch('W') then 1 else -1;
    assert CommandOf(key) == Deltas(AddBy(step), AddBy(step));
  }

  /** 'Q', 'Y' and 'Z' add one step to the left delta only. */
  lemma CapitalKeysStepLeft(ui: Ui, key: Key, channels: int)
    requires key == Ch('Q') || key == Ch('Y') || key == Ch('Z')
    ensures var step := if key == Ch('Q') then 1 else -1;
      HandleKey(ui, key, channels).ui.pending == ui.pending.(leftDelta := ui.pending.leftDelta + step)
  {
    var step := if key == Ch('Q') then 1 else -1;
    assert CommandOf(key) == Deltas(AddBy(step), Keep);
  }

  /** 'E' and 'C' add one step to the right delta only. */
  lemma CapitalKeysStepRight(ui: Ui, key: Key, channels: int)
    requires key == Ch('E') || key == Ch('C')
    ensures var step := if key == Ch('E') then 1 else -1;
      HandleKey(ui, key, channels).ui.pending == ui.pending.(rightDelta := ui.pending.rightDelta + step)
  {
    var step := if key == Ch('E') then 1 else -1;
    assert CommandOf(key) == Deltas(Keep, AddBy(step));
  }

  /** '+' and '-' set both deltas to one step. */
  lemma StepKeysSetBoth(ui: Ui, key: Key, channels: int)
    requires key == Ch('+') || key == Ch('-')
    ensures var step := if key == Ch('+') then 1 else -1;
      HandleKey(ui, key, channels).ui.pending == ui.pending.(leftDelta := step, rightDelta := step)
  {
  }

  /** The page keys set both deltas to 8 steps in exact mode and 10
      otherwise. */
  lemma PageKeysSetBoth(ui: Ui, key: Key, channels: int)
    requires key == KeyPageUp || key == KeyPageDown
    ensures var step := (if ui.exact then 8 else 10) * (if key == KeyPageUp then 1 else -1);
      HandleKey(ui, key, channels).ui.pending == ui.pending.(leftDelta := step, rightDelta := step)
  {
  }

  /** Home and end set both deltas to 512 steps, which the clamp of the
      next redraw turns into the end of the range. */
  lemma HomeEndKeysSetBoth(ui: Ui, key: Key, channels: int)
    requires key in {KeyHome, KeyBeg, KeyEnd, KeyLL}
    ensures var step := if key in {KeyHome, KeyBeg} then 512 else -512;
      HandleKey(ui, key, channels).ui.pending == ui.pending.(leftDelta := step, rightDelta := step)
  {
  }

  /** The mute keys switch to the playback view and raise the mute request
      of each side they name. */
  lemma MuteKeysSelectPlayback(ui: Ui, key: Key, channels: int)
    requires key in {Ch('m'), Ch('M'), Ch('<'), Ch(','), Ch('>'), Ch('.')}
    ensures !HandleKey(ui, key, channels).ui.inputVolumes
    ensures HandleKey(ui, key, channels).ui.pending.muteLeft <==> ui.pending.muteLeft || key in {Ch('m'), Ch('M'), Ch('<'), Ch(',')}
    ensures HandleKey(ui, key, channels).ui.pending.muteRight <==> ui.pending.muteRight || key in {Ch('m'), Ch('M'), Ch('>'), Ch('.')}
  {
    assert CommandOf(key) == Mute(key in {Ch('m'), Ch('M'), Ch('<'), Ch(',')}, key in {Ch('m'), Ch('M'), Ch('>'), Ch('.')});
  }

  /** The record keys switch to the record view and raise the record
      request of each side they name. */
  lemma RecordKeysSelectRecord(ui: Ui, key: Key, channels: int)
    requires key in {Ch(' '), KeyInsert, Ch(';'), Ch('\''), KeyDelete}
    ensures HandleKey(ui, key, channels).ui.inputVolumes
    ensures HandleKey(ui, key, channels).ui.pending.recordLeft <==> ui.pending.recordLeft || key in {Ch(' '), KeyInsert, Ch(';')}
    ensures HandleKey(ui, key, channels).ui.pending.recordRight <==> ui.pending.recordRight || key in {Ch(' '), Ch('\''), KeyDelete}
  {
  }

  /** The routing keys switch to the record view: '1' raises the
      right-to-left request and '2' the left-to-right one. */
  lemma RouteKeysSelectRecord(ui: Ui, key: Key, channels: int)
    requires key == Ch('1') || key == Ch('2')
    ensures HandleKey(ui, key, channels).ui.inputVolumes
    ensures HandleKey(ui, key, channels).ui.pending.routeRightToLeft <==> ui.pending.routeRightToLeft || key == Ch('1')
    ensures HandleKey(ui, key, channels).ui.pending.routeLeftToRight <==> ui.pending.routeLeftToRight || key == Ch('2')
  {
  }

  /** 'r' flips the view and changes nothing else but the clamp. */
  lemma ViewKeyFlipsView(ui: Ui, key: Key, channels: int)
    requires key == Ch('r') || key == Ch('R')
    ensures HandleKey(ui, key, channels) == KeyResult(ui.(inputVolumes := !ui.inputVolumes, focus := Clamp(ui.focus, 0, channels - 1)), false)
  {
  }

  /** The focus keys stop at either end of the channel list rather than
      wrapping around. */
  lemma FocusStopsAtEnds(ui: Ui, channels: int)
    requires channels >= 1
    ensures ui.focus == channels - 1 ==> HandleKey(ui, KeyRight, channels).ui.focus == channels - 1
    ensures ui.focus == channels - 1 ==> HandleKey(ui, Ch('n'), channels).ui.focus == channels - 1
    ensures ui.focus == 0 ==> HandleKey(ui, KeyLeft, channels).ui.focus == 0
    ensures ui.focus == 0 ==> HandleKey(ui, Ch('p'), channels).ui.focus == 0
  {
  }

  /** Tab flips exact mode and changes nothing else but the clamp. */
  lemma TabFlipsExactMode(ui: Ui, key: Key, channels: int)
    requires key == Tab
    ensures HandleKey(ui, key, channels) == KeyResult(ui.(exact := !ui.exact, focus := Clamp(ui.focus, 0, channels - 1)), false)
  {
  }

  /** Keys the switch has no case for change nothing but the clamp. */
  lemma UnboundKeysOnlyClamp(ui: Ui, key: Key, channels: int)
    requires EntryOf(key) == NoCase
    ensures HandleKey(ui, key, channels) == KeyResult(ui.(focus := Clamp(ui.focus, 0, channels - 1)), false)
  {
  }
}
