/**
 * `button_handler.c`: three active-low buttons whose interrupt handler records press and
 * release times, and a polling function that turns the recorded states into one player
 * action. The clock (`esp_timer_get_time`, microseconds since boot) and the pin level are
 * parameters.
 */
module ButtonHandler {

  /** `button_action_t`. */
  datatype ButtonAction = NoAction | Next | Prev | RestartTrack | ChangeMode | NextFolder | PrevFolder

  /** `BTN_STATE_IDLE`, `_PRESSED`, `_RELEASED`, `_LONGPRESS`. */
  datatype Phase = Idle | Pressed | Released | LongPress

  const BTN_FWD_PIN := 33
  const BTN_BCK_PIN := 27
  const BTN_MENU_PIN := 22

  const DEBOUNCE_MS := 50
  const LONGPRESS_MS := 1000
  const RESTART_TIMEOUT_MS := 5000

  /** The conversion of an `int64_t` to a 32-bit `int`: the value modulo 2^32, read as signed. */
  function Int32(x: int): (r: int)
    ensures -0x8000_0000 <= r < 0x8000_0000
    ensures (x - r) % 0x1_0000_0000 == 0
    ensures -0x8000_0000 <= x < 0x8000_0000 ==> r == x
  {
    (x + 0x8000_0000) % 0x1_0000_0000 - 0x8000_0000
  }

  /** The fields of a `button_t` other than its pin; times are in milliseconds. */
  datatype Btn = Btn(phase: Phase, pressTime: int, releaseTime: int, longDetected: bool, lastAction: ButtonAction)

  /** The three buttons and `last_back_press_time`. */
  datatype Panel = Panel(fwd: Btn, bck: Btn, menu: Btn, lastBack: int)

  /** What one poll leaves and returns. */
  datatype Polled = Polled(panel: Panel, action: ButtonAction)

  /** The static initialisers. */
  function Start(): (p: Panel)
    ensures p.fwd == p.bck == p.menu && p.fwd.phase == Idle && !p.fwd.longDetected && p.lastBack == 0
  {
    var b := Btn(Idle, 0, 0, false, NoAction);
    Panel(b, b, b, 0)
  }

  /** The interrupt handler on a button whose pin reads `level` at millisecond `now`. */
  function AfterEdge(b: Btn, level: int, now: int): (r: Btn)
    ensures level == 0 ==> r.phase == Pressed && r.pressTime == now && !r.longDetected && r.releaseTime == b.releaseTime
    ensures level != 0 ==> r.releaseTime == now && r.pressTime == b.pressTime && r.longDetected == b.longDetected
    ensures level != 0 ==> (r.phase == Released <==> b.phase != Idle) && (r.phase == Idle <==> b.phase == Idle)
    ensures r.lastAction == b.lastAction
  {
    if level == 0 then b.(pressTime := now, phase := Pressed, longDetected := false)
    else
      match b.phase
      case Pressed => b.(releaseTime := now, phase := Released)
      case LongPress => b.(releaseTime := now, phase := Released)
      case _ => b.(releaseTime := now)
  }

  /** A press held past the long-press time that has not been reported yet. */
  predicate LongDue(b: Btn, now: int) {
    b.phase == Pressed && !b.longDetected && now - b.pressTime > LONGPRESS_MS
  }

  /** The press duration as the source computes it, in an `int`. */
  function Duration(b: Btn): int {
    Int32(b.releaseTime - b.pressTime)
  }

  /** A forward or back release that counts as a short press. */
  predicate ShortPress(b: Btn) {
    b.phase == Released && DEBOUNCE_MS <= Duration(b) < LONGPRESS_MS
  }

  /** A menu release that counts: long enough, with no upper bound. */
  predicate MenuPress(b: Btn) {
    b.phase == Released && DEBOUNCE_MS <= Duration(b)
  }

  /** The back action for a counted release at `now`. */
  function BackAction(lastBack: int, now: int): ButtonAction {
    if now - lastBack < RESTART_TIMEOUT_MS then Prev else RestartTrack
  }

  /** A reported long press. */
  function Fire(b: Btn, a: ButtonAction): Btn {
    b.(longDetected := true, phase := LongPress, lastAction := a)
  }

  /** A released button goes back to idle, remembering `a` when its press counted. */
  function Settle(b: Btn, counted: bool, a: ButtonAction): Btn {
    if b.phase == Released then b.(phase := Idle, lastAction := if counted then a else b.lastAction) else b
  }

  /**
   * `button_handler_get_action` at millisecond `now`, stated by priority: a due long press of
   * forward, then of back, returns at once; otherwise every released button settles and the
   * action is the menu's if it counts, else the back button's, else the forward button's.
   */
  function Poll(p: Panel, now: int): (r: Polled) {
    if LongDue(p.fwd, now) then Polled(p.(fwd := Fire(p.fwd, NextFolder)), NextFolder)
    else if LongDue(p.bck, now) then Polled(p.(bck := Fire(p.bck, PrevFolder)), PrevFolder)
    else
      var back := BackAction(p.lastBack, now);
      var panel := Panel(Settle(p.fwd, ShortPress(p.fwd), Next), Settle(p.bck, ShortPress(p.bck), back),
                         Settle(p.menu, MenuPress(p.menu), ChangeMode),
                         if ShortPress(p.bck) then now else p.lastBack);
      var action :=
        if MenuPress(p.menu) then ChangeMode
        else if ShortPress(p.bck) then back
        else if ShortPress(p.fwd) then Next
        else NoAction;
      Polled(panel, action)
  }

  /** A due long press is reported at once, and the button enters the long-press state. */
  lemma LongPressReported(p: Panel, now: int)
    ensures LongDue(p.fwd, now) ==>
      var r := Poll(p, now); r.action == NextFolder && r.panel.fwd.phase == LongPress && r.panel.fwd.longDetected
    ensures !LongDue(p.fwd, now) && LongDue(p.bck, now) ==>
      var r := Poll(p, now); r.action == PrevFolder && r.panel.bck.phase == LongPress && r.panel.bck.longDetected
    ensures Poll(p, now).action == NextFolder <==> LongDue(p.fwd, now)
    ensures Poll(p, now).action == PrevFolder <==> !LongDue(p.fwd, now) && LongDue(p.bck, now)
  {
  }

  /** When no long press is due, no button is left released: each released one is idle. */
  lemma ReleasedSettles(p: Panel, now: int)
    requires !LongDue(p.fwd, now) && !LongDue(p.bck, now)
    ensures var q := Poll(p, now).panel;
      q.fwd.phase != Released && q.bck.phase != Released && q.menu.phase != Released
    ensures var q := Poll(p, now).panel;
      (p.fwd.phase == Released ==> q.fwd.phase == Idle) && (p.bck.phase == Released ==> q.bck.phase == Idle)
      && (p.menu.phase == Released ==> q.menu.phase == Idle)
  {
  }

  /**
   * NEXT comes only from a forward release lasting 50 to 999 ms, when no long press is due and
   * neither the back nor the menu button has a counted release in the same poll.
   */
  lemma ForwardNext(p: Panel, now: int)
    ensures Poll(p, now).action == Next <==>
      !LongDue(p.fwd, now) && !LongDue(p.bck, now) && ShortPress(p.fwd) && !ShortPress(p.bck) && !MenuPress(p.menu)
  {
  }

  /**
   * A counted back release gives PREV within 5000 ms of the previous counted one and
   * RESTART_TRACK otherwise, and records `now`; an uncounted one leaves the time alone.
   */
  lemma BackPrevOrRestart(p: Panel, now: int)
    requires !LongDue(p.fwd, now) && !LongDue(p.bck, now)
    ensures ShortPress(p.bck) ==> Poll(p, now).panel.lastBack == now
    ensures !ShortPress(p.bck) ==> Poll(p, now).panel.lastBack == p.lastBack
    ensures ShortPress(p.bck) && !MenuPress(p.menu) ==>
      Poll(p, now).action == (if now - p.lastBack < RESTART_TIMEOUT_MS then Prev else RestartTrack)
  {
  }

  /** CHANGE_MODE comes from a menu release of at least 50 ms, however long, and overrides the others. */
  lemma MenuChangeMode(p: Panel, now: int)
    ensures Poll(p, now).action == ChangeMode <==> !LongDue(p.fwd, now) && !LongDue(p.bck, now) && MenuPress(p.menu)
  {
  }

  /**
   * A long press produces no short press when it is released: the release comes after the
   * report, so it lasts more than 1000 ms (provided it lasts less than 2^31 ms).
   */
  lemma LongPressNoShort(p: Panel, now: int, t: int)
    requires LongDue(p.fwd, now) && now <= t && t - p.fwd.pressTime < 0x8000_0000
    ensures !ShortPress(AfterEdge(Poll(p, now).panel.fwd, 1, t))
  {
  }

  /** A press held for 2^32 + 100 ms wraps in the `int` duration and counts as a short press. */
  lemma DurationWraps(b: Btn)
    requires b.phase == Released && b.releaseTime - b.pressTime == 0x1_0000_0000 + 100
    ensures ShortPress(b)
  {
  }

  /** Which button an event concerns. */
  datatype Key = Fwd | Bck | Menu

  /** What happens between two instants: a poll, or an interrupt with the level read on the pin. */
  datatype Event = Tick(now: int) | Level(key: Key, level: int, now: int)

  function ButtonOf(p: Panel, k: Key): Btn {
    match k
    case Fwd => p.fwd
    case Bck => p.bck
    case Menu => p.menu
  }

  /** The long-press action of the forward and back buttons. */
  function LongAction(k: Key): ButtonAction
    requires k != Menu
  {
    if k == Fwd then NextFolder else PrevFolder
  }

  /** One event: a poll, or the interrupt handler on one button. */
  function Apply(p: Panel, e: Event): Polled {
    match e
    case Tick(now) => Poll(p, now)
    case Level(k, level, now) =>
      match k
      case Fwd => Polled(p.(fwd := AfterEdge(p.fwd, level, now)), NoAction)
      case Bck => Polled(p.(bck := AfterEdge(p.bck, level, now)), NoAction)
      case Menu => Polled(p.(menu := AfterEdge(p.menu, level, now)), NoAction)
  }

  /** The actions the polls in `evs` return, in order. */
  function Actions(p: Panel, evs: seq<Event>): (r: seq<ButtonAction>)
    ensures |r| <= |evs|
    decreases |evs|
  {
    if evs == [] then []
    else
      var q := Apply(p, evs[0]);
      (if evs[0].Tick? then [q.action] else []) + Actions(q.panel, evs[1..])
  }

  /** No interrupt in `evs` sees button `k` pressed. */
  predicate NoPress(evs: seq<Event>, k: Key) {
    forall i :: 0 <= i < |evs| ==> !(evs[i].Level? && evs[i].key == k && evs[i].level == 0)
  }

  /** One event that is not a press of `k` keeps a reported long press reported and reports no other. */
  lemma StaysReported(p: Panel, e: Event, k: Key)
    requires k != Menu && ButtonOf(p, k).longDetected
    requires !(e.Level? && e.key == k && e.level == 0)
    ensures ButtonOf(Apply(p, e).panel, k).longDetected
    ensures Apply(p, e).action != LongAction(k)
  {
  }

  /** A long press of `k` is reported only while it is due, and then it stays reported. */
  lemma ReportMarks(p: Panel, e: Event, k: Key)
    requires k != Menu
    ensures Apply(p, e).action == LongAction(k) ==> ButtonOf(Apply(p, e).panel, k).longDetected
  {
  }

  /**
   * However the polls and releases interleave, a long press of the forward or back button
   * is reported at most once until the button is pressed again, and not at all when it has
   * been reported already.
   */
  lemma {:induction false} LongPressOnce(p: Panel, evs: seq<Event>, k: Key)
    requires k != Menu && NoPress(evs, k)
    ensures multiset(Actions(p, evs))[LongAction(k)] <= 1
    ensures ButtonOf(p, k).longDetected ==> multiset(Actions(p, evs))[LongAction(k)] == 0
    decreases |evs|
  {
    if evs != [] {
      var q := Apply(p, evs[0]);
      var head: seq<ButtonAction> := if evs[0].Tick? then [q.action] else [];
      assert NoPress(evs[1..], k) by {
        forall i | 0 <= i < |evs| - 1
          ensures !(evs[1..][i].Level? && evs[1..][i].key == k && evs[1..][i].level == 0)
        {
          assert evs[1..][i] == evs[i + 1];
        }
      }
      LongPressOnce(q.panel, evs[1..], k);
      assert Actions(p, evs) == head + Actions(q.panel, evs[1..]);
      assert !(evs[0].Level? && evs[0].key == k && evs[0].level == 0);
      if ButtonOf(p, k).longDetected {
        StaysReported(p, evs[0], k);
      } else {
        ReportMarks(p, evs[0], k);
        if q.action == LongAction(k) {
          assert ButtonOf(q.panel, k).longDetected;
        }
      }
    }
  }

  /** A `button_t`: its pin and the fields the interrupt handler and the poll update. */
  class Button {
    const pin: int
    var phase: Phase
    var pressTime: int
    var releaseTime: int
    var longDetected: bool
    var lastAction: ButtonAction

    function Value(): Btn
      reads this
    {
      Btn(phase, pressTime, releaseTime, longDetected, lastAction)
    }

    /** The static initialiser `{pin, BTN_STATE_IDLE, 0, 0, false, BTN_ACTION_NONE}`. */
    constructor(pin: int)
      ensures this.pin == pin && Value() == Start().fwd
    {
      this.pin := pin;
      phase := Idle;
      pressTime := 0;
      releaseTime := 0;
      longDetected := false;
      lastAction := NoAction;
    }

    /** The long-press branch of the poll: the press is reported as `a`. */
    method Report(a: ButtonAction)
      modifies this
      ensures Value() == Fire(old(Value()), a)
    {
      longDetected := true;
      phase := LongPress;
      lastAction := a;
    }

    /**
     * The release branch of the poll for the forward or back button: a released button goes
     * idle, and a press of 50 to 999 ms counts, as `a`.
     */
    method SettleShort(a: ButtonAction) returns (counted: bool)
      modifies this
      ensures counted == ShortPress(old(Value())) && Value() == Settle(old(Value()), counted, a)
    {
      counted := false;
      if phase == Released {
        var duration := Int32(releaseTime - pressTime);
        if duration >= DEBOUNCE_MS && duration < LONGPRESS_MS {
          lastAction := a;
          counted := true;
        }
        phase := Idle;
      }
    }

    /** The release branch of the poll for the menu button: a press of 50 ms or more counts. */
    method SettleMenu() returns (counted: bool)
      modifies this
      ensures counted == MenuPress(old(Value())) && Value() == Settle(old(Value()), counted, ChangeMode)
    {
      counted := false;
      if phase == Released {
        var duration := Int32(releaseTime - pressTime);
        if duration >= DEBOUNCE_MS {
          lastAction := ChangeMode;
          counted := true;
        }
        phase := Idle;
      }
    }

    /** `gpio_isr_handler` for this button: `level` is the pin's level, `micros` the timer. */
    method Edge(level: int, micros: nat)
      modifies this
      ensures Value() == AfterEdge(old(Value()), level, micros / 1000)
    {
      var now := micros / 1000;
      if level == 0 {
        pressTime := now;
        phase := Pressed;
        longDetected := false;
      } else {
        releaseTime := now;
        if phase == Pressed || phase == LongPress {
          phase := Released;
        }
      }
    }
  }

  /** The module's statics: the three buttons and `last_back_press_time`. */
  class Handler {
    const fwd: Button
    const bck: Button
    const menu: Button
    var lastBackPress: int

    /** The three buttons are three distinct objects. */
    predicate Valid()
      reads this
    {
      fwd != bck && bck != menu && fwd != menu
    }

    function State(): Panel
      reads this, fwd, bck, menu
    {
      Panel(fwd.Value(), bck.Value(), menu.Value(), lastBackPress)
    }

    constructor()
      ensures Valid() && State() == Start()
      ensures fwd.pin == BTN_FWD_PIN && bck.pin == BTN_BCK_PIN && menu.pin == BTN_MENU_PIN
    {
      fwd := new Button(BTN_FWD_PIN);
      bck := new Button(BTN_BCK_PIN);
      menu := new Button(BTN_MENU_PIN);
      lastBackPress := 0;
    }

    /** `button_handler_get_action` with the timer reading `micros`. */
    method GetAction(micros: nat) returns (action: ButtonAction)
      requires Valid()
      modifies this, fwd, bck, menu
      ensures Poll(old(State()), micros / 1000) == Polled(State(), action)
    {
      action := NoAction;
      var now := micros / 1000;
      if fwd.phase == Pressed && !fwd.longDetected && now - fwd.pressTime > LONGPRESS_MS {
        fwd.Report(NextFolder);
        return NextFolder;
      }
      if bck.phase == Pressed && !bck.longDetected && now - bck.pressTime > LONGPRESS_MS {
        bck.Report(PrevFolder);
        return PrevFolder;
      }
      var counted := fwd.SettleShort(Next);
      if counted {
        action := Next;
      }
      var back := if now - lastBackPress < RESTART_TIMEOUT_MS then Prev else RestartTrack;
      counted := bck.SettleShort(back);
      if counted {
        action := back;
        lastBackPress := now;
      }
      counted := menu.SettleMenu();
      if counted {
        action := ChangeMode;
      }
    }
  }
}
