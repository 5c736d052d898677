/**
 * The `ezbutton` component: a polled, debounced button. `ezButton_loop` reads the pin and
 * the tick clock, accepts a level as steady once it has held for the debounce time, counts
 * steady changes by the count mode and stamps the start of each steady press; the queries
 * read the steady states, and `ezButton_isLongPressed` reports a held press once. Every
 * entry point accepts a NULL button. On the ESP32 `unsigned long` is 32 bits wide, so times
 * and the count wrap modulo 2^32. The pin level and the clock are parameters.
 */
module EzButton {
  import opened Esp

  const ULONG_LIMIT := 0x1_0000_0000

  const COUNT_FALLING := 0
  const COUNT_RISING := 1
  const COUNT_BOTH := 2

  const PULLUP := 1
  const PULLDOWN := 2

  /** What `gpio_get_level` returns. */
  type Level = x: int | 0 <= x <= 1

  /** An `unsigned long` value. */
  type ULong = x: int | 0 <= x < ULONG_LIMIT

  /** Unsigned `a - b`. */
  function Sub(a: ULong, b: ULong): (r: ULong)
    ensures b <= a ==> r == a - b
    ensures a < b ==> r == a - b + ULONG_LIMIT
  {
    (a - b) % ULONG_LIMIT
  }

  /** Unsigned `x + 1`. */
  function Inc(x: ULong): (r: ULong)
    ensures r != x
    ensures x + 1 < ULONG_LIMIT ==> r == x + 1
  {
    (x + 1) % ULONG_LIMIT
  }

  /** The fields of an `ezButton_t` other than its pin. */
  datatype Ez = Ez(debounceTime: ULong, longPressTime: ULong, count: ULong, countMode: int,
                   pressedState: Level, unpressedState: Level,
                   previousSteady: Level, lastSteady: Level, lastFlickerable: Level,
                   lastDebounceTime: ULong, pressStartTime: ULong, longDetected: bool)

  /** The pressed and unpressed levels are the two levels. */
  predicate Valid(s: Ez) {
    s.pressedState != s.unpressedState
  }

  /** The state `ezButton_create` sets up, with `level` read from the pin. */
  function Created(mode: int, level: Level): (s: Ez)
    ensures Valid(s)
    ensures mode == PULLUP ==> s.pressedState == 0 && s.unpressedState == 1
    ensures mode != PULLUP ==> s.pressedState == 1 && s.unpressedState == 0
    ensures s.previousSteady == s.lastSteady == s.lastFlickerable == level
    ensures s.debounceTime == 50 && s.longPressTime == 1000 && s.count == 0 && s.countMode == COUNT_FALLING
    ensures s.lastDebounceTime == 0 && s.pressStartTime == 0 && !s.longDetected
  {
    var pressed: Level := if mode == PULLUP then 0 else 1;
    Ez(50, 1000, 0, COUNT_FALLING, pressed, 1 - pressed, level, level, level, 0, 0, false)
  }

  /** Whether a steady change from `prev` to `last` adds to the count in `s`'s mode. */
  predicate Counts(s: Ez, prev: Level, last: Level) {
    s.countMode == COUNT_BOTH
    || (s.countMode == COUNT_FALLING && prev == s.unpressedState && last == s.pressedState)
    || (s.countMode == COUNT_RISING && prev == s.pressedState && last == s.unpressedState)
  }

  /** The debouncing part of `ezButton_loop`: a change of the raw level restarts the timer. */
  function Flicker(s: Ez, level: Level, now: ULong): Ez {
    if level != s.lastFlickerable then s.(lastDebounceTime := now, lastFlickerable := level) else s
  }

  /** A level accepted as steady after the debounce time, with the count and the press stamp. */
  function Steady(s: Ez, level: Level, now: ULong): Ez {
    var t := s.(previousSteady := s.lastSteady, lastSteady := level);
    var u := t.(count := if Counts(t, s.lastSteady, level) then Inc(s.count) else s.count);
    if level == s.pressedState then u.(pressStartTime := now, longDetected := false) else u
  }

  /** Whether the loop at `now` accepts `level` as a new steady state. */
  predicate Accepts(s: Ez, level: Level, now: ULong) {
    var f := Flicker(s, level, now);
    Sub(now, f.lastDebounceTime) >= f.debounceTime && f.lastSteady != level
  }

  /** One `ezButton_loop` on a button whose pin reads `level` at tick time `now`. */
  function LoopStep(s: Ez, level: Level, now: ULong): Ez {
    var f := Flicker(s, level, now);
    if Accepts(s, level, now) then Steady(f, level, now) else f
  }

  /** `ezButton_isPressed`: the last steady change went from unpressed to pressed. */
  predicate Pressed(s: Ez) {
    s.previousSteady == s.unpressedState && s.lastSteady == s.pressedState
  }

  /** `ezButton_isReleased`: the last steady change went from pressed to unpressed. */
  predicate Released(s: Ez) {
    s.previousSteady == s.pressedState && s.lastSteady == s.unpressedState
  }

  /** `ezButton_isLongPressed` at tick time `now`: the state after it and its answer. */
  datatype Asked = Asked(state: Ez, long: bool)

  function LongStep(s: Ez, now: ULong): (r: Asked) {
    if s.lastSteady == s.pressedState && !s.longDetected && Sub(now, s.pressStartTime) > s.longPressTime then
      Asked(s.(longDetected := true), true)
    else Asked(s, false)
  }

  /** The loop keeps the pressed and unpressed levels, and so the validity of the state. */
  lemma LoopKeepsValid(s: Ez, level: Level, now: ULong)
    requires Valid(s)
    ensures var r := LoopStep(s, level, now);
      Valid(r) && r.pressedState == s.pressedState && r.unpressedState == s.unpressedState
  {
  }

  /** A change of the raw level restarts the debounce timer and is remembered. */
  lemma FlickerRestartsTimer(s: Ez, level: Level, now: ULong)
    ensures level != s.lastFlickerable ==> LoopStep(s, level, now).lastDebounceTime == now
    ensures LoopStep(s, level, now).lastFlickerable == level
    ensures level == s.lastFlickerable ==> LoopStep(s, level, now).lastDebounceTime == s.lastDebounceTime
  {
  }

  /**
   * The steady state changes only once the raw level has held for the debounce time, and
   * then the old steady state becomes the previous one.
   */
  lemma SteadyAfterDebounce(s: Ez, level: Level, now: ULong)
    ensures var r := LoopStep(s, level, now);
      r.lastSteady != s.lastSteady <==> Sub(now, r.lastDebounceTime) >= s.debounceTime && s.lastSteady != level
    ensures var r := LoopStep(s, level, now);
      r.lastSteady != s.lastSteady ==> r.lastSteady == level && r.previousSteady == s.lastSteady
    ensures var r := LoopStep(s, level, now);
      r.lastSteady == s.lastSteady ==> r.previousSteady == s.previousSteady
  {
  }

  /**
   * The count goes up by one (modulo 2^32) exactly on a steady change: any change in BOTH
   * mode, unpressed to pressed in FALLING mode, pressed to unpressed in RISING mode.
   */
  lemma CountByMode(s: Ez, level: Level, now: ULong)
    requires Valid(s)
    ensures var r := LoopStep(s, level, now);
      var changed := r.lastSteady != s.lastSteady;
      (r.count == Inc(s.count) <==>
        changed && (s.countMode == COUNT_BOTH
                    || (s.countMode == COUNT_FALLING && level == s.pressedState)
                    || (s.countMode == COUNT_RISING && level == s.unpressedState)))
      && (r.count == s.count || r.count == Inc(s.count))
  {
  }

  /** A steady change to the pressed level stamps the press start and clears the long-press flag. */
  lemma PressStamped(s: Ez, level: Level, now: ULong)
    ensures var r := LoopStep(s, level, now);
      r.lastSteady != s.lastSteady && level == s.pressedState ==> r.pressStartTime == now && !r.longDetected
    ensures var r := LoopStep(s, level, now);
      !(r.lastSteady != s.lastSteady && level == s.pressedState) ==>
        r.pressStartTime == s.pressStartTime && r.longDetected == s.longDetected
  {
  }

  /** A button is never both pressed and released. */
  lemma PressedNotReleased(s: Ez)
    requires Valid(s)
    ensures !(Pressed(s) && Released(s))
  {
  }

  /** What happens to a button between two reads: a loop, or a long-press query. */
  datatype Event = Loop(level: Level, now: ULong) | Ask(now: ULong)

  /** How many queries answered true, and how many loops started a steady press. */
  datatype Tally = Tally(reports: nat, presses: nat)

  function Run(s: Ez, evs: seq<Event>): (t: Tally)
    decreases |evs|
  {
    if evs == [] then Tally(0, 0)
    else
      match evs[0]
      case Loop(level, now) =>
        var r := LoopStep(s, level, now);
        var rest := Run(r, evs[1..]);
        var press := r.lastSteady != s.lastSteady && level == s.pressedState;
        rest.(presses := rest.presses + if press then 1 else 0)
      case Ask(now) =>
        var q := LongStep(s, now);
        var rest := Run(q.state, evs[1..]);
        rest.(reports := rest.reports + if q.long then 1 else 0)
  }

  /**
   * `ezButton_isLongPressed` answers true at most once per steady press: over any run of
   * loops and queries, the true answers number at most the steady presses started, plus
   * one for a press that was under way and not yet reported.
   */
  lemma {:induction false} LongPressOncePerPress(s: Ez, evs: seq<Event>)
    ensures Run(s, evs).reports <= Run(s, evs).presses + (if s.longDetected then 0 else 1)
    decreases |evs|
  {
    if evs != [] {
      match evs[0]
      case Loop(level, now) =>
        var r := LoopStep(s, level, now);
        LongPressOncePerPress(r, evs[1..]);
        PressStamped(s, level, now);
      case Ask(now) =>
        var q := LongStep(s, now);
        LongPressOncePerPress(q.state, evs[1..]);
    }
  }

  /** An `ezButton_t`. */
  class Button {
    const pin: int
    var debounceTime: ULong
    var longPressTime: ULong
    var count: ULong
    var countMode: int
    var pressedState: Level
    var unpressedState: Level
    var previousSteady: Level
    var lastSteady: Level
    var lastFlickerable: Level
    var lastDebounceTime: ULong
    var pressStartTime: ULong
    var longDetected: bool

    function Value(): Ez
      reads this
    {
      Ez(debounceTime, longPressTime, count, countMode, pressedState, unpressedState,
         previousSteady, lastSteady, lastFlickerable, lastDebounceTime, pressStartTime, longDetected)
    }

    /** The field initialisation of `ezButton_create`. */
    constructor(pin: int, mode: int, level: Level)
      ensures this.pin == pin && Value() == Created(mode, level)
    {
      this.pin := pin;
      debounceTime := 50;
      count := 0;
      countMode := COUNT_FALLING;
      if mode == PULLUP {
        pressedState, unpressedState := 0, 1;
      } else {
        pressedState, unpressedState := 1, 0;
      }
      previousSteady := level;
      lastSteady := previousSteady;
      lastFlickerable := previousSteady;
      lastDebounceTime := 0;
      longPressTime := 1000;
      longDetected := false;
      pressStartTime := 0;
    }
  }

  /**
   * `ezButton_create`: NULL when the allocation fails or `gpio_config` returns `config`
   * other than ESP_OK; otherwise a new button in the state `Created(mode, level)`, where
   * `level` is what the pin reads.
   */
  method Create(pin: int, mode: int, config: ErrCode, level: Level) returns (b: Button?)
    ensures config != EspOk ==> b == null
    ensures b != null ==> fresh(b) && b.pin == pin && b.Value() == Created(mode, level)
  {
    var ok: bool :| true;
    if !ok {
      return null;
    }
    if config != EspOk {
      return null;
    }
    b := new Button(pin, mode, level);
  }

  /** `ezButton_setDebounceTime`. */
  method SetDebounceTime(b: Button?, time: ULong)
    modifies b
    ensures b != null ==> b.Value() == old(b.Value()).(debounceTime := time)
  {
    if b != null {
      b.debounceTime := time;
    }
  }

  /** `ezButton_setLongPressTime`. */
  method SetLongPressTime(b: Button?, time: ULong)
    modifies b
    ensures b != null ==> b.Value() == old(b.Value()).(longPressTime := time)
  {
    if b != null {
      b.longPressTime := time;
    }
  }

  /** `ezButton_setCountMode`: any value is stored; one other than the three modes counts nothing. */
  method SetCountMode(b: Button?, mode: int)
    modifies b
    ensures b != null ==> b.Value() == old(b.Value()).(countMode := mode)
  {
    if b != null {
      b.countMode := mode;
    }
  }

  /** `ezButton_resetCount`. */
  method ResetCount(b: Button?)
    modifies b
    ensures b != null ==> b.Value() == old(b.Value()).(count := 0)
  {
    if b != null {
      b.count := 0;
    }
  }

  /** `ezButton_getState`: the last steady level, or -1 for NULL. */
  function GetState(b: Button?): (r: int)
    reads b
    ensures b == null <==> r == -1
    ensures b != null ==> r == b.lastSteady
  {
    if b == null then -1 else b.lastSteady
  }

  /** `ezButton_getStateRaw`, with `level` the pin's level: -1 for NULL. */
  function GetStateRaw(b: Button?, level: Level): (r: int)
    ensures b == null <==> r == -1
    ensures b != null ==> r == level
  {
    if b == null then -1 else level
  }

  /** `ezButton_isPressed`: false for NULL. */
  function IsPressed(b: Button?): (r: bool)
    reads b
    ensures r <==> b != null && Pressed(b.Value())
  {
    b != null && b.previousSteady == b.unpressedState && b.lastSteady == b.pressedState
  }

  /** `ezButton_isReleased`: false for NULL. */
  function IsReleased(b: Button?): (r: bool)
    reads b
    ensures r <==> b != null && Released(b.Value())
  {
    b != null && b.previousSteady == b.pressedState && b.lastSteady == b.unpressedState
  }

  /** `ezButton_getCount`: 0 for NULL. */
  function GetCount(b: Button?): (r: ULong)
    reads b
    ensures b == null ==> r == 0
    ensures b != null ==> r == b.count
  {
    if b == null then 0 else b.count
  }

  /** `ezButton_isLongPressed` at tick time `now`: false for NULL. */
  method IsLongPressed(b: Button?, now: ULong) returns (long: bool)
    modifies b
    ensures b == null ==> !long
    ensures b != null ==> LongStep(old(b.Value()), now) == Asked(b.Value(), long)
  {
    if b == null {
      return false;
    }
    if b.lastSteady == b.pressedState {
      if !b.longDetected && Sub(now, b.pressStartTime) > b.longPressTime {
        b.longDetected := true;
        return true;
      }
    }
    return false;
  }

  /** `ezButton_loop` with the pin reading `level` at tick time `now`; nothing for NULL. */
  method Loop(b: Button?, level: Level, now: ULong)
    modifies b
    ensures b != null ==> b.Value() == LoopStep(old(b.Value()), level, now)
  {
    if b == null {
      return;
    }
    if level != b.lastFlickerable {
      b.lastDebounceTime := now;
      b.lastFlickerable := level;
    }
    if Sub(now, b.lastDebounceTime) >= b.debounceTime {
      if b.lastSteady != level {
        b.previousSteady := b.lastSteady;
        b.lastSteady := level;
        if b.countMode == COUNT_BOTH {
          b.count := Inc(b.count);
        } else if b.countMode == COUNT_FALLING {
          if b.previousSteady == b.unpressedState && b.lastSteady == b.pressedState {
            b.count := Inc(b.count);
          }
        } else if b.countMode == COUNT_RISING {
          if b.previousSteady == b.pressedState && b.lastSteady == b.unpressedState {
            b.count := Inc(b.count);
          }
        }
        if b.lastSteady == b.pressedState {
          b.pressStartTime := now;
          b.longDetected := false;
        }
      }
    }
  }
}
