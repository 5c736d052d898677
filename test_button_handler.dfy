/**
 * `test_button_handler.c`: the host-side variant of the button logic, driven by the pressed
 * state of the three buttons at each call. It acts on releases only: a forward or back
 * release of 1000 ms or more is a folder step in the folder modes, a shorter one a track
 * step, and a menu release always changes the mode. `unsigned long` is 64 bits wide here.
 */
module TestButtonHandler {
  import opened Esp
  import opened ButtonHandler
  import AudioPlayer

  const ULONG_LIMIT := 0x1_0000_0000_0000_0000
  /** The restart timeout of this variant, shorter than the firmware's 5000 ms; the long-press time is the same 1000 ms. */
  const HOST_RESTART_TIMEOUT_MS := 2000

  /** Unsigned `a - b` on `unsigned long`: modulo 2^64. */
  function Sub(a: nat, b: nat): (r: nat)
    ensures r < ULONG_LIMIT
    ensures b <= a < ULONG_LIMIT ==> r == a - b
  {
    (a - b) % ULONG_LIMIT
  }

  /** `button_state_t`. */
  datatype KeyState = KeyState(lastState: bool, pressedTime: nat, longHandled: bool)

  /** The four statics. */
  datatype Keys = Keys(fwd: KeyState, bck: KeyState, menu: KeyState, lastBack: nat)

  /** What one call leaves and returns. */
  datatype Answer = Answer(keys: Keys, action: ButtonAction)

  /** `{0}` for every state and a zero `last_back_press_time`. */
  function Cleared(): (k: Keys)
    ensures !k.fwd.lastState && !k.bck.lastState && !k.menu.lastState && k.lastBack == 0
  {
    var z := KeyState(false, 0, false);
    Keys(z, z, z, 0)
  }

  /** A press edge (pressed now, not before) records the time and clears the long-press flag. */
  function Press(s: KeyState, down: bool, now: nat): (r: KeyState)
    ensures down && !s.lastState ==> r.pressedTime == now && !r.longHandled
    ensures !(down && !s.lastState) ==> r == s
    ensures r.lastState == s.lastState
  {
    if down && !s.lastState then s.(pressedTime := now, longHandled := false) else s
  }

  /** A release edge: pressed before, not now. */
  predicate ReleaseEdge(s: KeyState, down: bool) {
    !down && s.lastState
  }

  /** The forward button's verdict, if it returns one. */
  function FwdVerdict(s: KeyState, down: bool, now: nat, mode: nat): Option<ButtonAction> {
    if !ReleaseEdge(s, down) then None
    else
      var d := Sub(now, s.pressedTime);
      if AudioPlayer.FolderMode(mode) && d >= LONGPRESS_MS then Some(NextFolder)
      else if d < LONGPRESS_MS then Some(Next)
      else None
  }

  /** The back button's verdict, if it returns one. */
  function BckVerdict(s: KeyState, down: bool, now: nat, mode: nat, lastBack: nat): Option<ButtonAction> {
    if !ReleaseEdge(s, down) then None
    else
      var d := Sub(now, s.pressedTime);
      if AudioPlayer.FolderMode(mode) && d >= LONGPRESS_MS then Some(PrevFolder)
      else if d < LONGPRESS_MS then Some(if Sub(now, lastBack) < HOST_RESTART_TIMEOUT_MS then Prev else RestartTrack)
      else None
  }

  /**
   * `test_button_handler_get_action`: the buttons are taken in the order forward, back,
   * menu, and the first one with a verdict returns it, leaving the later ones untouched.
   */
  function Respond(k: Keys, fwdDown: bool, bckDown: bool, menuDown: bool, now: nat, mode: nat, reset: bool): Answer {
    var s := if reset then Cleared() else k;
    var f := Press(s.fwd, fwdDown, now);
    match FwdVerdict(f, fwdDown, now, mode)
    case Some(a) => Answer(s.(fwd := f.(lastState := fwdDown)), a)
    case None =>
      var b := Press(s.bck, bckDown, now);
      match BckVerdict(b, bckDown, now, mode, s.lastBack)
      case Some(a) =>
        Answer(s.(fwd := f.(lastState := fwdDown), bck := b.(lastState := bckDown),
                  lastBack := if a == PrevFolder then s.lastBack else now), a)
      case None =>
        var m := Press(s.menu, menuDown, now);
        Answer(Keys(f.(lastState := fwdDown), b.(lastState := bckDown), m.(lastState := menuDown), s.lastBack),
               if ReleaseEdge(m, menuDown) then ChangeMode else NoAction)
  }

  /** With `reset_states` the call acts as on cleared statics, whatever they held. */
  lemma ResetClears(k: Keys, fwdDown: bool, bckDown: bool, menuDown: bool, now: nat, mode: nat)
    ensures Respond(k, fwdDown, bckDown, menuDown, now, mode, true) == Respond(Cleared(), fwdDown, bckDown, menuDown, now, mode, false)
  {
  }

  /**
   * A call with no release edge returns NONE, records every pressed state, and stamps the
   * time on each button whose press starts now.
   */
  lemma PressRecordsTime(k: Keys, fwdDown: bool, bckDown: bool, menuDown: bool, now: nat, mode: nat)
    requires !ReleaseEdge(k.fwd, fwdDown) && !ReleaseEdge(k.bck, bckDown) && !ReleaseEdge(k.menu, menuDown)
    ensures var r := Respond(k, fwdDown, bckDown, menuDown, now, mode, false);
      r.action == NoAction && r.keys.lastBack == k.lastBack
      && r.keys.fwd.lastState == fwdDown && r.keys.bck.lastState == bckDown && r.keys.menu.lastState == menuDown
      && (fwdDown && !k.fwd.lastState ==> r.keys.fwd.pressedTime == now)
      && (bckDown && !k.bck.lastState ==> r.keys.bck.pressedTime == now)
      && (menuDown && !k.menu.lastState ==> r.keys.menu.pressedTime == now)
  {
  }

  /**
   * A forward release under 1000 ms gives NEXT; one of 1000 ms or more gives NEXT_FOLDER in a
   * folder mode, and in the other modes leaves the call to the back and menu buttons.
   */
  lemma ForwardRelease(k: Keys, bckDown: bool, menuDown: bool, now: nat, mode: nat)
    requires ReleaseEdge(k.fwd, false)
    ensures var d := Sub(now, k.fwd.pressedTime); var r := Respond(k, false, bckDown, menuDown, now, mode, false);
      (d < LONGPRESS_MS ==> r.action == Next)
      && (d >= LONGPRESS_MS && AudioPlayer.FolderMode(mode) ==> r.action == NextFolder)
      && (d >= LONGPRESS_MS && !AudioPlayer.FolderMode(mode) ==>
            r == Respond(k.(fwd := k.fwd.(lastState := false)), false, bckDown, menuDown, now, mode, false))
  {
  }

  /**
   * When the forward button returns a verdict, nothing else changes: the back and menu
   * states keep their old `last_state`, even if those buttons changed.
   */
  lemma ForwardFirst(k: Keys, fwdDown: bool, bckDown: bool, menuDown: bool, now: nat, mode: nat)
    requires FwdVerdict(k.fwd, fwdDown, now, mode).Some?
    ensures var r := Respond(k, fwdDown, bckDown, menuDown, now, mode, false);
      r.keys == k.(fwd := k.fwd.(lastState := false)) && r.action in {Next, NextFolder}
  {
  }

  /**
   * A back release (with no forward verdict) of 1000 ms or more in a folder mode gives
   * PREV_FOLDER; a shorter one gives PREV within 2000 ms of the previous short one and
   * RESTART_TRACK otherwise, and always records the time.
   */
  lemma BackRelease(k: Keys, fwdDown: bool, menuDown: bool, now: nat, mode: nat)
    requires FwdVerdict(k.fwd, fwdDown, now, mode).None? && ReleaseEdge(k.bck, false)
    ensures var d := Sub(now, k.bck.pressedTime); var r := Respond(k, fwdDown, false, menuDown, now, mode, false);
      (d >= LONGPRESS_MS && AudioPlayer.FolderMode(mode) ==> r.action == PrevFolder && r.keys.lastBack == k.lastBack)
      && (d < LONGPRESS_MS ==>
            r.keys.lastBack == now && r.action == (if Sub(now, k.lastBack) < HOST_RESTART_TIMEOUT_MS then Prev else RestartTrack))
  {
  }

  /** A menu release with no forward or back verdict gives CHANGE_MODE, however long it lasted. */
  lemma MenuRelease(k: Keys, fwdDown: bool, bckDown: bool, now: nat, mode: nat)
    requires FwdVerdict(k.fwd, fwdDown, now, mode).None? && BckVerdict(k.bck, bckDown, now, mode, k.lastBack).None?
    requires ReleaseEdge(k.menu, false)
    ensures Respond(k, fwdDown, bckDown, false, now, mode, false).action == ChangeMode
  {
  }

  /** The forward tests: a 100 ms press gives NEXT; a 1200 ms press in folder order gives NEXT_FOLDER. */
  lemma ForwardScenarios()
    ensures var r1 := Respond(Cleared(), true, false, false, 1000, AudioPlayer.MODE_ALL_ORDER, true);
      r1.action == NoAction && Respond(r1.keys, false, false, false, 1100, AudioPlayer.MODE_ALL_ORDER, false).action == Next
    ensures var r1 := Respond(Cleared(), true, false, false, 2000, AudioPlayer.MODE_FOLDER_ORDER, true);
      r1.action == NoAction && Respond(r1.keys, false, false, false, 3200, AudioPlayer.MODE_FOLDER_ORDER, false).action == NextFolder
  {
  }

  /** The back test: two quick presses give PREV twice, and a press released 2800 ms after the last counted one gives RESTART_TRACK. */
  lemma BackScenario()
    ensures var m := AudioPlayer.MODE_ALL_ORDER;
      var r1 := Respond(Cleared(), false, true, false, 1000, m, true);
      var r2 := Respond(r1.keys, false, false, false, 1100, m, false);
      var r3 := Respond(r2.keys, false, true, false, 1200, m, false);
      var r4 := Respond(r3.keys, false, false, false, 1300, m, false);
      var r5 := Respond(r4.keys, false, true, false, 4000, m, false);
      var r6 := Respond(r5.keys, false, false, false, 4100, m, false);
      r1.action == NoAction && r2.action == Prev && r3.action == NoAction && r4.action == Prev
      && r5.action == NoAction && r6.action == RestartTrack
  {
  }

  /** The menu and folder-back tests. */
  lemma MenuAndFolderScenarios()
    ensures var r1 := Respond(Cleared(), false, false, true, 5000, AudioPlayer.MODE_ALL_ORDER, true);
      r1.action == NoAction && Respond(r1.keys, false, false, false, 5050, AudioPlayer.MODE_ALL_ORDER, false).action == ChangeMode
    ensures var r1 := Respond(Cleared(), false, true, false, 3000, AudioPlayer.MODE_FOLDER_SHUFFLE, true);
      r1.action == NoAction && Respond(r1.keys, false, false, false, 4500, AudioPlayer.MODE_FOLDER_SHUFFLE, false).action == PrevFolder
  {
  }

  /** The statics of the test file, updated by each call. */
  class Statics {
    var fwd: KeyState
    var bck: KeyState
    var menu: KeyState
    var lastBack: nat

    function State(): Keys
      reads this
    {
      Keys(fwd, bck, menu, lastBack)
    }

    constructor()
      ensures State() == Cleared()
    {
      var z := KeyState(false, 0, false);
      fwd, bck, menu, lastBack := z, z, z, 0;
    }

    /** `test_button_handler_get_action`. */
    method GetAction(fwdPressed: bool, bckPressed: bool, menuPressed: bool, now: nat, mode: nat, reset: bool)
      returns (action: ButtonAction)
      requires now < ULONG_LIMIT
      modifies this
      ensures Respond(old(State()), fwdPressed, bckPressed, menuPressed, now, mode, reset) == Answer(State(), action)
    {
      if reset {
        var z := KeyState(false, 0, false);
        fwd, bck, menu, lastBack := z, z, z, 0;
      }
      if fwdPressed && !fwd.lastState {
        fwd := fwd.(pressedTime := now, longHandled := false);
      }
      if !fwdPressed && fwd.lastState {
        var duration := Sub(now, fwd.pressedTime);
        if AudioPlayer.FolderMode(mode) && duration >= LONGPRESS_MS {
          fwd := fwd.(lastState := fwdPressed);
          return NextFolder;
        } else if duration < LONGPRESS_MS {
          fwd := fwd.(lastState := fwdPressed);
          return Next;
        }
      }
      fwd := fwd.(lastState := fwdPressed);

      if bckPressed && !bck.lastState {
        bck := bck.(pressedTime := now, longHandled := false);
      }
      if !bckPressed && bck.lastState {
        var duration := Sub(now, bck.pressedTime);
        if AudioPlayer.FolderMode(mode) && duration >= LONGPRESS_MS {
          bck := bck.(lastState := bckPressed);
          return PrevFolder;
        } else if duration < LONGPRESS_MS {
          if Sub(now, lastBack) < HOST_RESTART_TIMEOUT_MS {
            lastBack := now;
            bck := bck.(lastState := bckPressed);
            return Prev;
          } else {
            lastBack := now;
            bck := bck.(lastState := bckPressed);
            return RestartTrack;
          }
        }
      }
      bck := bck.(lastState := bckPressed);

      if menuPressed && !menu.lastState {
        menu := menu.(pressedTime := now, longHandled := false);
      }
      if !menuPressed && menu.lastState {
        menu := menu.(lastState := menuPressed);
        return ChangeMode;
      }
      menu := menu.(lastState := menuPressed);
      return NoAction;
    }
  }
}
