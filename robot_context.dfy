/** `RobotContext` of `src/robot_context.py`: the current running mode and
    the transitions between modes. A mode's `enter`, `exit` and `execute`
    only log, so each call is recorded as an event in the context's log. */
module Robot {
  import opened Common
  import opened Peripherals

  /** One call into a mode object. */
  datatype Event = Enter(mode: Mode) | Exit(mode: Mode) | Execute(mode: Mode)

  /** The mode a log leaves active, replayed one event at a time: a mode is
      entered only when none is active, and only the active mode is exited or
      executed. `None` marks a log that breaks these rules. */
  function Step(active: Option<Option<Mode>>, e: Event): Option<Option<Mode>>
  {
    match active
    case None => None
    case Some(current) =>
      match e
      case Enter(m) => if current.None? then Some(Some(m)) else None
      case Exit(m) => if current == Some(m) then Some(Option.None) else None
      case Execute(m) => if current == Some(m) then active else None
  }

  function Replay(log: seq<Event>): Option<Option<Mode>>
  {
    if log == [] then Some(Option.None) else Step(Replay(log[..|log| - 1]), log[|log| - 1])
  }

  lemma ReplaySnoc(log: seq<Event>, e: Event)
    ensures Replay(log + [e]) == Step(Replay(log), e)
  {
    assert (log + [e])[..|log|] == log;
  }

  function EnterCount(log: seq<Event>): nat
  {
    if log == [] then 0 else EnterCount(log[..|log| - 1]) + (if log[|log| - 1].Enter? then 1 else 0)
  }

  function ExitCount(log: seq<Event>): nat
  {
    if log == [] then 0 else ExitCount(log[..|log| - 1]) + (if log[|log| - 1].Exit? then 1 else 0)
  }

  /** In a log that follows the rules, every mode that was entered has been
      exited except the active one: enters and exits differ by one exactly
      when a mode is active. */
  lemma {:induction false} EntersMatchExits(log: seq<Event>)
    requires Replay(log).Some?
    ensures EnterCount(log) == ExitCount(log) + (if Replay(log).value.Some? then 1 else 0)
    decreases |log|
  {
    if log != [] {
      var front := log[..|log| - 1];
      assert Replay(log) == Step(Replay(front), log[|log| - 1]);
      EntersMatchExits(front);
    }
  }

  class RobotContext {
    var currentMode: Option<Mode>
    /** The calls made into mode objects, oldest first. */
    var log: seq<Event>
    const manager: PeripheralsManager

    /** Replaying the log leaves exactly the current mode active. */
    ghost predicate Valid()
      reads this
    {
      Replay(log) == Some(currentMode)
    }

    /** `__init__`: no mode is set. */
    constructor (manager: PeripheralsManager)
      ensures Valid()
      ensures currentMode == Option.None && log == [] && this.manager == manager
    {
      currentMode := Option.None;
      log := [];
      this.manager := manager;
    }

    /** `set_mode(mode)`: exit the previous mode when there is one, then
        enter the new mode, which becomes current. */
    method SetMode(mode: Mode)
      requires Valid()
      modifies this
      ensures Valid()
      ensures currentMode == Some(mode)
      ensures log == old(log) + (if old(currentMode).Some? then [Exit(old(currentMode).value)] else []) + [Enter(mode)]
    {
      var exited := if currentMode.Some? then [Exit(currentMode.value)] else [];
      if currentMode.Some? {
        ReplaySnoc(log, Exit(currentMode.value));
      } else {
        assert log + exited == log;
      }
      assert Replay(log + exited) == Some(Option.None);
      ReplaySnoc(log + exited, Enter(mode));
      log := log + exited + [Enter(mode)];
      currentMode := Some(mode);
    }

    /** `get_mode()`: the current mode, as the last `set_mode` left it. */
    method GetMode() returns (m: Option<Mode>)
      requires Valid()
      ensures m == currentMode && Replay(log) == Some(m)
    {
      m := currentMode;
    }

    /** `run_mode()`: execute the current mode once; without a mode nothing
        happens. */
    method RunMode()
      requires Valid()
      modifies this`log
      ensures Valid()
      ensures log == old(log) + (if currentMode.Some? then [Execute(currentMode.value)] else [])
    {
      if currentMode.Some? {
        ReplaySnoc(log, Execute(currentMode.value));
        log := log + [Execute(currentMode.value)];
      }
    }

    /** `_check_if_mode_changed()`: whether the selector switch selects the
        same kind of mode as the current one (no mode on both sides also
        counts as the same). A missing switch raises ValueError and a switch
        that does not read a pin triple raises TypeError. */
    method CheckIfModeChanged() returns (r: Result<bool>)
      ensures r.Ok? <==>
                SelectorSwitch in manager.peripherals && SwitchMode(manager.peripherals[SelectorSwitch]).Ok?
      ensures r.Err? ==> r.error == (if SelectorSwitch in manager.peripherals then TypeError else ValueError)
      ensures r.Ok? ==>
                (r.value <==> SwitchMode(manager.peripherals[SelectorSwitch]).value == currentMode)
    {
      var switch :- manager.GetPeripheral(SelectorSwitch);
      var selected :- SwitchMode(switch);
      return Ok(selected == currentMode);
    }

    /** `_check_start_button()`: run the current mode when the start button
        reads 1; a missing button raises ValueError. */
    method CheckStartButton() returns (r: Result<()>)
      requires Valid()
      modifies this`log
      ensures Valid()
      ensures r.Ok? <==> StartButton in manager.peripherals
      ensures r.Err? ==> r.error == ValueError
      ensures log == old(log) + (if Pressed(manager, currentMode) then [Execute(currentMode.value)] else [])
    {
      var state :- manager.ReadData(StartButton);
      if state == Level(1) {
        RunMode();
      }
      return Ok(());
    }

    /** `update()`: the mode check, then the button check. The current mode
        never changes; the mode runs when both checks get through and the
        button reads 1. */
    method Update() returns (r: Result<()>)
      requires Valid()
      modifies this`log
      ensures Valid()
      ensures currentMode == old(currentMode)
      ensures r.Ok? <==>
                SelectorSwitch in manager.peripherals && SwitchMode(manager.peripherals[SelectorSwitch]).Ok? &&
                StartButton in manager.peripherals
      ensures log == old(log) +
                (if SelectorSwitch in manager.peripherals && SwitchMode(manager.peripherals[SelectorSwitch]).Ok? &&
                    Pressed(manager, currentMode)
                 then [Execute(currentMode.value)] else [])
    {
      var changed :- CheckIfModeChanged();
      r := CheckStartButton();
    }
  }

  /** The start button reads 1 and there is a mode to run. */
  predicate Pressed(manager: PeripheralsManager, current: Option<Mode>)
    reads manager.peripherals.Values
  {
    manager.ReadData(StartButton) == Ok(Level(1)) && current.Some?
  }
}
