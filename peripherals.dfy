/** `PeripheralsManager` and `SelectorSwitch.get_selected_mode` of
    `src/models/peripherals.py`. The manager holds a registry, fixed when it
    is built, from peripheral names to peripheral objects and forwards reads
    and writes to them. A peripheral is reduced to what its `read_data`
    currently returns and the data written to it so far. */
module Peripherals {
  import opened Common

  /** `PeripheralName`. */
  datatype PeripheralName = StartButton | SelectorSwitch | OledDisplay

  /** The robot's running modes. */
  datatype Mode = Running | Optimization | Idle

  /** What a peripheral's `read_data` returns: the selector switch's pin
      triple (normal, optimization, idle), the start button's level, or
      `None`. */
  datatype Reading = Pins(normal: int, optimization: int, idle: int) | Level(level: int) | Nothing

  /** `pins_to_mode_mapper`: the mode each selector pin stands for. */
  datatype PinModes = PinModes(normal: Mode, optimization: Mode, idle: Mode)

  /** The default mapper of `SelectorSwitchParameters`. As written it sends
      the optimization pin to the idle mode and the idle pin to the
      optimization mode. */
  const DefaultPinModes := PinModes(Running, Idle, Optimization)

  class Peripheral {
    /** What `read_data` returns at this moment. */
    var reading: Reading
    /** Everything `write_data` has been given, oldest first. */
    var written: seq<string>
    /** The mapper of a selector switch; other peripherals do not use it. */
    const modes: PinModes

    constructor (reading: Reading, modes: PinModes)
      ensures this.reading == reading && written == [] && this.modes == modes
    {
      this.reading := reading;
      written := [];
      this.modes := modes;
    }

    /** The peripheral's own `write_data`. */
    method Write(data: string)
      modifies this
      ensures written == old(written) + [data] && reading == old(reading)
    {
      written := written + [data];
    }
  }

  /** `get_selected_mode` over the pins the switch reads: the normal pin
      wins, then the optimization pin, then the idle pin; with no pin at 1
      there is no mode. */
  function SelectedMode(normal: int, optimization: int, idle: int, modes: PinModes): (r: Option<Mode>)
    ensures r.None? <==> normal != 1 && optimization != 1 && idle != 1
    ensures r.Some? ==>
              (normal == 1 && r.value == modes.normal) ||
              (normal != 1 && optimization == 1 && r.value == modes.optimization) ||
              (normal != 1 && optimization != 1 && idle == 1 && r.value == modes.idle)
  {
    if normal == 1 then Some(modes.normal)
    else if optimization == 1 then Some(modes.optimization)
    else if idle == 1 then Some(modes.idle)
    else None
  }

  /** A pin at 1 decides the mode whatever the lower-priority pins read. */
  lemma HigherPinWins(normal: int, optimization: int, idle: int, optimization': int, idle': int, modes: PinModes)
    ensures normal == 1 ==>
              SelectedMode(normal, optimization, idle, modes) == SelectedMode(normal, optimization', idle', modes)
    ensures normal != 1 && optimization == 1 ==>
              SelectedMode(normal, optimization, idle, modes) == SelectedMode(normal, optimization, idle', modes)
  {
  }

  /** With the default mapper: the normal pin selects the running mode, the
      optimization pin alone selects the idle mode and the idle pin alone the
      optimization mode. */
  lemma DefaultMapperAsWritten(normal: int, optimization: int, idle: int)
    ensures normal == 1 ==> SelectedMode(normal, optimization, idle, DefaultPinModes) == Some(Running)
    ensures normal != 1 && optimization == 1 ==> SelectedMode(normal, optimization, idle, DefaultPinModes) == Some(Idle)
    ensures normal != 1 && optimization != 1 && idle == 1 ==>
              SelectedMode(normal, optimization, idle, DefaultPinModes) == Some(Optimization)
  {
  }

  /** `selector_switch.get_selected_mode()`: unpacking a reading that is not
      a pin triple raises TypeError. */
  function SwitchMode(switch: Peripheral): (r: Result<Option<Mode>>)
    reads switch
    ensures r.Ok? <==> switch.reading.Pins?
    ensures r.Err? ==> r.error == TypeError
    ensures r.Ok? ==>
              r.value == SelectedMode(switch.reading.normal, switch.reading.optimization, switch.reading.idle, switch.modes)
  {
    match switch.reading
    case Pins(n, o, i) => Ok(SelectedMode(n, o, i, switch.modes))
    case _ => Err(TypeError)
  }

  class PeripheralsManager {
    /** `_peripherals`, set once by `__init__`. */
    const peripherals: map<PeripheralName, Peripheral>
    /** The registry's keys in insertion order, as the dictionary keeps them. */
    const order: seq<PeripheralName>

    /** `order` lists every registered name exactly once. */
    ghost predicate Valid()
    {
      (forall i, j :: 0 <= i < j < |order| ==> order[i] != order[j]) &&
      (forall n :: n in order <==> n in peripherals)
    }

    constructor (order: seq<PeripheralName>, peripherals: map<PeripheralName, Peripheral>)
      requires forall i, j :: 0 <= i < j < |order| ==> order[i] != order[j]
      requires forall n :: n in order <==> n in peripherals
      ensures Valid()
      ensures this.peripherals == peripherals && this.order == order
    {
      this.peripherals := peripherals;
      this.order := order;
    }

    /** `read_data(name)`: the named peripheral's reading; an unregistered
        name raises ValueError. */
    function ReadData(name: PeripheralName): (r: Result<Reading>)
      reads peripherals.Values
      ensures r.Ok? <==> name in peripherals
      ensures r.Err? ==> r.error == ValueError
      ensures name in peripherals ==> r.value == peripherals[name].reading
    {
      if name !in peripherals then Err(ValueError) else Ok(peripherals[name].reading)
    }

    /** `get_peripheral(name)`: exactly the registered object; an
        unregistered name raises ValueError. */
    function GetPeripheral(name: PeripheralName): (r: Result<Peripheral>)
      ensures r.Ok? <==> name in peripherals
      ensures r.Err? ==> r.error == ValueError
      ensures r.Ok? ==> r.value in peripherals.Values && r.value == peripherals[name]
    {
      if name !in peripherals then Err(ValueError) else Ok(peripherals[name])
    }

    /** `get_registered_peripherals_names()`: every registered name, once
        each, and nothing else. */
    function RegisteredNames(): (r: seq<PeripheralName>)
      requires Valid()
      ensures |r| == |peripherals|
      ensures forall n :: n in r <==> n in peripherals
      ensures forall i, j :: 0 <= i < j < |r| ==> r[i] != r[j]
    {
      DistinctCount(order, peripherals.Keys);
      order
    }

    /** `write_data(name, data)`: the named peripheral receives the data and
        nothing else changes; an unregistered name raises ValueError and no
        peripheral receives anything. */
    method WriteData(name: PeripheralName, data: string) returns (r: Result<()>)
      modifies peripherals.Values
      ensures r.Ok? <==> name in peripherals
      ensures r.Err? ==> r.error == ValueError
      ensures forall p :: p in peripherals.Values ==> p.reading == old(p.reading)
      ensures forall p :: p in peripherals.Values ==>
                p.written == old(p.written) + (if name in peripherals && p == peripherals[name] then [data] else [])
    {
      if name !in peripherals {
        return Err(ValueError);
      }
      peripherals[name].Write(data);
      return Ok(());
    }
  }

  /** Reading through the manager is reading the object `get_peripheral`
      returns, and both reject the same names. */
  lemma ReadThroughGetPeripheral(m: PeripheralsManager, name: PeripheralName)
    ensures m.ReadData(name).Ok? <==> m.GetPeripheral(name).Ok?
    ensures m.GetPeripheral(name).Ok? ==> m.ReadData(name).value == m.GetPeripheral(name).value.reading
    ensures m.GetPeripheral(name).Err? ==> m.ReadData(name) == Err(ValueError)
  {
  }

  /** A sequence without repetitions whose elements are exactly a set has
      that set's size. */
  lemma {:induction false} DistinctCount<T>(s: seq<T>, elements: set<T>)
    requires forall i, j :: 0 <= i < j < |s| ==> s[i] != s[j]
    requires forall x :: x in s <==> x in elements
    ensures |s| == |elements|
    decreases |s|
  {
    if s != [] {
      var last := s[|s| - 1];
      var front := s[..|s| - 1];
      assert forall x :: x in front <==> x in elements - {last} by {
        forall x
          ensures x in front <==> x in elements - {last}
        {
          if x in front {
            var i :| 0 <= i < |front| && front[i] == x;
            assert s[i] == x;
          }
          if x in s && x != last {
            var i :| 0 <= i < |s| && s[i] == x;
            assert front[i] == x;
          }
        }
      }
      DistinctCount(front, elements - {last});
    } else {
      assert forall x :: x !in elements;
      assert elements == {};
    }
  }
}
