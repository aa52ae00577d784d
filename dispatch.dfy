/** `select_optimizer` of `src/utils/utils_funcs.py`: a three-way dispatch on
    the optimiser name that gathers the constructor arguments from the
    configuration. The constructors are not called here; the result is the
    tagged argument record the chosen branch builds. */
module Dispatch {
  import opened Common
  import opened Text
  import opened Configs
  import opened Evaluation

  datatype OptimizerKind = BO | DE

  /** A named `(lower, upper)` pair of configuration values. */
  type NamedBounds = seq<(string, (ConfigValue, ConfigValue))>

  /** The keyword arguments both branches pass to their optimiser. */
  datatype OptimizerArgs = OptimizerArgs(
    parametersBounds: NamedBounds,
    constraint: NamedBounds,
    nIter: ConfigValue,
    experimentTotalRunTime: ConfigValue,
    experimentValuesDumpRate: int,
    setPoint: ConfigValue,
    selectedInitState: ConfigValue,
    objectiveValueLimitEarlyStop: int,
    selectedConfig: ConfigValue)

  /** The optimiser chosen and the arguments it is constructed with. */
  datatype Selection = Selection(kind: OptimizerKind, args: OptimizerArgs)

  const DumpRate: int := 100
  const EarlyStopLimit: int := 2500

  /** A reader of configuration names; `select_optimizer` uses `get_config`
      over the loaded configuration. */
  type Reader = string -> Result<ConfigValue>

  function ConfigReader(cfg: Config): Reader
  {
    name => GetConfig(cfg, name)
  }

  /** The dotted name `section.key`. */
  function Dotted(section: string, key: string): string
  {
    section + "." + key
  }

  /** `(get_config(lower), get_config(upper))`, looked up in that order. */
  function BoundPair(get: Reader, lower: string, upper: string): (r: Result<(ConfigValue, ConfigValue)>)
    ensures r.Ok? <==> get(lower).Ok? && get(upper).Ok?
    ensures r.Ok? ==> r.value == (get(lower).value, get(upper).value)
    ensures r.Err? ==> r.error == (if get(lower).Err? then get(lower).error else get(upper).error)
  {
    var lo :- get(lower);
    var hi :- get(upper);
    Ok((lo, hi))
  }

  /** `parameters_bounds`: the lower and upper bound of each gain, read as
      `parameters_bounds.<gain>_lower_bound` and `..._upper_bound`. */
  function GainBounds(get: Reader): (r: Result<NamedBounds>)
    ensures r.Ok? ==> |r.value| == 3 && r.value[0].0 == "Kp" && r.value[1].0 == "Ki" && r.value[2].0 == "Kd"
  {
    var kp :- BoundPair(get, Dotted("parameters_bounds", "kp_lower_bound"), Dotted("parameters_bounds", "kp_upper_bound"));
    var ki :- BoundPair(get, Dotted("parameters_bounds", "ki_lower_bound"), Dotted("parameters_bounds", "ki_upper_bound"));
    var kd :- BoundPair(get, Dotted("parameters_bounds", "kd_lower_bound"), Dotted("parameters_bounds", "kd_upper_bound"));
    Ok([("Kp", kp), ("Ki", ki), ("Kd", kd)])
  }

  /** `constraint`: the overshoot bounds, then the rise-time bounds, read
      from the `constraint` section. */
  function ConstraintBounds(get: Reader): (r: Result<NamedBounds>)
    ensures r.Ok? ==> |r.value| == 2 && r.value[0].0 == "overshoot" && r.value[1].0 == "risetime"
  {
    var overshoot :- BoundPair(get, Dotted("constraint", "overshoot_lower_bound"), Dotted("constraint", "overshoot_upper_bound"));
    var riseTime :- BoundPair(get, Dotted("constraint", "rise_time_lower_bound"), Dotted("constraint", "rise_time_upper_bound"));
    Ok([("overshoot", overshoot), ("risetime", riseTime)])
  }

  /** The argument record both branches build, with the lookups in the order
      Python evaluates them; the first failing lookup's exception is raised. */
  function BuildArgs(get: Reader, setPoint: ConfigValue): (r: Result<OptimizerArgs>)
    ensures r.Ok? <==>
              GainBounds(get).Ok? && ConstraintBounds(get).Ok? &&
              get("n_iterations").Ok? && get("experiment_total_run_time").Ok? &&
              get("init_state").Ok? && get("configuration").Ok?
    ensures r.Err? ==>
              r.error ==
                (if GainBounds(get).Err? then GainBounds(get).error
                 else if ConstraintBounds(get).Err? then ConstraintBounds(get).error
                 else if get("n_iterations").Err? then get("n_iterations").error
                 else if get("experiment_total_run_time").Err? then get("experiment_total_run_time").error
                 else if get("init_state").Err? then get("init_state").error
                 else get("configuration").error)
    ensures r.Ok? ==>
              r.value.nIter == get("n_iterations").value &&
              r.value.experimentTotalRunTime == get("experiment_total_run_time").value &&
              r.value.selectedInitState == get("init_state").value &&
              r.value.selectedConfig == get("configuration").value
    ensures r.Ok? ==>
              GainBounds(get).Ok? && r.value.parametersBounds == GainBounds(get).value &&
              ConstraintBounds(get).Ok? && r.value.constraint == ConstraintBounds(get).value &&
              r.value.experimentValuesDumpRate == 100 && r.value.objectiveValueLimitEarlyStop == 2500 &&
              r.value.setPoint == setPoint &&
              |r.value.parametersBounds| == 3 && r.value.parametersBounds[0].0 == "Kp" &&
              r.value.parametersBounds[1].0 == "Ki" && r.value.parametersBounds[2].0 == "Kd" &&
              |r.value.constraint| == 2 && r.value.constraint[0].0 == "overshoot" && r.value.constraint[1].0 == "risetime"
  {
    var gains := GainBounds(get);
    var constraint := ConstraintBounds(get);
    var nIter := get("n_iterations");
    var runTime := get("experiment_total_run_time");
    var initState := get("init_state");
    var selectedConfig := get("configuration");
    if gains.Err? then Err(gains.error)
    else if constraint.Err? then Err(constraint.error)
    else if nIter.Err? then Err(nIter.error)
    else if runTime.Err? then Err(runTime.error)
    else if initState.Err? then Err(initState.error)
    else if selectedConfig.Err? then Err(selectedConfig.error)
    else
      Ok(OptimizerArgs(gains.value, constraint.value, nIter.value, runTime.value, DumpRate, setPoint,
                       initState.value, EarlyStopLimit, selectedConfig.value))
  }

  /** `select_optimizer(name)`: the set point is read before the name is
      examined; "BO" and "DE" build their arguments, anything else raises
      ValueError. */
  function SelectOptimizer(name: string, cfg: Config): (r: Result<Selection>)
    ensures r.Ok? ==> name == "BO" || name == "DE"
    ensures r.Ok? ==> (r.value.kind == BO <==> name == "BO")
    ensures r.Ok? ==>
              GainBounds(ConfigReader(cfg)).Ok? && r.value.args.parametersBounds == GainBounds(ConfigReader(cfg)).value &&
              ConstraintBounds(ConfigReader(cfg)).Ok? && r.value.args.constraint == ConstraintBounds(ConfigReader(cfg)).value
  {
    var setPoint :- GetConfig(cfg, "setpoint");
    if name == "BO" || name == "DE" then
      var args :- BuildArgs(ConfigReader(cfg), setPoint);
      Ok(Selection(if name == "BO" then BO else DE, args))
    else Err(ValueError)
  }

  /** `select_optimizer` in terms of the set point lookup and the argument
      record. */
  lemma SelectOptimizerUnfold(name: string, cfg: Config)
    ensures var setPoint := GetConfig(cfg, "setpoint");
            var args := if setPoint.Ok? then BuildArgs(ConfigReader(cfg), setPoint.value) else Err(KeyError);
            SelectOptimizer(name, cfg) ==
              if setPoint.Err? then Err(setPoint.error)
              else if name != "BO" && name != "DE" then Err(ValueError)
              else if args.Err? then Err(args.error)
              else Ok(Selection(if name == "BO" then BO else DE, args.value))
  {
  }

  /** The dispatch: a missing set point raises KeyError whatever the name;
      with it present, any name other than "BO" or "DE" raises ValueError,
      and the two accepted names build the same arguments apart from the
      tag. */
  lemma SelectOptimizerDispatch(name: string, cfg: Config)
    ensures "setpoint" !in cfg ==> SelectOptimizer(name, cfg) == Err(KeyError)
    ensures "setpoint" in cfg && name != "BO" && name != "DE" ==> SelectOptimizer(name, cfg) == Err(ValueError)
    ensures SelectOptimizer("BO", cfg).Ok? <==> SelectOptimizer("DE", cfg).Ok?
    ensures SelectOptimizer("BO", cfg).Ok? ==>
              SelectOptimizer("DE", cfg).value.args == SelectOptimizer("BO", cfg).value.args
    ensures SelectOptimizer("BO", cfg).Err? && "setpoint" in cfg ==>
              SelectOptimizer("BO", cfg) == SelectOptimizer("DE", cfg)
  {
    assert '.' !in "setpoint";
    SelectOptimizerUnfold(name, cfg);
    SelectOptimizerUnfold("BO", cfg);
    SelectOptimizerUnfold("DE", cfg);
  }

  /** `section.key` through the configuration reader is the key inside the
      section (KeyError for a missing section or key, TypeError when the
      section is not a mapping). */
  lemma SectionThroughReader(cfg: Config, section: string, key: string)
    requires '.' !in section && '.' !in key
    ensures ConfigReader(cfg)(Dotted(section, key)) == if section in cfg then Subscript(cfg[section], key) else Err(KeyError)
  {
    SectionKey(cfg, section, key);
  }

  /** The gain bounds come from the `parameters_bounds` section: they are
      read exactly when the section is a mapping holding all six keys, and
      they are its entries. */
  lemma GainBoundsFromSection(cfg: Config)
    requires "parameters_bounds" in cfg && cfg["parameters_bounds"].Section?
    ensures var s := cfg["parameters_bounds"].entries;
            var r := GainBounds(ConfigReader(cfg));
            (r.Ok? <==> "kp_lower_bound" in s && "kp_upper_bound" in s && "ki_lower_bound" in s &&
                        "ki_upper_bound" in s && "kd_lower_bound" in s && "kd_upper_bound" in s) &&
            (r.Ok? ==> r.value == [("Kp", (s["kp_lower_bound"], s["kp_upper_bound"])),
                                   ("Ki", (s["ki_lower_bound"], s["ki_upper_bound"])),
                                   ("Kd", (s["kd_lower_bound"], s["kd_upper_bound"]))]) &&
            (r.Err? ==> r.error == KeyError)
  {
    var sec := "parameters_bounds";
    SectionThroughReader(cfg, sec, "kp_lower_bound");
    SectionThroughReader(cfg, sec, "kp_upper_bound");
    SectionThroughReader(cfg, sec, "ki_lower_bound");
    SectionThroughReader(cfg, sec, "ki_upper_bound");
    SectionThroughReader(cfg, sec, "kd_lower_bound");
    SectionThroughReader(cfg, sec, "kd_upper_bound");
  }

  /** A configuration number as a float. */
  function Number(v: ConfigValue): Option<real>
  {
    match v
    case Int(i) => Some(i as real)
    case Real(x) => Some(x)
    case _ => None
  }

  /** Both bounds of a named pair are numbers. */
  predicate Numeric(p: (string, (ConfigValue, ConfigValue)))
  {
    Number(p.1.0).Some? && Number(p.1.1).Some?
  }

  /** The constraint mapping the optimiser receives: defined exactly when
      every bound is a number, and then the same names with those numbers. */
  function ToConstraintMap(c: NamedBounds): (r: Option<ConstraintMap>)
    ensures r.Some? <==> forall i :: 0 <= i < |c| ==> Numeric(c[i])
    ensures r.Some? ==>
              |r.value| == |c| &&
              forall i :: 0 <= i < |c| ==> r.value[i] == (c[i].0, (Number(c[i].1.0).value, Number(c[i].1.1).value))
  {
    if c == [] then Some([])
    else
      var rest := ToConstraintMap(c[1..]);
      if Numeric(c[0]) && rest.Some? then
        Some([(c[0].0, (Number(c[0].1.0).value, Number(c[0].1.1).value))] + rest.value)
      else None
  }

  /** The constraint bounds come from the `constraint` section: they are
      read exactly when the section is a mapping holding all four keys, and
      they are its entries, overshoot first. */
  lemma ConstraintBoundsFromSection(cfg: Config)
    requires "constraint" in cfg && cfg["constraint"].Section?
    ensures var s := cfg["constraint"].entries;
            var r := ConstraintBounds(ConfigReader(cfg));
            (r.Ok? <==> "overshoot_lower_bound" in s && "overshoot_upper_bound" in s &&
                        "rise_time_lower_bound" in s && "rise_time_upper_bound" in s) &&
            (r.Ok? ==> r.value == [("overshoot", (s["overshoot_lower_bound"], s["overshoot_upper_bound"])),
                                   ("risetime", (s["rise_time_lower_bound"], s["rise_time_upper_bound"]))]) &&
            (r.Err? ==> r.error == KeyError)
  {
    var sec := "constraint";
    SectionThroughReader(cfg, sec, "overshoot_lower_bound");
    SectionThroughReader(cfg, sec, "overshoot_upper_bound");
    SectionThroughReader(cfg, sec, "rise_time_lower_bound");
    SectionThroughReader(cfg, sec, "rise_time_upper_bound");
  }

  /** Two named bound pairs become the lower vector and the upper vector, in
      their order, when all four bounds are numbers. */
  lemma TwoBoundVectors(a: string, alo: ConfigValue, ahi: ConfigValue, b: string, blo: ConfigValue, bhi: ConfigValue)
    ensures var v := ConstraintBoundVectors(ToConstraintMap([(a, (alo, ahi)), (b, (blo, bhi))]));
            (v.Ok? <==> Number(alo).Some? && Number(ahi).Some? && Number(blo).Some? && Number(bhi).Some?) &&
            (v.Ok? ==> v.value == ([Number(alo).value, Number(blo).value], [Number(ahi).value, Number(bhi).value]))
  {
    var c := [(a, (alo, ahi)), (b, (blo, bhi))];
    assert Numeric(c[0]) && Numeric(c[1]) ==> forall i :: 0 <= i < |c| ==> Numeric(c[i]);
    var v := ConstraintBoundVectors(ToConstraintMap(c));
    if v.Ok? {
      var m := ToConstraintMap(c).value;
      assert v.value.0 == [m[0].1.0, m[1].1.0];
      assert v.value.1 == [m[0].1.1, m[1].1.1];
    }
  }

  /** End to end: with numeric bounds in the `constraint` section, the bound
      vectors an optimiser builds from the selected arguments are the
      overshoot and rise-time lower bounds, and the overshoot and rise-time
      upper bounds, in that order. */
  lemma ConstraintVectorsFollowSelection(name: string, cfg: Config)
    requires SelectOptimizer(name, cfg).Ok?
    requires "constraint" in cfg && cfg["constraint"].Section?
    ensures var s := cfg["constraint"].entries;
            var v := ConstraintBoundVectors(ToConstraintMap(SelectOptimizer(name, cfg).value.args.constraint));
            "overshoot_lower_bound" in s && "overshoot_upper_bound" in s &&
            "rise_time_lower_bound" in s && "rise_time_upper_bound" in s &&
            (v.Ok? <==> Number(s["overshoot_lower_bound"]).Some? && Number(s["overshoot_upper_bound"]).Some? &&
                        Number(s["rise_time_lower_bound"]).Some? && Number(s["rise_time_upper_bound"]).Some?) &&
            (v.Ok? ==>
               v.value.0 == [Number(s["overshoot_lower_bound"]).value, Number(s["rise_time_lower_bound"]).value] &&
               v.value.1 == [Number(s["overshoot_upper_bound"]).value, Number(s["rise_time_upper_bound"]).value])
  {
    var s := cfg["constraint"].entries;
    var cb := ConstraintBounds(ConfigReader(cfg));
    assert cb.Ok? && SelectOptimizer(name, cfg).value.args.constraint == cb.value;
    ConstraintBoundsFromSection(cfg);
    assert "overshoot_lower_bound" in s && "overshoot_upper_bound" in s &&
           "rise_time_lower_bound" in s && "rise_time_upper_bound" in s;
    TwoBoundVectors("overshoot", s["overshoot_lower_bound"], s["overshoot_upper_bound"],
                    "risetime", s["rise_time_lower_bound"], s["rise_time_upper_bound"]);
  }
}
