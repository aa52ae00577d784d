/** `DifferentialEvolutionOptimizer` of `src/optimizers/differential_evolution.py`:
    a session that owns the serial link, a trial counter, the experiment
    counter, an append-only table of trial rows and the memo cache of
    `_run_experiment`. The scipy optimiser is abstracted into the sequence of
    calls it makes into the session (objective, constraint, callback) and the
    result it finally returns. */
module DifferentialEvolution {
  import opened Common
  import opened Metrics
  import opened Protocol
  import opened Evaluation

  /** The results summary `finalize` writes, field by field in the order
      it writes them; the wall-clock `total_exp_time` is left out. */
  datatype Summary = Summary(
    parametersBounds: ParameterBounds,
    constraint: Option<ConstraintMap>,
    nIter: nat,
    nTrials: nat,
    experimentTotalRunTime: int,
    experimentValuesDumpRate: int,
    selectedInitState: int,
    earlyStopLimit: int,
    x: Gains,
    settlingTime: real)

  /** One call the library makes into the session. */
  datatype DriverCall = Objective(g: Gains) | Constraint(g: Gains) | Callback(x: Gains)

  /** What the constraint function returns from a memoised run. */
  function ConstraintOutcome(ex: Result<Experiment>, sp: real, riseTime: RiseTime): Result<(ExtReal, real)>
  {
    var e :- ex;
    ConstraintValues(e.response, sp, riseTime)
  }

  /** The objective value handed back to the library is exactly the settling
      time (minimised as is), and a run that settles throughout the band
      fails instead of scoring. */
  lemma ObjectiveIsSettlingTime(ex: Result<Experiment>, sp: real, riseTime: RiseTime)
    ensures ObjectiveOutcome(ex, sp, riseTime).Ok? ==>
              ex.Ok? &&
              SettlingTimeOf(ex.value.response, sp, ObjectiveTolerance, SamplePeriod)
                == Ok(ObjectiveOutcome(ex, sp, riseTime).value.settlingTime)
    ensures ex.Ok? && ex.value.response != [] &&
            LastOutside(ex.value.response, LowerBound(sp, ObjectiveTolerance), UpperBound(sp, ObjectiveTolerance)).None? ==>
              ObjectiveOutcome(ex, sp, riseTime) == Err(IndexError)
  {
  }

  /** What the library's calls read and change in the session: the memo
      cache, the lines the device has yet to send, the trial counter, the
      table, the last summary and whether `sys.exit` has been called.
      (`experiment_id` is always one more than the number of rows.) */
  datatype State = State(cache: map<Gains, Experiment>, lines: seq<string>, trials: nat, rows: seq<TrialRow>,
                         summary: Option<Summary>, exited: bool)

  /** The gain triple a call evaluates. */
  function CallGains(call: DriverCall): Gains
  {
    match call
    case Objective(g) => g
    case Constraint(g) => g
    case Callback(x) => x
  }

  /** One call of the library as a step of the session: the exception it
      raises, if any, and the state it leaves. */
  type Step = (State, DriverCall) -> (Option<Error>, State)

  /** The session has stopped serving calls: a call raised, or the callback
      called `sys.exit`. */
  predicate Stopped(out: (Option<Error>, State))
  {
    out.0.Some? || out.1.exited
  }

  /** Serving `plan` in order from `s` until a call raises or the session
      exits. */
  function ServeAll(s: State, plan: seq<DriverCall>, step: Step): (Option<Error>, State)
    decreases |plan|
  {
    if plan == [] then (None, s)
    else
      var before := ServeAll(s, plan[..|plan| - 1], step);
      if Stopped(before) then before else step(before.1, plan[|plan| - 1])
  }

  /** One more call: serving `plan[..k + 1]` is serving `plan[..k]` and, if
      that did not stop, then `plan[k]` from where it left the session. */
  lemma ServeAllNext(s: State, plan: seq<DriverCall>, k: nat, step: Step)
    requires k < |plan|
    ensures var before := ServeAll(s, plan[..k], step);
            ServeAll(s, plan[..k + 1], step) == if Stopped(before) then before else step(before.1, plan[k])
  {
    assert plan[..k + 1][..k] == plan[..k];
  }

  /** Once a prefix of the plan has stopped the session, the later calls
      are never served. */
  lemma {:induction false} ServeAllStops(s: State, plan: seq<DriverCall>, k: nat, step: Step)
    requires k <= |plan| && Stopped(ServeAll(s, plan[..k], step))
    ensures ServeAll(s, plan, step) == ServeAll(s, plan[..k], step)
    decreases |plan|
  {
    if k < |plan| {
      var init := plan[..|plan| - 1];
      assert init[..k] == plan[..k];
      ServeAllStops(s, init, k, step);
    } else {
      assert plan[..k] == plan;
    }
  }

  /** The calls before `j` were served without stopping, and serving
      `plan[j]` after them stopped the session with the outcome of the
      whole plan. */
  ghost predicate StopsAt(s: State, plan: seq<DriverCall>, j: nat, step: Step)
    requires j < |plan|
  {
    var before := ServeAll(s, plan[..j], step);
    !Stopped(before) && step(before.1, plan[j]) == ServeAll(s, plan, step)
  }

  /** Some call of the plan is the one that stopped the session. */
  ghost predicate StopsSomewhere(s: State, plan: seq<DriverCall>, step: Step)
  {
    exists j :: 0 <= j < |plan| && StopsAt(s, plan, j, step)
  }

  /** A plan that stopped the session (served from a live session) stopped
      it at one call: everything before it was served, that call's outcome
      is the plan's, and nothing after it was served. */
  lemma {:induction false} ServeAllFirstStop(s: State, plan: seq<DriverCall>, step: Step)
    requires !s.exited && Stopped(ServeAll(s, plan, step))
    ensures exists j :: 0 <= j < |plan| && StopsAt(s, plan, j, step)
    decreases |plan|
  {
    var init := plan[..|plan| - 1];
    if Stopped(ServeAll(s, init, step)) {
      ServeAllFirstStop(s, init, step);
      var j :| 0 <= j < |init| && StopsAt(s, init, j, step);
      assert init[..j] == plan[..j];
      assert StopsAt(s, plan, j, step);
    } else {
      var j := |plan| - 1;
      assert plan[..j] == init;
      assert StopsAt(s, plan, j, step);
    }
  }

  /** A session that was live and has exited has cleared its cache. */
  predicate ExitClears(s: State, out: (Option<Error>, State))
  {
    !s.exited && out.1.exited ==> out.1.cache == map[]
  }

  /** If every call that stops the session clears the cache, so does every
      plan. */
  lemma {:induction false} ServeAllExitClears(s: State, plan: seq<DriverCall>, step: Step)
    requires forall t: State, c: DriverCall :: ExitClears(t, step(t, c))
    ensures ExitClears(s, ServeAll(s, plan, step))
    decreases |plan|
  {
    if plan != [] {
      var init := plan[..|plan| - 1];
      ServeAllExitClears(s, init, step);
      var before := ServeAll(s, init, step);
      if !Stopped(before) {
        assert ExitClears(before.1, step(before.1, plan[|plan| - 1]));
      }
    }
  }

  function CountObjectives(plan: seq<DriverCall>): nat
  {
    if plan == [] then 0 else CountObjectives(plan[..|plan| - 1]) + (if plan[|plan| - 1].Objective? then 1 else 0)
  }

  function CountConstraints(plan: seq<DriverCall>): nat
  {
    if plan == [] then 0 else CountConstraints(plan[..|plan| - 1]) + (if plan[|plan| - 1].Constraint? then 1 else 0)
  }

  /** A step that keeps the table's old rows, logs at most one row and only
      for an objective call, and counts at most one trial and only for a
      registered constraint call; a call that raises nothing does both. */
  ghost predicate CountsCall(s: State, call: DriverCall, constrained: bool, out: (Option<Error>, State))
  {
    var logged := if call.Objective? then 1 else 0;
    var counted := if call.Constraint? && constrained then 1 else 0;
    |s.rows| <= |out.1.rows| <= |s.rows| + logged && out.1.rows[..|s.rows|] == s.rows &&
    s.trials <= out.1.trials <= s.trials + counted &&
    (out.0.None? ==> |out.1.rows| == |s.rows| + logged && out.1.trials == s.trials + counted)
  }

  /** What serving a plan adds up to: the table keeps its rows and gains at
      most one row per objective call, and the counter at most one per
      constraint call, none at all without a registered constraint; a plan
      served to its end without stopping gains exactly that many. */
  lemma {:induction false} ServeAllCounts(s: State, plan: seq<DriverCall>, step: Step, constrained: bool)
    requires forall t: State, c: DriverCall :: CountsCall(t, c, constrained, step(t, c))
    ensures var out := ServeAll(s, plan, step);
            |s.rows| <= |out.1.rows| <= |s.rows| + CountObjectives(plan) && out.1.rows[..|s.rows|] == s.rows &&
            s.trials <= out.1.trials <= s.trials + (if constrained then CountConstraints(plan) else 0) &&
            (!Stopped(out) ==>
               |out.1.rows| == |s.rows| + CountObjectives(plan) &&
               out.1.trials == s.trials + (if constrained then CountConstraints(plan) else 0))
    decreases |plan|
  {
    if plan != [] {
      var init := plan[..|plan| - 1];
      ServeAllCounts(s, init, step, constrained);
      var before := ServeAll(s, init, step);
      if !Stopped(before) {
        var out := step(before.1, plan[|plan| - 1]);
        assert CountsCall(before.1, plan[|plan| - 1], constrained, out);
        assert out.1.rows[..|before.1.rows|] == before.1.rows;
        assert out.1.rows[..|s.rows|] == before.1.rows[..|s.rows|];
      }
    }
  }

  class DifferentialEvolutionOptimizer {
    const link: SerialLink
    const parse: Parser
    const riseTime: RiseTime
    const setPoint: real
    const selectedInitState: int
    const initState: Gains
    const earlyStopLimit: int
    const parametersBounds: ParameterBounds
    const constraint: Option<ConstraintMap>
    const nIter: nat
    const runTime: int
    const dumpRate: int

    var experimentId: int
    var trialsCounter: nat
    var results: seq<TrialRow>
    var cache: map<Gains, Experiment>
    /** The summary of the last `finalize`, if any. */
    var summary: Option<Summary>
    /** Set once the early-stop callback has called `sys.exit`. */
    var exited: bool

    /** Logged ids run 1, 2, 3, ... and `experiment_id` is the next one; every
        cached pair holds the errors of its own response. */
    ghost predicate Valid()
      reads this, link
    {
      link.Valid() &&
      experimentId == |results| + 1 &&
      (exited ==> summary.Some?) &&
      ConsecutiveIds(results) &&
      CacheConsistent(cache, setPoint)
    }

    constructor (link: SerialLink, parse: Parser, riseTime: RiseTime, setPoint: real, selectedInitState: int,
                 initState: Gains, earlyStopLimit: int, parametersBounds: ParameterBounds,
                 constraint: Option<ConstraintMap>, nIter: nat, runTime: int, dumpRate: int)
      requires link.Valid()
      ensures Valid()
      ensures this.link == link && this.parse == parse && this.riseTime == riseTime && this.setPoint == setPoint
      ensures this.selectedInitState == selectedInitState && this.initState == initState
      ensures this.earlyStopLimit == earlyStopLimit && this.parametersBounds == parametersBounds
      ensures this.constraint == constraint && this.nIter == nIter
      ensures this.runTime == runTime && this.dumpRate == dumpRate
      ensures experimentId == 1 && trialsCounter == 0 && results == [] && cache == map[]
      ensures summary.None? && !exited
    {
      this.link := link;
      this.parse := parse;
      this.riseTime := riseTime;
      this.setPoint := setPoint;
      this.selectedInitState := selectedInitState;
      this.initState := initState;
      this.earlyStopLimit := earlyStopLimit;
      this.parametersBounds := parametersBounds;
      this.constraint := constraint;
      this.nIter := nIter;
      this.runTime := runTime;
      this.dumpRate := dumpRate;
      experimentId := 1;
      trialsCounter := 0;
      results := [];
      cache := map[];
      summary := None;
      exited := false;
    }

    /** `__init__`: the seed state is `init_states[selected_init_state]`,
        which raises IndexError outside `-len .. len - 1`. */
    static method Create(link: SerialLink, parse: Parser, riseTime: RiseTime, initStates: seq<Gains>,
                         selectedInitState: int, earlyStopLimit: int, parametersBounds: ParameterBounds,
                         constraint: Option<ConstraintMap>, nIter: nat, runTime: int, dumpRate: int, setPoint: real)
      returns (r: Result<DifferentialEvolutionOptimizer>)
      requires link.Valid()
      ensures r.Ok? <==> PyIndex(initStates, selectedInitState).Ok?
      ensures r.Err? ==> r.error == IndexError
      ensures r.Ok? ==>
                fresh(r.value) && r.value.Valid() &&
                r.value.link == link && r.value.initState == PyIndex(initStates, selectedInitState).value &&
                r.value.setPoint == setPoint && r.value.constraint == constraint &&
                r.value.parametersBounds == parametersBounds && r.value.selectedInitState == selectedInitState &&
                r.value.earlyStopLimit == earlyStopLimit &&
                r.value.parse == parse && r.value.riseTime == riseTime &&
                r.value.nIter == nIter && r.value.runTime == runTime && r.value.dumpRate == dumpRate &&
                r.value.experimentId == 1 && r.value.trialsCounter == 0 &&
                r.value.results == [] && r.value.cache == map[] &&
                r.value.summary.None? && !r.value.exited
    {
      var seed :- PyIndex(initStates, selectedInitState);
      var o := new DifferentialEvolutionOptimizer(link, parse, riseTime, setPoint, selectedInitState, seed,
                                                  earlyStopLimit, parametersBounds, constraint, nIter, runTime, dumpRate);
      return Ok(o);
    }

    /** `_run_experiment(g)`, memoised on the exact triple: a cached triple
        is answered from the cache; otherwise the handshake runs and, if it
        returns a series, the pair is cached. */
    method RunExperiment(g: Gains) returns (r: Result<Experiment>)
      requires Valid()
      modifies this`cache, link
      ensures Valid()
      ensures r == ExperimentFor(old(cache), g, old(link.Pending()), setPoint, parse)
      ensures cache == CacheAfter(old(cache), g, old(link.Pending()), setPoint, parse)
      ensures link.Pending() == PendingAfter(old(cache), g, old(link.Pending()), parse)
      ensures link.outgoing ==
                old(link.outgoing) +
                (if g in old(cache) then []
                 else HandshakeWrites(old(link.Pending()), Frame(g.kp, g.ki, g.kd, runTime as real, dumpRate as real), parse))
    {
      if g in cache {
        return Ok(cache[g]);
      }
      var response :- StartExperimentalRun(link, g.kp, g.ki, g.kd, runTime, dumpRate, parse);
      var e := Experiment(ErrorValues(response, setPoint), response);
      cache := cache[g := e];
      return Ok(e);
    }

    /** `log_trial_results`: append one row stamped with the current id, then
        advance the id. */
    method LogTrialResults(g: Gains, overshoot: ExtReal, riseTime: real, settlingTime: int, angles: seq<real>, sp: real)
      requires Valid()
      modifies this`results, this`experimentId
      ensures Valid()
      ensures results == old(results) + [TrialRow(old(experimentId), g, overshoot, riseTime, settlingTime, angles, sp)]
      ensures experimentId == old(experimentId) + 1
    {
      results := results + [TrialRow(experimentId, g, overshoot, riseTime, settlingTime, angles, sp)];
      experimentId := experimentId + 1;
    }

    /** `constraint_function`: count the trial first, then score the run as
        `[overshoot, rise_time]`. */
    method ConstraintFunction(g: Gains) returns (r: Result<(ExtReal, real)>)
      requires Valid()
      modifies this`trialsCounter, this`cache, link
      ensures Valid()
      ensures trialsCounter == old(trialsCounter) + 1
      ensures r == ConstraintOutcome(ExperimentFor(old(cache), g, old(link.Pending()), setPoint, parse), setPoint, riseTime)
      ensures cache == CacheAfter(old(cache), g, old(link.Pending()), setPoint, parse)
      ensures link.Pending() == PendingAfter(old(cache), g, old(link.Pending()), parse)
    {
      trialsCounter := trialsCounter + 1;
      var e :- RunExperiment(g);
      return ConstraintValues(e.response, setPoint, riseTime);
    }

    /** `objective_function`: settling time (tolerance 0.05), overshoot and
        rise time of the run; one row is logged and the settling time is
        returned. An exception on the way logs nothing. */
    method ObjectiveFunction(g: Gains) returns (r: Result<int>)
      requires Valid()
      modifies this`results, this`experimentId, this`cache, link
      ensures Valid()
      ensures var out := ObjectiveOutcome(ExperimentFor(old(cache), g, old(link.Pending()), setPoint, parse), setPoint, riseTime);
              (r.Ok? <==> out.Ok?) &&
              (r.Ok? ==>
                 r.value == out.value.settlingTime &&
                 results == old(results) +
                   [RowOf(old(experimentId), g, out.value,
                          ExperimentFor(old(cache), g, old(link.Pending()), setPoint, parse).value.response, setPoint)]) &&
              (r.Err? ==> r.error == out.error && results == old(results))
      ensures cache == CacheAfter(old(cache), g, old(link.Pending()), setPoint, parse)
      ensures link.Pending() == PendingAfter(old(cache), g, old(link.Pending()), parse)
    {
      var e :- RunExperiment(g);
      var settling :- SettlingTime(e.response, setPoint, ObjectiveTolerance, SamplePeriod);
      var overshoot :- Overshoot(e.response, setPoint);
      var rise := riseTime(e.response, setPoint);
      LogTrialResults(g, overshoot, rise, settling, e.response, setPoint);
      return Ok(settling);
    }

    /** The summary `finalize` writes for the candidate `x`: the session's
        settings, the trial counter as `n_trials`, and the candidate with its
        settling time. */
    function SummaryOf(nTrials: nat, x: Gains, settlingTime: real): Summary
    {
      Summary(parametersBounds, constraint, nIter, nTrials, runTime, dumpRate,
              selectedInitState, earlyStopLimit, x, settlingTime)
    }

    /** `finalize`: record the summary (with `n_trials` the trial counter)
        and clear the cache. */
    method Finalize(x: Gains, settlingTime: real)
      requires Valid()
      modifies this`summary, this`cache
      ensures Valid()
      ensures summary == Some(SummaryOf(trialsCounter, x, settlingTime))
      ensures summary.value.nTrials == trialsCounter && summary.value.x == x && summary.value.settlingTime == settlingTime
      ensures cache == map[]
    {
      summary := Some(SummaryOf(trialsCounter, x, settlingTime));
      cache := map[];
    }

    /** `results_callback`: re-run the candidate (normally a cache hit) and
        stop the session when its settling time is within the early-stop
        limit. The result says whether the session stopped. */
    method ResultsCallback(x: Gains) returns (r: Result<bool>)
      requires Valid()
      modifies this`cache, this`summary, this`exited, link
      ensures Valid()
      ensures var ex := ExperimentFor(old(cache), x, old(link.Pending()), setPoint, parse);
              var st := if ex.Ok? then SettlingTimeOf(ex.value.response, setPoint, ObjectiveTolerance, SamplePeriod)
                        else Err(ex.error);
              (r.Ok? <==> st.Ok?) &&
              (r.Err? ==> r.error == st.error) &&
              (r.Ok? ==> (r.value <==> st.value <= earlyStopLimit)) &&
              (r.Ok? && r.value ==>
                 exited && cache == map[] &&
                 summary == Some(SummaryOf(trialsCounter, x, st.value as real))) &&
              (!(r.Ok? && r.value) ==>
                 exited == old(exited) && summary == old(summary) &&
                 cache == CacheAfter(old(cache), x, old(link.Pending()), setPoint, parse))
      ensures link.Pending() == PendingAfter(old(cache), x, old(link.Pending()), parse)
    {
      var e :- RunExperiment(x);
      var settling :- SettlingTime(e.response, setPoint, ObjectiveTolerance, SamplePeriod);
      if settling <= earlyStopLimit {
        Finalize(x, settling as real);
        exited := true;
        return Ok(true);
      }
      return Ok(false);
    }

    /** One call of the library served from state `s`, given what the
        memoised run of the call's triple yields (`ex`) and the cache and
        pending lines it leaves. The objective logs one row under the next
        id; the constraint function (only reachable when the library was
        given a constraint) counts a trial; the callback stops the session
        when the candidate's settling time is within the early-stop limit,
        finalising with that settling time. The first exception is the
        call's outcome; what the memoised run changed before it stays. */
    function ServeFrom(s: State, call: DriverCall, constrained: bool, ex: Result<Experiment>,
                       cache: map<Gains, Experiment>, lines: seq<string>): (Option<Error>, State)
    {
      match call
      case Objective(g) =>
        var sc := ObjectiveOutcome(ex, setPoint, riseTime);
        if sc.Err? then (Some(sc.error), s.(cache := cache, lines := lines))
        else (None, s.(cache := cache, lines := lines,
                       rows := s.rows + [RowOf(|s.rows| + 1, g, sc.value, ex.value.response, setPoint)]))
      case Constraint(g) =>
        if !constrained then (None, s)
        else
          var cv := ConstraintOutcome(ex, setPoint, riseTime);
          (if cv.Err? then Some(cv.error) else None, s.(cache := cache, lines := lines, trials := s.trials + 1))
      case Callback(x) =>
        var st := if ex.Ok? then SettlingTimeOf(ex.value.response, setPoint, ObjectiveTolerance, SamplePeriod)
                  else Err(ex.error);
        if st.Err? then (Some(st.error), s.(cache := cache, lines := lines))
        else if st.value <= earlyStopLimit then
          (None, s.(cache := map[], lines := lines, summary := Some(SummaryOf(s.trials, x, st.value as real)), exited := true))
        else (None, s.(cache := cache, lines := lines))
    }

    /** Serving `call` from `s`, the device sending `s.lines`. */
    function ServeOf(s: State, call: DriverCall, constrained: bool): (Option<Error>, State)
    {
      var g := CallGains(call);
      ServeFrom(s, call, constrained, ExperimentFor(s.cache, g, s.lines, setPoint, parse),
                CacheAfter(s.cache, g, s.lines, setPoint, parse), PendingAfter(s.cache, g, s.lines, parse))
    }

    function Server(constrained: bool): Step
    {
      (s: State, call: DriverCall) => ServeOf(s, call, constrained)
    }

    /** What one call does, case by case: an objective call fails exactly
        when the memoised run or its scores do and otherwise logs exactly
        the row of those scores under the next id; a registered constraint
        call counts one trial whatever it returns; the callback stops the
        session exactly when the candidate's settling time is within the
        limit, and the summary then holds that settling time. */
    lemma ServeOfCases(s: State, call: DriverCall, constrained: bool)
      ensures var g := CallGains(call);
              var ex := ExperimentFor(s.cache, g, s.lines, setPoint, parse);
              var out := ServeOf(s, call, constrained);
              (call.Objective? ==>
                 (out.0.None? <==> ObjectiveOutcome(ex, setPoint, riseTime).Ok?) &&
                 (out.0.Some? ==> out.0.value == ObjectiveOutcome(ex, setPoint, riseTime).error && out.1.rows == s.rows) &&
                 (out.0.None? ==>
                    out.1.rows == s.rows + [RowOf(|s.rows| + 1, g, ObjectiveOutcome(ex, setPoint, riseTime).value,
                                                  ex.value.response, setPoint)]) &&
                 out.1.trials == s.trials && out.1.summary == s.summary && out.1.exited == s.exited) &&
              (call.Constraint? && constrained ==>
                 (out.0.None? <==> ConstraintOutcome(ex, setPoint, riseTime).Ok?) &&
                 (out.0.Some? ==> out.0.value == ConstraintOutcome(ex, setPoint, riseTime).error) &&
                 out.1.trials == s.trials + 1 && out.1.rows == s.rows &&
                 out.1.summary == s.summary && out.1.exited == s.exited) &&
              (call.Constraint? && !constrained ==> out == (None, s)) &&
              (call.Callback? ==>
                 var st := if ex.Ok? then SettlingTimeOf(ex.value.response, setPoint, ObjectiveTolerance, SamplePeriod)
                           else Err(ex.error);
                 (out.0.None? <==> st.Ok?) &&
                 (out.0.Some? ==> out.0.value == st.error) &&
                 (out.1.exited <==> s.exited || (st.Ok? && st.value <= earlyStopLimit)) &&
                 (st.Ok? && st.value <= earlyStopLimit ==>
                    out.1.summary == Some(SummaryOf(s.trials, g, st.value as real)) && out.1.cache == map[]) &&
                 (!out.1.exited ==> out.1.summary == s.summary) &&
                 out.1.trials == s.trials && out.1.rows == s.rows) &&
              (!call.Callback? ==> out.1.exited == s.exited && out.1.summary == s.summary)
    {
    }

    /** Only a qualifying callback stops the session, and it clears the
        cache as it does. */
    lemma ServerExitClears(constrained: bool)
      ensures forall t: State, c: DriverCall :: ExitClears(t, Server(constrained)(t, c))
    {
      forall t: State, c: DriverCall
        ensures ExitClears(t, Server(constrained)(t, c))
      {
        ServeOfCases(t, c, constrained);
      }
    }

    lemma ServerCounts(constrained: bool)
      ensures forall t: State, c: DriverCall :: CountsCall(t, c, constrained, Server(constrained)(t, c))
    {
      forall t: State, c: DriverCall
        ensures CountsCall(t, c, constrained, Server(constrained)(t, c))
      {
        ServeOfCases(t, c, constrained);
      }
    }

    /** The step `Server` takes is `ServeFrom` applied to the memoised run. */
    lemma ServerIsServeFrom(constrained: bool, s: State, call: DriverCall)
      ensures var g := CallGains(call);
              Server(constrained)(s, call) ==
                ServeFrom(s, call, constrained, ExperimentFor(s.cache, g, s.lines, setPoint, parse),
                          CacheAfter(s.cache, g, s.lines, setPoint, parse), PendingAfter(s.cache, g, s.lines, parse))
    {
    }

    /** An objective call that raised the scoring's exception and logged
        nothing, or logged the row of its scores, left the state `t` that
        `ServeFrom` gives. */
    lemma ObjectiveServed(s: State, g: Gains, constrained: bool, ex: Result<Experiment>,
                          cache: map<Gains, Experiment>, lines: seq<string>, failure: Option<Error>, t: State)
      requires var out := ObjectiveOutcome(ex, setPoint, riseTime);
               (failure.None? <==> out.Ok?) &&
               (failure.Some? ==> failure.value == out.error && t.rows == s.rows) &&
               (failure.None? ==>
                  |t.rows| == |s.rows| + 1 && t.rows[..|s.rows|] == s.rows &&
                  t.rows[|s.rows|] == RowOf(|s.rows| + 1, g, out.value, ex.value.response, setPoint))
      requires t.cache == cache && t.lines == lines && t.trials == s.trials && t.summary == s.summary && t.exited == s.exited
      ensures ServeFrom(s, Objective(g), constrained, ex, cache, lines) == (failure, t)
    {
      if failure.None? {
        assert t.rows == s.rows + [t.rows[|s.rows|]];
      }
    }

    /** A constraint call: without a registered constraint nothing happens;
        with one, the trial is counted and the call raises the scoring's
        exception or returns. */
    lemma ConstraintServed(s: State, g: Gains, constrained: bool, ex: Result<Experiment>,
                           cache: map<Gains, Experiment>, lines: seq<string>, failure: Option<Error>, t: State)
      requires !constrained ==> failure.None? && t == s
      requires constrained ==>
                 var out := ConstraintOutcome(ex, setPoint, riseTime);
                 (failure.None? <==> out.Ok?) && (failure.Some? ==> failure.value == out.error) &&
                 t == s.(cache := cache, lines := lines, trials := s.trials + 1)
      ensures ServeFrom(s, Constraint(g), constrained, ex, cache, lines) == (failure, t)
    {
    }

    /** A callback that raised, went on, or stopped the session with the
        summary of its candidate, left the state `t` that `ServeFrom`
        gives. */
    lemma CallbackServed(s: State, x: Gains, constrained: bool, ex: Result<Experiment>,
                         cache: map<Gains, Experiment>, lines: seq<string>, failure: Option<Error>, t: State)
      requires var st := if ex.Ok? then SettlingTimeOf(ex.value.response, setPoint, ObjectiveTolerance, SamplePeriod)
                         else Err(ex.error);
               (failure.None? <==> st.Ok?) && (failure.Some? ==> failure.value == st.error) &&
               (st.Ok? && st.value <= earlyStopLimit ==>
                  t.exited && t.cache == map[] && t.summary == Some(SummaryOf(s.trials, x, st.value as real))) &&
               (!(st.Ok? && st.value <= earlyStopLimit) ==>
                  t.exited == s.exited && t.summary == s.summary && t.cache == cache)
      requires t.lines == lines && t.trials == s.trials && t.rows == s.rows
      ensures ServeFrom(s, Callback(x), constrained, ex, cache, lines) == (failure, t)
    {
    }

    /** The session's own state, as the library's calls see it. */
    ghost function Current(): State
      reads this, link
      requires link.Valid()
    {
      State(cache, link.Pending(), trialsCounter, results, summary, exited)
    }

    /** One call of the library into the session; an exception it raises is
        returned. */
    method Serve(call: DriverCall, constrained: bool) returns (failure: Option<Error>)
      requires Valid() && !exited
      modifies this`results, this`experimentId, this`trialsCounter, this`cache, this`summary, this`exited, link
      ensures Valid()
      ensures var g := CallGains(call);
              var p := ServeFrom(State(old(cache), old(link.Pending()), old(trialsCounter), old(results), old(summary), old(exited)),
                                 call, constrained,
                                 ExperimentFor(old(cache), g, old(link.Pending()), setPoint, parse),
                                 CacheAfter(old(cache), g, old(link.Pending()), setPoint, parse),
                                 PendingAfter(old(cache), g, old(link.Pending()), parse));
              failure == p.0 && cache == p.1.cache && link.Pending() == p.1.lines && trialsCounter == p.1.trials &&
              results == p.1.rows && summary == p.1.summary && exited == p.1.exited
    {
      ghost var s0 := Current();
      ghost var ex := ExperimentFor(cache, CallGains(call), link.Pending(), setPoint, parse);
      ghost var cacheRun := CacheAfter(cache, CallGains(call), link.Pending(), setPoint, parse);
      ghost var linesRun := PendingAfter(cache, CallGains(call), link.Pending(), parse);
      failure := None;
      match call
      case Objective(g) =>
        var o := ObjectiveFunction(g);
        if o.Err? {
          failure := Some(o.error);
        }
        ObjectiveServed(s0, g, constrained, ex, cacheRun, linesRun, failure, Current());
      case Constraint(g) =>
        if constrained {
          var c := ConstraintFunction(g);
          if c.Err? {
            failure := Some(c.error);
          }
        }
        ConstraintServed(s0, g, constrained, ex, cacheRun, linesRun, failure, Current());
      case Callback(x) =>
        var stop := ResultsCallback(x);
        if stop.Err? {
          failure := Some(stop.error);
        }
        CallbackServed(s0, x, constrained, ex, cacheRun, linesRun, failure, Current());
    }

    /** The library at work: serve the calls of `plan` in order until one
        raises or the callback exits. */
    method ServePlan(plan: seq<DriverCall>, constrained: bool) returns (failure: Option<Error>)
      requires Valid() && !exited
      modifies this`results, this`experimentId, this`trialsCounter, this`cache, this`summary, this`exited, link
      ensures Valid()
      ensures var p := ServeAll(State(old(cache), old(link.Pending()), old(trialsCounter), old(results), old(summary), false),
                                plan, Server(constrained));
              failure == p.0 && cache == p.1.cache && link.Pending() == p.1.lines && trialsCounter == p.1.trials &&
              results == p.1.rows && summary == p.1.summary && exited == p.1.exited
    {
      ghost var step := Server(constrained);
      ghost var s0 := Current();
      var i := 0;
      failure := None;
      while i < |plan| && !exited
        invariant Valid()
        invariant 0 <= i <= |plan|
        invariant ServeAll(s0, plan[..i], step) == (failure, Current()) && failure.None?
      {
        ServerIsServeFrom(constrained, Current(), plan[i]);
        ServeAllNext(s0, plan, i, step);
        failure := Serve(plan[i], constrained);
        if failure.Some? {
          ServeAllStops(s0, plan, i + 1, step);
          return;
        }
        i := i + 1;
      }
      if exited {
        ServeAllStops(s0, plan, i, step);
      } else {
        assert plan[..i] == plan;
      }
    }

    /** `run`: build the constraint bound vectors (a missing mapping raises
        TypeError before anything else), hand the seed population to the
        library, let it serve its calls, and unless one raised or the
        callback exited, finalise with the library's result. The constraint
        function is only registered when the mapping is non-empty. */
    method Run(d1: Draw, d2: Draw, d3: Draw, d4: Draw, plan: seq<DriverCall>, bestX: Gains, bestFun: real)
      returns (r: Result<Summary>, bounds: (seq<real>, seq<real>), population: seq<Gains>)
      requires Valid() && !exited
      modifies this, link
      ensures Valid()
      ensures constraint.None? ==>
                r == Err(TypeError) && results == old(results) && cache == old(cache) &&
                trialsCounter == old(trialsCounter) && summary == old(summary) && !exited
      ensures constraint.Some? ==>
                bounds == ConstraintBoundVectors(constraint).value &&
                population == InitialPopulation(initState, d1, d2, d3, d4)
      ensures constraint.Some? ==>
                var p := ServeAll(State(old(cache), old(link.Pending()), old(trialsCounter), old(results), old(summary), false),
                                  plan, Server(|constraint.value| > 0));
                (r.Err? <==> p.0.Some?) && (r.Err? ==> r.error == p.0.value) &&
                results == p.1.rows && trialsCounter == p.1.trials && link.Pending() == p.1.lines && exited == p.1.exited &&
                (r.Err? ==> cache == p.1.cache && summary == p.1.summary) &&
                (r.Ok? && exited ==> Some(r.value) == p.1.summary) &&
                (r.Ok? && !exited ==> r.value == SummaryOf(p.1.trials, bestX, bestFun))
      ensures constraint.Some? && (r.Err? || exited) ==>
                StopsSomewhere(State(old(cache), old(link.Pending()), old(trialsCounter), old(results), old(summary), false),
                               plan, Server(|constraint.value| > 0))
      ensures constraint.Some? ==>
                var constrained := |constraint.value| > 0;
                |old(results)| <= |results| <= |old(results)| + CountObjectives(plan) &&
                results[..|old(results)|] == old(results) &&
                old(trialsCounter) <= trialsCounter <= old(trialsCounter) + (if constrained then CountConstraints(plan) else 0) &&
                (r.Ok? && !exited ==>
                   |results| == |old(results)| + CountObjectives(plan) &&
                   trialsCounter == old(trialsCounter) + (if constrained then CountConstraints(plan) else 0))
      ensures r.Ok? ==> summary == Some(r.value) && cache == map[]
    {
      bounds, population := ([], []), [];
      var vectors := ConstraintBoundVectors(constraint);
      if vectors.Err? {
        return Err(vectors.error), bounds, population;
      }
      bounds := vectors.value;
      population := InitialPopulation(initState, d1, d2, d3, d4);
      ghost var s0 := Current();
      var failure := ServePlan(plan, |constraint.value| > 0);
      ServerCounts(|constraint.value| > 0);
      ServeAllCounts(s0, plan, Server(|constraint.value| > 0), |constraint.value| > 0);
      if failure.Some? || exited {
        ServeAllFirstStop(s0, plan, Server(|constraint.value| > 0));
      }
      if failure.Some? {
        return Err(failure.value), bounds, population;
      }
      ServerExitClears(|constraint.value| > 0);
      ServeAllExitClears(s0, plan, Server(|constraint.value| > 0));
      if !exited {
        Finalize(bestX, bestFun);
      }
      return Ok(summary.value), bounds, population;
    }
  }
}
