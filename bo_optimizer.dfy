/** `BayesianOptimizer` of `src/optimizers/bayesian_optimizer.py`: a session
    with an experiment counter that `_run_experiment` bumps on every device
    run and `log_trial_results` bumps on every row, an append-only table of
    trial rows and the memo cache. The bayes_opt library is abstracted into
    the points it probes: the seed state first, then the points `maximize`
    proposes, each scored by the objective and then by the constraint. */
module Bayesian {
  import opened Common
  import opened Metrics
  import opened Protocol
  import opened Evaluation

  /** What the library records for one probed point. */
  datatype Observation = Observation(params: Gains, target: int, constraintValue: (ExtReal, real))

  /** What a probe reads and changes in the session: the memo cache, the
      lines the device has yet to send, `experiment_id` and the table. */
  datatype State = State(cache: map<Gains, Experiment>, lines: seq<string>, nextId: int, rows: seq<TrialRow>)

  /** The library registering the point `g` from state `s`, given what the
      memoised run of `g` yields (`ex`) and the cache and pending lines it
      leaves: the objective function, then the constraint function, which
      replays the run the objective has just cached. An exception ends the
      probe; what the memoised run changed before it stays. */
  function ProbeFrom(s: State, g: Gains, ex: Result<Experiment>, cache: map<Gains, Experiment>, lines: seq<string>,
                     sp: real, riseTime: RiseTime): (Result<Observation>, State)
  {
    var id := s.nextId + (if g !in s.cache && ex.Ok? then 1 else 0);
    var sc := if ex.Ok? then ObjectiveScores(ex.value.response, sp, riseTime) else Err(ex.error);
    if sc.Err? then (Err(sc.error), State(cache, lines, id, s.rows))
    else
      (Ok(Observation(g, -sc.value.settlingTime, (sc.value.overshoot, sc.value.riseTime))),
       State(cache, lines, id + 1, s.rows + [RowOf(id, g, sc.value, ex.value.response, sp)]))
  }

  /** A probe whose objective either failed, changing no row, or logged
      one row and returned its negated settling time, after which the
      constraint replayed the pair, has the outcome `ProbeFrom` gives. */
  lemma ProbeFromMatches(s: State, g: Gains, ex: Result<Experiment>, cache: map<Gains, Experiment>, lines: seq<string>,
                         sp: real, riseTime: RiseTime, r: Result<Observation>, id: int, rows: seq<TrialRow>)
    requires var sc := if ex.Ok? then ObjectiveScores(ex.value.response, sp, riseTime) else Err(ex.error);
             (sc.Err? ==>
                r == Err(sc.error) && rows == s.rows && id == s.nextId + (if g !in s.cache && ex.Ok? then 1 else 0)) &&
             (sc.Ok? ==>
                r.Ok? && r.value.params == g && r.value.target == -sc.value.settlingTime &&
                r.value.constraintValue == (sc.value.overshoot, sc.value.riseTime) &&
                |rows| == |s.rows| + 1 && rows[..|s.rows|] == s.rows &&
                rows[|s.rows|] == RowOf(s.nextId + (if g in s.cache then 0 else 1), g, sc.value, ex.value.response, sp) &&
                id == s.nextId + (if g in s.cache then 0 else 1) + 1)
    ensures var p := ProbeFrom(s, g, ex, cache, lines, sp, riseTime);
            r == p.0 && p.1 == State(cache, lines, id, rows)
  {
    var sc := if ex.Ok? then ObjectiveScores(ex.value.response, sp, riseTime) else Err(ex.error);
    if sc.Ok? {
      assert rows == s.rows + [rows[|s.rows|]];
    }
  }

  /** Probing `g` from `s`, the device sending `s.lines`. */
  function ProbeOf(s: State, g: Gains, sp: real, parse: Parser, riseTime: RiseTime): (Result<Observation>, State)
  {
    ProbeFrom(s, g, ExperimentFor(s.cache, g, s.lines, sp, parse), CacheAfter(s.cache, g, s.lines, sp, parse),
              PendingAfter(s.cache, g, s.lines, parse), sp, riseTime)
  }

  /** One probe as a step of the session: its outcome and the state it
      leaves. */
  type Step = (State, Gains) -> (Result<Observation>, State)

  function Prober(sp: real, parse: Parser, riseTime: RiseTime): Step
  {
    (s: State, g: Gains) => ProbeOf(s, g, sp, parse, riseTime)
  }

  /** Probing `points` in order from `s`; the first exception ends the run
      and is its outcome. */
  function ProbeAll(s: State, points: seq<Gains>, step: Step): (Result<seq<Observation>>, State)
    decreases |points|
  {
    if points == [] then (Ok([]), s)
    else
      var (prev, mid) := ProbeAll(s, points[..|points| - 1], step);
      if prev.Err? then (prev, mid)
      else
        var (o, next) := step(mid, points[|points| - 1]);
        (if o.Ok? then Ok(prev.value + [o.value]) else Err(o.error), next)
  }

  /** A probe succeeds exactly when the memoised run and its scores do; it
      then logs one row, under the id the device run (if any) has left, and
      the constraint value the library records is the pair the constraint
      function computes from the cached response. A failed probe logs
      nothing and raises the run's or the scoring's exception. */
  lemma ProbeOfCases(s: State, g: Gains, sp: real, parse: Parser, riseTime: RiseTime)
    ensures var ex := ExperimentFor(s.cache, g, s.lines, sp, parse);
            var p := ProbeOf(s, g, sp, parse, riseTime);
            (p.0.Ok? <==> ex.Ok? && ObjectiveScores(ex.value.response, sp, riseTime).Ok?) &&
            (p.0.Err? ==>
               p.1.rows == s.rows &&
               p.0.error == (if ex.Err? then ex.error else ObjectiveScores(ex.value.response, sp, riseTime).error)) &&
            (p.0.Ok? ==>
               p.0.value.params == g &&
               p.0.value.target == -SettlingTimeOf(ex.value.response, sp, ObjectiveTolerance, SamplePeriod).value &&
               p.0.value.constraintValue == ConstraintValues(ex.value.response, sp, riseTime).value &&
               p.1.rows == s.rows + [p.1.rows[|s.rows|]] &&
               p.1.rows[|s.rows|].experimentId == s.nextId + (if g in s.cache then 0 else 1) &&
               p.1.nextId == p.1.rows[|s.rows|].experimentId + 1 &&
               p.1.rows[|s.rows|].gains == g && p.1.rows[|s.rows|].angles == ex.value.response)
  {
  }

  /** A step that logs exactly one row for a point it observes, holding the
      negated target, and no row for a point that fails. */
  ghost predicate LogsObserved(s: State, g: Gains, out: (Result<Observation>, State))
  {
    (out.0.Err? ==> out.1.rows == s.rows) &&
    (out.0.Ok? ==>
       |out.1.rows| == |s.rows| + 1 && out.1.rows[..|s.rows|] == s.rows &&
       out.0.value.params == g && out.1.rows[|s.rows|].gains == g &&
       out.0.value.target == -out.1.rows[|s.rows|].settlingTime)
  }

  lemma ProberLogsObserved(sp: real, parse: Parser, riseTime: RiseTime)
    ensures forall s: State, g: Gains :: LogsObserved(s, g, Prober(sp, parse, riseTime)(s, g))
  {
    forall s: State, g: Gains
      ensures LogsObserved(s, g, Prober(sp, parse, riseTime)(s, g))
    {
      ProbeOfCases(s, g, sp, parse, riseTime);
    }
  }

  /** One more point: probing `points[..k + 1]` is probing `points[..k]`
      and then `points[k]` from where that left the session. */
  lemma ProbeAllNext(s: State, points: seq<Gains>, k: nat, step: Step)
    requires k < |points| && ProbeAll(s, points[..k], step).0.Ok?
    ensures var mid := ProbeAll(s, points[..k], step);
            var out := step(mid.1, points[k]);
            ProbeAll(s, points[..k + 1], step) ==
              (if out.0.Ok? then Ok(mid.0.value + [out.0.value]) else Err(out.0.error), out.1)
  {
    assert points[..k + 1][..k] == points[..k];
  }

  /** The step `Prober` takes is `ProbeFrom` applied to the memoised run. */
  lemma ProberIsProbeFrom(sp: real, parse: Parser, riseTime: RiseTime, s: State, g: Gains)
    ensures Prober(sp, parse, riseTime)(s, g) ==
              ProbeFrom(s, g, ExperimentFor(s.cache, g, s.lines, sp, parse), CacheAfter(s.cache, g, s.lines, sp, parse),
                        PendingAfter(s.cache, g, s.lines, parse), sp, riseTime)
  {
  }

  /** Once a prefix of the points has failed, the later points are never
      probed. */
  lemma {:induction false} ProbeAllStops(s: State, points: seq<Gains>, k: nat, step: Step)
    requires k <= |points|
    requires ProbeAll(s, points[..k], step).0.Err?
    ensures ProbeAll(s, points, step) == ProbeAll(s, points[..k], step)
    decreases |points|
  {
    if k < |points| {
      var init := points[..|points| - 1];
      assert init[..k] == points[..k];
      ProbeAllStops(s, init, k, step);
    } else {
      assert points[..k] == points;
    }
  }

  /** The points before `j` were probed successfully, and probing
      `points[j]` after them fails with the outcome and final state of the
      whole run. */
  ghost predicate FailsAt(s: State, points: seq<Gains>, j: nat, step: Step)
    requires j < |points|
  {
    var before := ProbeAll(s, points[..j], step);
    var last := step(before.1, points[j]);
    var all := ProbeAll(s, points, step);
    before.0.Ok? && last.0.Err? && all.0.Err? && last.0.error == all.0.error && last.1 == all.1
  }

  /** A failed run failed at one point: every point before it was probed
      successfully, and the run's outcome and final state are those of
      probing that point; nothing after it was probed. */
  lemma {:induction false} ProbeAllFirstFailure(s: State, points: seq<Gains>, step: Step)
    requires ProbeAll(s, points, step).0.Err?
    ensures exists j :: 0 <= j < |points| && FailsAt(s, points, j, step)
    decreases |points|
  {
    var init := points[..|points| - 1];
    if ProbeAll(s, init, step).0.Err? {
      ProbeAllFirstFailure(s, init, step);
      var j :| 0 <= j < |init| && FailsAt(s, init, j, step);
      assert init[..j] == points[..j];
      assert FailsAt(s, points, j, step);
    } else {
      var j := |points| - 1;
      assert points[..j] == init;
      assert FailsAt(s, points, j, step);
    }
  }

  /** A successful run of a step that logs what it observes probed every
      point once, in order: the library observed each point with the
      negated settling time of the row logged for it, and the table grew by
      exactly those rows. */
  lemma {:induction false} ProbeAllRecords(s: State, points: seq<Gains>, step: Step)
    requires forall t: State, g: Gains :: LogsObserved(t, g, step(t, g))
    requires ProbeAll(s, points, step).0.Ok?
    ensures var p := ProbeAll(s, points, step);
            |p.0.value| == |points| && |p.1.rows| == |s.rows| + |points| && p.1.rows[..|s.rows|] == s.rows &&
            forall i :: 0 <= i < |points| ==>
              p.0.value[i].params == points[i] &&
              p.1.rows[|s.rows| + i].gains == points[i] &&
              p.0.value[i].target == -p.1.rows[|s.rows| + i].settlingTime
    decreases |points|
  {
    if points != [] {
      var init := points[..|points| - 1];
      ProbeAllRecords(s, init, step);
      var mid := ProbeAll(s, init, step);
      var last := step(mid.1, points[|points| - 1]);
      assert LogsObserved(mid.1, points[|points| - 1], last);
      var p := ProbeAll(s, points, step);
      assert p == (Ok(mid.0.value + [last.0.value]), last.1);
      assert p.1.rows[..|mid.1.rows|] == mid.1.rows;
      forall i | 0 <= i < |points|
        ensures p.0.value[i].params == points[i] &&
                p.1.rows[|s.rows| + i].gains == points[i] &&
                p.0.value[i].target == -p.1.rows[|s.rows| + i].settlingTime
      {
        if i < |init| {
          assert p.1.rows[|s.rows| + i] == mid.1.rows[|s.rows| + i];
        }
      }
    }
  }

  class BayesianOptimizer {
    const link: SerialLink
    const parse: Parser
    const riseTime: RiseTime
    const setPoint: real
    const initState: Gains
    /** `parameters_bounds`, handed to the library as its search box. */
    const parametersBounds: ParameterBounds
    const nIter: nat
    const runTime: int
    const dumpRate: int
    /** The bound vectors handed to the library's constraint model. */
    const lowerConstraintBounds: seq<real>
    const upperConstraintBounds: seq<real>

    var experimentId: int
    var results: seq<TrialRow>
    var cache: map<Gains, Experiment>

    /** Logged ids increase strictly and stay below the next id; every cached
        pair holds the errors of its own response. */
    ghost predicate Valid()
      reads this, link
    {
      link.Valid() &&
      experimentId >= 1 &&
      IncreasingIds(results, experimentId) &&
      CacheConsistent(cache, setPoint)
    }

    /** The optimizer's own state, as the library's calls see it. */
    ghost function Current(): State
      reads this, link
      requires link.Valid()
    {
      State(cache, link.Pending(), experimentId, results)
    }

    constructor (link: SerialLink, parse: Parser, riseTime: RiseTime, setPoint: real, initState: Gains,
                 parametersBounds: ParameterBounds, nIter: nat, runTime: int, dumpRate: int, lower: seq<real>, upper: seq<real>)
      requires link.Valid()
      ensures Valid()
      ensures this.link == link && this.parse == parse && this.riseTime == riseTime && this.setPoint == setPoint
      ensures this.initState == initState && this.parametersBounds == parametersBounds && this.nIter == nIter && this.runTime == runTime && this.dumpRate == dumpRate
      ensures lowerConstraintBounds == lower && upperConstraintBounds == upper
      ensures experimentId == 1 && results == [] && cache == map[]
    {
      this.link := link;
      this.parse := parse;
      this.riseTime := riseTime;
      this.setPoint := setPoint;
      this.initState := initState;
      this.parametersBounds := parametersBounds;
      this.nIter := nIter;
      this.runTime := runTime;
      this.dumpRate := dumpRate;
      lowerConstraintBounds := lower;
      upperConstraintBounds := upper;
      experimentId := 1;
      results := [];
      cache := map[];
    }

    /** `__init__`: `init_states[selected_init_state]` is read first (an
        IndexError wins), then `_init_optimizer` iterates the constraint
        mapping (TypeError when it is None). */
    static method Create(link: SerialLink, parse: Parser, riseTime: RiseTime, setPoint: real, initStates: seq<Gains>,
                         selectedInitState: int, parametersBounds: ParameterBounds, constraint: Option<ConstraintMap>, nIter: nat,
                         runTime: int, dumpRate: int)
      returns (r: Result<BayesianOptimizer>)
      requires link.Valid()
      ensures r.Ok? <==> PyIndex(initStates, selectedInitState).Ok? && constraint.Some?
      ensures PyIndex(initStates, selectedInitState).Err? ==> r == Err(IndexError)
      ensures PyIndex(initStates, selectedInitState).Ok? && constraint.None? ==> r == Err(TypeError)
      ensures r.Ok? ==>
                fresh(r.value) && r.value.Valid() &&
                r.value.link == link && r.value.setPoint == setPoint &&
                r.value.initState == PyIndex(initStates, selectedInitState).value &&
                r.value.parametersBounds == parametersBounds &&
                r.value.parse == parse && r.value.riseTime == riseTime &&
                r.value.nIter == nIter && r.value.runTime == runTime && r.value.dumpRate == dumpRate &&
                (r.value.lowerConstraintBounds, r.value.upperConstraintBounds) == ConstraintBoundVectors(constraint).value &&
                r.value.experimentId == 1 && r.value.results == [] && r.value.cache == map[]
    {
      var seed :- PyIndex(initStates, selectedInitState);
      var bounds :- ConstraintBoundVectors(constraint);
      var o := new BayesianOptimizer(link, parse, riseTime, setPoint, seed, parametersBounds, nIter, runTime, dumpRate, bounds.0, bounds.1);
      return Ok(o);
    }

    /** `_run_experiment(g)`, memoised on the exact triple; a device run
        that returns a series also advances `experiment_id`. */
    method RunExperiment(g: Gains) returns (r: Result<Experiment>)
      requires Valid()
      modifies this`cache, this`experimentId, link
      ensures Valid()
      ensures r == ExperimentFor(old(cache), g, old(link.Pending()), setPoint, parse)
      ensures cache == CacheAfter(old(cache), g, old(link.Pending()), setPoint, parse)
      ensures link.Pending() == PendingAfter(old(cache), g, old(link.Pending()), parse)
      ensures experimentId == old(experimentId) + (if g !in old(cache) && r.Ok? then 1 else 0)
      ensures link.outgoing ==
                old(link.outgoing) +
                (if g in old(cache) then []
                 else HandshakeWrites(old(link.Pending()), Frame(g.kp, g.ki, g.kd, runTime as real, dumpRate as real), parse))
    {
      if g in cache {
        return Ok(cache[g]);
      }
      var response :- StartExperimentalRun(link, g.kp, g.ki, g.kd, runTime, dumpRate, parse);
      var e := Experiment(ErrorValues(response, setPoint), response);
      cache := cache[g := e];
      experimentId := experimentId + 1;
      return Ok(e);
    }

    /** `log_trial_results`: append one row stamped with the current id, then
        advance the id. */
    method LogTrialResults(g: Gains, overshoot: ExtReal, riseTime: real, settlingTime: int, angles: seq<real>, sp: real)
      requires Valid()
      modifies this`results, this`experimentId
      ensures Valid()
      ensures results == old(results) + [TrialRow(old(experimentId), g, overshoot, riseTime, settlingTime, angles, sp)]
      ensures experimentId == old(experimentId) + 1
    {
      AppendKeepsIncreasing(results, experimentId, TrialRow(experimentId, g, overshoot, riseTime, settlingTime, angles, sp), experimentId + 1);
      results := results + [TrialRow(experimentId, g, overshoot, riseTime, settlingTime, angles, sp)];
      experimentId := experimentId + 1;
    }

    /** `constraint_function`: `(overshoot, rise_time)` of the run; no row is
        logged and only a device run moves the id. */
    method ConstraintFunction(g: Gains) returns (r: Result<(ExtReal, real)>)
      requires Valid()
      modifies this`cache, this`experimentId, link
      ensures Valid()
      ensures var ex := ExperimentFor(old(cache), g, old(link.Pending()), setPoint, parse);
              r == (if ex.Ok? then ConstraintValues(ex.value.response, setPoint, riseTime) else Err(ex.error))
      ensures cache == CacheAfter(old(cache), g, old(link.Pending()), setPoint, parse)
      ensures link.Pending() == PendingAfter(old(cache), g, old(link.Pending()), parse)
      ensures experimentId ==
                old(experimentId) + (if g !in old(cache) && ExperimentFor(old(cache), g, old(link.Pending()), setPoint, parse).Ok? then 1 else 0)
    {
      var e :- RunExperiment(g);
      return ConstraintValues(e.response, setPoint, riseTime);
    }

    /** `objective_function`: settling time (tolerance 0.05), overshoot and
        rise time of the run, one logged row, and the negated settling time
        for the maximiser. An exception on the way logs nothing. The row's id
        skips one when the run was a device run, so logged ids increase but
        are not consecutive. */
    method ObjectiveFunction(g: Gains) returns (r: Result<int>)
      requires Valid()
      modifies this`results, this`experimentId, this`cache, link
      ensures Valid()
      ensures var ex := ExperimentFor(old(cache), g, old(link.Pending()), setPoint, parse);
              var sc := if ex.Ok? then ObjectiveScores(ex.value.response, setPoint, riseTime) else Err(ex.error);
              (r.Ok? <==> sc.Ok?) &&
              (r.Ok? ==>
                 r.value == -sc.value.settlingTime &&
                 |results| == |old(results)| + 1 && results[..|old(results)|] == old(results) &&
                 results[|old(results)|] ==
                   RowOf(old(experimentId) + (if g in old(cache) then 0 else 1), g, sc.value, ex.value.response, setPoint)) &&
              (r.Err? ==> r.error == sc.error && results == old(results))
      ensures experimentId ==
                old(experimentId) +
                (if g !in old(cache) && ExperimentFor(old(cache), g, old(link.Pending()), setPoint, parse).Ok? then 1 else 0) +
                (if r.Ok? then 1 else 0)
      ensures cache == CacheAfter(old(cache), g, old(link.Pending()), setPoint, parse)
      ensures link.Pending() == PendingAfter(old(cache), g, old(link.Pending()), parse)
    {
      var e := RunExperiment(g);
      if e.Err? {
        r := Err(e.error);
      } else {
        var sc := ObjectiveScores(e.value.response, setPoint, riseTime);
        if sc.Err? {
          r := Err(sc.error);
        } else {
          LogTrialResults(g, sc.value.overshoot, sc.value.riseTime, sc.value.settlingTime, e.value.response, setPoint);
          r := Ok(-sc.value.settlingTime);
        }
      }
    }

    /** The library registering one point: the objective first, then the
        constraint. Only the objective can fail: the constraint replays the
        run the objective has just cached. */
    method Probe(g: Gains) returns (r: Result<Observation>)
      requires Valid()
      modifies this`results, this`experimentId, this`cache, link
      ensures Valid()
      ensures var p := ProbeFrom(old(Current()), g,
                                 ExperimentFor(old(cache), g, old(link.Pending()), setPoint, parse),
                                 CacheAfter(old(cache), g, old(link.Pending()), setPoint, parse),
                                 PendingAfter(old(cache), g, old(link.Pending()), parse), setPoint, riseTime);
              r == p.0 && Current() == p.1
    {
      ghost var s0 := Current();
      ghost var ex := ExperimentFor(cache, g, link.Pending(), setPoint, parse);
      ExperimentForCases(cache, g, link.Pending(), setPoint, parse);
      var target := ObjectiveFunction(g);
      if target.Err? {
        r := Err(target.error);
      } else {
        // The objective cached this triple and its overshoot was defined, so
        // the constraint is answered from the cache and cannot fail.
        ExperimentForCases(cache, g, link.Pending(), setPoint, parse);
        var c := ConstraintFunction(g);
        r := Ok(Observation(g, target.value, c.value));
      }
      ProbeFromMatches(s0, g, ex, cache, link.Pending(), setPoint, riseTime, r, experimentId, results);
    }

    /** The probes of `run` in order: each point is probed until one fails;
        the changes made up to it stay. */
    method ProbePlan(points: seq<Gains>) returns (r: Result<seq<Observation>>)
      requires Valid()
      modifies this`results, this`experimentId, this`cache, link
      ensures Valid()
      ensures var p := ProbeAll(old(Current()), points, Prober(setPoint, parse, riseTime));
              r == p.0 && Current() == p.1
    {
      ghost var step := Prober(setPoint, parse, riseTime);
      ghost var s0 := Current();
      var observations: seq<Observation> := [];
      var k := 0;
      while k < |points|
        invariant Valid()
        invariant 0 <= k <= |points|
        invariant ProbeAll(s0, points[..k], step) == (Ok(observations), Current())
      {
        ProberIsProbeFrom(setPoint, parse, riseTime, Current(), points[k]);
        ProbeAllNext(s0, points, k, step);
        var o := Probe(points[k]);
        if o.Err? {
          ProbeAllStops(s0, points, k + 1, step);
          return Err(o.error);
        }
        observations := observations + [o.value];
        k := k + 1;
      }
      assert points[..k] == points;
      return Ok(observations);
    }

    /** `run`: probe the seed state, then `maximize` over the points the
        library proposes, in order; the first exception ends the run, and
        the changes made up to it stay. */
    method Run(proposals: seq<Gains>) returns (r: Result<seq<Observation>>)
      requires Valid()
      modifies this`results, this`experimentId, this`cache, link
      ensures Valid()
      ensures var p := ProbeAll(old(Current()), [initState] + proposals, Prober(setPoint, parse, riseTime));
              r == p.0 && Current() == p.1
      ensures r.Err? ==>
                exists j :: 0 <= j < |[initState] + proposals| &&
                  FailsAt(old(Current()), [initState] + proposals, j, Prober(setPoint, parse, riseTime))
      ensures r.Ok? ==>
                var points := [initState] + proposals;
                |r.value| == |points| && |results| == |old(results)| + |points| &&
                forall i :: 0 <= i < |points| ==>
                  r.value[i].params == points[i] &&
                  results[|old(results)| + i].gains == points[i] &&
                  r.value[i].target == -results[|old(results)| + i].settlingTime
    {
      var points := [initState] + proposals;
      ghost var s0 := Current();
      r := ProbePlan(points);
      if r.Err? {
        ProbeAllFirstFailure(s0, points, Prober(setPoint, parse, riseTime));
      } else {
        ProberLogsObserved(setPoint, parse, riseTime);
        ProbeAllRecords(s0, points, Prober(setPoint, parse, riseTime));
      }
    }
  }
}
