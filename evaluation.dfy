/** What the two optimiser sessions share: a gain triple, the memoised
    experiment run, the scores computed from a response, the trial row that
    is logged, the constraint bound vectors and the seed population of
    differential evolution. */
module Evaluation {
  import opened Common
  import opened Metrics
  import opened Protocol

  /** The gain triple `(kp, ki, kd)`, the key of the experiment cache. */
  datatype Gains = Gains(kp: real, ki: real, kd: real)

  /** What `_run_experiment` returns: `(error_values, response_data)`. */
  datatype Experiment = Experiment(errors: seq<real>, response: seq<real>)

  /** `calculate_rise_time` is not part of this model; it is a parameter. */
  type RiseTime = (seq<real>, real) -> real

  /** `[output - set_point for output in response]`. */
  function ErrorValues(response: seq<real>, sp: real): (errors: seq<real>)
    ensures |errors| == |response|
    ensures forall i :: 0 <= i < |response| ==> errors[i] == response[i] - sp
  {
    if response == [] then [] else [response[0] - sp] + ErrorValues(response[1..], sp)
  }

  /** Every cached pair was built from its own response. */
  ghost predicate CacheConsistent(cache: map<Gains, Experiment>, sp: real)
  {
    forall g :: g in cache ==> cache[g].errors == ErrorValues(cache[g].response, sp)
  }

  // ---------------------------------------------------------------------------
  // The memoised experiment
  // ---------------------------------------------------------------------------

  /** What `_run_experiment(g)` yields when the device would send `lines`: the
      cached pair for a known triple, otherwise the handshake's series and its
      errors; a failed handshake is not cached. */
  function ExperimentFor(cache: map<Gains, Experiment>, g: Gains, lines: seq<string>, sp: real, parse: Parser)
    : Result<Experiment>
  {
    if g in cache then Ok(cache[g])
    else
      var response :- HandshakeResult(lines, parse);
      Ok(Experiment(ErrorValues(response, sp), response))
  }

  /** The cache after that call. */
  function CacheAfter(cache: map<Gains, Experiment>, g: Gains, lines: seq<string>, sp: real, parse: Parser)
    : map<Gains, Experiment>
  {
    var e := ExperimentFor(cache, g, lines, sp, parse);
    if g !in cache && e.Ok? then cache[g := e.value] else cache
  }

  /** The lines the device still has to send after that call: a cache hit
      reads nothing. */
  function PendingAfter(cache: map<Gains, Experiment>, g: Gains, lines: seq<string>, parse: Parser)
    : seq<string>
  {
    if g in cache then lines else lines[LinesRead(lines, parse)..]
  }

  /** A call either is a hit, which touches neither the device nor the cache,
      or a miss that runs the handshake and on success caches its series
      under exactly this triple. */
  lemma ExperimentForCases(cache: map<Gains, Experiment>, g: Gains, lines: seq<string>, sp: real, parse: Parser)
    ensures g in cache ==>
              ExperimentFor(cache, g, lines, sp, parse) == Ok(cache[g]) &&
              CacheAfter(cache, g, lines, sp, parse) == cache &&
              PendingAfter(cache, g, lines, parse) == lines
    ensures g !in cache ==>
              (ExperimentFor(cache, g, lines, sp, parse).Ok? <==> HandshakeResult(lines, parse).Ok?) &&
              (HandshakeResult(lines, parse).Err? ==>
                 ExperimentFor(cache, g, lines, sp, parse).error == HandshakeResult(lines, parse).error &&
                 CacheAfter(cache, g, lines, sp, parse) == cache)
    ensures ExperimentFor(cache, g, lines, sp, parse).Ok? <==> g in CacheAfter(cache, g, lines, sp, parse)
    ensures ExperimentFor(cache, g, lines, sp, parse).Ok? ==>
              CacheAfter(cache, g, lines, sp, parse)[g] == ExperimentFor(cache, g, lines, sp, parse).value
    ensures CacheAfter(cache, g, lines, sp, parse).Keys <= cache.Keys + {g}
    ensures forall h :: h in cache ==>
              h in CacheAfter(cache, g, lines, sp, parse) && CacheAfter(cache, g, lines, sp, parse)[h] == cache[h]
  {
  }

  /** A memoised run keeps every cached pair consistent with its response. */
  lemma CacheAfterConsistent(cache: map<Gains, Experiment>, g: Gains, lines: seq<string>, sp: real, parse: Parser)
    requires CacheConsistent(cache, sp)
    ensures CacheConsistent(CacheAfter(cache, g, lines, sp, parse), sp)
    ensures ExperimentFor(cache, g, lines, sp, parse).Ok? ==>
              var e := ExperimentFor(cache, g, lines, sp, parse).value;
              e.errors == ErrorValues(e.response, sp)
  {
  }

  /** Asking twice for the same triple runs the device once: the second call
      returns the first call's pair whatever the device would send next, and
      reads nothing. */
  lemma SecondRunIsReplayed(cache: map<Gains, Experiment>, g: Gains, lines: seq<string>, later: seq<string>, sp: real, parse: Parser)
    requires ExperimentFor(cache, g, lines, sp, parse).Ok?
    ensures var c := CacheAfter(cache, g, lines, sp, parse);
            ExperimentFor(c, g, later, sp, parse) == ExperimentFor(cache, g, lines, sp, parse) &&
            CacheAfter(c, g, later, sp, parse) == c &&
            PendingAfter(c, g, later, parse) == later
  {
  }

  /** Once the cache is cleared a known triple runs the device again. */
  lemma ClearedCacheRerunsDevice(g: Gains, lines: seq<string>, sp: real, parse: Parser)
    ensures ExperimentFor(map[], g, lines, sp, parse).Ok? <==> HandshakeResult(lines, parse).Ok?
    ensures PendingAfter(map[], g, lines, parse) == lines[LinesRead(lines, parse)..]
  {
  }

  // ---------------------------------------------------------------------------
  // Scores and trial rows
  // ---------------------------------------------------------------------------

  /** The tolerance and sample period the objective functions use. */
  const ObjectiveTolerance: real := 0.05
  const SamplePeriod: int := 100

  /** The scores of one response, computed in the order the objective
      functions compute them: settling time, overshoot, rise time. */
  datatype Scores = Scores(settlingTime: int, overshoot: ExtReal, riseTime: real)

  function ObjectiveScores(response: seq<real>, sp: real, riseTime: RiseTime): (r: Result<Scores>)
    ensures r.Ok? <==> SettlingTimeOf(response, sp, ObjectiveTolerance, SamplePeriod).Ok? && Overshoot(response, sp).Ok?
    ensures r.Ok? ==>
              r.value.settlingTime == SettlingTimeOf(response, sp, ObjectiveTolerance, SamplePeriod).value &&
              r.value.overshoot == Overshoot(response, sp).value &&
              r.value.riseTime == riseTime(response, sp)
    ensures SettlingTimeOf(response, sp, ObjectiveTolerance, SamplePeriod).Err? ==>
              r == Err(SettlingTimeOf(response, sp, ObjectiveTolerance, SamplePeriod).error)
  {
    var st :- SettlingTimeOf(response, sp, ObjectiveTolerance, SamplePeriod);
    var ov :- Overshoot(response, sp);
    Ok(Scores(st, ov, riseTime(response, sp)))
  }

  /** What the objective function computes from a memoised run, or the
      exception that stops it. */
  function ObjectiveOutcome(ex: Result<Experiment>, sp: real, riseTime: RiseTime): Result<Scores>
  {
    var e :- ex;
    ObjectiveScores(e.response, sp, riseTime)
  }

  /** The constraint value `[overshoot, rise_time]` of one response. */
  function ConstraintValues(response: seq<real>, sp: real, riseTime: RiseTime): (r: Result<(ExtReal, real)>)
    ensures r.Ok? <==> response != [] && sp != 0.0
    ensures r.Ok? ==> r.value == (Overshoot(response, sp).value, riseTime(response, sp))
    ensures r.Err? ==> r.error == Overshoot(response, sp).error
  {
    var ov :- Overshoot(response, sp);
    Ok((ov, riseTime(response, sp)))
  }

  /** One row of the results table. */
  datatype TrialRow = TrialRow(
    experimentId: int,
    gains: Gains,
    overshoot: ExtReal,
    riseTime: real,
    settlingTime: int,
    angles: seq<real>,
    setPoint: real)

  /** The row `log_trial_results` appends for a scored trial. */
  function RowOf(id: int, g: Gains, s: Scores, angles: seq<real>, sp: real): TrialRow
  {
    TrialRow(id, g, s.overshoot, s.riseTime, s.settlingTime, angles, sp)
  }

  /** Row ids run 1, 2, 3, ... in log order. */
  ghost predicate ConsecutiveIds(rows: seq<TrialRow>)
  {
    forall i :: 0 <= i < |rows| ==> rows[i].experimentId == i + 1
  }

  /** Row ids grow strictly in log order and stay below `next`. */
  ghost predicate IncreasingIds(rows: seq<TrialRow>, next: int)
  {
    (forall i, j :: 0 <= i < j < |rows| ==> rows[i].experimentId < rows[j].experimentId) &&
    (forall i :: 0 <= i < |rows| ==> 1 <= rows[i].experimentId < next)
  }

  /** Consecutive ids are a special case of increasing ones. */
  lemma ConsecutiveIdsIncrease(rows: seq<TrialRow>)
    requires ConsecutiveIds(rows)
    ensures IncreasingIds(rows, |rows| + 1)
  {
  }

  /** Appending a row stamped with `next` keeps the ids increasing, for any
      later bump of the counter. */
  lemma AppendKeepsIncreasing(rows: seq<TrialRow>, next: int, row: TrialRow, next': int)
    requires IncreasingIds(rows, next)
    requires row.experimentId == next && next < next'
    requires next >= 1
    ensures IncreasingIds(rows + [row], next')
  {
  }

  // ---------------------------------------------------------------------------
  // Constraint bounds and the seed population
  // ---------------------------------------------------------------------------

  /** `parameters_bounds`: the `(lower, upper)` range of each gain, by
      name, in insertion order. The sessions store it and hand it to the
      library, which is not part of this model. */
  type ParameterBounds = seq<(string, (real, real))>

  /** An ordered mapping from constraint name to `(lower, upper)`, in
      insertion order. */
  type ConstraintMap = seq<(string, (real, real))>

  /** `[c[name][0] for name in c]` and `[c[name][1] for name in c]`, in the
      mapping's key order. A missing mapping (`None`) cannot be iterated. */
  function ConstraintBoundVectors(c: Option<ConstraintMap>): (r: Result<(seq<real>, seq<real>)>)
    ensures r.Err? <==> c.None?
    ensures r.Err? ==> r.error == TypeError
    ensures r.Ok? ==>
              |r.value.0| == |c.value| && |r.value.1| == |c.value| &&
              forall i :: 0 <= i < |c.value| ==> (r.value.0[i], r.value.1[i]) == c.value[i].1
  {
    match c
    case None => Err(TypeError)
    case Some(m) => Ok((Lowers(m), Uppers(m)))
  }

  function Lowers(m: ConstraintMap): (r: seq<real>)
    ensures |r| == |m|
    ensures forall i :: 0 <= i < |m| ==> r[i] == m[i].1.0
  {
    if m == [] then [] else [m[0].1.0] + Lowers(m[1..])
  }

  function Uppers(m: ConstraintMap): (r: seq<real>)
    ensures |r| == |m|
    ensures forall i :: 0 <= i < |m| ==> r[i] == m[i].1.1
  {
    if m == [] then [] else [m[0].1.1] + Uppers(m[1..])
  }

  /** `randint(1, 25)` and `randint(0, 100)`: the random draws are inputs. */
  type KpDraw = n: int | 1 <= n <= 25 witness 1
  type PercentDraw = n: int | 0 <= n <= 100 witness 0

  datatype Draw = Draw(kp: KpDraw, ki: PercentDraw, kd: PercentDraw)

  /** A random row of the seed population: an integer Kp in 1..25 and Ki, Kd
      on the grid 0, 0.01, ..., 1.00. */
  function RandomRow(d: Draw): Gains
  {
    Gains(d.kp as real, d.ki as real / 100.0, d.kd as real / 100.0)
  }

  predicate IsWhole(x: real)
  {
    x == x.Floor as real
  }

  /** Kp a whole number in 1..25; Ki and Kd whole hundredths in 0..1. */
  predicate OnSeedGrid(g: Gains)
  {
    IsWhole(g.kp) && 1.0 <= g.kp <= 25.0 &&
    IsWhole(g.ki * 100.0) && 0.0 <= g.ki <= 1.0 &&
    IsWhole(g.kd * 100.0) && 0.0 <= g.kd <= 1.0
  }

  /** The grid is exactly what the draws produce: every draw lands on it, and
      every point of it is the row of the draw read back from its values. */
  lemma RandomRowOnGrid(d: Draw)
    ensures OnSeedGrid(RandomRow(d))
  {
    var g := RandomRow(d);
    assert g.ki * 100.0 == d.ki as real;
    assert g.kd * 100.0 == d.kd as real;
  }

  lemma SeedGridCovered(g: Gains)
    requires OnSeedGrid(g)
    ensures var d := Draw(g.kp.Floor, (g.ki * 100.0).Floor, (g.kd * 100.0).Floor);
            RandomRow(d) == g
  {
    var ki := (g.ki * 100.0).Floor;
    var kd := (g.kd * 100.0).Floor;
    assert ki as real == g.ki * 100.0;
    assert kd as real == g.kd * 100.0;
    assert 0 <= ki <= 100 && 0 <= kd <= 100;
  }

  /** The `init` array handed to `differential_evolution`: the selected seed
      state, then four random rows. */
  function InitialPopulation(seed: Gains, d1: Draw, d2: Draw, d3: Draw, d4: Draw): (rows: seq<Gains>)
    ensures |rows| == 5
    ensures rows[0] == seed
    ensures forall i :: 1 <= i < 5 ==> OnSeedGrid(rows[i])
  {
    RandomRowOnGrid(d1);
    RandomRowOnGrid(d2);
    RandomRowOnGrid(d3);
    RandomRowOnGrid(d4);
    [seed, RandomRow(d1), RandomRow(d2), RandomRow(d3), RandomRow(d4)]
  }
}
