/**
  The circuit breaker around the NER client.  A call holds the lock twice, before and after
  the upstream call, so calls interleave at the granularity of `Begin` and `Finish`.
 */
module Breaker {

  datatype Circuit = Closed | Open | HalfOpen

  /** The fields guarded by the mutex. */
  datatype State = State(failures: int, circuit: Circuit, openUntil: int, probeInFlight: bool)

  datatype Config = Config(failureThreshold: int, openInterval: int)

  /** Answer of the first critical section. */
  datatype Admission = Unavailable | Rejected | Admitted(probe: bool)

  const DEFAULT_THRESHOLD := 3
  const DEFAULT_INTERVAL := 30_000_000_000 // 30 seconds in nanoseconds
  const ZERO_TIME := 0

  predicate ValidConfig(cfg: Config) {
    cfg.failureThreshold > 0 && cfg.openInterval > 0
  }

  function Opened(cfg: Config, st: State, now: int): State {
    st.(circuit := Open, failures := cfg.failureThreshold, openUntil := now + cfg.openInterval)
  }

  function Admit(st: State, now: int): (State, Admission) {
    match st.circuit
    case Closed => (st, Admitted(false))
    case Open =>
      if now < st.openUntil then (st, Rejected)
      else (st.(circuit := HalfOpen, probeInFlight := true), Admitted(true))
    case HalfOpen =>
      if st.probeInFlight then (st, Rejected) else (st.(probeInFlight := true), Admitted(true))
  }

  function Settle(cfg: Config, st: State, probe: bool, ok: bool, now: int): State {
    var released := if probe then st.(probeInFlight := false) else st;
    if ok then released.(failures := 0, circuit := Closed, openUntil := ZERO_TIME)
    else if probe then Opened(cfg, released, now)
    else if st.circuit == Closed then
      var counted := released.(failures := st.failures + 1);
      if counted.failures >= cfg.failureThreshold then Opened(cfg, counted, now) else counted
    else released
  }

  class NERCircuitBreaker {
    const hasClient: bool
    const failureThreshold: int
    const openInterval: int
    var failures: int
    var state: Circuit
    var openUntil: int
    var probeInFlight: bool

    ghost function View(): State
      reads this
    {
      State(failures, state, openUntil, probeInFlight)
    }

    function Cfg(): Config {
      Config(failureThreshold, openInterval)
    }

    constructor (hasClient: bool, threshold: int, interval: int)
      ensures View() == INITIAL && ValidConfig(Cfg()) && this.hasClient == hasClient
      ensures threshold > 0 ==> failureThreshold == threshold
      ensures threshold <= 0 ==> failureThreshold == DEFAULT_THRESHOLD
      ensures interval > 0 ==> openInterval == interval
      ensures interval <= 0 ==> openInterval == DEFAULT_INTERVAL
    {
      this.hasClient := hasClient;
      failureThreshold := if threshold <= 0 then DEFAULT_THRESHOLD else threshold;
      openInterval := if interval <= 0 then DEFAULT_INTERVAL else interval;
      failures, state, openUntil, probeInFlight := 0, Closed, ZERO_TIME, false;
    }

    /** Up to the first unlock. */
    method Begin(now: int) returns (a: Admission)
      modifies this
      ensures !hasClient ==> a == Unavailable && View() == old(View())
      ensures hasClient ==> (View(), a) == Admit(old(View()), now)
    {
      if !hasClient {
        return Unavailable;
      }
      match state {
        case Open =>
          if now < openUntil {
            return Rejected;
          }
          state := HalfOpen;
        case HalfOpen =>
          if probeInFlight {
            return Rejected;
          }
        case Closed =>
      }
      var halfOpenProbe := state == HalfOpen;
      if halfOpenProbe {
        probeInFlight := true;
      }
      a := Admitted(halfOpenProbe);
    }

    /** From the second lock on, once the upstream call has answered. */
    method Finish(halfOpenProbe: bool, ok: bool, now: int)
      modifies this
      ensures View() == Settle(Cfg(), old(View()), halfOpenProbe, ok, now)
    {
      if halfOpenProbe {
        probeInFlight := false;
      }
      if !ok {
        if halfOpenProbe {
          Trip(now);
          return;
        }
        if state == Closed {
          failures := failures + 1;
          if failures >= failureThreshold {
            Trip(now);
          }
        }
        return;
      }
      failures, state, openUntil := 0, Closed, ZERO_TIME;
    }

    method Trip(now: int)
      modifies this
      ensures View() == Opened(Cfg(), old(View()), now)
    {
      state, failures, openUntil := Open, failureThreshold, now + openInterval;
    }
  }

  const INITIAL: State := State(0, Closed, ZERO_TIME, false)

  // ---- Interleaved calls ----------------------------------------------------------------

  /** The breaker, the upstream calls in flight (and which are probes), and the clock. */
  datatype System = System(st: State, inFlight: map<nat, bool>, clock: int)

  datatype Step = Begin(id: nat, now: int) | Finish(id: nat, ok: bool, now: int)

  ghost predicate Enabled(s: System, step: Step) {
    step.now >= s.clock &&
    match step
    case Begin(id, _) => id !in s.inFlight
    case Finish(id, _, _) => id in s.inFlight
  }

  ghost predicate Starts(s: System, step: Step) {
    step.Begin? && Admit(s.st, step.now).1.Admitted?
  }

  ghost function Do(cfg: Config, s: System, step: Step): System
    requires Enabled(s, step)
  {
    match step
    case Begin(id, now) =>
      var (st, a) := Admit(s.st, now);
      System(st, if a.Admitted? then s.inFlight[id := a.probe] else s.inFlight, now)
    case Finish(id, ok, now) =>
      System(Settle(cfg, s.st, s.inFlight[id], ok, now), s.inFlight - {id}, now)
  }

  ghost predicate Runs(cfg: Config, s: System, steps: seq<Step>)
    decreases |steps|
  {
    steps == [] || (Enabled(s, steps[0]) && Runs(cfg, Do(cfg, s, steps[0]), steps[1..]))
  }

  ghost function After(cfg: Config, s: System, steps: seq<Step>): System
    requires Runs(cfg, s, steps)
    decreases |steps|
  {
    if steps == [] then s else After(cfg, Do(cfg, s, steps[0]), steps[1..])
  }

  /** The times at which upstream calls start. */
  ghost function StartTimes(cfg: Config, s: System, steps: seq<Step>): seq<int>
    requires Runs(cfg, s, steps)
    decreases |steps|
  {
    if steps == [] then []
    else (if Starts(s, steps[0]) then [steps[0].now] else []) + StartTimes(cfg, Do(cfg, s, steps[0]), steps[1..])
  }

  ghost predicate NoSuccess(steps: seq<Step>) {
    forall i | 0 <= i < |steps| :: steps[i].Finish? ==> !steps[i].ok
  }

  // ---- What holds whenever the lock is free ------------------------------------------------

  ghost predicate Inv(cfg: Config, s: System) {
    && ValidConfig(cfg)
    && (s.st.circuit == HalfOpen ==> s.st.probeInFlight)
    && (s.st.probeInFlight ==> exists id :: id in s.inFlight && s.inFlight[id])
    && (s.st.circuit == Closed ==> 0 <= s.st.failures < cfg.failureThreshold)
    && (s.st.circuit != Closed ==> s.st.failures == cfg.failureThreshold)
  }

  lemma InitialInv(cfg: Config, clock: int)
    requires ValidConfig(cfg)
    ensures Inv(cfg, System(INITIAL, map[], clock))
  {
  }

  lemma {:induction false} StepKeepsInv(cfg: Config, s: System, step: Step)
    requires Inv(cfg, s) && Enabled(s, step)
    ensures Inv(cfg, Do(cfg, s, step))
  {
    var next := Do(cfg, s, step);
    if next.st.probeInFlight {
      if Starts(s, step) && Admit(s.st, step.now).1.probe {
        assert next.inFlight[step.id];
      } else {
        var id :| id in s.inFlight && s.inFlight[id];
        assert id in next.inFlight && next.inFlight[id];
      }
    }
  }

  /** The invariant holds after every interleaving. */
  lemma {:induction false} RunKeepsInv(cfg: Config, s: System, steps: seq<Step>)
    requires Inv(cfg, s) && Runs(cfg, s, steps)
    ensures Inv(cfg, After(cfg, s, steps))
    decreases |steps|
  {
    if steps != [] {
      StepKeepsInv(cfg, s, steps[0]);
      RunKeepsInv(cfg, Do(cfg, s, steps[0]), steps[1..]);
    }
  }

  ghost predicate StaysHalfOpen(cfg: Config, s: System, steps: seq<Step>)
    requires Runs(cfg, s, steps)
    decreases |steps|
  {
    s.st.circuit == HalfOpen &&
    (steps == [] || StaysHalfOpen(cfg, Do(cfg, s, steps[0]), steps[1..]))
  }

  lemma {:induction false} HalfOpenAdmitsNone(cfg: Config, s: System, steps: seq<Step>)
    requires Inv(cfg, s) && Runs(cfg, s, steps) && StaysHalfOpen(cfg, s, steps)
    ensures StartTimes(cfg, s, steps) == []
    decreases |steps|
  {
    if steps != [] {
      StepKeepsInv(cfg, s, steps[0]);
      HalfOpenAdmitsNone(cfg, Do(cfg, s, steps[0]), steps[1..]);
    }
  }

  /** A half-open episode admits exactly the one call that begins it, and that call is a probe. */
  lemma {:induction false} EpisodeAdmitsOne(cfg: Config, s: System, steps: seq<Step>)
    requires Inv(cfg, s) && Runs(cfg, s, steps) && steps != [] && s.st.circuit != HalfOpen
    requires StaysHalfOpen(cfg, Do(cfg, s, steps[0]), steps[1..])
    ensures StartTimes(cfg, s, steps) == [steps[0].now]
    ensures steps[0].Begin? && Do(cfg, s, steps[0]).inFlight == s.inFlight[steps[0].id := true]
  {
    StepKeepsInv(cfg, s, steps[0]);
    HalfOpenAdmitsNone(cfg, Do(cfg, s, steps[0]), steps[1..]);
  }

  /** Half-open never gets stuck: a probe is in flight, and its end leaves the state either way. */
  lemma {:induction false} HalfOpenEnds(cfg: Config, s: System) returns (id: nat)
    requires Inv(cfg, s) && s.st.circuit == HalfOpen
    ensures id in s.inFlight
    ensures forall ok, now | now >= s.clock ::
      var next := Do(cfg, s, Finish(id, ok, now)).st;
      if ok then next.circuit == Closed && next.failures == 0
      else next.circuit == Open && next.openUntil == now + cfg.openInterval
  {
    id :| id in s.inFlight && s.inFlight[id];
  }

  // ---- Storm bound --------------------------------------------------------------------------

  /** Not closed, and no start before one interval after `base`. */
  ghost predicate Quiet(cfg: Config, s: System, base: int) {
    match s.st.circuit
    case Closed => false
    case Open => s.st.openUntil >= base + cfg.openInterval && s.clock >= base
    case HalfOpen => s.clock >= base
  }

  ghost predicate Spaced(times: seq<int>, base: int, interval: int) {
    && (times != [] ==> times[0] >= base + interval)
    && (forall i | 1 <= i < |times| :: Gap(times, i, interval))
  }

  ghost predicate Gap(times: seq<int>, i: nat, interval: int)
    requires 1 <= i < |times|
  {
    times[i] >= times[i - 1] + interval
  }

  lemma {:induction false} SpacedCons(t: int, times: seq<int>, base: int, interval: int)
    requires t >= base + interval && Spaced(times, t, interval)
    ensures Spaced([t] + times, base, interval)
  {
    forall i | 1 <= i < |times| + 1
      ensures Gap([t] + times, i, interval)
    {
      if i > 1 {
        assert Gap(times, i - 1, interval);
      }
    }
  }

  lemma QuietStep(cfg: Config, s: System, base: int, step: Step)
    requires Inv(cfg, s) && Quiet(cfg, s, base) && Enabled(s, step)
    requires step.Finish? ==> !step.ok
    ensures Quiet(cfg, Do(cfg, s, step), if Starts(s, step) then step.now else base)
    ensures Starts(s, step) ==> step.now >= base + cfg.openInterval
  {
  }

  /** While no upstream call succeeds, starts keep one interval apart, over every interleaving. */
  lemma {:induction false} StartsAreSpaced(cfg: Config, s: System, base: int, steps: seq<Step>)
    requires Inv(cfg, s) && Quiet(cfg, s, base) && Runs(cfg, s, steps) && NoSuccess(steps)
    ensures Spaced(StartTimes(cfg, s, steps), base, cfg.openInterval)
    decreases |steps|
  {
    if steps != [] {
      var step, next := steps[0], Do(cfg, s, steps[0]);
      assert forall i | 0 <= i < |steps[1..]| :: steps[1..][i] == steps[i + 1];
      QuietStep(cfg, s, base, step);
      StepKeepsInv(cfg, s, step);
      var rest := StartTimes(cfg, next, steps[1..]);
      if Starts(s, step) {
        StartsAreSpaced(cfg, next, step.now, steps[1..]);
        SpacedCons(step.now, rest, base, cfg.openInterval);
      } else {
        StartsAreSpaced(cfg, next, base, steps[1..]);
        assert [] + rest == rest;
      }
    }
  }

  lemma {:induction false} StartsByClock(cfg: Config, s: System, steps: seq<Step>)
    requires Runs(cfg, s, steps)
    ensures s.clock <= After(cfg, s, steps).clock
    ensures forall t | t in StartTimes(cfg, s, steps) :: t <= After(cfg, s, steps).clock
    decreases |steps|
  {
    if steps != [] {
      StartsByClock(cfg, Do(cfg, s, steps[0]), steps[1..]);
    }
  }

  lemma {:induction false} SpacedReaches(times: seq<int>, base: int, interval: int, i: nat)
    requires Spaced(times, base, interval) && i < |times|
    ensures times[i] >= base + (i + 1) * interval
  {
    if i > 0 {
      assert Gap(times, i, interval);
      SpacedReaches(times, base, interval, i - 1);
      assert (i + 1) * interval == i * interval + interval;
    }
  }

  /**
    Storm bound: from the instant the breaker opens, while no upstream call succeeds, at
    most D / openInterval upstream calls start in the next D time units.
   */
  lemma {:induction false} StormBound(cfg: Config, s: System, opening: Step, steps: seq<Step>, d: nat)
    requires Inv(cfg, s) && Enabled(s, opening) && s.st.circuit != Open
    requires Do(cfg, s, opening).st.circuit == Open
    requires Runs(cfg, Do(cfg, s, opening), steps) && NoSuccess(steps)
    requires After(cfg, Do(cfg, s, opening), steps).clock <= opening.now + d
    ensures var times := StartTimes(cfg, Do(cfg, s, opening), steps);
            && Spaced(times, opening.now, cfg.openInterval)
            && |times| <= d / cfg.openInterval
  {
    var open := Do(cfg, s, opening);
    StepKeepsInv(cfg, s, opening);
    StartsAreSpaced(cfg, open, opening.now, steps);
    var times := StartTimes(cfg, open, steps);
    if times != [] {
      StartsByClock(cfg, open, steps);
      assert times[|times| - 1] in times;
      SpacedReaches(times, opening.now, cfg.openInterval, |times| - 1);
      Quotient(|times|, cfg.openInterval, d);
    }
  }

  lemma {:induction false} Quotient(n: nat, k: int, d: nat)
    requires k > 0 && n * k <= d
    ensures n <= d / k
  {
    assert d == (d / k) * k + d % k;
    assert n * k < (d / k + 1) * k;
  }

  // ---- How many probes at once ----------------------------------------------------------------

  ghost predicate AtMostOneProbe(s: System) {
    forall a, b :: a in s.inFlight && b in s.inFlight && s.inFlight[a] && s.inFlight[b] ==> a == b
  }

  /** Probes are in flight only while half-open, one at a time. */
  ghost predicate Alone(s: System) {
    AtMostOneProbe(s) && forall id :: id in s.inFlight && s.inFlight[id] ==> s.st.circuit == HalfOpen
  }

  /** An older call succeeds while a probe is out, and closes the circuit over it. */
  ghost predicate Overtakes(s: System, step: Step) {
    step.Finish? && step.ok && step.id in s.inFlight && !s.inFlight[step.id] && s.st.circuit == HalfOpen
  }

  ghost predicate NoOvertaking(cfg: Config, s: System, steps: seq<Step>)
    requires Runs(cfg, s, steps)
    decreases |steps|
  {
    steps == [] || (!Overtakes(s, steps[0]) && NoOvertaking(cfg, Do(cfg, s, steps[0]), steps[1..]))
  }

  /** Overtaking is the one step that leaves a probe behind outside the half-open state. */
  lemma {:induction false} AloneUnlessOvertaken(cfg: Config, s: System, step: Step)
    requires Inv(cfg, s) && Alone(s) && Enabled(s, step)
    ensures Alone(Do(cfg, s, step)) <==> !Overtakes(s, step)
  {
    var next := Do(cfg, s, step);
    if Overtakes(s, step) {
      var id :| id in s.inFlight && s.inFlight[id];
      assert id in next.inFlight && next.inFlight[id] && next.st.circuit == Closed;
    } else {
      forall a, b | a in next.inFlight && b in next.inFlight && next.inFlight[a] && next.inFlight[b]
        ensures a == b && next.st.circuit == HalfOpen
      {
        assert a == step.id || (a in s.inFlight && s.inFlight[a]);
        assert b == step.id || (b in s.inFlight && s.inFlight[b]);
      }
    }
  }

  /** Whatever else succeeds or fails, without overtaking there is never more than one probe in flight. */
  lemma {:induction false} RunKeepsAlone(cfg: Config, s: System, steps: seq<Step>)
    requires Inv(cfg, s) && Alone(s) && Runs(cfg, s, steps) && NoOvertaking(cfg, s, steps)
    ensures Alone(After(cfg, s, steps))
    decreases |steps|
  {
    if steps != [] {
      StepKeepsInv(cfg, s, steps[0]);
      AloneUnlessOvertaken(cfg, s, steps[0]);
      RunKeepsAlone(cfg, Do(cfg, s, steps[0]), steps[1..]);
    }
  }

  /** From a new breaker on: the invariant always, one probe at a time while nothing overtakes. */
  lemma {:induction false} NewBreaker(cfg: Config, clock: int, steps: seq<Step>)
    requires ValidConfig(cfg) && Runs(cfg, System(INITIAL, map[], clock), steps)
    ensures var start := System(INITIAL, map[], clock);
      && Inv(cfg, After(cfg, start, steps))
      && (NoOvertaking(cfg, start, steps) ==> AtMostOneProbe(After(cfg, start, steps)))
  {
    var start := System(INITIAL, map[], clock);
    InitialInv(cfg, clock);
    RunKeepsInv(cfg, start, steps);
    if NoOvertaking(cfg, start, steps) {
      RunKeepsAlone(cfg, start, steps);
    }
  }

  lemma {:induction false} OneStepMore(cfg: Config, s: System, step: Step, rest: seq<Step>)
    requires Enabled(s, step) && Runs(cfg, Do(cfg, s, step), rest)
    ensures Runs(cfg, s, [step] + rest)
    ensures After(cfg, s, [step] + rest) == After(cfg, Do(cfg, s, step), rest)
    ensures !Overtakes(s, step) && NoOvertaking(cfg, Do(cfg, s, step), rest) ==> NoOvertaking(cfg, s, [step] + rest)
  {
    assert ([step] + rest)[1..] == rest;
  }

  lemma {:induction false} Unused(calls: map<nat, bool>) returns (id: nat)
    ensures forall k | k in calls :: k < id
    decreases |calls|
  {
    if calls == map[] {
      id := 0;
    } else {
      var k :| k in calls;
      var rest := Unused(calls - {k});
      id := if k < rest then rest else k + 1;
      assert forall j | j in calls :: j == k || j in calls - {k};
    }
  }

  /** A run without overtaking that ends with two probes in flight. */
  ghost predicate Doubles(cfg: Config, s: System, steps: seq<Step>) {
    Runs(cfg, s, steps) && NoOvertaking(cfg, s, steps) && !AtMostOneProbe(After(cfg, s, steps))
  }

  lemma {:induction false} DoublesAfter(cfg: Config, s: System, step: Step, rest: seq<Step>)
    requires Enabled(s, step) && !Overtakes(s, step) && Doubles(cfg, Do(cfg, s, step), rest)
    ensures Doubles(cfg, s, [step] + rest)
  {
    OneStepMore(cfg, s, step, rest);
  }

  /** Once the open interval is over, a second probe starts beside one left behind. */
  lemma {:induction false} SecondProbeStarts(cfg: Config, s: System, left: nat) returns (steps: seq<Step>)
    requires Inv(cfg, s) && s.st.circuit == Open && left in s.inFlight && s.inFlight[left]
    ensures Doubles(cfg, s, steps)
  {
    var id := Unused(s.inFlight);
    var step := Begin(id, if s.clock < s.st.openUntil then s.st.openUntil else s.clock);
    var next := Do(cfg, s, step);
    assert next.inFlight[left] && next.inFlight[id] && left != id;
    DoublesAfter(cfg, s, step, []);
    steps := [step] + [];
  }

  /** Failing calls open a closed circuit, and so lead there too. */
  lemma {:induction false} LeftBehindDoubles(cfg: Config, s: System, left: nat) returns (steps: seq<Step>)
    requires Inv(cfg, s) && s.st.circuit != HalfOpen && left in s.inFlight && s.inFlight[left]
    ensures Doubles(cfg, s, steps)
    decreases cfg.failureThreshold - s.st.failures
  {
    if s.st.circuit == Open {
      steps := SecondProbeStarts(cfg, s, left);
    } else {
      var id := Unused(s.inFlight);
      var begin, finish := Begin(id, s.clock), Finish(id, false, s.clock);
      var begun := Do(cfg, s, begin);
      StepKeepsInv(cfg, s, begin);
      var failed := Do(cfg, begun, finish);
      StepKeepsInv(cfg, begun, finish);
      assert left in failed.inFlight && failed.inFlight[left];
      var rest;
      if failed.st.circuit == Open {
        rest := SecondProbeStarts(cfg, failed, left);
      } else {
        rest := LeftBehindDoubles(cfg, failed, left);
      }
      DoublesAfter(cfg, begun, finish, rest);
      DoublesAfter(cfg, s, begin, [finish] + rest);
      steps := [begin] + ([finish] + rest);
    }
  }

  /**
    The exact condition, from any state of the breaker: every run without overtaking keeps
    to one probe at a time if and only if no probe was left behind, alone or beside another.
   */
  lemma {:induction false} OneProbeExactly(cfg: Config, s: System)
    requires Inv(cfg, s)
    ensures Alone(s) <==> forall steps :: !Doubles(cfg, s, steps)
  {
    if Alone(s) {
      forall steps
        ensures !Doubles(cfg, s, steps)
      {
        if Runs(cfg, s, steps) && NoOvertaking(cfg, s, steps) {
          RunKeepsAlone(cfg, s, steps);
        }
      }
    } else if AtMostOneProbe(s) {
      var left :| left in s.inFlight && s.inFlight[left] && s.st.circuit != HalfOpen;
      var steps := LeftBehindDoubles(cfg, s, left);
    } else {
      assert Doubles(cfg, s, []);
    }
  }

  /** So overtaking is what decides: after it, and after it only, some run without any more of it has two probes out. */
  lemma {:induction false} OvertakingDecides(cfg: Config, s: System, step: Step)
    requires Inv(cfg, s) && Alone(s) && Enabled(s, step)
    ensures Overtakes(s, step) <==> exists steps :: Doubles(cfg, Do(cfg, s, step), steps)
  {
    StepKeepsInv(cfg, s, step);
    AloneUnlessOvertaken(cfg, s, step);
    OneProbeExactly(cfg, Do(cfg, s, step));
  }

  /** A late success of an older call closes the circuit under a running probe, so two probes can meet. */
  lemma {:induction false} LateSuccessLetsProbesMeet() returns (cfg: Config, start: System, steps: seq<Step>)
    ensures ValidConfig(cfg) && start.st == INITIAL && start.inFlight == map[]
    ensures Runs(cfg, start, steps) && !AtMostOneProbe(After(cfg, start, steps))
  {
    cfg, start := Config(1, 1), System(INITIAL, map[], 0);
    var s1 := Do(cfg, start, Begin(0, 0));
    var s2 := Do(cfg, s1, Begin(1, 0));
    var s3 := Do(cfg, s2, Finish(1, false, 0));
    var s4 := Do(cfg, s3, Begin(2, 1));
    var s5 := Do(cfg, s4, Finish(0, true, 1));
    assert s5.st.circuit == Closed && s5.inFlight == map[2 := true];
    var s6 := Do(cfg, s5, Begin(3, 1));
    var s7 := Do(cfg, s6, Finish(3, false, 1));
    var s8 := Do(cfg, s7, Begin(4, 2));
    steps := [Begin(4, 2)] + [];
    OneStepMore(cfg, s7, Begin(4, 2), []);
    OneStepMore(cfg, s6, Finish(3, false, 1), steps);
    steps := [Finish(3, false, 1)] + steps;
    OneStepMore(cfg, s5, Begin(3, 1), steps);
    steps := [Begin(3, 1)] + steps;
    OneStepMore(cfg, s4, Finish(0, true, 1), steps);
    steps := [Finish(0, true, 1)] + steps;
    OneStepMore(cfg, s3, Begin(2, 1), steps);
    steps := [Begin(2, 1)] + steps;
    OneStepMore(cfg, s2, Finish(1, false, 0), steps);
    steps := [Finish(1, false, 0)] + steps;
    OneStepMore(cfg, s1, Begin(1, 0), steps);
    steps := [Begin(1, 0)] + steps;
    OneStepMore(cfg, start, Begin(0, 0), steps);
    steps := [Begin(0, 0)] + steps;
    assert s8.inFlight[2] && s8.inFlight[4];
  }

  // ---- When the circuit opens, and for how long ---------------------------------------------

  const NEW_BREAKER: map<nat, bool> := map[]

  /** Failed calls that ended since the last call that ended well, read off the steps alone. */
  ghost function FailedSinceSuccess(steps: seq<Step>): nat {
    if steps == [] then 0
    else
      var n := |steps| - 1;
      match steps[n]
      case Begin(_, _) => FailedSinceSuccess(steps[..n])
      case Finish(_, ok, _) => if ok then 0 else FailedSinceSuccess(steps[..n]) + 1
  }

  lemma {:induction false} LastStep(cfg: Config, s: System, steps: seq<Step>)
    requires Runs(cfg, s, steps) && steps != []
    ensures var n := |steps| - 1;
      && Runs(cfg, s, steps[..n])
      && Enabled(After(cfg, s, steps[..n]), steps[n])
      && After(cfg, s, steps) == Do(cfg, After(cfg, s, steps[..n]), steps[n])
    decreases |steps|
  {
    var n := |steps| - 1;
    if n == 0 {
      assert steps[..0] == [] && steps[1..] == [];
    } else {
      LastStep(cfg, Do(cfg, s, steps[0]), steps[1..]);
      assert steps[1..][..n - 1] == steps[..n][1..];
    }
  }

  /** While the circuit is closed, its counter is the number of failures since the last success. */
  lemma {:induction false} ClosedCounts(cfg: Config, clock: int, steps: seq<Step>)
    requires ValidConfig(cfg) && Runs(cfg, System(INITIAL, NEW_BREAKER, clock), steps)
    ensures var s := After(cfg, System(INITIAL, NEW_BREAKER, clock), steps);
      s.st.circuit == Closed ==> s.st.failures == FailedSinceSuccess(steps)
    decreases |steps|
  {
    if steps != [] {
      LastStep(cfg, System(INITIAL, NEW_BREAKER, clock), steps);
      ClosedCounts(cfg, clock, steps[..|steps| - 1]);
    }
  }

  /**
    A closed circuit admits every call, and opens exactly at the end of a failed call with
    which the failures since the last success reach the threshold (or of a probe that was
    left behind); then it stays open for the interval from there.
   */
  lemma {:induction false} OpensExactly(cfg: Config, clock: int, steps: seq<Step>, step: Step)
    requires ValidConfig(cfg) && Runs(cfg, System(INITIAL, NEW_BREAKER, clock), steps)
    requires var s := After(cfg, System(INITIAL, NEW_BREAKER, clock), steps); s.st.circuit == Closed && Enabled(s, step)
    ensures var s := After(cfg, System(INITIAL, NEW_BREAKER, clock), steps); var next := Do(cfg, s, step);
      && (next.st.circuit != Closed <==>
            step.Finish? && !step.ok && (s.inFlight[step.id] || FailedSinceSuccess(steps) + 1 == cfg.failureThreshold))
      && (next.st.circuit != Closed ==> next.st.circuit == Open && next.st.openUntil == step.now + cfg.openInterval)
      && (step.Begin? ==> Starts(s, step) && next.inFlight == s.inFlight[step.id := false])
  {
    InitialInv(cfg, clock);
    RunKeepsInv(cfg, System(INITIAL, NEW_BREAKER, clock), steps);
    ClosedCounts(cfg, clock, steps);
  }

  /** The end of a call that opens the circuit, or opens it again. */
  ghost predicate Trips(cfg: Config, s: System, step: Step)
    requires Enabled(s, step)
  {
    step.Finish? && !step.ok && (s.inFlight[step.id] || (s.st.circuit == Closed && Do(cfg, s, step).st.circuit != Closed))
  }

  /** The time of the last trip, or `t` if there was none. */
  ghost function LastTrip(cfg: Config, s: System, steps: seq<Step>, t: int): int
    requires Runs(cfg, s, steps)
    decreases |steps|
  {
    if steps == [] then t
    else LastTrip(cfg, Do(cfg, s, steps[0]), steps[1..], if Trips(cfg, s, steps[0]) then steps[0].now else t)
  }

  lemma {:induction false} OpenSince(cfg: Config, s: System, steps: seq<Step>, t: int)
    requires Inv(cfg, s) && Runs(cfg, s, steps) && (s.st.circuit == Open ==> s.st.openUntil == t + cfg.openInterval)
    ensures var after := After(cfg, s, steps);
      after.st.circuit == Open ==> after.st.openUntil == LastTrip(cfg, s, steps, t) + cfg.openInterval
    decreases |steps|
  {
    if steps != [] {
      StepKeepsInv(cfg, s, steps[0]);
      OpenSince(cfg, Do(cfg, s, steps[0]), steps[1..], if Trips(cfg, s, steps[0]) then steps[0].now else t);
    }
  }

  /**
    An open circuit turns calls away exactly until one interval after the last trip; the
    first call from then on goes through as a probe and makes it half-open.
   */
  lemma {:induction false} OpenExactly(cfg: Config, clock: int, steps: seq<Step>, step: Step)
    requires ValidConfig(cfg) && Runs(cfg, System(INITIAL, NEW_BREAKER, clock), steps) && step.Begin?
    requires var s := After(cfg, System(INITIAL, NEW_BREAKER, clock), steps); s.st.circuit == Open && Enabled(s, step)
    ensures var start := System(INITIAL, NEW_BREAKER, clock); var s := After(cfg, start, steps); var next := Do(cfg, s, step);
      if step.now < LastTrip(cfg, start, steps, clock) + cfg.openInterval then !Starts(s, step) && next.st == s.st && next.inFlight == s.inFlight
      else Starts(s, step) && next.st.circuit == HalfOpen && next.inFlight == s.inFlight[step.id := true]
  {
    InitialInv(cfg, clock);
    OpenSince(cfg, System(INITIAL, NEW_BREAKER, clock), steps, clock);
  }
}
