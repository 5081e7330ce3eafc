/** The loop that keeps one plugin process running: a budget of crashes, jittered backoff, and a table of
    state transitions, while Enable and Disable may be called at any moment.

    A `Step` is a section of the loop between two points where another goroutine can be noticed; what the
    process does is arbitrary.  Durations are nanoseconds of 64 bits. */
module Supervisor {
  datatype Status = Stopped | Starting | Healthy | Degraded | Crashed | Backoff | Disabled

  /** The documented table. */
  predicate CanTransition(a: Status, b: Status) {
    match a
    case Stopped => b == Starting || b == Disabled
    case Starting => b == Healthy || b == Degraded || b == Crashed || b == Disabled || b == Stopped
    case Healthy => b == Degraded || b == Crashed || b == Disabled || b == Stopped
    case Degraded => b == Healthy || b == Crashed || b == Disabled || b == Stopped
    case Crashed => b == Backoff || b == Disabled || b == Stopped
    case Backoff => b == Starting || b == Disabled || b == Stopped
    case Disabled => b == Stopped
  }

  // ---------------------------------------------------------------- backoff

  const MILLISECOND: int := 1_000_000
  const TWO_64: int := 0x1_0000_0000_0000_0000
  const TWO_63: int := 0x8000_0000_0000_0000

  /** Two's complement of 64 bits. */
  function Wrap(n: int): int { (n + TWO_63) % TWO_64 - TWO_63 }

  /** After normalization both are positive. */
  datatype Config = Config(maxRestarts: int, base: int, max: int) {
    predicate Valid() { 0 < base <= max < TWO_63 }

    /** A negative budget is none. */
    function Limit(): nat { if maxRestarts < 0 then 0 else maxRestarts }
  }

  /** The next delay, given what the jitter function answered. */
  function NextBackoff(cfg: Config, prev: int, jitter: int): int {
    var doubled := if prev > 0 then Wrap(prev * 2) else cfg.base;
    var capped := if doubled > cfg.max then cfg.max else doubled;
    var nonNegative := if jitter < 0 then 0 else jitter;
    var sleep := capped - if nonNegative > capped then capped else nonNegative;
    if sleep <= 0 then MILLISECOND else sleep
  }

  function Cap(cfg: Config): int { if cfg.max < MILLISECOND then MILLISECOND else cfg.max }

  /** A delay is positive, and bounded by the configured maximum unless that is below a millisecond. */
  lemma BackoffBounds(cfg: Config, prev: int, jitter: int)
    requires cfg.Valid() && 0 <= prev <= Cap(cfg)
    ensures 0 < NextBackoff(cfg, prev, jitter) <= Cap(cfg)
    ensures prev == 0 && MILLISECOND <= cfg.base ==> NextBackoff(cfg, prev, jitter) <= cfg.base
    ensures 0 < prev && MILLISECOND <= cfg.base ==>
      NextBackoff(cfg, prev, jitter) <= if prev * 2 < MILLISECOND then MILLISECOND else prev * 2
  {
  }

  /** A millisecond is not a lower bound: only a delay that jitter takes down to nothing, and one whose
      doubling overflows, is raised to it. */
  lemma BackoffBelowMillisecond(cfg: Config, prev: int, jitter: int)
    requires cfg.Valid() && 0 <= prev <= Cap(cfg)
    ensures var doubled := if prev == 0 then cfg.base else if prev * 2 >= TWO_63 then 0 else prev * 2;
      var capped := if doubled > cfg.max then cfg.max else doubled;
      NextBackoff(cfg, prev, jitter) < MILLISECOND <==> 0 < capped - (if jitter < 0 then 0 else jitter) < MILLISECOND
  {
  }

  function Pow2(n: nat): int { if n == 0 then 1 else 2 * Pow2(n - 1) }

  // ---------------------------------------------------------------- the loop as steps

  datatype Place = Top | Waiting | Backing | Ready | Launching | Monitoring | Crashing | Ended

  /** A change of state, with what surrounded it. */
  datatype Change = Change(from: Status, to: Status, raced: bool, restoring: bool, backoff: int)

  datatype State = State(
    place: Place,
    status: Status,
    disabled: bool,
    raced: bool,        // re-enabled since the counters were last reset
    crashes: nat,
    restarts: nat,
    backoff: int,       // the delay before the next launch, 0 for none
    streak: nat,        // delays in a row
    backoffs: seq<int>,
    changes: seq<Change>)

  const START := State(Top, Stopped, false, false, 0, 0, 0, 0, [], [])

  function SetStatus(st: State, to: Status, restoring: bool): State {
    if st.status == to then st
    else st.(status := to, changes := st.changes + [Change(st.status, to, st.raced, restoring, st.backoff)])
  }

  /** One more crash: over budget the plugin is disabled, otherwise it backs off. */
  function CountCrash(cfg: Config, st: State, jitter: int): State {
    var next := st.(crashes := st.crashes + 1, place := Top);
    if next.crashes > cfg.maxRestarts then next.(disabled := true)
    else
      var delay := NextBackoff(cfg, st.backoff, jitter);
      next.(backoff := delay, streak := st.streak + 1, backoffs := st.backoffs + [delay])
  }

  function NoBackoff(st: State): State { st.(backoff := 0, streak := 0) }

  datatype Step =
    | Disable
    | Enable
    | Cancel                    // the context is cancelled where the loop looks at it
    | EnterDisabled
    | Resume
    | EnterBackoff
    | BackoffOver
    | BackoffInterrupted
    | Proceed
    | Launch
    | LaunchFailed
    | DisabledInHandshake
    | RestoreFailed
    | Serve
    | Degrade
    | Recover
    | Exit
    | Count(jitter: int)        // the crash is counted
    | HealthRestart
    | DisabledWhileServing
    | Shutdown
  {
    predicate Possible(st: State) {
      match this
      case Disable => true
      case Enable => true
      case Cancel => st.place == Top || st.place == Waiting || st.place == Backing
      case EnterDisabled => st.place == Top && st.disabled
      case Resume => st.place == Waiting && !st.disabled
      case EnterBackoff => st.place == Top && !st.disabled && st.backoff > 0
      case BackoffOver => st.place == Backing
      case BackoffInterrupted => st.place == Backing && st.disabled
      case Proceed => st.place == Top && !st.disabled && st.backoff <= 0
      case Launch => st.place == Ready
      case LaunchFailed => st.place == Launching
      case DisabledInHandshake => st.place == Launching && st.disabled
      case RestoreFailed => st.place == Launching
      case Serve => st.place == Launching
      case Degrade => st.place == Monitoring
      case Recover => st.place == Monitoring
      case Exit => st.place == Monitoring
      case Count(_) => st.place == Crashing
      case HealthRestart => st.place == Monitoring
      case DisabledWhileServing => st.place == Monitoring && st.disabled
      case Shutdown => st.place == Launching || st.place == Monitoring
    }

    function Apply(cfg: Config, st: State): State {
      match this
      case Disable => st.(disabled := true)
      case Enable => st.(disabled := false, raced := st.raced || st.disabled)
      case Cancel => st.(place := Ended)
      case EnterDisabled => SetStatus(st, Disabled, false).(place := Waiting)
      case Resume => NoBackoff(SetStatus(st, Stopped, false)).(restarts := 0, crashes := 0, raced := false, place := Top)
      case EnterBackoff => SetStatus(st, Backoff, false).(place := Backing)
      case BackoffOver => st.(restarts := st.restarts + 1, place := Ready)
      case BackoffInterrupted => st.(place := Top)
      case Proceed => st.(place := Ready)
      case Launch => SetStatus(st, Starting, false).(place := Launching)
      case LaunchFailed => SetStatus(st, Crashed, false).(place := Crashing)
      case DisabledInHandshake => NoBackoff(SetStatus(st, Disabled, false)).(place := Top)
      case RestoreFailed => SetStatus(SetStatus(st, Stopped, false), Crashed, true).(place := Crashing)
      case Serve => SetStatus(st, Healthy, false).(place := Monitoring)
      case Degrade => SetStatus(st, Degraded, false)
      case Recover => SetStatus(st, Healthy, false)
      case Exit => SetStatus(st, Crashed, false).(place := Crashing)
      case Count(jitter) => CountCrash(cfg, st, jitter)
      case HealthRestart => NoBackoff(SetStatus(st, Stopped, false)).(place := Top)
      case DisabledWhileServing => NoBackoff(SetStatus(st, Disabled, false)).(place := Top)
      case Shutdown => SetStatus(st, Stopped, false).(place := Ended)
    }
  }

  // ---------------------------------------------------------------- what every step keeps

  /** The budget, as long as nobody re-enabled the plugin behind the loop's back. */
  predicate Budget(cfg: Config, st: State) {
    !st.raced ==>
      && st.restarts <= st.crashes <= cfg.Limit() + 1 && st.restarts <= cfg.Limit()
      && (st.crashes == cfg.Limit() + 1 ==> st.disabled || st.place == Ended)
      && (st.place != Top && st.place != Waiting && st.place != Ended ==> st.crashes <= cfg.Limit())
      && ((st.place == Top || st.place == Backing) && st.backoff > 0 ==> st.restarts < st.crashes)
  }

  /** Which states go with which place of the loop. */
  predicate Placed(st: State) {
    match st.place
    case Top =>
      && (st.status == Stopped || st.status == Crashed || st.status == Backoff || st.status == Disabled)
      && (st.backoff > 0 ==> st.status == Crashed || st.status == Backoff)
      && (st.status == Backoff ==> st.backoff > 0)
      && (st.status == Disabled || (st.status == Crashed && st.backoff == 0) ==> st.disabled || st.raced)
    case Waiting => st.status == Disabled
    case Backing => st.status == Backoff && st.backoff > 0
    case Ready =>
      if st.backoff > 0 then st.status == Backoff
      else st.status == Stopped || (st.raced && (st.status == Crashed || st.status == Disabled))
    case Launching => st.status == Starting
    case Monitoring => st.status == Healthy || st.status == Degraded
    case Crashing => st.status == Crashed
    case Ended => true
  }

  /** In the table, or one of the three known exceptions: a failed restore reports a crash after the stop,
      and a plugin re-enabled before the loop noticed that it was disabled, or out of budget, starts at
      once. */
  predicate Explained(c: Change) {
    || CanTransition(c.from, c.to)
    || (c.from == Stopped && c.to == Crashed && c.restoring)
    || (c.from == Disabled && c.to == Starting && c.raced)
    || (c.from == Crashed && c.to == Starting && c.raced && c.backoff == 0)
  }

  predicate Bounded(cfg: Config, st: State) {
    && 0 <= st.backoff <= Cap(cfg)
    && (st.backoff == 0 <==> st.streak == 0)
    && (MILLISECOND <= cfg.base && st.streak > 0 ==> st.backoff <= cfg.base * Pow2(st.streak - 1))
    && (forall b <- st.backoffs :: 0 < b <= Cap(cfg))
  }

  predicate Inv(cfg: Config, st: State) {
    Budget(cfg, st) && Placed(st) && Bounded(cfg, st) && forall c <- st.changes :: Explained(c)
  }

  lemma CountCrashKeeps(cfg: Config, st: State, jitter: int)
    requires cfg.Valid() && Budget(cfg, st) && Bounded(cfg, st)
    requires st.place == Crashing
    ensures Budget(cfg, CountCrash(cfg, st, jitter)) && Bounded(cfg, CountCrash(cfg, st, jitter))
    ensures var next := CountCrash(cfg, st, jitter); next.backoff == 0 ==> next.disabled
  {
    hide NextBackoff, Pow2;
    BackoffBounds(cfg, st.backoff, jitter);
    var next := CountCrash(cfg, st, jitter);
    if next.streak > st.streak && MILLISECOND <= cfg.base {
      Doubling(cfg.base, st.streak, st.backoff, next.backoff);
    }
  }

  /** One more doubling of the bound. */
  lemma Doubling(base: int, streak: nat, prev: int, next: int)
    requires base >= MILLISECOND && 0 <= prev && (prev == 0 <==> streak == 0)
    requires streak > 0 ==> prev <= base * Pow2(streak - 1)
    requires prev == 0 ==> next <= base
    requires prev > 0 ==> next <= if prev * 2 < MILLISECOND then MILLISECOND else prev * 2
    ensures next <= base * Pow2(streak)
  {
    if streak > 0 {
      PowPositive(streak - 1);
      assert Pow2(streak) == 2 * Pow2(streak - 1);
      assert base * (2 * Pow2(streak - 1)) == 2 * (base * Pow2(streak - 1));
      assert base * Pow2(streak - 1) >= base by {
        AtLeastOnce(base, Pow2(streak - 1));
      }
    }
  }

  lemma AtLeastOnce(base: int, times: int)
    requires base >= 0 && times >= 1
    ensures base * times >= base
  {
  }

  lemma {:induction false} PowPositive(n: nat)
    ensures Pow2(n) >= 1
  {
    if n > 0 {
      PowPositive(n - 1);
    }
  }

  lemma StepBudget(cfg: Config, st: State, step: Step)
    requires cfg.Valid() && Budget(cfg, st) && Bounded(cfg, st) && Placed(st) && step.Possible(st)
    ensures Budget(cfg, step.Apply(cfg, st)) && Bounded(cfg, step.Apply(cfg, st))
  {
    hide CountCrash, Pow2;
    if step.Count? {
      CountCrashKeeps(cfg, st, step.jitter);
    }
  }

  lemma CountCrashFrame(cfg: Config, st: State, jitter: int)
    requires cfg.Valid() && Bounded(cfg, st)
    ensures var next := CountCrash(cfg, st, jitter);
      && next.status == st.status && next.changes == st.changes && next.place == Top
      && (next.backoff == 0 ==> next.disabled)
  {
    BackoffBounds(cfg, st.backoff, jitter);
    hide NextBackoff;
  }

  lemma StepPlaced(cfg: Config, st: State, step: Step)
    requires cfg.Valid() && Placed(st) && Bounded(cfg, st) && step.Possible(st)
    ensures Placed(step.Apply(cfg, st))
  {
    hide CountCrash, Pow2;
    if step.Count? {
      CountCrashFrame(cfg, st, step.jitter);
    }
  }

  /** A step changes the state at most as the table or an exception says. */
  lemma StepExplained(cfg: Config, st: State, step: Step)
    requires cfg.Valid() && Placed(st) && Bounded(cfg, st) && step.Possible(st)
    requires forall c <- st.changes :: Explained(c)
    ensures forall c <- step.Apply(cfg, st).changes :: Explained(c)
  {
    hide CountCrash, Pow2;
    if step.Count? {
      CountCrashFrame(cfg, st, step.jitter);
    }
  }

  lemma StepKeeps(cfg: Config, st: State, step: Step)
    requires cfg.Valid() && Inv(cfg, st) && step.Possible(st)
    ensures Inv(cfg, step.Apply(cfg, st))
  {
    StepBudget(cfg, st, step);
    StepPlaced(cfg, st, step);
    StepExplained(cfg, st, step);
    hide Budget, Placed, Bounded, Explained, Step.Apply;
  }

  predicate Legal(cfg: Config, st: State, steps: seq<Step>)
    decreases |steps|
  {
    steps == [] || (steps[0].Possible(st) && Legal(cfg, steps[0].Apply(cfg, st), steps[1..]))
  }

  function Run(cfg: Config, st: State, steps: seq<Step>): State
    requires Legal(cfg, st, steps)
    decreases |steps|
  {
    if steps == [] then st else Run(cfg, steps[0].Apply(cfg, st), steps[1..])
  }

  lemma {:induction false} RunKeeps(cfg: Config, st: State, steps: seq<Step>)
    requires cfg.Valid() && Inv(cfg, st) && Legal(cfg, st, steps)
    ensures Inv(cfg, Run(cfg, st, steps))
    decreases |steps|
  {
    hide Inv, Step.Apply, Step.Possible, Config.Valid;
    if steps != [] {
      StepKeeps(cfg, st, steps[0]);
      RunKeeps(cfg, steps[0].Apply(cfg, st), steps[1..]);
    }
  }

  /** Over every run, until somebody re-enables a disabled plugin without the loop resetting its counters:
      no more restarts than crashes, and neither above budget (plus the crash that exhausts it). */
  lemma CrashBudget(cfg: Config, steps: seq<Step>)
    requires cfg.Valid() && Legal(cfg, START, steps)
    ensures var st := Run(cfg, START, steps);
      !st.raced ==> st.restarts <= st.crashes <= cfg.Limit() + 1 && st.restarts <= cfg.Limit()
  {
    assert Inv(cfg, START);
    RunKeeps(cfg, START, steps);
    hide Run, Legal;
  }

  lemma {:induction false} NoEnableNoRace(cfg: Config, st: State, steps: seq<Step>)
    requires Legal(cfg, st, steps) && Enable !in steps && !st.raced
    ensures !Run(cfg, st, steps).raced
    decreases |steps|
  {
    hide NextBackoff;
    if steps != [] {
      NoEnableNoRace(cfg, steps[0].Apply(cfg, st), steps[1..]);
    }
  }

  /** Every change of state over every run is in the table or one of the three exceptions, the last two of
      which need an Enable that the loop did not notice. */
  lemma StatesFollowTheTable(cfg: Config, steps: seq<Step>, c: Change)
    requires cfg.Valid() && Legal(cfg, START, steps) && c in Run(cfg, START, steps).changes
    ensures Explained(c)
  {
    assert Inv(cfg, START);
    RunKeeps(cfg, START, steps);
    hide Run, Legal, Explained;
  }

  /** A step that changes the state as the table does not allow. */
  predicate Strays(st: State, step: Step) {
    step.RestoreFailed? || (step.Launch? && (st.status == Disabled || st.status == Crashed))
  }

  predicate Stray(cfg: Config, st: State, steps: seq<Step>)
    requires Legal(cfg, st, steps)
    decreases |steps|
  {
    steps != [] && (Strays(st, steps[0]) || Stray(cfg, steps[0].Apply(cfg, st), steps[1..]))
  }

  ghost predicate InTable(st: State) { forall c <- st.changes :: CanTransition(c.from, c.to) }

  lemma StepInTable(cfg: Config, st: State, step: Step)
    requires cfg.Valid() && Placed(st) && Bounded(cfg, st) && step.Possible(st)
    ensures InTable(step.Apply(cfg, st)) <==> InTable(st) && !Strays(st, step)
  {
    var more := NewChanges(cfg, st, step);
    hide Step.Apply, Step.Possible, Placed, Bounded, CanTransition;
    if InTable(st) {
      assert InTable(step.Apply(cfg, st)) <==> forall c <- more :: CanTransition(c.from, c.to);
    } else {
      var c :| c in st.changes && !CanTransition(c.from, c.to);
      assert c in step.Apply(cfg, st).changes;
    }
  }

  /** The state a step leads to; a rejected restore passes through another one. */
  function Goal(st: State, step: Step): Status {
    match step
    case EnterDisabled => Disabled
    case DisabledInHandshake => Disabled
    case DisabledWhileServing => Disabled
    case Resume => Stopped
    case HealthRestart => Stopped
    case Shutdown => Stopped
    case EnterBackoff => Backoff
    case Launch => Starting
    case LaunchFailed => Crashed
    case RestoreFailed => Crashed
    case Exit => Crashed
    case Serve => Healthy
    case Recover => Healthy
    case Degrade => Degraded
    case _ => st.status
  }

  lemma ChangesOf(cfg: Config, st: State, step: Step)
    requires cfg.Valid() && Bounded(cfg, st) && step.Possible(st)
    ensures step.Apply(cfg, st).changes ==
      if step.RestoreFailed? then SetStatus(SetStatus(st, Stopped, false), Crashed, true).changes
      else SetStatus(st, Goal(st, step), false).changes
  {
    hide CountCrash;
    if step.Count? {
      CountCrashFrame(cfg, st, step.jitter);
    }
  }

  lemma GoalAllowed(st: State, step: Step)
    requires Placed(st) && step.Possible(st)
    ensures Strays(st, step) ==> !CanTransition(if step.RestoreFailed? then Stopped else st.status, Goal(st, step))
    ensures Strays(st, step) ==> st.status != Goal(st, step)
    ensures !Strays(st, step) ==> st.status == Goal(st, step) || CanTransition(st.status, Goal(st, step))
    ensures step.RestoreFailed? ==> st.status == Starting
  {
  }

  /** What a step adds to the history: at most one change of state, except for a rejected restore. */
  lemma NewChanges(cfg: Config, st: State, step: Step) returns (more: seq<Change>)
    requires cfg.Valid() && Placed(st) && Bounded(cfg, st) && step.Possible(st)
    ensures step.Apply(cfg, st).changes == st.changes + more
    ensures (forall c <- more :: CanTransition(c.from, c.to)) <==> !Strays(st, step)
  {
    ChangesOf(cfg, st, step);
    GoalAllowed(st, step);
    hide Step.Apply, Step.Possible, Placed, Goal, CanTransition, Bounded, Strays;
    if step.RestoreFailed? {
      var rejected := Change(Stopped, Crashed, st.raced, true, st.backoff);
      more := [Change(Starting, Stopped, st.raced, false, st.backoff), rejected];
      assert rejected in more;
    } else if st.status != Goal(st, step) {
      more := [Change(st.status, Goal(st, step), st.raced, false, st.backoff)];
      assert more[0] in more;
    } else {
      more := [];
    }
  }

  /** Exactly which runs keep to the table: those without a failed restore, and without a launch of a plugin
      that is disabled or crashed. */
  lemma {:induction false} InTableIff(cfg: Config, st: State, steps: seq<Step>)
    requires cfg.Valid() && Inv(cfg, st) && Legal(cfg, st, steps)
    ensures InTable(Run(cfg, st, steps)) <==> InTable(st) && !Stray(cfg, st, steps)
    decreases |steps|
  {
    hide Inv, InTable, Strays, Step.Apply, Step.Possible, Config.Valid;
    if steps != [] {
      StepKeeps(cfg, st, steps[0]);
      InvPlaces(cfg, st);
      StepInTable(cfg, st, steps[0]);
      InTableIff(cfg, steps[0].Apply(cfg, st), steps[1..]);
    }
  }

  /** Without Enable and without a failed restore every run keeps to the table. */
  lemma {:induction false} NeverStrays(cfg: Config, st: State, steps: seq<Step>)
    requires cfg.Valid() && Inv(cfg, st) && Legal(cfg, st, steps) && !st.raced
    requires Enable !in steps && RestoreFailed !in steps
    ensures !Stray(cfg, st, steps)
    decreases |steps|
  {
    if steps != [] {
      StepKeeps(cfg, st, steps[0]);
      InvPlaces(cfg, st);
      hide Inv, NextBackoff, Bounded;
      NeverStrays(cfg, steps[0].Apply(cfg, st), steps[1..]);
    }
  }

  lemma InvPlaces(cfg: Config, st: State)
    requires Inv(cfg, st)
    ensures Placed(st) && Bounded(cfg, st)
  {
  }

  /** Delays are bounded, and the k-th in a row by the base doubled k - 1 times. */
  lemma DelaysAreBounded(cfg: Config, steps: seq<Step>)
    requires cfg.Valid() && Legal(cfg, START, steps)
    ensures var st := Run(cfg, START, steps);
      && (forall b <- st.backoffs :: 0 < b <= Cap(cfg))
      && (st.streak > 0 ==> 0 < st.backoff <= Cap(cfg))
      && (MILLISECOND <= cfg.base && st.streak > 0 ==> st.backoff <= cfg.base * Pow2(st.streak - 1))
  {
    assert Inv(cfg, START);
    RunKeeps(cfg, START, steps);
    hide Run, Legal, Pow2;
  }

  /** No delay is below a millisecond if the base is not and there is no jitter. */
  lemma {:induction false} DelaysAtLeastMillisecond(cfg: Config, st: State, steps: seq<Step>)
    requires cfg.Valid() && Legal(cfg, st, steps) && MILLISECOND <= cfg.base && Bounded(cfg, st)
    requires forall s <- steps :: s.Count? ==> s.jitter <= 0
    requires (st.backoff > 0 ==> st.backoff >= MILLISECOND) && forall b <- st.backoffs :: b >= MILLISECOND
    ensures forall b <- Run(cfg, st, steps).backoffs :: b >= MILLISECOND
    decreases |steps|
  {
    if steps != [] {
      var step := steps[0];
      assert step in steps && forall s <- steps[1..] :: s in steps;
      DelayKept(cfg, st, step);
      hide Bounded, Step.Apply, Step.Possible, Config.Valid;
      DelaysAtLeastMillisecond(cfg, step.Apply(cfg, st), steps[1..]);
    }
  }

  lemma DelayKept(cfg: Config, st: State, step: Step)
    requires cfg.Valid() && step.Possible(st) && MILLISECOND <= cfg.base && Bounded(cfg, st)
    requires step.Count? ==> step.jitter <= 0
    requires (st.backoff > 0 ==> st.backoff >= MILLISECOND) && forall b <- st.backoffs :: b >= MILLISECOND
    ensures var next := step.Apply(cfg, st);
      Bounded(cfg, next) && (next.backoff > 0 ==> next.backoff >= MILLISECOND) && forall b <- next.backoffs :: b >= MILLISECOND
  {
    hide Pow2, CountCrash;
    if step.Count? {
      CountDelayKept(cfg, st, step.jitter);
    }
  }

  lemma CountDelayKept(cfg: Config, st: State, jitter: int)
    requires cfg.Valid() && MILLISECOND <= cfg.base && Bounded(cfg, st) && jitter <= 0
    requires (st.backoff > 0 ==> st.backoff >= MILLISECOND) && forall b <- st.backoffs :: b >= MILLISECOND
    ensures var next := CountCrash(cfg, st, jitter);
      Bounded(cfg, next) && (next.backoff > 0 ==> next.backoff >= MILLISECOND) && forall b <- next.backoffs :: b >= MILLISECOND
  {
    hide Pow2, NextBackoff;
    BackoffBounds(cfg, st.backoff, jitter);
    BackoffBelowMillisecond(cfg, st.backoff, jitter);
    var delay := NextBackoff(cfg, st.backoff, jitter);
    Doubling(cfg.base, st.streak, st.backoff, delay);
    assert delay >= MILLISECOND;
  }

  /** Without jitter the k-th delay in a row. */
  function Delay(cfg: Config, k: nat): int
    requires k > 0
  {
    var doubled := cfg.base * Pow2(k - 1);
    if doubled < cfg.max then doubled else cfg.max
  }

  ghost predicate Exact(cfg: Config, st: State) {
    if st.streak == 0 then st.backoff == 0 else st.backoff == Delay(cfg, st.streak)
  }

  /** As long as twice the maximum fits 64 bits: without jitter the k-th delay in a row is the base doubled
      k - 1 times, and at most the maximum. */
  lemma DelaysDouble(cfg: Config, steps: seq<Step>)
    requires cfg.Valid() && cfg.max * 2 < TWO_63 && Legal(cfg, START, steps)
    requires forall s <- steps :: s.Count? ==> s.jitter <= 0
    ensures var st := Run(cfg, START, steps);
      st.backoff == if st.streak == 0 then 0
        else if cfg.base * Pow2(st.streak - 1) < cfg.max then cfg.base * Pow2(st.streak - 1) else cfg.max
  {
    hide Run, Legal, Pow2;
    ExactRun(cfg, START, steps);
  }

  lemma {:induction false} ExactRun(cfg: Config, st: State, steps: seq<Step>)
    requires cfg.Valid() && cfg.max * 2 < TWO_63 && Legal(cfg, st, steps) && Exact(cfg, st)
    requires forall s <- steps :: s.Count? ==> s.jitter <= 0
    ensures Exact(cfg, Run(cfg, st, steps))
    decreases |steps|
  {
    hide Exact, Step.Apply, Step.Possible, Config.Valid;
    if steps != [] {
      var step := steps[0];
      assert step in steps && forall s <- steps[1..] :: s in steps;
      ExactStep(cfg, st, step);
      ExactRun(cfg, step.Apply(cfg, st), steps[1..]);
    }
  }

  lemma ExactStep(cfg: Config, st: State, step: Step)
    requires cfg.Valid() && cfg.max * 2 < TWO_63 && step.Possible(st) && Exact(cfg, st)
    requires step.Count? ==> step.jitter <= 0
    ensures Exact(cfg, step.Apply(cfg, st))
  {
    hide Delay, Pow2;
    if step.Count? {
      NextDelayIs(cfg, st.streak, st.backoff, step.jitter);
      hide NextBackoff;
    }
  }

  lemma NextDelayIs(cfg: Config, streak: nat, prev: int, jitter: int)
    requires cfg.Valid() && cfg.max * 2 < TWO_63 && jitter <= 0
    requires prev == if streak == 0 then 0 else Delay(cfg, streak)
    ensures NextBackoff(cfg, prev, jitter) == Delay(cfg, streak + 1)
  {
    hide NextBackoff;
    if streak > 0 {
      TwiceThePower(cfg.base, streak);
      DoubledAndCapped(cfg, cfg.base * Pow2(streak - 1), jitter);
    } else {
      assert cfg.base * Pow2(0) == cfg.base;
      FirstDelay(cfg, jitter);
    }
  }

  lemma TwiceThePower(base: int, streak: nat)
    requires base > 0 && streak > 0
    ensures base * Pow2(streak) == 2 * (base * Pow2(streak - 1)) && base * Pow2(streak - 1) >= base
  {
    PowPositive(streak - 1);
    var p := Pow2(streak - 1);
    assert Pow2(streak) == 2 * p;
    assert base * (2 * p) == 2 * (base * p);
    AtLeastOnce(base, p);
  }

  lemma DoubledAndCapped(cfg: Config, d: int, jitter: int)
    requires cfg.Valid() && cfg.max * 2 < TWO_63 && jitter <= 0 && d > 0
    ensures NextBackoff(cfg, if d < cfg.max then d else cfg.max, jitter) == if 2 * d < cfg.max then 2 * d else cfg.max
  {
  }

  lemma FirstDelay(cfg: Config, jitter: int)
    requires cfg.Valid() && jitter <= 0
    ensures NextBackoff(cfg, 0, jitter) == cfg.base
  {
  }

  /** Beyond that the delay falls back: one of 2^62 nanoseconds or more is followed by a millisecond. */
  lemma OverflowFallsBack(cfg: Config, prev: int, jitter: int)
    requires cfg.Valid() && TWO_63 <= prev * 2 && prev <= cfg.max && jitter <= 0
    ensures NextBackoff(cfg, prev, jitter) == MILLISECOND
  {
  }

  /** Jitter takes away at most the whole delay; what is left of nothing is a millisecond. */
  lemma JitterTakesAway(cfg: Config, prev: int, jitter: int)
    requires cfg.Valid() && 0 <= prev && prev * 2 < TWO_63
    ensures var whole := NextBackoff(cfg, prev, 0);
      NextBackoff(cfg, prev, jitter) ==
        if jitter <= 0 then whole else if jitter < whole then whole - jitter else MILLISECOND
  {
  }

  /** A plugin that crashes at every launch, `n` times in a row. */
  function CrashLoop(n: nat): seq<Step> {
    if n == 0 then []
    else CrashLoop(n - 1) + (if n == 1 then [Proceed] else [EnterBackoff, BackoffOver]) + [Launch, LaunchFailed, Count(0)]
  }

  lemma NextDelayPositive(cfg: Config, steps: seq<Step>)
    requires cfg.Valid() && Legal(cfg, START, steps)
    ensures NextBackoff(cfg, Run(cfg, START, steps).backoff, 0) > 0
  {
    hide Run, Legal, NextBackoff;
    StartSafe(cfg);
    RunKeeps(cfg, START, steps);
    InvPlaces(cfg, Run(cfg, START, steps));
    BackoffBounds(cfg, Run(cfg, START, steps).backoff, 0);
  }

  /** After `n` crashes in a row, each counted. */
  ghost predicate CrashCounted(cfg: Config, st: State, n: nat) {
    && st.place == Top && st.status == Crashed && st.crashes == n && st.restarts == n - 1
    && (st.disabled <==> n == cfg.Limit() + 1)
    && |st.backoffs| == (if n <= cfg.Limit() then n else n - 1)
    && (n <= cfg.Limit() ==> st.backoff > 0)
  }

  /** Before the `n`-th crash is counted. */
  ghost predicate CrashedAgain(st: State, n: nat) {
    n > 0 && st.place == Crashing && st.status == Crashed && st.crashes == n - 1 && st.restarts == n - 1
    && |st.backoffs| == n - 1 && !st.disabled
  }

  lemma CountedAgain(cfg: Config, st: State, n: nat)
    requires cfg.Valid() && CrashedAgain(st, n) && n <= cfg.Limit() + 1 && NextBackoff(cfg, st.backoff, 0) > 0
    ensures CrashCounted(cfg, Count(0).Apply(cfg, st), n)
  {
    hide NextBackoff;
  }

  lemma LaunchedAgain(cfg: Config, st: State, n: nat)
    requires CrashCounted(cfg, st, n) && 1 <= n <= cfg.Limit()
    ensures var backing := EnterBackoff.Apply(cfg, st);
      var ready := BackoffOver.Apply(cfg, backing);
      var launching := Launch.Apply(cfg, ready);
      && EnterBackoff.Possible(st) && BackoffOver.Possible(backing) && Launch.Possible(ready) && LaunchFailed.Possible(launching)
      && CrashedAgain(LaunchFailed.Apply(cfg, launching), n + 1)
  {
  }

  lemma LaunchedFirst(cfg: Config)
    ensures var ready := Proceed.Apply(cfg, START);
      var launching := Launch.Apply(cfg, ready);
      && Proceed.Possible(START) && Launch.Possible(ready) && LaunchFailed.Possible(launching)
      && CrashedAgain(LaunchFailed.Apply(cfg, launching), 1)
  {
  }

  lemma {:induction false} CrashLoopRuns(cfg: Config, n: nat)
    requires cfg.Valid() && 1 <= n <= cfg.Limit() + 1
    ensures Legal(cfg, START, CrashLoop(n)) && CrashCounted(cfg, Run(cfg, START, CrashLoop(n)), n)
  {
    hide Legal, Run, NextBackoff, CrashCounted, CrashedAgain, Step.Apply, Step.Possible, Config.Valid;
    var steps := CrashLoop(n - 1);
    if n > 1 {
      CrashLoopRuns(cfg, n - 1);
      LaunchedAgain(cfg, Run(cfg, START, steps), n - 1);
      RunMore(cfg, START, steps, EnterBackoff);
      steps := steps + [EnterBackoff];
      RunMore(cfg, START, steps, BackoffOver);
      steps := steps + [BackoffOver];
    } else {
      Finally(cfg, START);
      LaunchedFirst(cfg);
      RunMore(cfg, START, steps, Proceed);
      steps := steps + [Proceed];
    }
    RunMore(cfg, START, steps, Launch);
    steps := steps + [Launch];
    RunMore(cfg, START, steps, LaunchFailed);
    steps := steps + [LaunchFailed];
    NextDelayPositive(cfg, steps);
    CountedAgain(cfg, Run(cfg, START, steps), n);
    CountPossible(Run(cfg, START, steps), n);
    RunMore(cfg, START, steps, Count(0));
    steps := steps + [Count(0)];
    assert steps == CrashLoop(n);
  }

  lemma CountPossible(st: State, n: nat)
    requires CrashedAgain(st, n)
    ensures Count(0).Possible(st)
  {
  }

  /** Such a plugin is given exactly its budget: it is launched again after each of the first crashes, with
      a delay before each launch, and disabled at the first crash over budget. */
  lemma BudgetIsUsed(cfg: Config, n: nat)
    requires cfg.Valid() && 1 <= n <= cfg.Limit() + 1
    ensures Legal(cfg, START, CrashLoop(n))
    ensures var st := Run(cfg, START, CrashLoop(n));
      && st.crashes == n && st.restarts == n - 1 && (st.disabled <==> n == cfg.Limit() + 1)
      && |st.backoffs| == (if n <= cfg.Limit() then n else n - 1)
      && (n <= cfg.Limit() ==> st.backoff > 0)
  {
    hide Legal, Run, CrashLoop;
    CrashLoopRuns(cfg, n);
  }

  /** With jitter the first delay can be a nanosecond, whatever is configured. */
  lemma ShortestDelay(cfg: Config)
    requires cfg.Valid() && cfg.Limit() > 0
    ensures var steps := [Proceed, Launch, LaunchFailed, Count(cfg.base - 1)];
      Legal(cfg, START, steps) && Run(cfg, START, steps).backoffs == [1]
  {
    hide Legal, Run;
    var ready := Proceed.Apply(cfg, START);
    var launched := Launch.Apply(cfg, ready);
    var crashed := LaunchFailed.Apply(cfg, launched);
    var last := Count(cfg.base - 1);
    var end := last.Apply(cfg, crashed);
    Finally(cfg, end);
    Preceded(cfg, crashed, last, [], [last], end);
    Preceded(cfg, launched, LaunchFailed, [last], [LaunchFailed, last], end);
    Preceded(cfg, ready, Launch, [LaunchFailed, last], [Launch, LaunchFailed, last], end);
    Preceded(cfg, START, Proceed, [Launch, LaunchFailed, last], [Proceed, Launch, LaunchFailed, last], end);
  }

  /** The exceptions happen. */
  lemma RestoreFailureLeavesTheTable(cfg: Config)
    ensures var steps := [Proceed, Launch, RestoreFailed];
      Legal(cfg, START, steps) && exists c <- Run(cfg, START, steps).changes :: !CanTransition(c.from, c.to)
  {
    hide NextBackoff;
    hide Legal, Run;
    var ready := Proceed.Apply(cfg, START);
    var launched := Launch.Apply(cfg, ready);
    var failed := RestoreFailed.Apply(cfg, launched);
    Finally(cfg, failed);
    Preceded(cfg, launched, RestoreFailed, [], [RestoreFailed], failed);
    Preceded(cfg, ready, Launch, [RestoreFailed], [Launch, RestoreFailed], failed);
    Preceded(cfg, START, Proceed, [Launch, RestoreFailed], [Proceed, Launch, RestoreFailed], failed);
    assert failed.changes[2] in failed.changes;
  }

  lemma EnableRaceLeavesTheTable(cfg: Config)
    ensures var steps := [Proceed, Launch, Disable, DisabledInHandshake, Enable, Proceed, Launch];
      Legal(cfg, START, steps) && exists c <- Run(cfg, START, steps).changes :: c.from == Disabled && c.to == Starting
  {
    hide NextBackoff, Legal, Run;
    var s1 := Proceed.Apply(cfg, START);
    var s2 := Launch.Apply(cfg, s1);
    var s3 := Disable.Apply(cfg, s2);
    var s4 := DisabledInHandshake.Apply(cfg, s3);
    var s5 := Enable.Apply(cfg, s4);
    var s6 := Proceed.Apply(cfg, s5);
    var end := Launch.Apply(cfg, s6);
    Finally(cfg, end);
    Preceded(cfg, s6, Launch, [], [Launch], end);
    Preceded(cfg, s5, Proceed, [Launch], [Proceed, Launch], end);
    Preceded(cfg, s4, Enable, [Proceed, Launch], [Enable, Proceed, Launch], end);
    Preceded(cfg, s3, DisabledInHandshake, [Enable, Proceed, Launch],
             [DisabledInHandshake, Enable, Proceed, Launch], end);
    Preceded(cfg, s2, Disable, [DisabledInHandshake, Enable, Proceed, Launch],
             [Disable, DisabledInHandshake, Enable, Proceed, Launch], end);
    Preceded(cfg, s1, Launch, [Disable, DisabledInHandshake, Enable, Proceed, Launch],
             [Launch, Disable, DisabledInHandshake, Enable, Proceed, Launch], end);
    Preceded(cfg, START, Proceed, [Launch, Disable, DisabledInHandshake, Enable, Proceed, Launch],
             [Proceed, Launch, Disable, DisabledInHandshake, Enable, Proceed, Launch], end);
    assert end.changes[2] == Change(Disabled, Starting, true, false, 0);
    assert end.changes[2] in end.changes;
  }

  lemma EnableAfterBudgetLeavesTheTable(cfg: Config)
    requires cfg.Limit() == 0
    ensures var steps := [Proceed, Launch, LaunchFailed, Count(0), Enable, Proceed, Launch];
      Legal(cfg, START, steps) && exists c <- Run(cfg, START, steps).changes :: c.from == Crashed && c.to == Starting
  {
    hide NextBackoff, Legal, Run;
    var s1 := Proceed.Apply(cfg, START);
    var s2 := Launch.Apply(cfg, s1);
    var s3 := LaunchFailed.Apply(cfg, s2);
    var s4 := Count(0).Apply(cfg, s3);
    var s5 := Enable.Apply(cfg, s4);
    var s6 := Proceed.Apply(cfg, s5);
    var end := Launch.Apply(cfg, s6);
    Finally(cfg, end);
    Preceded(cfg, s6, Launch, [], [Launch], end);
    Preceded(cfg, s5, Proceed, [Launch], [Proceed, Launch], end);
    Preceded(cfg, s4, Enable, [Proceed, Launch], [Enable, Proceed, Launch], end);
    Preceded(cfg, s3, Count(0), [Enable, Proceed, Launch], [Count(0), Enable, Proceed, Launch], end);
    Preceded(cfg, s2, LaunchFailed, [Count(0), Enable, Proceed, Launch],
             [LaunchFailed, Count(0), Enable, Proceed, Launch], end);
    Preceded(cfg, s1, Launch, [LaunchFailed, Count(0), Enable, Proceed, Launch],
             [Launch, LaunchFailed, Count(0), Enable, Proceed, Launch], end);
    Preceded(cfg, START, Proceed, [Launch, LaunchFailed, Count(0), Enable, Proceed, Launch],
             [Proceed, Launch, LaunchFailed, Count(0), Enable, Proceed, Launch], end);
    assert end.changes[2] == Change(Crashed, Starting, true, false, 0);
    assert end.changes[2] in end.changes;
  }

  lemma Finally(cfg: Config, st: State)
    ensures Legal(cfg, st, []) && Run(cfg, st, []) == st
  {
  }

  lemma Preceded(cfg: Config, st: State, step: Step, rest: seq<Step>, all: seq<Step>, end: State)
    requires all == [step] + rest
    requires step.Possible(st) && Legal(cfg, step.Apply(cfg, st), rest) && Run(cfg, step.Apply(cfg, st), rest) == end
    ensures Legal(cfg, st, all) && Run(cfg, st, all) == end
  {
    hide Step.Apply, Step.Possible;
    assert all[1..] == rest;
  }

  // ---------------------------------------------------------------- the supervisor

  datatype Outcome = RunCrashed | RunDisabled | RunRestart | RunShutdown

  /** From one state the given steps lead to the other, in which everything above holds. */
  ghost predicate Leads(cfg: Config, a: State, steps: seq<Step>, b: State) {
    cfg.Valid() && Legal(cfg, a, steps) && Run(cfg, a, steps) == b && Inv(cfg, b)
  }

  /** How many steps of a run the loop itself took. */
  function Own(steps: seq<Step>): nat {
    if steps == [] then 0
    else
      var n := |steps| - 1;
      Own(steps[..n]) + if steps[n].Enable? || steps[n].Disable? then 0 else 1
  }

  lemma {:induction false} RunMore(cfg: Config, st: State, steps: seq<Step>, step: Step)
    requires Legal(cfg, st, steps) && step.Possible(Run(cfg, st, steps))
    ensures Legal(cfg, st, steps + [step]) && Run(cfg, st, steps + [step]) == step.Apply(cfg, Run(cfg, st, steps))
    decreases |steps|
  {
    hide Step.Apply, Step.Possible;
    if steps == [] {
      assert [] + [step] == [step] && [step][1..] == [];
      assert Legal(cfg, step.Apply(cfg, st), []);
    } else {
      assert (steps + [step])[1..] == steps[1..] + [step];
      RunMore(cfg, steps[0].Apply(cfg, st), steps[1..], step);
    }
  }

  lemma LeadsNowhere(cfg: Config, st: State)
    requires cfg.Valid() && Inv(cfg, st)
    ensures Leads(cfg, st, [], st) && Own([]) == 0
  {
    hide Inv, Config.Valid;
  }

  lemma LeadsMore(cfg: Config, a: State, steps: seq<Step>, b: State, step: Step)
    requires Leads(cfg, a, steps, b) && step.Possible(b)
    ensures Leads(cfg, a, steps + [step], step.Apply(cfg, b))
    ensures Own(steps + [step]) == Own(steps) + if step.Enable? || step.Disable? then 0 else 1
  {
    hide Inv, Legal, Run, Step.Apply, Step.Possible, Config.Valid;
    RunMore(cfg, a, steps, step);
    StepKeeps(cfg, b, step);
    assert (steps + [step])[..|steps|] == steps;
  }

  /** Every method is a run of the steps above, continuing a run `soFar` from a state `start`; the place it
      ends at says which steps of the loop it must have taken. */
  class Process {
    const cfg: Config
    var status: Status
    var disabled: bool
    var crashes: nat
    var restarts: nat
    var backoffs: seq<int>
    ghost var raced: bool
    ghost var changes: seq<Change>

    ghost function View(place: Place, backoff: int, streak: nat): State
      reads this
    {
      State(place, status, disabled, raced, crashes, restarts, backoff, streak, backoffs, changes)
    }

    constructor (cfg: Config)
      requires cfg.Valid()
      ensures this.cfg == cfg && View(Top, 0, 0) == START
    {
      this.cfg := cfg;
      status, disabled, crashes, restarts, backoffs := Stopped, false, 0, 0, [];
      raced, changes := false, [];
    }

    method SetState(to: Status, ghost restoring: bool, ghost backoff: int)
      modifies this`status, this`changes
      ensures forall place, streak :: View(place, backoff, streak) == SetStatus(old(View(place, backoff, streak)), to, restoring)
    {
      if status != to {
        changes := changes + [Change(status, to, raced, restoring, backoff)];
        status := to;
      }
    }

    method RequestDisable()
      modifies this`disabled
      ensures disabled
    {
      disabled := true;
    }

    method RequestEnable()
      modifies this`disabled, this`raced
      ensures !disabled && raced == (old(raced) || old(disabled))
    {
      raced := raced || disabled;
      disabled := false;
    }

    /** Callers enable and disable the plugin at will. */
    method Interfere(ghost start: State, ghost soFar: seq<Step>, ghost place: Place, ghost backoff: int, ghost streak: nat)
      returns (ghost steps: seq<Step>)
      requires Leads(cfg, start, soFar, View(place, backoff, streak))
      modifies this`disabled, this`raced
      ensures Leads(cfg, start, steps, View(place, backoff, streak)) && Own(steps) == Own(soFar)
    {
      hide Leads, Own;
      steps := soFar;
      var n: int := *;
      while n > 0
        invariant Leads(cfg, start, steps, View(place, backoff, streak)) && Own(steps) == Own(soFar)
      {
        n := n - 1;
        var enable: bool := *;
        LeadsMore(cfg, start, steps, View(place, backoff, streak), if enable then Enable else Disable);
        steps := steps + [if enable then Enable else Disable];
        if enable {
          RequestEnable();
        } else {
          RequestDisable();
        }
      }
    }

    method NextDelay(prev: int, jitter: int) returns (sleep: int)
      ensures sleep == NextBackoff(cfg, prev, jitter)
    {
      sleep := cfg.base;
      if prev > 0 {
        sleep := Wrap(prev * 2);
      }
      if sleep > cfg.max {
        sleep := cfg.max;
      }
      var j := jitter;
      if j < 0 {
        j := 0;
      }
      if j > sleep {
        j := sleep;
      }
      sleep := sleep - j;
      if sleep <= 0 {
        sleep := MILLISECOND;
      }
    }

    /** Stop the process for good. */
    method ShutDown(ghost start: State, ghost soFar: seq<Step>, ghost place: Place, ghost backoff: int, ghost streak: nat)
      returns (ghost steps: seq<Step>)
      requires Leads(cfg, start, soFar, View(place, backoff, streak)) && (place == Launching || place == Monitoring)
      modifies this`status, this`changes
      ensures Leads(cfg, start, steps, View(Ended, backoff, streak)) && Own(steps) > Own(soFar)
    {
      hide Leads, Own;
      LeadsMore(cfg, start, soFar, View(place, backoff, streak), Shutdown);
      SetState(Stopped, false, backoff);
      steps := soFar + [Shutdown];
    }

    /** The process failed to start, or exited. */
    method Fail(ghost start: State, ghost soFar: seq<Step>, ghost place: Place, ghost backoff: int, ghost streak: nat)
      returns (ghost steps: seq<Step>)
      requires Leads(cfg, start, soFar, View(place, backoff, streak)) && (place == Launching || place == Monitoring)
      modifies this`status, this`changes
      ensures Leads(cfg, start, steps, View(Crashing, backoff, streak)) && Own(steps) > Own(soFar)
    {
      hide Leads, Own;
      ghost var step := if place == Launching then LaunchFailed else Exit;
      LeadsMore(cfg, start, soFar, View(place, backoff, streak), step);
      SetState(Crashed, false, backoff);
      steps := soFar + [step];
    }

    /** The process was killed because the plugin is disabled. */
    method GiveUp(ghost start: State, ghost soFar: seq<Step>, ghost place: Place, ghost backoff: int, ghost streak: nat)
      returns (ghost steps: seq<Step>)
      requires Leads(cfg, start, soFar, View(place, backoff, streak)) && (place == Launching || place == Monitoring) && disabled
      modifies this`status, this`changes
      ensures Leads(cfg, start, steps, View(Top, 0, 0)) && Own(steps) > Own(soFar)
    {
      hide Leads, Own;
      ghost var step := if place == Launching then DisabledInHandshake else DisabledWhileServing;
      LeadsMore(cfg, start, soFar, View(place, backoff, streak), step);
      SetState(Disabled, false, backoff);
      steps := soFar + [step];
    }

    /** The restored session was rejected: the process is shut down and counts as crashed. */
    method RejectSession(ghost start: State, ghost soFar: seq<Step>, ghost backoff: int, ghost streak: nat)
      returns (ghost steps: seq<Step>)
      requires Leads(cfg, start, soFar, View(Launching, backoff, streak))
      modifies this`status, this`changes
      ensures Leads(cfg, start, steps, View(Crashing, backoff, streak)) && Own(steps) > Own(soFar)
    {
      hide Leads, Own;
      LeadsMore(cfg, start, soFar, View(Launching, backoff, streak), RestoreFailed);
      SetState(Stopped, false, backoff);
      SetState(Crashed, true, backoff);
      steps := soFar + [RestoreFailed];
    }

    /** Launch one process and stay with it until it is gone. */
    method RunOnce(ghost start: State, ghost soFar: seq<Step>, ghost backoff: int, ghost streak: nat)
      returns (outcome: Outcome, ghost steps: seq<Step>)
      requires Leads(cfg, start, soFar, View(Ready, backoff, streak))
      modifies this
      ensures Own(steps) > Own(soFar)
      ensures outcome == RunCrashed ==> Leads(cfg, start, steps, View(Crashing, backoff, streak))
      ensures outcome == RunDisabled || outcome == RunRestart ==> Leads(cfg, start, steps, View(Top, 0, 0))
      ensures outcome == RunShutdown ==> Leads(cfg, start, steps, View(Ended, backoff, streak))
    {
      hide Leads, Own;
      LeadsMore(cfg, start, soFar, View(Ready, backoff, streak), Launch);
      SetState(Starting, false, backoff);
      steps := Interfere(start, soFar + [Launch], Launching, backoff, streak);
      hide Step.Apply, Step.Possible;
      var ready, restored, cancelled, noticed: bool := *, *, *, *;
      if cancelled {
        steps := ShutDown(start, steps, Launching, backoff, streak);
        return RunShutdown, steps;
      }
      if !ready && disabled && noticed {
        steps := GiveUp(start, steps, Launching, backoff, streak);
        return RunDisabled, steps;
      }
      if !ready {
        steps := Fail(start, steps, Launching, backoff, streak);
        return RunCrashed, steps;
      }
      if !restored {
        steps := RejectSession(start, steps, backoff, streak);
        return RunCrashed, steps;
      }
      outcome, steps := Monitor(start, steps, backoff, streak);
    }

    /** Serve the process and watch it. */
    method Monitor(ghost start: State, ghost soFar: seq<Step>, ghost backoff: int, ghost streak: nat)
      returns (outcome: Outcome, ghost steps: seq<Step>)
      requires Leads(cfg, start, soFar, View(Launching, backoff, streak))
      modifies this
      ensures Own(steps) > Own(soFar)
      ensures outcome == RunCrashed ==> Leads(cfg, start, steps, View(Crashing, backoff, streak))
      ensures outcome == RunDisabled || outcome == RunRestart ==> Leads(cfg, start, steps, View(Top, 0, 0))
      ensures outcome == RunShutdown ==> Leads(cfg, start, steps, View(Ended, backoff, streak))
    {
      hide Leads, Own;
      LeadsMore(cfg, start, soFar, View(Launching, backoff, streak), Serve);
      SetState(Healthy, false, backoff);
      steps := soFar + [Serve];
      var probes: int := *;
      while probes > 0
        invariant Leads(cfg, start, steps, View(Monitoring, backoff, streak)) && Own(steps) > Own(soFar)
      {
        probes := probes - 1;
        steps := Interfere(start, steps, Monitoring, backoff, streak);
        var noticed: bool := *;
        if disabled && noticed {
          steps := GiveUp(start, steps, Monitoring, backoff, streak);
          return RunDisabled, steps;
        }
        steps := Probe(start, steps, backoff, streak);
      }
      var exited, restart: bool := *, *;
      if exited {
        steps := Fail(start, steps, Monitoring, backoff, streak);
        return RunCrashed, steps;
      }
      if restart {
        LeadsMore(cfg, start, steps, View(Monitoring, backoff, streak), HealthRestart);
        SetState(Stopped, false, backoff);
        return RunRestart, steps + [HealthRestart];
      }
      steps := ShutDown(start, steps, Monitoring, backoff, streak);
      outcome := RunShutdown;
    }

    /** One health probe, or a second handshake line. */
    method Probe(ghost start: State, ghost soFar: seq<Step>, ghost backoff: int, ghost streak: nat)
      returns (ghost steps: seq<Step>)
      requires Leads(cfg, start, soFar, View(Monitoring, backoff, streak))
      modifies this`status, this`changes
      ensures Leads(cfg, start, steps, View(Monitoring, backoff, streak)) && Own(steps) > Own(soFar)
    {
      hide Leads, Own;
      var healthy: bool := *;
      ghost var step := if healthy then Recover else Degrade;
      LeadsMore(cfg, start, soFar, View(Monitoring, backoff, streak), step);
      SetState(if healthy then Healthy else Degraded, false, backoff);
      steps := soFar + [step];
    }

    /** Wait before the next launch, unless the plugin is disabled meanwhile or the context is cancelled. */
    method Wait(ghost start: State, ghost soFar: seq<Step>, backoff: int, ghost streak: nat)
      returns (over: bool, cancelled: bool, ghost steps: seq<Step>)
      requires Leads(cfg, start, soFar, View(Top, backoff, streak)) && !disabled && backoff > 0
      modifies this
      ensures Own(steps) > Own(soFar)
      ensures Leads(cfg, start, steps, View(if over then Ready else if cancelled then Ended else Top, backoff, streak))
    {
      hide Leads, Own;
      LeadsMore(cfg, start, soFar, View(Top, backoff, streak), EnterBackoff);
      SetState(Backoff, false, backoff);
      steps := Interfere(start, soFar + [EnterBackoff], Backing, backoff, streak);
      over, cancelled := *, *;
      if !over && cancelled {
        LeadsMore(cfg, start, steps, View(Backing, backoff, streak), Cancel);
        return false, true, steps + [Cancel];
      }
      if !over && disabled {
        LeadsMore(cfg, start, steps, View(Backing, backoff, streak), BackoffInterrupted);
        return false, false, steps + [BackoffInterrupted];
      }
      LeadsMore(cfg, start, steps, View(Backing, backoff, streak), BackoffOver);
      restarts := restarts + 1;
      over, steps := true, steps + [BackoffOver];
    }

    /** Count a crash, and say how long to wait. */
    method Crash(ghost start: State, ghost soFar: seq<Step>, backoff: int, ghost streak: nat)
      returns (next: int, ghost inARow: nat, ghost steps: seq<Step>)
      requires Leads(cfg, start, soFar, View(Crashing, backoff, streak))
      modifies this
      ensures Leads(cfg, start, steps, View(Top, next, inARow)) && Own(steps) > Own(soFar)
    {
      hide Leads, Own, NextBackoff;
      var jitter: int := *;
      LeadsMore(cfg, start, soFar, View(Crashing, backoff, streak), Count(jitter));
      steps := soFar + [Count(jitter)];
      next, inARow := backoff, streak;
      crashes := crashes + 1;
      if crashes > cfg.maxRestarts {
        disabled := true;
      } else {
        next := NextDelay(backoff, jitter);
        inARow := streak + 1;
        backoffs := backoffs + [next];
      }
    }

    /** Pause while the plugin is disabled; the counters start afresh when it is enabled again. */
    method Paused(ghost start: State, ghost soFar: seq<Step>, backoff: int, ghost streak: nat)
      returns (resumed: bool, ghost steps: seq<Step>)
      requires Leads(cfg, start, soFar, View(Top, backoff, streak)) && disabled
      modifies this
      ensures Own(steps) > Own(soFar)
      ensures if resumed then Leads(cfg, start, steps, View(Top, 0, 0)) else Leads(cfg, start, steps, View(Ended, backoff, streak))
    {
      hide Leads, Own;
      LeadsMore(cfg, start, soFar, View(Top, backoff, streak), EnterDisabled);
      SetState(Disabled, false, backoff);
      steps := Interfere(start, soFar + [EnterDisabled], Waiting, backoff, streak);
      if disabled {
        LeadsMore(cfg, start, steps, View(Waiting, backoff, streak), Cancel);
        return false, steps + [Cancel];
      }
      LeadsMore(cfg, start, steps, View(Waiting, backoff, streak), Resume);
      SetState(Stopped, false, backoff);
      restarts, crashes, raced := 0, 0, false;
      resumed, steps := true, steps + [Resume];
    }

    /** One turn of the loop. */
    method Turn(ghost start: State, ghost soFar: seq<Step>, backoff: int, ghost streak: nat)
      returns (ended: bool, next: int, ghost inARow: nat, ghost steps: seq<Step>)
      requires Leads(cfg, start, soFar, View(Top, backoff, streak))
      modifies this
      ensures Leads(cfg, start, steps, View(if ended then Ended else Top, next, inARow)) && Own(steps) > Own(soFar)
    {
      hide Leads, Own;
      ended, next, inARow := false, backoff, streak;
      steps := Interfere(start, soFar, Top, backoff, streak);
      var cancelled: bool := *;
      if cancelled {
        LeadsMore(cfg, start, steps, View(Top, backoff, streak), Cancel);
        return true, next, inARow, steps + [Cancel];
      }
      if disabled {
        var resumed;
        resumed, steps := Paused(start, steps, backoff, streak);
        if resumed {
          return false, 0, 0, steps;
        }
        return true, next, inARow, steps;
      }
      if backoff > 0 {
        var over;
        over, cancelled, steps := Wait(start, steps, backoff, streak);
        if !over {
          return cancelled, next, inARow, steps;
        }
      } else {
        LeadsMore(cfg, start, steps, View(Top, backoff, streak), Proceed);
        steps := steps + [Proceed];
      }
      var outcome;
      outcome, steps := RunOnce(start, steps, backoff, streak);
      match outcome {
        case RunCrashed => next, inARow, steps := Crash(start, steps, backoff, streak);
        case RunShutdown => ended := true;
        case _ => next, inARow := 0, 0;
      }
    }

    /** The loop, for any number of turns: a run from the start in which every turn took a step. */
    method Supervise() returns (turns: nat, ghost end: State, ghost steps: seq<Step>)
      requires View(Top, 0, 0) == START && cfg.Valid()
      modifies this
      ensures Leads(cfg, START, steps, end) && end == View(end.place, end.backoff, end.streak) && Own(steps) >= turns
    {
      var backoff, ended := 0, false;
      ghost var streak: nat := 0;
      hide Leads, Own;
      StartSafe(cfg);
      LeadsNowhere(cfg, START);
      turns, steps := 0, [];
      var limit: int := *;
      while turns < limit && !ended
        invariant Leads(cfg, START, steps, View(if ended then Ended else Top, backoff, streak)) && Own(steps) >= turns
      {
        ended, backoff, streak, steps := Turn(START, steps, backoff, streak);
        turns := turns + 1;
      }
      end := View(if ended then Ended else Top, backoff, streak);
    }
  }

  lemma StartSafe(cfg: Config)
    ensures Inv(cfg, START)
  {
  }
}
