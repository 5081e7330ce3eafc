/** Executing effects at most once per idempotency key, and events that reach a plugin in order. */
module Execution {
  import opened Wrappers

  type Key = string

  /** What one instance remembers, and who is executing what right now. */
  datatype State = State(
    executed: set<Key>,
    inFlight: set<Key>,
    executing: multiset<Key>,   // calls of Execute that have begun and not ended
    succeeded: multiset<Key>)   // calls of Execute that ended well

  const FRESH := State({}, {}, multiset{}, multiset{})

  /** Two sections under the lock, with the call to the executor in between. */
  datatype Step =
    | Claim(key: Key)
    | Settle(key: Key, ok: bool)
  {
    /** A claim that finds the key known is a duplicate and changes nothing. */
    predicate Possible(st: State) {
      match this
      case Claim(_) => true
      case Settle(key, _) => key in st.executing
    }

    function Apply(st: State): State {
      match this
      case Claim(key) =>
        if IsDuplicate(st, key) then st
        else st.(inFlight := st.inFlight + {key}, executing := st.executing + multiset{key})
      case Settle(key, ok) =>
        st.(inFlight := st.inFlight - {key}, executing := st.executing - multiset{key},
            executed := st.executed + (if ok then {key} else {}),
            succeeded := st.succeeded + (if ok then multiset{key} else multiset{}))
    }
  }

  predicate IsDuplicate(st: State, key: Key) { key in st.executed || key in st.inFlight }

  /** Executed and in flight are different things; a key is in flight exactly while one call executes it,
      and executed exactly if one call succeeded. */
  ghost predicate Inv(st: State) {
    && st.executed !! st.inFlight
    && (forall k :: st.executing[k] == if k in st.inFlight then 1 else 0)
    && (forall k :: st.succeeded[k] == if k in st.executed then 1 else 0)
  }

  lemma StepKeeps(st: State, step: Step)
    requires Inv(st) && step.Possible(st)
    ensures Inv(step.Apply(st))
  {
  }

  predicate Legal(st: State, steps: seq<Step>)
    decreases |steps|
  {
    steps == [] || (steps[0].Possible(st) && Legal(steps[0].Apply(st), steps[1..]))
  }

  function Run(st: State, steps: seq<Step>): State
    requires Legal(st, steps)
    decreases |steps|
  {
    if steps == [] then st else Run(steps[0].Apply(st), steps[1..])
  }

  lemma {:induction false} RunKeeps(st: State, steps: seq<Step>)
    requires Inv(st) && Legal(st, steps)
    ensures Inv(Run(st, steps))
    decreases |steps|
  {
    hide Inv, Step.Apply, Step.Possible;
    if steps != [] {
      StepKeeps(st, steps[0]);
      RunKeeps(steps[0].Apply(st), steps[1..]);
    }
  }

  /** Under any interleaving of callers: at most one call executes a key at a time, at most one ever
      succeeds, and none is executing once one has. */
  lemma AtMostOnce(steps: seq<Step>, key: Key)
    requires Legal(FRESH, steps)
    ensures var st := Run(FRESH, steps);
      && st.executing[key] <= 1 && st.succeeded[key] <= 1
      && (st.succeeded[key] == 1 ==> st.executing[key] == 0 && IsDuplicate(st, key))
  {
    assert Inv(FRESH);
    RunKeeps(FRESH, steps);
    hide Run, Legal;
  }

  /** A key is tried again exactly when its last execution failed. */
  lemma FailureCanBeRetried(st: State, key: Key, ok: bool)
    requires Inv(st) && key in st.executing
    ensures IsDuplicate(Settle(key, ok).Apply(st), key) <==> ok
  {
  }

  /** Once executed, always a duplicate. */
  lemma {:induction false} ExecutedForGood(st: State, steps: seq<Step>, key: Key)
    requires Legal(st, steps) && key in st.executed
    ensures key in Run(st, steps).executed
    decreases |steps|
  {
    if steps != [] {
      ExecutedForGood(steps[0].Apply(st), steps[1..], key);
    }
  }

  // ---------------------------------------------------------------- batches

  /** An effect, and whether it passes its own validation. */
  datatype Effect = Effect(tenant: string, key: Key, valid: bool)

  datatype Result = Executed | Duplicate | Failed | Refused {
    /** An execution that fails is reported as executed with an error. */
    predicate IsError() { Failed? || Refused? }
  }

  /** From one state the given steps of any callers lead to the other, in which nothing is executed twice. */
  ghost predicate Leads(a: State, steps: seq<Step>, b: State) {
    Legal(a, steps) && Run(a, steps) == b && Inv(b)
  }

  predicate Settles(step: Step, key: Key) { step.Settle? && step.key == key }

  /** What it means for an effect to have come out as `r` between two states: it was refused, or found
      known, or it was claimed, and nobody else settled it until its own call did. */
  ghost predicate CameOut(tenant: string, effect: Effect, r: Result, a: State, others: seq<Step>, b: State) {
    var accepted := effect.tenant == tenant && effect.valid;
    match r
    case Refused => !accepted && b == a
    case Duplicate => accepted && IsDuplicate(a, effect.key) && b == a
    case _ =>
      && accepted && !IsDuplicate(a, effect.key)
      && Leads(a, [Claim(effect.key)] + others + [Settle(effect.key, r == Executed)], b)
      && (forall s <- others :: !Settles(s, effect.key))
      && (IsDuplicate(b, effect.key) <==> r == Executed)
  }

  /** One effect of a batch: the state when its turn came, what others did during its execution, and the
      state right after. */
  datatype Turn = Turn(before: State, others: seq<Step>, after: State)

  /** The state in which the turn with number `i` can begin. */
  function Since(start: State, turns: seq<Turn>, i: nat): State
    requires i <= |turns|
  {
    if i == 0 then start else turns[i - 1].after
  }

  /** A batch from one state on: its turns, with any steps of other callers in between. */
  ghost predicate Batch(tenant: string, effects: seq<Effect>, results: seq<Result>, start: State, turns: seq<Turn>) {
    && |turns| == |results| <= |effects|
    && (forall i :: 0 <= i < |turns| ==>
          && Reaches(Since(start, turns, i), turns[i].before)
          && CameOut(tenant, effects[i], results[i], turns[i].before, turns[i].others, turns[i].after))
  }

  ghost predicate Reaches(a: State, b: State) {
    exists steps :: Leads(a, steps, b)
  }

  class Instance {
    const tenant: string
    var running: bool
    var executed: set<Key>
    var inFlight: set<Key>
    ghost var executing: multiset<Key>
    ghost var succeeded: multiset<Key>

    ghost function View(): State
      reads this
    {
      State(executed, inFlight, executing, succeeded)
    }

    constructor (tenant: string)
      ensures View() == FRESH && Inv(View()) && this.tenant == tenant && running
    {
      this.tenant, running, executed, inFlight, executing, succeeded := tenant, true, {}, {}, multiset{}, multiset{};
    }

    /** Other callers, while this one may be executing `mine`, which only it can settle. */
    method Interfere(mine: Option<Key>) returns (ghost steps: seq<Step>)
      requires Inv(View())
      modifies this`executed, this`inFlight, this`executing, this`succeeded
      ensures Leads(old(View()), steps, View()) && Inv(View())
      ensures mine.Some? ==> forall s <- steps :: !Settles(s, mine.value)
    {
      hide Inv, Leads, Step.Apply;
      var n: int := *;
      steps := [];
      LeadsNowhere(View());
      while n > 0
        invariant Leads(old(View()), steps, View()) && Inv(View())
        invariant mine.Some? ==> forall s <- steps :: !Settles(s, mine.value)
      {
        n := n - 1;
        var key: Key, claim: bool, ok: bool := *, *, *;
        if claim {
          ClaimStep(View(), key);
          LeadsMore(old(View()), steps, View(), Claim(key));
          steps := steps + [Claim(key)];
          Claimed(key);
        } else if key in inFlight && mine != Some(key) {
          SettleStep(View(), key, ok);
          LeadsMore(old(View()), steps, View(), Settle(key, ok));
          steps := steps + [Settle(key, ok)];
          Settled(key, ok);
        }
      }
    }

    /** Take a key unless it is known. */
    method Claimed(key: Key)
      modifies this`inFlight, this`executing
      ensures View() == Claim(key).Apply(old(View()))
    {
      if key !in executed && key !in inFlight {
        inFlight, executing := inFlight + {key}, executing + multiset{key};
      }
    }

    method Settled(key: Key, ok: bool)
      requires key in executing
      modifies this`executed, this`inFlight, this`executing, this`succeeded
      ensures View() == Settle(key, ok).Apply(old(View()))
    {
      inFlight, executing := inFlight - {key}, executing - multiset{key};
      executed := executed + (if ok then {key} else {});
      succeeded := succeeded + (if ok then multiset{key} else multiset{});
    }

    /** Execute an effect unless it was executed, or is being executed, already. */
    method ExecuteOnce(effect: Effect) returns (r: Result, ghost others: seq<Step>)
      requires Inv(View())
      modifies this`executed, this`inFlight, this`executing, this`succeeded
      ensures Inv(View()) && CameOut(tenant, effect, r, old(View()), others, View())
    {
      hide Inv, Leads, Legal, Run, Step.Apply;
      others := [];
      if effect.tenant != tenant || !effect.valid {
        return Refused, others;
      }
      if effect.key in executed || effect.key in inFlight {
        return Duplicate, others;
      }
      var key := effect.key;
      ClaimFirst(View(), key);
      Claimed(key);
      ghost var claimed := View();
      var ok: bool := *;
      others := Interfere(Some(key));
      LeadsJoined(old(View()), [Claim(key)], claimed, others, View());
      StillMine(claimed, others, View(), key);
      SettleStep(View(), key, ok);
      LeadsMore(old(View()), [Claim(key)] + others, View(), Settle(key, ok));
      FailureCanBeRetried(View(), key, ok);
      Settled(key, ok);
      r := if ok then Executed else Failed;
    }

    /** Execute a batch up to the first error. */
    method ExecuteEffects(effects: seq<Effect>)
      returns (results: seq<Result>, executions: nat, failures: nat, ghost turns: seq<Turn>)
      requires Inv(View())
      modifies this`executed, this`inFlight, this`executing, this`succeeded
      ensures Inv(View()) && Batch(tenant, effects, results, old(View()), turns)
      ensures View() == Since(old(View()), turns, |turns|)
      ensures !running ==> results == []
      // Everything before the last result went well, and the batch is complete unless the last is an error.
      ensures forall i :: 0 <= i < |results| - 1 ==> !results[i].IsError()
      ensures running && |results| < |effects| ==> results != [] && results[|results| - 1].IsError()
      ensures failures == if results != [] && results[|results| - 1].IsError() then 1 else 0
      ensures executions == CountRun(results)
    {
      hide Inv, Leads, CameOut, Reaches, Batch;
      results, executions, failures, turns := [], 0, 0, [];
      assert Batch(tenant, effects, results, View(), turns) by {
        BatchEmpty(tenant, effects, View());
      }
      if !running {
        return;
      }
      var i := 0;
      while i < |effects|
        invariant 0 <= i == |results| <= |effects| && failures == 0 && Inv(View())
        invariant Batch(tenant, effects, results, old(View()), turns)
        invariant View() == Since(old(View()), turns, |turns|)
        invariant forall j :: 0 <= j < i ==> !results[j].IsError()
        invariant executions == CountRun(results)
      {
        ghost var last, done := View(), results;
        ghost var steps := Interfere(None);
        ReachesBy(last, steps, View());
        ghost var before := View();
        var r, others := ExecuteOnce(effects[i]);
        BatchMore(tenant, effects, results, old(View()), turns, r, Turn(before, others, View()));
        results, turns := results + [r], turns + [Turn(before, others, View())];
        assert results[..|done|] == done;
        if r == Executed || r == Failed {
          executions := executions + 1;
        }
        if r.IsError() {
          failures := 1;
          return;
        }
        i := i + 1;
      }
    }
  }

  /** How many results stand for a call to the executor, successful or not. */
  function CountRun(results: seq<Result>): nat {
    if results == [] then 0
    else
      var n := |results| - 1;
      CountRun(results[..n]) + if results[n] == Executed || results[n] == Failed then 1 else 0
  }

  lemma BatchEmpty(tenant: string, effects: seq<Effect>, start: State)
    ensures Batch(tenant, effects, [], start, [])
  {
  }

  lemma BatchMore(tenant: string, effects: seq<Effect>, results: seq<Result>, start: State, turns: seq<Turn>, r: Result, turn: Turn)
    requires Batch(tenant, effects, results, start, turns) && |results| < |effects|
    requires Reaches(Since(start, turns, |turns|), turn.before)
    requires CameOut(tenant, effects[|results|], r, turn.before, turn.others, turn.after)
    ensures Batch(tenant, effects, results + [r], start, turns + [turn])
  {
    hide CameOut, Reaches;
    var results', turns' := results + [r], turns + [turn];
    forall i | 0 <= i < |turns'|
      ensures Reaches(Since(start, turns', i), turns'[i].before)
        && CameOut(tenant, effects[i], results'[i], turns'[i].before, turns'[i].others, turns'[i].after)
    {
      if i < |turns| {
        assert Since(start, turns', i) == Since(start, turns, i) && Reaches(Since(start, turns, i), turns[i].before);
        assert CameOut(tenant, effects[i], results[i], turns[i].before, turns[i].others, turns[i].after);
      }
    }
  }

  lemma LeadsNowhere(st: State)
    requires Inv(st)
    ensures Leads(st, [], st)
  {
    hide Inv;
  }

  lemma LeadsSays(a: State, steps: seq<Step>, b: State)
    requires Leads(a, steps, b)
    ensures Legal(a, steps) && Run(a, steps) == b && Inv(b)
  {
    hide Legal, Run, Inv;
  }

  lemma RunOneMore(st: State, steps: seq<Step>, step: Step)
    requires Legal(st, steps) && step.Possible(Run(st, steps))
    ensures Legal(st, steps + [step]) && Run(st, steps + [step]) == step.Apply(Run(st, steps))
  {
    hide Step.Apply, Step.Possible;
    assert Legal(step.Apply(Run(st, steps)), []);
    RunMore(st, steps, [step]);
  }

  lemma ReachesBy(a: State, steps: seq<Step>, b: State)
    requires Leads(a, steps, b)
    ensures Reaches(a, b)
  {
  }

  lemma {:induction false} RunMore(st: State, a: seq<Step>, b: seq<Step>)
    requires Legal(st, a) && Legal(Run(st, a), b)
    ensures Legal(st, a + b) && Run(st, a + b) == Run(Run(st, a), b)
    decreases |a|
  {
    hide Step.Apply, Step.Possible;
    if a == [] {
      assert a + b == b;
    } else {
      assert (a + b)[1..] == a[1..] + b;
      RunMore(a[0].Apply(st), a[1..], b);
    }
  }

  lemma LeadsJoined(a: State, first: seq<Step>, b: State, second: seq<Step>, c: State)
    requires Leads(a, first, b) && Leads(b, second, c)
    ensures Leads(a, first + second, c)
  {
    hide Inv, Legal, Run;
    RunMore(a, first, second);
  }

  lemma LeadsMore(a: State, steps: seq<Step>, b: State, step: Step)
    requires Leads(a, steps, b) && step.Possible(b) && Inv(step.Apply(b))
    ensures Leads(a, steps + [step], step.Apply(b))
  {
    hide Inv, Step.Apply, Step.Possible;
    assert Legal(step.Apply(b), []);
    RunMore(a, steps, [step]);
  }

  lemma ClaimFirst(st: State, key: Key)
    requires Inv(st)
    ensures Leads(st, [Claim(key)], Claim(key).Apply(st)) && Inv(Claim(key).Apply(st))
    ensures !IsDuplicate(st, key) ==> key in Claim(key).Apply(st).inFlight
  {
    hide Inv;
    ClaimStep(st, key);
    LeadsNowhere(st);
    LeadsMore(st, [], st, Claim(key));
    assert [] + [Claim(key)] == [Claim(key)];
  }

  /** A key in flight stays so until it is settled. */
  lemma {:induction false} StillMine(a: State, steps: seq<Step>, b: State, key: Key)
    requires Leads(a, steps, b) && key in a.inFlight && forall s <- steps :: !Settles(s, key)
    ensures key in b.inFlight
    decreases |steps|
  {
    hide Inv;
    if steps != [] {
      assert steps[0] in steps && forall s <- steps[1..] :: s in steps;
      StillMine(steps[0].Apply(a), steps[1..], b, key);
    }
  }

  lemma ClaimStep(st: State, key: Key)
    requires Inv(st)
    ensures Inv(Claim(key).Apply(st))
  {
    hide Inv;
    StepKeeps(st, Claim(key));
  }

  lemma SettleStep(st: State, key: Key, ok: bool)
    requires Inv(st) && key in st.inFlight
    ensures key in st.executing && Inv(Settle(key, ok).Apply(st)) && key !in st.executed
  {
    assert st.executing[key] == 1;
    StepKeeps(st, Settle(key, ok));
    hide Step.Apply;
  }
}
