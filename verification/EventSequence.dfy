/** From the dispatcher to a plugin: sequence numbers are given out under a lock, events wait in a bounded
    queue, and the plugin ignores what it has seen. */
module EventSequence {
  /** One runtime record and a fresh plugin instance. */
  datatype State = State(
    capacity: nat,
    sequence: nat,            // last number given out
    held: set<nat>,           // numbers given out and not yet queued
    queue: seq<nat>,
    last: nat,                // highest number the plugin has seen
    enqueued: seq<nat>,       // everything that was ever queued
    delivered: seq<nat>,      // everything that was taken off the queue
    processed: seq<nat>)      // everything the plugin acted on

  function Fresh(capacity: nat): State { State(capacity, 0, {}, [], 0, [], [], []) }

  datatype Step =
    | Number                  // a dispatcher takes the next number
    | Enqueue(n: nat)         // and finds room in the queue
    | Drop(n: nat)            // or not, or its caller or the instance is done: the event is dropped
    | Dispatch(give: bool)    // both at once
    | Deliver                 // the plugin receives the next event
    | Redeliver(n: nat)       // the plugin receives an event again
  {
    predicate Possible(st: State) {
      match this
      case Number => true
      case Enqueue(n) => n in st.held && |st.queue| < st.capacity
      case Drop(n) => n in st.held
      case Dispatch(_) => true
      case Deliver => st.queue != []
      case Redeliver(n) => n in st.delivered
    }

    function Apply(st: State): State
      requires Possible(st)
    {
      match this
      case Number => st.(sequence := st.sequence + 1, held := st.held + {st.sequence + 1})
      case Enqueue(n) => Put(st, n).(held := st.held - {n})
      case Drop(n) => st.(held := st.held - {n})
      case Dispatch(give) =>
        var next := st.(sequence := st.sequence + 1);
        if give && |st.queue| < st.capacity then Put(next, next.sequence) else next
      case Deliver => Handle(st.(queue := st.queue[1..], delivered := st.delivered + [st.queue[0]]), st.queue[0])
      case Redeliver(n) => Handle(st, n)
    }

    /** Numbering and queueing are never interrupted. */
    predicate InOneStep() { Dispatch? || Deliver? || Redeliver? }
  }

  function Put(st: State, n: nat): State { st.(queue := st.queue + [n], enqueued := st.enqueued + [n]) }

  /** The plugin's check. */
  function Handle(st: State, n: nat): State {
    if n <= st.last then st else st.(last := n, processed := st.processed + [n])
  }

  ghost predicate Increasing(s: seq<nat>) { forall i, j :: 0 <= i < j < |s| ==> s[i] < s[j] }

  /** The elements that are higher than everything before them. */
  function Records(s: seq<nat>): (r: seq<nat>) {
    if s == [] then []
    else
      var n := |s| - 1;
      var before := Records(s[..n]);
      if s[n] > Highest(s[..n]) then before + [s[n]] else before
  }

  function Highest(s: seq<nat>): nat {
    if s == [] then 0
    else
      var n := |s| - 1;
      if s[n] > Highest(s[..n]) then s[n] else Highest(s[..n])
  }

  /** What was delivered is what was queued and is no longer; the plugin acted on its records. */
  ghost predicate Inv(st: State) {
    && st.enqueued == st.delivered + st.queue
    && st.processed == Records(st.delivered) && st.last == Highest(st.delivered)
  }

  lemma RecordsStep(s: seq<nat>, n: nat)
    ensures Records([]) == [] && Highest([]) == 0
    ensures Records(s + [n]) == if n > Highest(s) then Records(s) + [n] else Records(s)
    ensures Highest(s + [n]) == if n > Highest(s) then n else Highest(s)
  {
    assert (s + [n])[..|s|] == s;
  }

  lemma StepKeeps(st: State, step: Step)
    requires Inv(st) && step.Possible(st)
    ensures Inv(step.Apply(st))
  {
    hide Records, Highest;
    if step.Deliver? {
      RecordsStep(st.delivered, st.queue[0]);
      assert st.queue == [st.queue[0]] + st.queue[1..];
    }
    if step.Redeliver? {
      HighestBounds(st.delivered);
    }
    var next := step.Apply(st);
    assert next.enqueued == next.delivered + next.queue;
  }

  predicate Legal(st: State, steps: seq<Step>)
    decreases |steps|
  {
    steps == [] || (steps[0].Possible(st) && Legal(steps[0].Apply(st), steps[1..]))
  }

  function Run(st: State, steps: seq<Step>): State
    requires Legal(st, steps)
    decreases |steps|
  {
    if steps == [] then st else Run(steps[0].Apply(st), steps[1..])
  }

  lemma {:induction false} RunKeeps(st: State, steps: seq<Step>)
    requires Inv(st) && Legal(st, steps)
    ensures Inv(Run(st, steps))
    decreases |steps|
  {
    hide Inv, Step.Apply, Step.Possible;
    if steps != [] {
      StepKeeps(st, steps[0]);
      RunKeeps(steps[0].Apply(st), steps[1..]);
    }
  }

  // ---------------------------------------------------------------- exactly once

  lemma {:induction false} HighestOfIncreasing(s: seq<nat>)
    requires Increasing(s) && s != [] && s[0] > 0
    ensures Highest(s) == s[|s| - 1]
  {
    var n := |s| - 1;
    if n == 0 {
      assert s[..0] == [];
    } else {
      HighestOfIncreasing(s[..n]);
      assert s[n - 1] < s[n];
    }
  }

  lemma {:induction false} IncreasingIsRecords(s: seq<nat>)
    requires Increasing(s) && (s != [] ==> s[0] > 0)
    ensures Records(s) == s
  {
    if s != [] {
      var n := |s| - 1;
      IncreasingIsRecords(s[..n]);
      assert s == s[..n] + [s[n]];
      if n > 0 {
        HighestOfIncreasing(s[..n]);
        assert s[n - 1] < s[n];
      }
    }
  }

  lemma {:induction false} RecordsShorter(s: seq<nat>)
    ensures |Records(s)| <= |s|
  {
    if s != [] {
      RecordsShorter(s[..|s| - 1]);
    }
  }

  lemma {:induction false} RecordsIncrease(s: seq<nat>)
    requires Records(s) == s
    ensures Increasing(s)
  {
    if s != [] {
      var n := |s| - 1;
      RecordsShorter(s[..n]);
      assert s[n] > Highest(s[..n]);
      assert Records(s)[..n] == Records(s[..n]);
      RecordsIncrease(s[..n]);
      HighestBounds(s[..n]);
      forall i, j | 0 <= i < j < |s|
        ensures s[i] < s[j]
      {
        if j == n {
          assert s[..n][i] <= Highest(s[..n]);
        } else {
          assert s[..n][i] < s[..n][j];
        }
      }
    }
  }

  /** Nothing is ignored exactly if the numbers increase. */
  lemma RecordsOfIncreasing(s: seq<nat>)
    requires s != [] ==> s[0] > 0
    ensures Records(s) == s <==> Increasing(s)
  {
    hide Records, Highest;
    if Increasing(s) {
      IncreasingIsRecords(s);
    }
    if Records(s) == s {
      RecordsIncrease(s);
    }
  }

  lemma {:induction false} HighestBounds(s: seq<nat>)
    ensures forall i :: 0 <= i < |s| ==> s[i] <= Highest(s)
  {
    if s != [] {
      HighestBounds(s[..|s| - 1]);
    }
  }

  /** Over every run, when the queue is empty: the plugin acted on exactly the queued events, once each and
      in order, if and only if they were queued in the order of their numbers. */
  lemma ExactlyOnceIffInOrder(capacity: nat, steps: seq<Step>)
    requires Legal(Fresh(capacity), steps) && Run(Fresh(capacity), steps).queue == []
    ensures var st := Run(Fresh(capacity), steps); st.processed == st.enqueued <==> Increasing(st.enqueued)
  {
    hide Run, Legal, Step.Apply, Step.Possible, Records, Highest;
    FreshInv(capacity);
    RunKeeps(Fresh(capacity), steps);
    NumbersFromOne(capacity, steps);
    var st := Run(Fresh(capacity), steps);
    assert st.delivered + [] == st.delivered && (st.enqueued != [] ==> st.enqueued[0] in st.enqueued);
    RecordsOfIncreasing(st.enqueued);
  }

  lemma FreshInv(capacity: nat)
    ensures Inv(Fresh(capacity))
  {
    hide Records, Highest;
    RecordsStep([], 0);
  }

  ghost predicate Numbered(st: State) {
    (forall n <- st.enqueued :: 0 < n <= st.sequence) && (forall n <- st.held :: 0 < n <= st.sequence)
  }

  lemma {:induction false} RunNumbered(st: State, steps: seq<Step>)
    requires Numbered(st) && Legal(st, steps)
    ensures Numbered(Run(st, steps))
    decreases |steps|
  {
    hide Numbered, Step.Apply, Step.Possible;
    if steps != [] {
      StepNumbered(st, steps[0]);
      RunNumbered(steps[0].Apply(st), steps[1..]);
    }
  }

  lemma NumbersFromOne(capacity: nat, steps: seq<Step>)
    requires Legal(Fresh(capacity), steps)
    ensures forall n <- Run(Fresh(capacity), steps).enqueued :: n > 0
  {
    hide Run, Legal;
    RunNumbered(Fresh(capacity), steps);
  }

  /** What is queued is in order, and below the next number. */
  ghost predicate Ordered(st: State) {
    Increasing(st.enqueued) && forall i :: 0 <= i < |st.enqueued| ==> st.enqueued[i] <= st.sequence
  }

  lemma {:induction false} RunOrdered(st: State, steps: seq<Step>)
    requires Ordered(st) && Legal(st, steps) && forall s <- steps :: s.InOneStep()
    ensures Ordered(Run(st, steps))
    decreases |steps|
  {
    if steps != [] {
      assert Ordered(steps[0].Apply(st)) by {
        assert steps[0].InOneStep();
      }
      assert forall s <- steps[1..] :: s in steps;
      RunOrdered(steps[0].Apply(st), steps[1..]);
    }
  }

  /** With numbering and queueing in one step every queued event is acted on exactly once, in order,
      whatever is dropped for a full queue and whatever is delivered again. */
  lemma ExactlyOnce(capacity: nat, steps: seq<Step>)
    requires Legal(Fresh(capacity), steps) && forall s <- steps :: s.InOneStep()
    ensures var st := Run(Fresh(capacity), steps);
      && st.processed + st.queue == st.enqueued && Increasing(st.enqueued)
  {
    hide Run, Legal, Step.Apply, Step.Possible, Step.InOneStep, Records, Highest;
    FreshInv(capacity);
    RunKeeps(Fresh(capacity), steps);
    RunOrdered(Fresh(capacity), steps);
    NumbersFromOne(capacity, steps);
    var st := Run(Fresh(capacity), steps);
    assert forall i :: 0 <= i < |st.delivered| ==> st.delivered[i] == st.enqueued[i];
    assert st.enqueued != [] ==> st.enqueued[0] in st.enqueued;
    RecordsOfIncreasing(st.delivered);
  }

  /** Over every run, a gap never holds up a later event: the next event is acted on exactly if its number is
      higher than all that were delivered before, however many in between were dropped. */
  lemma GapsDoNotBlock(capacity: nat, steps: seq<Step>)
    requires Legal(Fresh(capacity), steps) && Deliver.Possible(Run(Fresh(capacity), steps))
    ensures var st := Run(Fresh(capacity), steps);
      Deliver.Apply(st).processed ==
        st.processed + if forall n <- st.delivered :: n < st.queue[0] then [st.queue[0]] else []
  {
    hide Run, Legal, Records, Highest;
    FreshInv(capacity);
    RunKeeps(Fresh(capacity), steps);
    NumbersFromOne(capacity, steps);
    var st := Run(Fresh(capacity), steps);
    assert st.queue[0] in st.enqueued;
    HighestIsLeast(st.delivered, st.queue[0]);
    assert st.processed + [] == st.processed;
  }

  lemma {:induction false} HighestIsLeast(s: seq<nat>, n: nat)
    requires n > 0
    ensures Highest(s) < n <==> forall x <- s :: x < n
  {
    if s != [] {
      var m := |s| - 1;
      HighestIsLeast(s[..m], n);
      assert s[m] in s && s == s[..m] + [s[m]];
      assert forall x <- s :: x in s[..m] || x == s[m];
      assert forall x <- s[..m] :: x in s;
    }
  }

  /** Over every run, an event that was delivered before changes nothing when it is delivered again, however
      much was lost or came in between. */
  lemma RedeliveryIsIgnored(capacity: nat, steps: seq<Step>, n: nat)
    requires Legal(Fresh(capacity), steps) && n in Run(Fresh(capacity), steps).delivered
    ensures var st := Run(Fresh(capacity), steps); Handle(st, n) == st && Redeliver(n).Possible(st) && Redeliver(n).Apply(st) == st
  {
    hide Run, Legal, Records, Highest;
    FreshInv(capacity);
    RunKeeps(Fresh(capacity), steps);
    HighestBounds(Run(Fresh(capacity), steps).delivered);
  }

  /** In two steps an event can be lost although it was queued: the later number overtakes. */
  lemma OvertakenEventIsLost(capacity: nat)
    requires capacity >= 2
    ensures var steps := [Number, Number, Enqueue(2), Enqueue(1), Deliver, Deliver];
      && Legal(Fresh(capacity), steps)
      && var st := Run(Fresh(capacity), steps);
      st.enqueued == [2, 1] && st.queue == [] && st.processed == [2]
  {
    hide Legal, Run;
    var s0 := Fresh(capacity);
    var s2 := s0.(sequence := 2, held := {1, 2});
    var s4 := s2.(held := {}, queue := [2, 1], enqueued := [2, 1]);
    var s6 := s4.(queue := [], delivered := [2, 1], last := 2, processed := [2]);
    Delivered(s4, s6);
    Queued(s2, s4);
    var s1 := s0.(sequence := 1, held := {1});
    assert s0.held + {1} == {1} && {1} + {2} == {1, 2};
    Leading(s2, Enqueue(2), [Enqueue(1), Deliver, Deliver], [Enqueue(2), Enqueue(1), Deliver, Deliver]);
    Leading(s1, Number, [Enqueue(2), Enqueue(1), Deliver, Deliver], [Number, Enqueue(2), Enqueue(1), Deliver, Deliver]);
    Leading(s0, Number, [Number, Enqueue(2), Enqueue(1), Deliver, Deliver],
            [Number, Number, Enqueue(2), Enqueue(1), Deliver, Deliver]);
  }

  lemma Leading(st: State, step: Step, rest: seq<Step>, all: seq<Step>)
    requires all == [step] + rest && step.Possible(st) && Legal(step.Apply(st), rest)
    ensures Legal(st, all) && Run(st, all) == Run(step.Apply(st), rest)
  {
    hide Step.Apply, Step.Possible;
    assert all[1..] == rest;
  }

  lemma Delivered(s4: State, s6: State)
    requires s4.queue == [2, 1] && s4.last == 0 && s4.delivered == [] && s4.processed == []
    requires s6 == s4.(queue := [], delivered := [2, 1], last := 2, processed := [2])
    ensures Legal(s4, [Deliver, Deliver]) && Run(s4, [Deliver, Deliver]) == s6
  {
    hide Legal, Run;
    var s5 := Deliver.Apply(s4);
    assert Deliver.Apply(s5) == s6;
    NoMore(s6);
    Leading(s5, Deliver, [], [Deliver]);
    Leading(s4, Deliver, [Deliver], [Deliver, Deliver]);
  }

  lemma NoMore(st: State)
    ensures Legal(st, []) && Run(st, []) == st
  {
  }

  lemma Queued(s2: State, s4: State)
    requires s2.capacity >= 2 && s2.held == {1, 2} && s2.queue == [] && s2.enqueued == []
    requires s4 == s2.(held := {}, queue := [2, 1], enqueued := [2, 1]) && Legal(s4, [Deliver, Deliver])
    ensures var s3 := Enqueue(2).Apply(s2);
      && Legal(s3, [Enqueue(1), Deliver, Deliver])
      && Run(s3, [Enqueue(1), Deliver, Deliver]) == Run(s4, [Deliver, Deliver])
  {
    hide Legal, Run;
    var s3 := Enqueue(2).Apply(s2);
    assert Enqueue(1).Apply(s3) == s4;
    Leading(s3, Enqueue(1), [Deliver, Deliver], [Enqueue(1), Deliver, Deliver]);
  }

  // ---------------------------------------------------------------- the dispatcher

  datatype Dispatched = Sent | Full | CallerDone | NotRunning

  /** From one state the given steps lead to the other. */
  ghost predicate Leads(a: State, steps: seq<Step>, b: State) {
    Legal(a, steps) && Run(a, steps) == b && Inv(b) && Numbered(b)
  }

  /** Steps that do not queue or drop a number. */
  ghost predicate LeaveAlone(steps: seq<Step>, n: nat) {
    forall s <- steps :: s != Enqueue(n) && s != Drop(n)
  }

  /** One instance record of the runtime, together with the plugin at the other end of its stream. */
  class Stream {
    const capacity: nat
    var running: bool
    var sequence: nat
    var held: set<nat>
    var queue: seq<nat>
    var last: nat
    var enqueued: seq<nat>    // what was queued, delivered and acted on so far
    var delivered: seq<nat>
    var processed: seq<nat>

    function View(): State
      reads this
    {
      State(capacity, sequence, held, queue, last, enqueued, delivered, processed)
    }

    constructor (capacity: nat)
      ensures View() == Fresh(capacity) && Inv(View()) && Numbered(View()) && running
    {
      this.capacity, running, sequence, held, queue, last := capacity, true, 0, {}, [], 0;
      enqueued, delivered, processed := [], [], [];
      FreshInv(capacity);
    }

    /** Other dispatchers and the plugin, while this caller holds `mine`. */
    method Interfere(mine: nat) returns (ghost steps: seq<Step>)
      requires Inv(View()) && Numbered(View()) && mine in held && mine <= sequence
      modifies this
      ensures Leads(old(View()), steps, View()) && LeaveAlone(steps, mine) && mine in held
    {
      hide Leads, Step.Apply, Step.Possible, Numbered, Inv;
      var n: int := *;
      LeadsNowhere(View());
      steps := [];
      while n > 0
        invariant Leads(old(View()), steps, View()) && LeaveAlone(steps, mine) && mine in held && mine <= sequence
      {
        n := n - 1;
        var step: Step := *;
        if step.Possible(View()) && step != Enqueue(mine) && step != Drop(mine) {
          LeadsMore(old(View()), steps, View(), step);
          StillHeld(View(), step, mine);
          steps := steps + [step];
          Become(step.Apply(View()));
        }
      }
    }

    method Become(st: State)
      requires st.capacity == capacity
      modifies this
      ensures View() == st
    {
      sequence, held, queue, last := st.sequence, st.held, st.queue, st.last;
      enqueued, delivered, processed := st.enqueued, st.delivered, st.processed;
    }

    /** Number an event, then try to queue it without blocking. */
    method DispatchEvent() returns (r: Dispatched, ghost others: seq<Step>)
      requires Inv(View()) && Numbered(View())
      modifies this
      ensures !old(running) ==> r == NotRunning && View() == old(View())
      ensures old(running) ==>
        var mine := old(sequence) + 1;
        && Leads(old(View()), [Number] + others + [if r == Sent then Enqueue(mine) else Drop(mine)], View())
        && LeaveAlone(others, mine)
      ensures r == Full ==> |queue| >= capacity
    {
      hide Leads, Legal, Run, Inv, Numbered, Step.Apply;
      others := [];
      if !running {
        return NotRunning, others;
      }
      NumberFirst(View());
      sequence := sequence + 1;
      var mine := sequence;
      held := held + {mine};
      ghost var numbered := View();
      LeadsValid(old(View()), [Number], numbered);
      others := Interfere(mine);
      LeadsJoined(old(View()), [Number], numbered, others, View());
      PutIs(View(), mine);
      // Of the ways out that are ready any may be taken; the event is refused for a full queue if none is.
      var callerDone: bool, stopped: bool, choice: int := *, *, *;
      if |queue| < capacity && (choice == 0 || !(callerDone || stopped)) {
        LeadsMore(old(View()), [Number] + others, View(), Enqueue(mine));
        queue, enqueued, held := queue + [mine], enqueued + [mine], held - {mine};
        return Sent, others;
      }
      LeadsMore(old(View()), [Number] + others, View(), Drop(mine));
      held := held - {mine};
      r := if callerDone && (choice == 1 || !stopped) then CallerDone else if stopped then NotRunning else Full;
    }

    /** The plugin receives the next event of its stream. */
    method Receive()
      requires Inv(View()) && Numbered(View()) && queue != []
      modifies this`queue, this`last, this`delivered, this`processed
      ensures Inv(View()) && Numbered(View()) && View() == Deliver.Apply(old(View()))
    {
      StepSafe(View(), Deliver);
      hide Inv, Numbered;
      var n := queue[0];
      queue, delivered := queue[1..], delivered + [n];
      if n > last {
        last, processed := n, processed + [n];
      }
    }
  }

  lemma LeadsNowhere(st: State)
    requires Inv(st) && Numbered(st)
    ensures Leads(st, [], st)
  {
    hide Inv, Numbered;
  }

  lemma LeadsValid(a: State, steps: seq<Step>, b: State)
    requires Leads(a, steps, b)
    ensures Inv(b) && Numbered(b)
  {
  }

  lemma {:induction false} RunMore(st: State, a: seq<Step>, b: seq<Step>)
    requires Legal(st, a) && Legal(Run(st, a), b)
    ensures Legal(st, a + b) && Run(st, a + b) == Run(Run(st, a), b)
    decreases |a|
  {
    hide Step.Apply, Step.Possible;
    if a == [] {
      assert a + b == b;
    } else {
      assert (a + b)[1..] == a[1..] + b;
      RunMore(a[0].Apply(st), a[1..], b);
    }
  }

  lemma LeadsJoined(a: State, first: seq<Step>, b: State, second: seq<Step>, c: State)
    requires Leads(a, first, b) && Leads(b, second, c)
    ensures Leads(a, first + second, c)
  {
    hide Inv, Numbered, Legal, Run;
    RunMore(a, first, second);
  }

  lemma LeadsMore(a: State, steps: seq<Step>, b: State, step: Step)
    requires Leads(a, steps, b) && step.Possible(b)
    ensures Leads(a, steps + [step], step.Apply(b)) && step.Apply(b).capacity == b.capacity
  {
    StepSafe(b, step);
    hide Inv, Numbered, Step.Possible;
    assert Legal(step.Apply(b), []);
    RunMore(a, steps, [step]);
  }

  lemma NumberFirst(st: State)
    requires Inv(st) && Numbered(st)
    ensures Leads(st, [Number], st.(sequence := st.sequence + 1, held := st.held + {st.sequence + 1}))
  {
    hide Inv, Numbered, Leads;
    LeadsNowhere(st);
    LeadsMore(st, [], st, Number);
    assert [] + [Number] == [Number];
  }

  lemma StillHeld(st: State, step: Step, n: nat)
    requires step.Possible(st) && n in st.held && n <= st.sequence && step != Enqueue(n) && step != Drop(n)
    ensures n in step.Apply(st).held && n <= step.Apply(st).sequence
  {
  }

  lemma PutIs(st: State, n: nat)
    requires n in st.held
    ensures |st.queue| < st.capacity ==>
      Enqueue(n).Apply(st) == st.(queue := st.queue + [n], enqueued := st.enqueued + [n], held := st.held - {n})
    ensures Drop(n).Apply(st) == st.(held := st.held - {n})
  {
  }

  lemma StepSafe(st: State, step: Step)
    requires Inv(st) && Numbered(st) && step.Possible(st)
    ensures Inv(step.Apply(st)) && Numbered(step.Apply(st))
  {
    StepNumbered(st, step);
    hide Numbered, Inv;
    StepKeeps(st, step);
  }

  lemma StepNumbered(st: State, step: Step)
    requires Numbered(st) && step.Possible(st)
    ensures Numbered(step.Apply(st))
  {
  }
}
