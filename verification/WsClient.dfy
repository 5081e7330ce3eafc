/** Delivery of messages from the edge to the server: a bounded send queue, an offline buffer, and a
    window of doubt after each acknowledgement that was written.

    Callers, the write pump, the session loop and the doubt timers run concurrently.  Everything one of
    them does under a lock, or by one channel operation, is a `Step`; a run is any interleaving. */
module WsClient {
  import opened Wrappers

  const SEND_QUEUE: nat := 256
  const OFFLINE_BUFFER_CAP: nat := 512

  datatype Kind = Event | CommandAck | Report

  datatype Message = Message(kind: Kind, payload: string) {
    /** Reports are repeated anyway; events and acknowledgements are kept while offline. */
    predicate Bufferable() { kind != Report }
  }

  /** Where the session loop is. */
  datatype Phase = Down | Flushing | Up | Draining

  datatype State = State(
    send: seq<Message>,
    hand: Option<Message>,        // taken by the pump, not yet written
    written: Option<Message>,     // an acknowledgement written, not yet tracked
    pending: seq<Message>,        // the offline buffer
    flushing: seq<Message>,       // taken from the buffer by a flush, not yet queued
    inflight: seq<Message>,       // written acknowledgements in doubt
    timers: multiset<Message>,    // armed doubt timers of this session
    dead: bool,
    lost: seq<Message>,           // drained from a dead session, not yet buffered again
    phase: Phase,
    cancelled: bool,
    online: bool,
    dropped: nat,
    // what became of messages that are nowhere above
    accepted: multiset<Message>,  // every message ever handed in
    delivered: multiset<Message>, // written, and for an acknowledgement out of doubt
    discarded: multiset<Message>, // pushed out of the full buffer
    shed: multiset<Message>)      // reports nobody waits for

  const START := State([], None, None, [], [], [], multiset{}, true, [], Down, true, false, 0,
                       multiset{}, multiset{}, multiset{}, multiset{})

  /** Put a message into the offline buffer; a full buffer gives up its oldest one. */
  function Buffer(st: State, m: Message): State {
    if |st.pending| >= OFFLINE_BUFFER_CAP then
      st.(pending := st.pending[1..] + [m], dropped := st.dropped + 1, discarded := st.discarded + multiset{st.pending[0]})
    else st.(pending := st.pending + [m])
  }

  /** A message that could not be written goes back to the buffer, or is dropped if it is a report. */
  function Requeue(st: State, m: Message): State {
    if m.Bufferable() then Buffer(st, m) else st.(shed := st.shed + multiset{m})
  }

  function RemoveFirstEqual(list: seq<Message>, m: Message): (r: seq<Message>)
    ensures m !in list ==> r == list
    ensures m in list ==> multiset(r) == multiset(list) - multiset{m}
    ensures forall x <- r :: x in list
  {
    if list == [] then []
    else if list[0] == m then
      assert list == [list[0]] + list[1..];
      list[1..]
    else
      assert list == [list[0]] + list[1..];
      [list[0]] + RemoveFirstEqual(list[1..], m)
  }

  datatype Thread = Caller | Pump | Session | Timer

  datatype Step =
    | Offer(m: Message)           // enqueue finds room in the queue
    | Shelve(m: Message)          // enqueue saw the client offline, or the queue full
    | Connect                     // a session is up: online
    | TakePending                 // flush: take the whole buffer
    | FlushOne                    // flush: queue one message
    | PutBack                     // flush: the queue is full
    | FlushEnd
    | Take                        // pump: take the next message
    | WriteOk
    | WriteFailed
    | Track                       // pump: put a written acknowledgement in doubt
    | Expire(m: Message)          // a doubt timer fires
    | Break                       // the read loop sees an error
    | Drain                       // the pump has stopped: collect what is in doubt
    | RequeueLost
    | Offline
  {
    function By(): Thread {
      match this
      case Offer(_) | Shelve(_) => Caller
      case Take | WriteOk | WriteFailed | Track => Pump
      case Expire(_) => Timer
      case _ => Session
    }

    predicate Possible(st: State) {
      match this
      case Offer(_) => |st.send| < SEND_QUEUE
      case Shelve(_) => true
      case Connect => st.phase == Down
      case TakePending => st.phase == Flushing && st.flushing == []
      case FlushOne => st.phase == Flushing && st.flushing != [] && |st.send| < SEND_QUEUE
      case PutBack => st.phase == Flushing && st.flushing != []
      case FlushEnd => st.phase == Flushing && st.flushing == []
      case Take => st.phase == Up && st.hand.None? && st.written.None? && st.send != []
      case WriteOk => st.hand.Some?
      case WriteFailed => st.hand.Some?
      case Track => st.written.Some?
      case Expire(m) => m in st.timers
      case Break => st.phase == Up
      case Drain => st.phase == Up && st.cancelled && st.hand.None? && st.written.None?
      case RequeueLost => st.phase == Draining && st.lost != []
      case Offline => st.phase == Draining && st.lost == []
    }

    function Apply(st: State): State
      requires Possible(st)
    {
      match this
      case Offer(m) => st.(send := st.send + [m], accepted := st.accepted + multiset{m})
      case Shelve(m) => Requeue(st.(accepted := st.accepted + multiset{m}), m)
      case Connect =>
        st.(phase := Flushing, cancelled := false, online := true, dead := false, inflight := [], timers := multiset{})
      case TakePending => st.(flushing := st.pending, pending := [])
      case FlushOne => st.(send := st.send + [st.flushing[0]], flushing := st.flushing[1..])
      case PutBack => st.(pending := st.flushing + st.pending, flushing := [], phase := Up)
      case FlushEnd => st.(phase := Up)
      case Take => st.(hand := Some(st.send[0]), send := st.send[1..])
      case WriteOk =>
        if st.hand.value.kind == CommandAck then st.(hand := None, written := st.hand)
        else st.(hand := None, delivered := st.delivered + multiset{st.hand.value})
      case WriteFailed => Requeue(st.(hand := None, cancelled := true), st.hand.value)
      case Track =>
        var m := st.written.value;
        if st.dead then Requeue(st.(written := None), m)
        else st.(written := None, inflight := st.inflight + [m], timers := st.timers + multiset{m})
      case Expire(m) =>
        if st.dead then st.(timers := st.timers - multiset{m})
        else st.(timers := st.timers - multiset{m}, inflight := RemoveFirstEqual(st.inflight, m),
                 delivered := st.delivered + multiset{m})
      case Break => st.(cancelled := true)
      case Drain => st.(dead := true, lost := st.inflight, inflight := [], timers := multiset{}, phase := Draining)
      case RequeueLost => Requeue(st.(lost := st.lost[1..]), st.lost[0])
      case Offline => st.(phase := Down, online := false)
    }
  }

  // ---------------------------------------------------------------- what every step keeps

  function Of(x: Option<Message>, m: Message): nat { if x == Some(m) then 1 else 0 }

  /** How many copies of `m` are on their way. */
  ghost function Carried(st: State, m: Message): nat {
    multiset(st.send)[m] + Of(st.hand, m) + Of(st.written, m) + multiset(st.pending)[m] + multiset(st.flushing)[m]
    + multiset(st.inflight)[m] + multiset(st.lost)[m]
  }

  /** How many copies of `m` were delivered, pushed out of the buffer, or dropped as reports. */
  ghost function Settled(st: State, m: Message): nat {
    st.delivered[m] + st.discarded[m] + st.shed[m]
  }

  /** Every message handed in is in exactly one place, copy by copy. */
  ghost predicate Conserved(st: State) {
    forall m :: st.accepted[m] == Carried(st, m) + Settled(st, m)
  }

  ghost predicate AllBufferable(s: seq<Message>) { forall m <- s :: m.Bufferable() }

  ghost predicate AllAcks(s: seq<Message>) { forall m <- s :: m.kind == CommandAck }

  /** Only events and acknowledgements are buffered, only acknowledgements are ever in doubt, and only
      reports are dropped outright. */
  ghost predicate Kinds(st: State) {
    && AllBufferable(st.pending) && AllBufferable(st.flushing)
    && AllAcks(st.inflight) && AllAcks(st.lost) && (st.written.Some? ==> st.written.value.kind == CommandAck)
    && BagKinds(st.discarded, st.shed)
  }

  ghost predicate BagKinds(discarded: multiset<Message>, shed: multiset<Message>) {
    (forall m <- discarded :: m.Bufferable()) && (forall m <- shed :: !m.Bufferable())
  }

  /** While a session lives, each acknowledgement in doubt has its timer. */
  ghost predicate Timed(st: State) {
    if st.dead then st.inflight == [] && st.timers == multiset{} else multiset(st.inflight) == st.timers
  }

  predicate Phased(st: State) {
    && (st.flushing != [] ==> st.phase == Flushing)
    && (st.lost != [] ==> st.phase == Draining)
    && (st.hand.Some? || st.written.Some? ==> st.phase == Up)
    && (st.dead <==> st.phase == Down || st.phase == Draining)
    && (st.hand.None? || st.written.None?)
    && |st.send| <= SEND_QUEUE
  }

  ghost predicate Inv(st: State) {
    Conserved(st) && Kinds(st) && Timed(st) && Phased(st) && |st.discarded| == st.dropped
  }

  /** What requeueing moves, and that the counter counts exactly what the buffer gives up. */
  lemma RequeueConserves(st: State, m: Message, x: Message)
    ensures var next := Requeue(st, m);
      && multiset(next.pending)[x] + next.discarded[x] + next.shed[x] ==
           multiset(st.pending)[x] + st.discarded[x] + st.shed[x] + (if x == m then 1 else 0)
      && |next.discarded| - next.dropped == |st.discarded| - st.dropped
      && next == st.(pending := next.pending, dropped := next.dropped, discarded := next.discarded, shed := next.shed)
  {
    if m.Bufferable() && |st.pending| >= OFFLINE_BUFFER_CAP {
      HeadAndRest(st.pending, x);
      Joined(st.pending[1..], [m], x);
    } else {
      Joined(st.pending, [m], x);
    }
  }

  lemma HeadAndRest(s: seq<Message>, x: Message)
    requires s != []
    ensures multiset(s)[x] == Of(Some(s[0]), x) + multiset(s[1..])[x]
  {
    assert s == [s[0]] + s[1..];
  }

  lemma Joined(a: seq<Message>, b: seq<Message>, x: Message)
    ensures multiset(a + b)[x] == multiset(a)[x] + multiset(b)[x]
  {
  }

  lemma RestKinds(s: seq<Message>)
    requires s != []
    ensures AllBufferable(s) ==> s[0].Bufferable() && AllBufferable(s[1..])
    ensures AllAcks(s) ==> s[0].kind == CommandAck && AllAcks(s[1..])
  {
  }

  lemma JoinedKinds(a: seq<Message>, b: seq<Message>)
    ensures AllBufferable(a) && AllBufferable(b) ==> AllBufferable(a + b)
    ensures AllAcks(a) && AllAcks(b) ==> AllAcks(a + b)
  {
  }

  lemma SingleKinds(m: Message)
    ensures AllBufferable([m]) <==> m.Bufferable()
    ensures AllAcks([m]) <==> m.kind == CommandAck
    ensures AllBufferable([]) && AllAcks([])
  {
    assert m in [m];
  }

  lemma RemovedKinds(s: seq<Message>, m: Message)
    ensures AllAcks(s) ==> AllAcks(RemoveFirstEqual(s, m))
  {
  }

  lemma RequeueKinds(st: State, m: Message)
    requires Kinds(st)
    ensures Kinds(Requeue(st, m))
  {
    hide AllAcks, AllBufferable;
    SingleKinds(m);
    if m.Bufferable() && |st.pending| >= OFFLINE_BUFFER_CAP {
      RestKinds(st.pending);
      JoinedKinds(st.pending[1..], [m]);
    } else {
      JoinedKinds(st.pending, [m]);
    }
  }

  lemma StepKinds(st: State, step: Step)
    requires step.Possible(st) && Kinds(st) && Phased(st)
    ensures Kinds(step.Apply(st))
  {
    if step.Shelve? || step.WriteFailed? || step.Track? || step.RequeueLost? {
      RequeueingKinds(st, step);
    } else {
      MovingKinds(st, step);
    }
    hide Kinds, Step.Apply, Step.Possible, Phased;
  }

  lemma RequeueingKinds(st: State, step: Step)
    requires step.Possible(st) && Kinds(st) && Phased(st)
    requires step.Shelve? || step.WriteFailed? || step.Track? || step.RequeueLost?
    ensures Kinds(step.Apply(st))
  {
    hide Requeue, AllAcks, AllBufferable;
    match step {
      case Shelve(m) => RequeueKinds(st.(accepted := st.accepted + multiset{m}), m);
      case WriteFailed => RequeueKinds(st.(hand := None, cancelled := true), st.hand.value);
      case Track =>
        SingleKinds(st.written.value);
        JoinedKinds(st.inflight, [st.written.value]);
        RequeueKinds(st.(written := None), st.written.value);
      case RequeueLost =>
        RestKinds(st.lost);
        RequeueKinds(st.(lost := st.lost[1..]), st.lost[0]);
    }
  }

  lemma MovingKinds(st: State, step: Step)
    requires step.Possible(st) && Kinds(st)
    requires !step.Shelve? && !step.WriteFailed? && !step.Track? && !step.RequeueLost?
    ensures Kinds(step.Apply(st))
  {
    hide Requeue, AllAcks, AllBufferable, RemoveFirstEqual, BagKinds;
    SingleKinds(Message(Event, ""));
    if step.FlushOne? {
      RestKinds(st.flushing);
    } else if step.PutBack? {
      JoinedKinds(st.flushing, st.pending);
    } else if step.Expire? {
      RemovedKinds(st.inflight, step.m);
    }
  }

  lemma RequeueFrame(st: State, m: Message)
    ensures var next := Requeue(st, m);
      && next == st.(pending := next.pending, dropped := next.dropped, discarded := next.discarded, shed := next.shed)
      && st.dropped <= next.dropped
  {
  }

  lemma StepPhased(st: State, step: Step)
    requires step.Possible(st) && Phased(st)
    ensures Phased(step.Apply(st))
  {
    if step.Shelve? || step.WriteFailed? || step.Track? || step.RequeueLost? {
      RequeueingPhased(st, step);
    } else {
      MovingPhased(st, step);
    }
    hide Step.Apply, Step.Possible, Phased;
  }

  lemma RequeueingPhased(st: State, step: Step)
    requires step.Possible(st) && Phased(st)
    requires step.Shelve? || step.WriteFailed? || step.Track? || step.RequeueLost?
    ensures Phased(step.Apply(st))
  {
    hide Requeue, RemoveFirstEqual, Message.Bufferable;
    match step {
      case Shelve(m) => RequeueFrame(st.(accepted := st.accepted + multiset{m}), m);
      case WriteFailed => RequeueFrame(st.(hand := None, cancelled := true), st.hand.value);
      case Track => RequeueFrame(st.(written := None), st.written.value);
      case RequeueLost => RequeueFrame(st.(lost := st.lost[1..]), st.lost[0]);
    }
  }

  lemma MovingPhased(st: State, step: Step)
    requires step.Possible(st) && Phased(st)
    requires !step.Shelve? && !step.WriteFailed? && !step.Track? && !step.RequeueLost?
    ensures Phased(step.Apply(st))
  {
    hide Requeue, RemoveFirstEqual, Message.Bufferable;
  }

  lemma StepTimed(st: State, step: Step)
    requires step.Possible(st) && Phased(st) && Timed(st)
    ensures Timed(step.Apply(st))
  {
    if step.Shelve? || step.WriteFailed? || step.Track? || step.RequeueLost? {
      RequeueingTimed(st, step);
    } else {
      MovingTimed(st, step);
    }
    hide Timed, Step.Apply, Step.Possible, Phased;
  }

  lemma RequeueingTimed(st: State, step: Step)
    requires step.Possible(st) && Phased(st) && Timed(st)
    requires step.Shelve? || step.WriteFailed? || step.Track? || step.RequeueLost?
    ensures Timed(step.Apply(st))
  {
    hide Requeue, RemoveFirstEqual, Message.Bufferable;
    match step {
      case Shelve(m) => RequeueFrame(st.(accepted := st.accepted + multiset{m}), m);
      case WriteFailed => RequeueFrame(st.(hand := None, cancelled := true), st.hand.value);
      case Track => RequeueFrame(st.(written := None), st.written.value);
      case RequeueLost => RequeueFrame(st.(lost := st.lost[1..]), st.lost[0]);
    }
  }

  lemma MovingTimed(st: State, step: Step)
    requires step.Possible(st) && Phased(st) && Timed(st)
    requires !step.Shelve? && !step.WriteFailed? && !step.Track? && !step.RequeueLost?
    ensures Timed(step.Apply(st))
  {
    hide Requeue, RemoveFirstEqual, Message.Bufferable;
    if step.Expire? && !st.dead {
      assert step.m in st.inflight;
    }
  }

  /** Steps that put a message that is not on its way into the offline buffer. */
  lemma RequeueingConserves(st: State, step: Step, x: Message)
    requires step.Possible(st) && (step.Shelve? || step.WriteFailed?)
    requires st.accepted[x] == Carried(st, x) + Settled(st, x)
    ensures var next := step.Apply(st); next.accepted[x] == Carried(next, x) + Settled(next, x)
  {
    hide Requeue;
    match step {
      case Shelve(m) => RequeueConserves(st.(accepted := st.accepted + multiset{m}), m, x);
      case WriteFailed => RequeueConserves(st.(hand := None, cancelled := true), st.hand.value, x);
    }
  }

  /** The same for acknowledgements written on a dying connection. */
  lemma DoubtConserves(st: State, step: Step, x: Message)
    requires step.Possible(st) && (step.Track? || step.RequeueLost?)
    requires st.accepted[x] == Carried(st, x) + Settled(st, x)
    ensures var next := step.Apply(st); next.accepted[x] == Carried(next, x) + Settled(next, x)
  {
    hide Requeue;
    match step {
      case Track =>
        RequeueConserves(st.(written := None), st.written.value, x);
        Joined(st.inflight, [st.written.value], x);
      case RequeueLost =>
        HeadAndRest(st.lost, x);
        RequeueConserves(st.(lost := st.lost[1..]), st.lost[0], x);
    }
  }

  /** Steps that carry a message from one place to the next. */
  lemma MovingConserves(st: State, step: Step, x: Message)
    requires step.Possible(st) && (step.Offer? || step.FlushOne? || step.PutBack? || step.Take? || step.TakePending?)
    requires st.accepted[x] == Carried(st, x) + Settled(st, x)
    ensures var next := step.Apply(st); next.accepted[x] == Carried(next, x) + Settled(next, x)
  {
    match step {
      case Offer(m) => Joined(st.send, [m], x);
      case FlushOne => HeadAndRest(st.flushing, x); Joined(st.send, [st.flushing[0]], x);
      case PutBack => Joined(st.flushing, st.pending, x);
      case Take => HeadAndRest(st.send, x);
      case TakePending =>
    }
  }

  /** An acknowledgement that outlived its window of doubt is delivered, once per timer. */
  lemma ExpiryConserves(st: State, m: Message, x: Message)
    requires m in st.timers && Timed(st) && st.accepted[x] == Carried(st, x) + Settled(st, x)
    ensures var next := Expire(m).Apply(st); next.accepted[x] == Carried(next, x) + Settled(next, x)
  {
    hide RemoveFirstEqual;
    if !st.dead {
      assert m in st.inflight;
    }
  }

  /** Steps of the session. */
  lemma SessionConserves(st: State, step: Step, x: Message)
    requires step.Possible(st) && Timed(st) && Phased(st)
    requires step.Connect? || step.Break? || step.Drain? || step.Offline? || step.FlushEnd?
    requires st.accepted[x] == Carried(st, x) + Settled(st, x)
    ensures var next := step.Apply(st); next.accepted[x] == Carried(next, x) + Settled(next, x)
  {
    hide Requeue, RemoveFirstEqual, Buffer;
  }

  lemma WriteConserves(st: State, x: Message)
    requires WriteOk.Possible(st) && Phased(st) && st.accepted[x] == Carried(st, x) + Settled(st, x)
    ensures var next := WriteOk.Apply(st); next.accepted[x] == Carried(next, x) + Settled(next, x)
  {
    hide Requeue, RemoveFirstEqual, Buffer;
    var m := st.hand.value;
    var next := WriteOk.Apply(st);
    assert Of(st.hand, x) + Of(st.written, x) + st.delivered[x] == Of(next.hand, x) + Of(next.written, x) + next.delivered[x];
    assert next == st.(hand := next.hand, written := next.written, delivered := next.delivered);
    hide Step.Apply, Phased, Of;
  }

  lemma StepDiscards(st: State, step: Step)
    requires step.Possible(st)
    ensures |step.Apply(st).discarded| - step.Apply(st).dropped == |st.discarded| - st.dropped
  {
    hide Requeue;
    match step {
      case Shelve(m) => RequeueConserves(st.(accepted := st.accepted + multiset{m}), m, m);
      case WriteFailed => RequeueConserves(st.(hand := None, cancelled := true), st.hand.value, st.hand.value);
      case Track => RequeueConserves(st.(written := None), st.written.value, st.written.value);
      case RequeueLost => RequeueConserves(st.(lost := st.lost[1..]), st.lost[0], st.lost[0]);
      case _ =>
    }
  }

  lemma TimerArmed(st: State, step: Step)
    requires step.Possible(st) && step.Expire?
    ensures step.m in st.timers && step == Expire(step.m)
  {
  }

  /** One step moves no copy of `x` out of the account. */
  lemma StepConserves(st: State, step: Step, x: Message)
    requires step.Possible(st) && Timed(st) && Phased(st)
    requires st.accepted[x] == Carried(st, x) + Settled(st, x)
    ensures var next := step.Apply(st); next.accepted[x] == Carried(next, x) + Settled(next, x)
  {
    hide Step.Apply, Step.Possible, Carried, Settled, Timed, Phased;
    if step.Shelve? || step.WriteFailed? {
      RequeueingConserves(st, step, x);
    } else if step.Track? || step.RequeueLost? {
      DoubtConserves(st, step, x);
    } else if step.Offer? || step.FlushOne? || step.PutBack? || step.Take? || step.TakePending? {
      MovingConserves(st, step, x);
    } else if step.Expire? {
      TimerArmed(st, step);
      ExpiryConserves(st, step.m, x);
    } else if step.WriteOk? {
      assert step == WriteOk;
      WriteConserves(st, x);
    } else {
      SessionConserves(st, step, x);
    }
  }

  /** Whatever step comes next, no message is lost or duplicated. */
  lemma StepKeeps(st: State, step: Step)
    requires Inv(st) && step.Possible(st)
    ensures Inv(step.Apply(st))
  {
    hide Carried, Settled, Kinds, Timed, Phased, Step.Apply, Step.Possible;
    StepKinds(st, step);
    StepPhased(st, step);
    StepTimed(st, step);
    forall x
      ensures step.Apply(st).accepted[x] == Carried(step.Apply(st), x) + Settled(step.Apply(st), x)
    {
      StepConserves(st, step, x);
    }
    StepDiscards(st, step);
  }

  // ---------------------------------------------------------------- runs

  predicate Legal(st: State, steps: seq<Step>)
    decreases |steps|
  {
    steps == [] || (steps[0].Possible(st) && Legal(steps[0].Apply(st), steps[1..]))
  }

  function Run(st: State, steps: seq<Step>): State
    requires Legal(st, steps)
    decreases |steps|
  {
    if steps == [] then st else Run(steps[0].Apply(st), steps[1..])
  }

  lemma {:induction false} RunKeeps(st: State, steps: seq<Step>)
    requires Inv(st) && Legal(st, steps)
    ensures Inv(Run(st, steps))
    decreases |steps|
  {
    hide Inv, Step.Apply, Step.Possible;
    if steps != [] {
      StepKeeps(st, steps[0]);
      RunKeeps(steps[0].Apply(st), steps[1..]);
    }
  }

  /** Over every interleaving: each copy of an acknowledgement ever handed in is in the send queue, with
      the pump, in the buffer, in doubt or about to be buffered again, or it was confirmed, or the full
      buffer gave it up; and `dropped` counts exactly what was given up. */
  lemma AcknowledgementsAreConserved(steps: seq<Step>, ack: Message)
    requires Legal(START, steps) && ack.kind == CommandAck
    ensures var st := Run(START, steps);
      && st.accepted[ack] == Carried(st, ack) + st.delivered[ack] + st.discarded[ack]
      && st.dropped == |st.discarded|
      && (forall m <- st.discarded :: m.kind == Event || m.kind == CommandAck)
  {
    assert Inv(START);
    hide Step.Apply, Step.Possible, Legal;
    RunKeeps(START, steps);
    hide Run;
  }

  lemma {:induction false} RunMore(st: State, a: seq<Step>, b: seq<Step>)
    requires Legal(st, a) && Legal(Run(st, a), b)
    ensures Legal(st, a + b) && Run(st, a + b) == Run(Run(st, a), b)
    decreases |a|
  {
    hide Step.Apply, Step.Possible;
    if a == [] {
      assert a + b == b;
    } else {
      assert (a + b)[1..] == a[1..] + b;
      RunMore(a[0].Apply(st), a[1..], b);
    }
  }

  lemma RunNext(st: State, steps: seq<Step>, step: Step)
    requires Legal(st, steps) && step.Possible(Run(st, steps))
    ensures Legal(st, steps + [step]) && Run(st, steps + [step]) == step.Apply(Run(st, steps))
  {
    assert Legal(step.Apply(Run(st, steps)), []);
    RunMore(st, steps, [step]);
  }

  // ---------------------------------------------------------------- the order of the queue

  /** What enters the send queue: a message that is offered, or the next one of a flush. */
  function Enters(st: State, step: Step): seq<Message>
    requires step.Possible(st)
  {
    if step.Offer? then [step.m] else if step.FlushOne? then [st.flushing[0]] else []
  }

  /** What the pump takes in hand. */
  function Leaves(st: State, step: Step): seq<Message>
    requires step.Possible(st)
  {
    var next := step.Apply(st);
    if step.Take? && next.hand.Some? then [next.hand.value] else []
  }

  function Queued(st: State, steps: seq<Step>): seq<Message>
    requires Legal(st, steps)
    decreases |steps|
  {
    if steps == [] then [] else Enters(st, steps[0]) + Queued(steps[0].Apply(st), steps[1..])
  }

  function Pumped(st: State, steps: seq<Step>): seq<Message>
    requires Legal(st, steps)
    decreases |steps|
  {
    if steps == [] then [] else Leaves(st, steps[0]) + Pumped(steps[0].Apply(st), steps[1..])
  }

  /** Over every interleaving the pump takes the messages in the order in which they were queued, and what
      it has not taken is still in the queue. */
  lemma {:induction false} QueueIsInOrder(st: State, steps: seq<Step>)
    requires Legal(st, steps)
    ensures st.send + Queued(st, steps) == Pumped(st, steps) + Run(st, steps).send
    decreases |steps|
  {
    hide Step.Apply, Step.Possible, Enters, Leaves;
    if steps != [] {
      var step, rest := steps[0], steps[1..];
      var next := step.Apply(st);
      QueueStep(st, step);
      QueueIsInOrder(next, rest);
      Shuffled(st.send, Enters(st, step), Leaves(st, step), next.send, Queued(next, rest), Pumped(next, rest), Run(next, rest).send);
    }
  }

  lemma Shuffled(a: seq<Message>, e: seq<Message>, t: seq<Message>, b: seq<Message>, q: seq<Message>, p: seq<Message>, r: seq<Message>)
    requires a + e == t + b && b + q == p + r
    ensures a + (e + q) == t + p + r
  {
    assert a + (e + q) == a + e + q == t + (b + q);
  }

  lemma QueueStep(st: State, step: Step)
    requires step.Possible(st)
    ensures st.send + Enters(st, step) == Leaves(st, step) + step.Apply(st).send
  {
    hide Requeue, RemoveFirstEqual;
    RequeueQueue(st, step);
    if step.Take? {
      assert st.send == [st.send[0]] + st.send[1..];
    }
  }

  lemma RequeueQueue(st: State, step: Step)
    requires step.Possible(st)
    ensures !(step.Offer? || step.FlushOne? || step.Take?) ==> step.Apply(st).send == st.send
  {
  }

  // ---------------------------------------------------------------- what the buffer holds

  /** The last ones of a list, as many as the buffer holds. */
  function LastOf(list: seq<Message>): seq<Message> {
    if |list| <= OFFLINE_BUFFER_CAP then list else list[|list| - OFFLINE_BUFFER_CAP..]
  }

  function GivenUp(list: seq<Message>): seq<Message> {
    if |list| <= OFFLINE_BUFFER_CAP then [] else list[..|list| - OFFLINE_BUFFER_CAP]
  }

  /** One more message that may be buffered: it comes last, and a full buffer gives up its oldest one. */
  lemma BufferedLast(st: State, m: Message)
    requires |st.pending| <= OFFLINE_BUFFER_CAP && m.Bufferable()
    ensures var next, all := Requeue(st, m), st.pending + [m];
      && next.pending == LastOf(all)
      && next == st.(pending := next.pending, dropped := next.dropped, discarded := next.discarded)
      && (if |st.pending| < OFFLINE_BUFFER_CAP then next.dropped == st.dropped && next.discarded == st.discarded
          else next.dropped == st.dropped + 1 && next.discarded == st.discarded + multiset{st.pending[0]})
  {
  }

  function Shelves(list: seq<Message>): seq<Step> {
    if list == [] then [] else Shelves(list[..|list| - 1]) + [Shelve(list[|list| - 1])]
  }

  /** `next` differs from `st` by what buffering the list amounts to: the last 512 are held, in order, and
      exactly the ones before them were given up, and counted. */
  ghost predicate Holds(st: State, next: State, list: seq<Message>) {
    var all := st.pending + list;
    && next.pending == LastOf(all) && next.dropped == st.dropped + |GivenUp(all)|
    && next.discarded == st.discarded + multiset(GivenUp(all)) && next.accepted == st.accepted + multiset(list)
    && next == st.(pending := next.pending, dropped := next.dropped, discarded := next.discarded, accepted := next.accepted)
  }

  /** Over runs: that is the state after any number of messages that may be buffered. */
  lemma {:induction false} BufferHoldsTheLast(st: State, list: seq<Message>)
    requires |st.pending| <= OFFLINE_BUFFER_CAP && forall m <- list :: m.Bufferable()
    ensures Legal(st, Shelves(list)) && Holds(st, Run(st, Shelves(list)), list)
  {
    hide Legal, Run, Step.Apply, Step.Possible, Holds;
    if list == [] {
      RunNone(st);
      HoldsNone(st);
    } else {
      var n := |list| - 1;
      BufferHoldsTheLast(st, list[..n]);
      HoldsMore(st, Run(st, Shelves(list[..n])), list[..n], list[n]);
      RunNext(st, Shelves(list[..n]), Shelve(list[n]));
      assert list == list[..n] + [list[n]];
    }
  }

  lemma HoldsNone(st: State)
    requires |st.pending| <= OFFLINE_BUFFER_CAP
    ensures Holds(st, st, [])
  {
    assert st.pending + [] == st.pending;
  }

  lemma HoldsMore(st: State, before: State, list: seq<Message>, m: Message)
    requires Holds(st, before, list) && m.Bufferable()
    ensures Shelve(m).Possible(before) && Holds(st, Shelve(m).Apply(before), list + [m])
  {
    hide Step.Apply, Step.Possible, LastOf, GivenUp, Message.Bufferable;
    LastOfBounded(st.pending + list);
    OneShelved(before, m);
    LastOfMore(st.pending + list, m);
    assert st.pending + list + [m] == st.pending + (list + [m]);
  }

  lemma OneShelved(st: State, m: Message)
    requires |st.pending| <= OFFLINE_BUFFER_CAP && m.Bufferable()
    ensures Shelve(m).Possible(st)
    ensures var next, all := Shelve(m).Apply(st), st.pending + [m];
      && next.pending == LastOf(all) && next.dropped == st.dropped + |GivenUp(all)|
      && next.discarded == st.discarded + multiset(GivenUp(all)) && next.accepted == st.accepted + multiset{m}
      && next == st.(pending := next.pending, dropped := next.dropped, discarded := next.discarded, accepted := next.accepted)
  {
    hide Requeue;
    BufferedLast(st.(accepted := st.accepted + multiset{m}), m);
    if |st.pending| == OFFLINE_BUFFER_CAP {
      assert GivenUp(st.pending + [m]) == [st.pending[0]];
    }
  }

  lemma LastOfBounded(list: seq<Message>)
    ensures |LastOf(list)| <= OFFLINE_BUFFER_CAP
  {
  }

  lemma LastOfMore(list: seq<Message>, m: Message)
    ensures LastOf(LastOf(list) + [m]) == LastOf(list + [m])
    ensures GivenUp(list) + GivenUp(LastOf(list) + [m]) == GivenUp(list + [m])
  {
    if |list| > OFFLINE_BUFFER_CAP {
      var d := |list| - OFFLINE_BUFFER_CAP;
      assert LastOf(list) + [m] == (list + [m])[d..];
      assert GivenUp(LastOf(list) + [m]) == [list[d]];
      assert (list + [m])[d..][1..] == (list + [m])[d + 1..] && (list + [m])[..d + 1] == list[..d] + [list[d]];
    }
  }

  /** The same for the acknowledgements in doubt when a session ends and nothing comes in between: they are
      buffered in the order in which they were written. */
  lemma {:induction false} LostAreBufferedInOrder(st: State)
    requires st.phase == Draining && |st.pending| <= OFFLINE_BUFFER_CAP && forall m <- st.lost :: m.Bufferable()
    ensures Legal(st, Copies(RequeueLost, |st.lost|))
    ensures var next, all := Run(st, Copies(RequeueLost, |st.lost|)), st.pending + st.lost;
      && next.pending == LastOf(all) && next.dropped == st.dropped + |GivenUp(all)| && next.lost == []
      && next.discarded == st.discarded + multiset(GivenUp(all))
    decreases |st.lost|
  {
    hide Legal, Run, Step.Apply, Step.Possible, GivenUp;
    if st.lost == [] {
      RunNone(st);
      assert st.pending + [] == st.pending;
      NothingGivenUp(st.pending);
    } else {
      OneLostBuffered(st);
      hide LastOf;
      var next := RequeueLost.Apply(st);
      LostAreBufferedInOrder(next);
      RunFirst(st, RequeueLost, Copies(RequeueLost, |st.lost| - 1));
      FirstThenRest(st.pending, st.lost);
    }
  }

  lemma NothingGivenUp(pending: seq<Message>)
    requires |pending| <= OFFLINE_BUFFER_CAP
    ensures GivenUp(pending) == [] && LastOf(pending) == pending
  {
  }

  lemma OneLostBuffered(st: State)
    requires st.phase == Draining && |st.pending| <= OFFLINE_BUFFER_CAP && st.lost != [] && st.lost[0].Bufferable()
    ensures RequeueLost.Possible(st)
    ensures var next, first := RequeueLost.Apply(st), st.pending + [st.lost[0]];
      && next.phase == Draining && next.lost == st.lost[1..] && next.pending == LastOf(first) && |next.pending| <= OFFLINE_BUFFER_CAP
      && next.dropped == st.dropped + |GivenUp(first)| && next.discarded == st.discarded + multiset(GivenUp(first))
  {
    hide Requeue;
    BufferedLast(st.(lost := st.lost[1..]), st.lost[0]);
    if |st.pending| == OFFLINE_BUFFER_CAP {
      assert GivenUp(st.pending + [st.lost[0]]) == [st.pending[0]];
    }
  }

  lemma FirstThenRest(pending: seq<Message>, lost: seq<Message>)
    requires |pending| <= OFFLINE_BUFFER_CAP && lost != []
    ensures var first := pending + [lost[0]];
      && LastOf(LastOf(first) + lost[1..]) == LastOf(pending + lost)
      && GivenUp(first) + GivenUp(LastOf(first) + lost[1..]) == GivenUp(pending + lost)
  {
    var first, all := pending + [lost[0]], pending + lost;
    assert first + lost[1..] == all;
    if |pending| == OFFLINE_BUFFER_CAP {
      assert LastOf(first) == first[1..] && GivenUp(first) == [all[0]];
      assert first[1..] + lost[1..] == all[1..];
      hide LastOf, GivenUp;
      WithoutFirst(all);
    } else {
      NothingGivenUp(first);
      hide LastOf, GivenUp;
    }
  }

  lemma WithoutFirst(all: seq<Message>)
    requires |all| > OFFLINE_BUFFER_CAP
    ensures LastOf(all[1..]) == LastOf(all) && [all[0]] + GivenUp(all[1..]) == GivenUp(all)
  {
    var d := |all| - OFFLINE_BUFFER_CAP;
    assert all[1..][d - 1..] == all[d..] && [all[0]] + all[1..][..d - 1] == all[..d];
  }

  // ---------------------------------------------------------------- the bound of the buffer

  /** A flush nobody interferes with. */
  function FlushAtOnce(st: State): State {
    var room := if |st.send| < SEND_QUEUE then SEND_QUEUE - |st.send| else 0;
    var n := if |st.pending| < room then |st.pending| else room;
    st.(send := st.send + st.pending[..n], pending := st.pending[n..], phase := Up)
  }

  function Copies(step: Step, n: nat): (r: seq<Step>)
    ensures forall s <- r :: s == step
  {
    if n == 0 then [] else [step] + Copies(step, n - 1)
  }

  lemma {:induction false} FlushSome(st: State, n: nat)
    requires st.phase == Flushing && n <= |st.flushing| && |st.send| + n <= SEND_QUEUE
    ensures Legal(st, Copies(FlushOne, n))
    ensures Run(st, Copies(FlushOne, n)) == st.(send := st.send + st.flushing[..n], flushing := st.flushing[n..])
    decreases n
  {
    hide Legal, Run;
    if n == 0 {
      RunNone(st);
      assert st.send + st.flushing[..0] == st.send && st.flushing[0..] == st.flushing;
    } else {
      var next := FlushOne.Apply(st);
      FlushSome(next, n - 1);
      RunFirst(st, FlushOne, Copies(FlushOne, n - 1));
      assert next.send + next.flushing[..n - 1] == st.send + st.flushing[..n];
      assert next.flushing[n - 1..] == st.flushing[n..];
    }
  }

  lemma RunFirst(st: State, step: Step, rest: seq<Step>)
    requires step.Possible(st) && Legal(step.Apply(st), rest)
    ensures Legal(st, [step] + rest) && Run(st, [step] + rest) == Run(step.Apply(st), rest)
  {
    hide Step.Apply, Step.Possible;
    assert ([step] + rest)[1..] == rest;
  }

  /** It is a run of the flush's own steps. */
  lemma FlushAtOnceIsARun(st: State) returns (steps: seq<Step>)
    requires st.phase == Flushing && st.flushing == [] && |st.send| <= SEND_QUEUE
    ensures Legal(st, steps) && Run(st, steps) == FlushAtOnce(st)
    ensures forall s <- steps :: s.By() == Session
  {
    hide Legal, Run;
    var n := |FlushAtOnce(st).send| - |st.send|;
    var taken, queued := TakePending.Apply(st), Copies(FlushOne, n);
    RunNone(st);
    RunNext(st, [], TakePending);
    FlushSome(taken, n);
    RunMore(st, [] + [TakePending], queued);
    var flushed := Run(taken, queued);
    assert flushed.flushing + flushed.pending == st.pending[n..];
    var last := if flushed.flushing == [] then FlushEnd else PutBack;
    RunNext(st, [] + [TakePending] + queued, last);
    steps := [] + [TakePending] + queued + [last];
  }

  lemma RunNone(st: State)
    ensures Legal(st, []) && Run(st, []) == st
  {
  }

  /** A message is buffered while a flush still holds some. */
  predicate Interrupts(st: State, step: Step) { step.Shelve? && step.m.Bufferable() && st.flushing != [] }

  predicate Uninterrupted(st: State, steps: seq<Step>)
    requires Legal(st, steps)
    decreases |steps|
  {
    steps == [] || (!Interrupts(st, steps[0]) && Uninterrupted(steps[0].Apply(st), steps[1..]))
  }

  /** The buffer and what a flush took from it share the cap. */
  predicate Fits(st: State) {
    Phased(st) && |st.pending| + |st.flushing| <= OFFLINE_BUFFER_CAP && (st.flushing != [] ==> st.pending == [])
  }

  lemma StepFits(st: State, step: Step)
    requires Fits(st) && step.Possible(st) && !Interrupts(st, step)
    ensures Fits(step.Apply(st))
  {
    StepPhased(st, step);
    hide Requeue, Phased, RemoveFirstEqual;
    match step {
      case Shelve(m) => RequeueBounded(st.(accepted := st.accepted + multiset{m}), m);
      case WriteFailed => RequeuedAlone(st, step);
      case Track => RequeuedAlone(st, step);
      case RequeueLost => RequeuedAlone(st, step);
      case _ =>
    }
  }

  /** Only a caller buffers during a flush: the pump and the end of a session come later. */
  lemma RequeuedAlone(st: State, step: Step)
    requires Fits(st) && step.Possible(st) && (step.WriteFailed? || step.Track? || step.RequeueLost?)
    ensures var next := step.Apply(st); next.flushing == [] && |next.pending| <= OFFLINE_BUFFER_CAP
  {
    hide Requeue;
    match step {
      case WriteFailed => RequeueBounded(st.(hand := None, cancelled := true), st.hand.value);
      case Track => RequeueBounded(st.(written := None), st.written.value);
      case RequeueLost => RequeueBounded(st.(lost := st.lost[1..]), st.lost[0]);
    }
  }

  lemma {:induction false} RunFits(st: State, steps: seq<Step>)
    requires Fits(st) && Legal(st, steps) && Uninterrupted(st, steps)
    ensures Fits(Run(st, steps))
    decreases |steps|
  {
    hide Fits, Interrupts, Step.Apply, Step.Possible;
    if steps != [] {
      StepFits(st, steps[0]);
      RunFits(steps[0].Apply(st), steps[1..]);
    }
  }

  /** Over every run in which nothing is buffered while a flush holds messages, and so after each of its
      prefixes: the buffer keeps to its cap. */
  lemma BufferBounded(steps: seq<Step>)
    requires Legal(START, steps) && Uninterrupted(START, steps)
    ensures |Run(START, steps).pending| <= OFFLINE_BUFFER_CAP
    ensures forall n :: 0 <= n <= |steps| ==>
      Legal(START, steps[..n]) && Uninterrupted(START, steps[..n]) && |Run(START, steps[..n]).pending| <= OFFLINE_BUFFER_CAP
  {
    hide Step.Apply, Step.Possible, Legal, Run, Uninterrupted;
    forall n | 0 <= n <= |steps|
      ensures Legal(START, steps[..n]) && Uninterrupted(START, steps[..n])
      ensures |Run(START, steps[..n]).pending| <= OFFLINE_BUFFER_CAP
    {
      PrefixUninterrupted(START, steps, n);
      RunFits(START, steps[..n]);
    }
    assert steps[..|steps|] == steps;
  }

  lemma {:induction false} PrefixUninterrupted(st: State, steps: seq<Step>, n: nat)
    requires Legal(st, steps) && Uninterrupted(st, steps) && n <= |steps|
    ensures Legal(st, steps[..n]) && Uninterrupted(st, steps[..n])
    decreases |steps|
  {
    hide Step.Apply, Step.Possible, Interrupts;
    if n > 0 {
      assert steps[..n][0] == steps[0] && steps[..n][1..] == steps[1..][..n - 1];
      PrefixUninterrupted(steps[0].Apply(st), steps[1..], n - 1);
    }
  }

  lemma RequeueBounded(st: State, m: Message)
    requires |st.pending| <= OFFLINE_BUFFER_CAP
    ensures |Requeue(st, m).pending| <= OFFLINE_BUFFER_CAP && Requeue(st, m).flushing == st.flushing
    ensures !m.Bufferable() ==> Requeue(st, m).pending == st.pending
  {
  }

  /** The only step that can take the buffer past its cap is putting back what does not fit any more. */
  lemma ExceedsIffPutBack(st: State, step: Step)
    requires step.Possible(st) && |st.pending| <= OFFLINE_BUFFER_CAP
    ensures |step.Apply(st).pending| > OFFLINE_BUFFER_CAP <==>
      step.PutBack? && |st.flushing| + |st.pending| > OFFLINE_BUFFER_CAP
  {
    hide Requeue, RemoveFirstEqual;
    match step {
      case Shelve(m) => RequeueBounded(st.(accepted := st.accepted + multiset{m}), m);
      case WriteFailed => RequeueBounded(st.(hand := None, cancelled := true), st.hand.value);
      case Track => RequeueBounded(st.(written := None), st.written.value);
      case RequeueLost => RequeueBounded(st.(lost := st.lost[1..]), st.lost[0]);
      case _ =>
    }
  }

  lemma {:induction false} PrefixLegal(st: State, steps: seq<Step>, n: nat)
    requires Legal(st, steps) && n <= |steps|
    ensures Legal(st, steps[..n])
    decreases |steps|
  {
    hide Step.Apply, Step.Possible;
    if n > 0 {
      assert steps[..n][0] == steps[0] && steps[..n][1..] == steps[1..][..n - 1];
      PrefixLegal(steps[0].Apply(st), steps[1..], n - 1);
    }
  }

  /** The state of a run after `n` steps. */
  function After(steps: seq<Step>, n: nat): State
    requires Legal(START, steps) && n <= |steps|
  {
    PrefixLegal(START, steps, n);
    Run(START, steps[..n])
  }

  lemma AfterNext(steps: seq<Step>, n: nat)
    requires Legal(START, steps) && n < |steps|
    ensures steps[n].Possible(After(steps, n)) && After(steps, n + 1) == steps[n].Apply(After(steps, n))
  {
    hide Legal, Run, Step.Apply, Step.Possible;
    PrefixLegal(START, steps, n);
    PrefixLegal(START, steps, n + 1);
    assert steps[..n + 1] == steps[..n] + [steps[n]];
    LastPossible(START, steps[..n], steps[n]);
    RunNext(START, steps[..n], steps[n]);
  }

  lemma {:induction false} LastPossible(st: State, steps: seq<Step>, step: Step)
    requires Legal(st, steps) && Legal(st, steps + [step])
    ensures step.Possible(Run(st, steps))
    decreases |steps|
  {
    hide Step.Apply, Step.Possible;
    if steps == [] {
      assert [] + [step] == [step];
    } else {
      assert (steps + [step])[0] == steps[0] && (steps + [step])[1..] == steps[1..] + [step];
      LastPossible(steps[0].Apply(st), steps[1..], step);
    }
  }

  /** A flush puts back, as step `i` of a run, more than fits beside what was buffered meanwhile. */
  predicate PutsBackTooMuch(steps: seq<Step>, i: int)
    requires Legal(START, steps)
  {
    0 <= i < |steps| && steps[i].PutBack?
    && |After(steps, i).flushing| + |After(steps, i).pending| > OFFLINE_BUFFER_CAP
  }

  predicate OverAfter(steps: seq<Step>, n: int)
    requires Legal(START, steps)
  {
    0 <= n <= |steps| && |After(steps, n).pending| > OFFLINE_BUFFER_CAP
  }

  /** Over every run, the buffer is past its cap at some time if and only if at some time a flush puts back
      more than fits. */
  lemma OverflowsIff(steps: seq<Step>)
    requires Legal(START, steps)
    ensures (exists n :: OverAfter(steps, n)) <==> (exists i :: PutsBackTooMuch(steps, i))
  {
    hide Legal, Run, Step.Apply, Step.Possible, After;
    if exists n :: OverAfter(steps, n) {
      var n :| OverAfter(steps, n);
      var i := Culprit(steps, n);
    }
    if exists i :: PutsBackTooMuch(steps, i) {
      var i :| PutsBackTooMuch(steps, i);
      AfterNext(steps, i);
      PutBackTooMuch(After(steps, i));
      assert OverAfter(steps, i + 1);
    }
  }

  lemma NothingYet(steps: seq<Step>)
    requires Legal(START, steps)
    ensures !OverAfter(steps, 0)
  {
    hide Legal, Step.Apply, Step.Possible;
    assert steps[..0] == [];
  }

  lemma PutBackTooMuch(st: State)
    requires PutBack.Possible(st) && |st.flushing| + |st.pending| > OFFLINE_BUFFER_CAP
    ensures |PutBack.Apply(st).pending| > OFFLINE_BUFFER_CAP
  {
  }

  /** The first time that the buffer is past its cap, it is so because of what was put back. */
  lemma {:induction false} Culprit(steps: seq<Step>, n: nat) returns (i: nat)
    requires Legal(START, steps) && OverAfter(steps, n)
    ensures PutsBackTooMuch(steps, i)
    decreases n
  {
    hide Legal, Run, Step.Apply, Step.Possible, After;
    NothingYet(steps);
    AfterNext(steps, n - 1);
    if OverAfter(steps, n - 1) {
      i := Culprit(steps, n - 1);
    } else {
      i := n - 1;
      ExceedsIffPutBack(After(steps, i), steps[i]);
    }
  }

  lemma {:induction false} Repeated(st: State, step: Step, n: nat)
    requires step.Offer? || (step.Shelve? && step.m.Bufferable())
    requires step.Offer? ==> |st.send| + n <= SEND_QUEUE
    requires step.Shelve? ==> |st.pending| + n <= OFFLINE_BUFFER_CAP
    ensures Legal(st, Copies(step, n))
    ensures var next := Run(st, Copies(step, n));
      && |next.send| == |st.send| + (if step.Offer? then n else 0)
      && |next.pending| == |st.pending| + (if step.Shelve? then n else 0)
      && next == st.(send := next.send, pending := next.pending, accepted := next.accepted)
    decreases n
  {
    hide Legal, Run;
    if n == 0 {
      RunNone(st);
    } else {
      Repeated(step.Apply(st), step, n - 1);
      RunFirst(st, step, Copies(step, n - 1));
    }
  }

  /** A live session with a full queue, an idle pump and `n` buffered messages. */
  predicate Clogged(st: State, n: nat) {
    |st.send| == SEND_QUEUE && |st.pending| == n && st.flushing == [] && st.phase == Up && st.hand == None
    && st.written == None && st.inflight == []
  }

  /** Messages buffered in the middle of a flush can take the buffer to any size: at each of `n` reconnects
      the cap is used once more. */
  lemma {:induction false} InterleavedFlushOverflows(m: Message, n: nat) returns (steps: seq<Step>)
    requires m.Bufferable()
    ensures Legal(START, steps) && Clogged(Run(START, steps), n * OFFLINE_BUFFER_CAP)
  {
    hide Step.Apply, Step.Possible, Legal, Run;
    if n == 0 {
      steps := FilledQueue(m);
    } else {
      var before := InterleavedFlushOverflows(m, n - 1);
      var more := Reconnected(Run(START, before), (n - 1) * OFFLINE_BUFFER_CAP, m);
      RunMore(START, before, more);
      steps := before + more;
    }
  }

  /** A first session during which the queue fills up. */
  lemma FilledQueue(m: Message) returns (steps: seq<Step>)
    ensures Legal(START, steps) && Clogged(Run(START, steps), 0)
  {
    var up := START.(phase := Up, cancelled := false, online := true, dead := false);
    assert Legal(START, [Connect, FlushEnd]) && Run(START, [Connect, FlushEnd]) == up;
    Repeated(up, Offer(m), SEND_QUEUE);
    RunMore(START, [Connect, FlushEnd], Copies(Offer(m), SEND_QUEUE));
    steps := [Connect, FlushEnd] + Copies(Offer(m), SEND_QUEUE);
  }

  /** It breaks, the next session takes the buffer, as many messages as fit are buffered meanwhile, and what
      was taken is put back because the queue is full. */
  lemma Reconnected(st: State, n: nat, m: Message) returns (steps: seq<Step>)
    requires m.Bufferable() && Clogged(st, n)
    ensures Legal(st, steps) && Clogged(Run(st, steps), n + OFFLINE_BUFFER_CAP)
  {
    var down := st.(cancelled := true, dead := true, lost := [], timers := multiset{}, phase := Down, online := false);
    var up := down.(phase := Flushing, cancelled := false, online := true, dead := false, inflight := []);
    var held := up.(flushing := up.pending, pending := []);
    var leave, fill := [Break, Drain, Offline], Copies(Shelve(m), OFFLINE_BUFFER_CAP);
    LeavesDown(st);
    assert Connect.Apply(down) == up && TakePending.Apply(up) == held;
    hide Legal, Run;
    RunNext(st, leave, Connect);
    RunNext(st, leave + [Connect], TakePending);
    var taken := leave + [Connect] + [TakePending];
    if n == 0 {
      RunNext(st, taken, FlushEnd);
      var ended := held.(phase := Up);
      Repeated(ended, Shelve(m), OFFLINE_BUFFER_CAP);
      RunMore(st, taken + [FlushEnd], fill);
      steps := taken + [FlushEnd] + fill;
    } else {
      Repeated(held, Shelve(m), OFFLINE_BUFFER_CAP);
      RunMore(st, taken, fill);
      RunNext(st, taken + fill, PutBack);
      steps := taken + fill + [PutBack];
    }
  }

  lemma LeavesDown(st: State)
    requires st.phase == Up && st.hand == None && st.written == None && st.inflight == []
    ensures Legal(st, [Break, Drain, Offline])
    ensures Run(st, [Break, Drain, Offline]) ==
      st.(cancelled := true, dead := true, lost := [], timers := multiset{}, phase := Down, online := false)
  {
    var drained := Drain.Apply(Break.Apply(st));
    var down := Offline.Apply(drained);
    assert Legal(down, []) && Run(down, []) == down;
    assert Legal(drained, [Offline]) && Run(drained, [Offline]) == down;
    assert Legal(Break.Apply(st), [Drain, Offline]);
  }

  // ---------------------------------------------------------------- the client

  /** What the other threads leave alone of a thread's own bookkeeping. */
  ghost predicate Spared(me: Thread, a: State, b: State) {
    && (me == Session ==> b.phase == a.phase && b.flushing == a.flushing && b.lost == a.lost && b.dead == a.dead)
    && (me == Pump && (a.hand.Some? || a.written.Some?) ==> b.hand == a.hand && b.written == a.written && b.phase == a.phase)
  }

  lemma OthersSpare(me: Thread, a: State, b: State, step: Step)
    requires step.By() != me || me == Caller
    requires step.Possible(b) && Phased(b) && Spared(me, a, b)
    ensures Spared(me, a, step.Apply(b))
  {
    hide Step.Apply, Step.Possible, Phased;
    SparedSteps(me, b, step);
  }

  lemma SparedSteps(me: Thread, st: State, step: Step)
    requires step.By() != me || me == Caller
    requires step.Possible(st) && Phased(st)
    ensures Spared(me, st, step.Apply(st))
  {
    if step.Shelve? || step.WriteFailed? || step.Track? || step.RequeueLost? {
      RequeueingSpares(me, st, step);
    } else {
      MovingSpares(me, st, step);
    }
    hide Step.Apply, Step.Possible, Phased;
  }

  lemma RequeueingSpares(me: Thread, st: State, step: Step)
    requires step.By() != me || me == Caller
    requires step.Shelve? || step.WriteFailed? || step.Track? || step.RequeueLost?
    requires step.Possible(st) && Phased(st)
    ensures Spared(me, st, step.Apply(st))
  {
    hide Requeue;
    match step {
      case Shelve(m) => RequeueFrame(st.(accepted := st.accepted + multiset{m}), m);
      case WriteFailed => RequeueFrame(st.(hand := None, cancelled := true), st.hand.value);
      case Track => RequeueFrame(st.(written := None), st.written.value);
      case RequeueLost => RequeueFrame(st.(lost := st.lost[1..]), st.lost[0]);
    }
  }

  lemma MovingSpares(me: Thread, st: State, step: Step)
    requires step.By() != me || me == Caller
    requires !step.Shelve? && !step.WriteFailed? && !step.Track? && !step.RequeueLost?
    requires step.Possible(st) && Phased(st)
    ensures Spared(me, st, step.Apply(st))
  {
    if me == Session {
      SessionUndisturbed(st, step);
    } else if me == Pump && (st.hand.Some? || st.written.Some?) {
      PumpUndisturbed(st, step);
    }
    hide Step.Apply, Step.Possible, Phased;
  }

  lemma SessionUndisturbed(st: State, step: Step)
    requires step.Possible(st) && (step.Offer? || step.Take? || step.WriteOk? || step.Expire?)
    ensures var next := step.Apply(st);
      next.phase == st.phase && next.flushing == st.flushing && next.lost == st.lost && next.dead == st.dead
  {
    hide RemoveFirstEqual;
  }

  lemma PumpUndisturbed(st: State, step: Step)
    requires step.Possible(st) && Phased(st) && step.By() != Pump && !step.Shelve? && !step.RequeueLost?
    requires st.hand.Some? || st.written.Some?
    ensures var next := step.Apply(st); next.hand == st.hand && next.written == st.written && next.phase == st.phase
  {
    hide RemoveFirstEqual;
  }

  /** The pump's hands. */
  datatype PumpState = PumpState(hand: Option<Message>, written: Option<Message>)

  /** The session loop's own variables, and its acknowledgements in doubt. */
  datatype SessionState = SessionState(
    flushing: seq<Message>, inflight: seq<Message>, timers: multiset<Message>, dead: bool, lost: seq<Message>,
    phase: Phase, cancelled: bool)

  /** What became of messages. */
  datatype Books = Books(
    accepted: multiset<Message>, delivered: multiset<Message>, discarded: multiset<Message>, shed: multiset<Message>)

  /** From one state the given steps lead to the other, in which every message is accounted for. */
  ghost predicate Leads(a: State, trace: seq<Step>, b: State) {
    Legal(a, trace) && Run(a, trace) == b && Inv(b)
  }

  /** The steps of one thread in a run. */
  function Own(me: Thread, trace: seq<Step>): seq<Step> {
    if trace == [] then []
    else
      var n := |trace| - 1;
      Own(me, trace[..n]) + if trace[n].By() == me then [trace[n]] else []
  }

  lemma OwnMore(me: Thread, trace: seq<Step>, step: Step)
    ensures Own(me, trace + [step]) == Own(me, trace) + if step.By() == me then [step] else []
  {
    assert (trace + [step])[..|trace|] == trace;
  }

  lemma {:induction false} OwnJoined(me: Thread, a: seq<Step>, b: seq<Step>)
    ensures Own(me, a + b) == Own(me, a) + Own(me, b)
  {
    if b == [] {
      assert a + b == a;
    } else {
      var n := |b| - 1;
      assert (a + b)[..|a| + n] == a + b[..n];
      OwnJoined(me, a, b[..n]);
    }
  }

  lemma LeadsNowhere(st: State)
    requires Inv(st)
    ensures Leads(st, [], st)
  {
    hide Inv;
  }

  lemma LeadsMore(a: State, trace: seq<Step>, b: State, step: Step)
    requires Leads(a, trace, b) && step.Possible(b)
    ensures Leads(a, trace + [step], step.Apply(b)) && Phased(step.Apply(b))
  {
    hide Inv, Step.Apply, Step.Possible, Legal, Run;
    RunNext(a, trace, step);
    StepKeeps(b, step);
    InvPhased(step.Apply(b));
  }

  lemma LeadsFirst(st: State, step: Step)
    requires Inv(st) && step.Possible(st)
    ensures Leads(st, [step], step.Apply(st))
  {
    hide Inv, Step.Apply, Step.Possible, Legal, Run;
    RunNone(st);
    RunNext(st, [], step);
    assert [] + [step] == [step];
    StepKeeps(st, step);
  }

  lemma LeadsJoined(a: State, first: seq<Step>, b: State, second: seq<Step>, c: State)
    requires Leads(a, first, b) && Leads(b, second, c)
    ensures Leads(a, first + second, c) && Phased(c)
  {
    hide Inv, Step.Apply, Step.Possible, Legal, Run;
    RunMore(a, first, second);
    InvPhased(c);
  }

  /** One step, and then another one `n` times. */
  ghost predicate Took(me: Thread, trace: seq<Step>, first: Step, again: Step, n: nat) {
    Own(me, trace) == [first] + Copies(again, n)
  }

  lemma TookFirst(me: Thread, first: Step, again: Step)
    requires first.By() == me
    ensures Took(me, [first], first, again, 0)
  {
    assert [first][..0] == [];
  }

  lemma TookNothing(me: Thread, trace: seq<Step>, others: seq<Step>, first: Step, again: Step, n: nat)
    requires Took(me, trace, first, again, n) && Own(me, others) == []
    ensures Took(me, trace + others, first, again, n)
  {
    OwnJoined(me, trace, others);
  }

  lemma TookAgain(me: Thread, trace: seq<Step>, first: Step, again: Step, n: nat)
    requires Took(me, trace, first, again, n) && again.By() == me
    ensures Took(me, trace + [again], first, again, n + 1)
  {
    OwnMore(me, trace, again);
    CopiesMore(again, n);
  }

  lemma TookLast(me: Thread, trace: seq<Step>, first: Step, again: Step, n: nat, last: Step)
    requires Took(me, trace, first, again, n) && last.By() == me
    ensures Own(me, trace + [last]) == [first] + Copies(again, n) + [last]
  {
    OwnMore(me, trace, last);
  }

  /** Every method is a run of the steps above: its own thread takes exactly the steps its contract
      lists, the other threads any others. */
  class Client {
    var send: seq<Message>
    var pending: seq<Message>
    var online: bool
    var dropped: nat
    var pump: PumpState
    var session: SessionState
    var books: Books

    function View(): State
      reads this
    {
      State(send, pump.hand, pump.written, pending, session.flushing, session.inflight, session.timers, session.dead,
            session.lost, session.phase, session.cancelled, online, dropped,
            books.accepted, books.delivered, books.discarded, books.shed)
    }

    constructor ()
      ensures View() == START && Inv(View())
    {
      send, pending, online, dropped := [], [], false, 0;
      pump, session := PumpState(None, None), SessionState([], [], multiset{}, true, [], Down, true);
      books := Books(multiset{}, multiset{}, multiset{}, multiset{});
    }

    method Become(st: State)
      modifies this
      ensures View() == st
    {
      send, pending, online, dropped := st.send, st.pending, st.online, st.dropped;
      pump := PumpState(st.hand, st.written);
      session := SessionState(st.flushing, st.inflight, st.timers, st.dead, st.lost, st.phase, st.cancelled);
      books := Books(st.accepted, st.delivered, st.discarded, st.shed);
    }

    /** What the other threads do meanwhile: any number of their steps. */
    method Interfere(me: Thread) returns (ghost trace: seq<Step>)
      requires Inv(View())
      modifies this
      ensures Leads(old(View()), trace, View()) && Phased(View()) && Spared(me, old(View()), View())
      ensures me != Caller ==> Own(me, trace) == []
    {
      hide Inv, Spared, Step.Possible, Step.Apply, Step.By, Leads, Phased, Own;
      var n: int := *;
      SparesItself(me, View());
      LeadsNowhere(View());
      InvPhased(View());
      trace := [];
      NothingOwn(me);
      while n > 0
        invariant Leads(old(View()), trace, View()) && Phased(View()) && Spared(me, old(View()), View())
        invariant me != Caller ==> Own(me, trace) == []
      {
        n := n - 1;
        var step: Step := *;
        if step.Possible(View()) && (step.By() != me || me == Caller) {
          LeadsMore(old(View()), trace, View(), step);
          OwnMore(me, trace, step);
          OthersSpare(me, old(View()), View(), step);
          Become(step.Apply(View()));
          trace := trace + [step];
        }
      }
      LeadsInv(old(View()), trace, View());
    }

    /** Keep a message for the next session. */
    method BufferMessage(m: Message)
      modifies this
      ensures View() == Buffer(old(View()), m)
      // The new message comes last; a full buffer gives up the oldest one.
      ensures pending == if |old(pending)| < OFFLINE_BUFFER_CAP then old(pending) + [m] else old(pending)[1..] + [m]
      ensures dropped == if |old(pending)| < OFFLINE_BUFFER_CAP then old(dropped) else old(dropped) + 1
    {
      if |pending| >= OFFLINE_BUFFER_CAP {
        books := books.(discarded := books.discarded + multiset{pending[0]});
        pending, dropped := pending[1..], dropped + 1;
      }
      pending := pending + [m];
    }

    method RequeueMessage(m: Message)
      modifies this
      ensures View() == Requeue(old(View()), m)
    {
      hide Buffer;
      if m.Bufferable() {
        BufferMessage(m);
      } else {
        books := books.(shed := books.shed + multiset{m});
      }
    }

    /** Hand a message in: to the send queue if the client was online and there is room, otherwise to the
        buffer.  Between reading `online`, looking at the queue and buffering anything may happen. */
    method Enqueue(m: Message) returns (queued: bool, ghost before: seq<Step>, ghost after: seq<Step>)
      requires Inv(View())
      modifies this
      ensures Legal(old(View()), before)
      ensures queued <==> old(online) && |Run(old(View()), before).send| < SEND_QUEUE
      ensures queued ==> after == []
      ensures Leads(old(View()), before + after + [if queued then Offer(m) else Shelve(m)], View())
    {
      hide Inv, Spared, Leads, Requeue, Legal, Run, Own;
      var wasOnline := online;
      before := Interfere(Caller);
      after := [];
      LeadsInv(old(View()), before, View());
      if wasOnline {
        if |send| < SEND_QUEUE {
          LeadsMore(old(View()), before, View(), Offer(m));
          send, books := send + [m], books.(accepted := books.accepted + multiset{m});
          assert before + after == before;
          return true, before, after;
        }
        ghost var full := View();
        after := Interfere(Caller);
        LeadsJoined(old(View()), before, full, after, View());
      }
      assert !wasOnline ==> before + after == before;
      LeadsMore(old(View()), before + after, View(), Shelve(m));
      books := books.(accepted := books.accepted + multiset{m});
      RequeueMessage(m);
      queued := false;
    }

    /** Replay the buffer into the send queue; what does not fit goes back in front of what was buffered
        meanwhile. */
    method FlushPending() returns (n: nat, ghost trace: seq<Step>)
      requires Inv(View()) && session.phase == Flushing && session.flushing == []
      modifies this
      ensures Leads(old(View()), trace, View()) && session.phase == Up && session.flushing == []
      ensures n <= |old(pending)|
      ensures Own(Session, trace) == [TakePending] + Copies(FlushOne, n) + [if n < |old(pending)| then PutBack else FlushEnd]
      ensures n < |old(pending)| ==> |send| == SEND_QUEUE && old(pending)[n..] <= pending
    {
      hide Inv, Spared, Leads, Legal, Run, Own, Took, Requeue, RemoveFirstEqual, Message.Bufferable, Copies, Phased;
      ghost var taken := pending;
      LeadsFirst(View(), TakePending);
      TookFirst(Session, TakePending, FlushOne);
      n, trace := 0, [TakePending];
      session, pending := session.(flushing := pending), [];
      while session.flushing != []
        invariant Leads(old(View()), trace, View()) && Took(Session, trace, TakePending, FlushOne, n)
        invariant session.phase == Flushing && n <= |taken| && session.flushing == taken[n..]
        decreases |session.flushing|
      {
        trace := Pause(old(View()), trace, TakePending, FlushOne, n);
        if |send| == SEND_QUEUE {
          LeadsMore(old(View()), trace, View(), PutBack);
          TookLast(Session, trace, TakePending, FlushOne, n, PutBack);
          trace := trace + [PutBack];
          pending, session := session.flushing + pending, session.(flushing := [], phase := Up);
          return;
        }
        LeadsMore(old(View()), trace, View(), FlushOne);
        TookAgain(Session, trace, TakePending, FlushOne, n);
        trace := trace + [FlushOne];
        send, session, n := send + [session.flushing[0]], session.(flushing := session.flushing[1..]), n + 1;
      }
      LeadsMore(old(View()), trace, View(), FlushEnd);
      TookLast(Session, trace, TakePending, FlushOne, n, FlushEnd);
      trace := trace + [FlushEnd];
      session := session.(phase := Up);
    }

    /** Between two steps of the session loop, the other threads go on. */
    method Pause(ghost start: State, ghost soFar: seq<Step>, ghost first: Step, ghost again: Step, ghost n: nat)
      returns (ghost trace: seq<Step>)
      requires Leads(start, soFar, View()) && Took(Session, soFar, first, again, n)
      modifies this
      ensures Leads(start, trace, View()) && Took(Session, trace, first, again, n) && |send| <= SEND_QUEUE
      ensures session.phase == old(session.phase) && session.flushing == old(session.flushing) && session.lost == old(session.lost)
    {
      hide Inv, Spared, Leads, Legal, Run, Own, Took;
      LeadsInv(start, soFar, View());
      ghost var before := View();
      ghost var others := Interfere(Session);
      SessionSpared(before, View());
      LeadsJoined(start, soFar, before, others, View());
      TookNothing(Session, soFar, others, first, again, n);
      trace := soFar + others;
    }

    /** Write one message.  One that fails goes back to the buffer, and an acknowledgement that was
        written is put in doubt. */
    method PumpOne() returns (sent: bool, ghost trace: seq<Step>)
      requires Inv(View()) && session.phase == Up && pump == PumpState(None, None) && send != []
      modifies this
      ensures Leads(old(View()), trace, View()) && pump == PumpState(None, None)
      ensures Own(Pump, trace) == [Take] + if !sent then [WriteFailed]
        else if old(send)[0].kind == CommandAck then [WriteOk, Track] else [WriteOk]
    {
      hide Inv, Spared, Leads, Legal, Run, Own, Took, Requeue, RemoveFirstEqual, Message.Bufferable, Copies, Phased;
      var m := send[0];
      LeadsFirst(View(), Take);
      trace := [Take];
      OwnOne(Pump, Take);
      pump, send := PumpState(Some(m), None), send[1..];
      trace := Wait(old(View()), trace);
      sent := *;
      if !sent {
        LeadsMore(old(View()), trace, View(), WriteFailed);
        OwnMore(Pump, trace, WriteFailed);
        trace := trace + [WriteFailed];
        pump, session := PumpState(None, None), session.(cancelled := true);
        Requeued(m);
        return;
      }
      LeadsMore(old(View()), trace, View(), WriteOk);
      OwnMore(Pump, trace, WriteOk);
      trace := trace + [WriteOk];
      if m.kind != CommandAck {
        pump, books := PumpState(None, None), books.(delivered := books.delivered + multiset{m});
        return;
      }
      pump := PumpState(None, Some(m));
      trace := WaitAndTrack(old(View()), trace, m);
    }

    method WaitAndTrack(ghost start: State, ghost soFar: seq<Step>, m: Message) returns (ghost trace: seq<Step>)
      requires Leads(start, soFar, View()) && pump == PumpState(None, Some(m))
      modifies this
      ensures Leads(start, trace, View()) && Own(Pump, trace) == Own(Pump, soFar) + [Track]
      ensures pump == PumpState(None, None)
    {
      hide Inv, Leads, Own, Step.Apply, Phased;
      trace := Wait(start, soFar);
      LeadsMore(start, trace, View(), Track);
      OwnMore(Pump, trace, Track);
      trace := trace + [Track];
      TrackWritten(m);
    }

    /** While the pump holds a message, the other threads go on. */
    method Wait(ghost start: State, ghost soFar: seq<Step>) returns (ghost trace: seq<Step>)
      requires Leads(start, soFar, View()) && (pump.hand.Some? || pump.written.Some?)
      modifies this
      ensures Leads(start, trace, View()) && Phased(View()) && Own(Pump, trace) == Own(Pump, soFar)
      ensures pump == old(pump) && session.phase == old(session.phase)
    {
      hide Inv, Spared, Leads, Legal, Run, Own, Took, Requeue, RemoveFirstEqual, Message.Bufferable, Copies, Phased;
      LeadsInv(start, soFar, View());
      ghost var before := View();
      ghost var others := Interfere(Pump);
      PumpSpared(before, View());
      LeadsJoined(start, soFar, before, others, View());
      OwnJoined(Pump, soFar, others);
      trace := soFar + others;
    }

    /** Buffer a message again. */
    method Requeued(m: Message)
      modifies this
      ensures View() == Requeue(old(View()), m) && pump == old(pump) && session == old(session)
    {
      hide Requeue;
      RequeueFrame(View(), m);
      RequeueMessage(m);
    }

    /** Put an acknowledgement in doubt, or back into the buffer if its session has died. */
    method TrackWritten(m: Message)
      requires pump == PumpState(None, Some(m))
      modifies this
      ensures View() == Track.Apply(old(View())) && pump == PumpState(None, None)
    {
      hide Requeue;
      pump := PumpState(None, None);
      if session.dead {
        Requeued(m);
        return;
      }
      session := session.(inflight := session.inflight + [m], timers := session.timers + multiset{m});
    }

    /** A doubt timer fires: the acknowledgement counts as delivered, unless its session has died. */
    method DoubtExpired(m: Message)
      requires m in session.timers
      modifies this
      ensures View() == Expire(m).Apply(old(View()))
    {
      hide RemoveFirstEqual, Step.Apply;
      ExpireIs(View(), m);
      session := session.(timers := session.timers - multiset{m});
      if !session.dead {
        var left := RemoveFirst(session.inflight, m);
        session, books := session.(inflight := left), books.(delivered := books.delivered + multiset{m});
      }
    }

    static method RemoveFirst(list: seq<Message>, m: Message) returns (r: seq<Message>)
      ensures r == RemoveFirstEqual(list, m)
    {
      var i := 0;
      while i < |list|
        invariant 0 <= i <= |list| && m !in list[..i]
      {
        if list[i] == m {
          RemovedAt(list, m, i);
          return list[..i] + list[i + 1..];
        }
        i := i + 1;
      }
      r := list;
    }

    /** Buffer the first lost acknowledgement again. */
    method GiveBack()
      requires session.phase == Draining && session.lost != []
      modifies this
      ensures View() == RequeueLost.Apply(old(View()))
      ensures session == old(session).(lost := old(session).lost[1..])
    {
      hide Requeue;
      var m := session.lost[0];
      session := session.(lost := session.lost[1..]);
      Requeued(m);
    }

    /** The connection broke and the pump has stopped: everything in doubt goes back to the buffer. */
    method EndSession() returns (ghost trace: seq<Step>)
      requires Inv(View()) && session.phase == Up && session.cancelled && pump == PumpState(None, None)
      modifies this
      ensures Leads(old(View()), trace, View())
      ensures session.phase == Down && !online && session.lost == []
      ensures Own(Session, trace) == [Drain] + Copies(RequeueLost, |old(session.inflight)|) + [Offline]
    {
      hide Inv, Spared, Leads, Legal, Run, Own, Took, Requeue, RemoveFirstEqual, Message.Bufferable, Copies, Phased;
      LeadsFirst(View(), Drain);
      TookFirst(Session, Drain, RequeueLost);
      trace := [Drain];
      ghost var doubted, n := session.inflight, 0;
      session := session.(dead := true, lost := session.inflight, inflight := [], timers := multiset{}, phase := Draining);
      while session.lost != []
        invariant Leads(old(View()), trace, View()) && Took(Session, trace, Drain, RequeueLost, n)
        invariant session.phase == Draining && n <= |doubted| && session.lost == doubted[n..]
        decreases |session.lost|
      {
        trace := Pause(old(View()), trace, Drain, RequeueLost, n);
        LeadsMore(old(View()), trace, View(), RequeueLost);
        TookAgain(Session, trace, Drain, RequeueLost, n);
        trace, n := trace + [RequeueLost], n + 1;
        GiveBack();
      }
      LeadsMore(old(View()), trace, View(), Offline);
      TookLast(Session, trace, Drain, RequeueLost, n, Offline);
      trace := trace + [Offline];
      session, online := session.(phase := Down), false;
    }
  }

  lemma ExpireIs(st: State, m: Message)
    requires m in st.timers
    ensures Expire(m).Apply(st) ==
      if st.dead then st.(timers := st.timers - multiset{m})
      else st.(timers := st.timers - multiset{m}, inflight := RemoveFirstEqual(st.inflight, m),
               delivered := st.delivered + multiset{m})
  {
    hide RemoveFirstEqual;
  }

  lemma InvPhased(st: State)
    requires Inv(st)
    ensures Phased(st)
  {
  }

  lemma LeadsInv(a: State, trace: seq<Step>, b: State)
    requires Leads(a, trace, b)
    ensures Inv(b) && Phased(b) && Legal(a, trace) && Run(a, trace) == b
  {
    hide Legal, Run;
  }

  lemma NothingOwn(me: Thread)
    ensures Own(me, []) == []
  {
  }

  lemma OwnOne(me: Thread, step: Step)
    requires step.By() == me
    ensures Own(me, [step]) == [step]
  {
    assert [step][..0] == [];
  }

  lemma {:induction false} CopiesMore(step: Step, n: nat)
    ensures Copies(step, n + 1) == Copies(step, n) + [step] && Copies(step, 0) == []
  {
    if n > 0 {
      CopiesMore(step, n - 1);
    }
  }

  lemma RemoveStep(list: seq<Message>, m: Message)
    requires list != []
    ensures RemoveFirstEqual(list, m) == if list[0] == m then list[1..] else [list[0]] + RemoveFirstEqual(list[1..], m)
  {
  }

  lemma Slices(list: seq<Message>, i: nat)
    requires 0 < i < |list|
    ensures [list[0]] + (list[1..][..i - 1] + list[1..][i..]) == list[..i] + list[i + 1..]
  {
    var a, b := [list[0]] + (list[1..][..i - 1] + list[1..][i..]), list[..i] + list[i + 1..];
    assert |a| == |b|;
    forall k | 0 <= k < |a|
      ensures a[k] == b[k]
    {
    }
  }

  lemma RestBefore(list: seq<Message>, m: Message, i: nat)
    requires 0 < i < |list| && m !in list[..i]
    ensures m !in list[1..][..i - 1]
  {
    assert list[..i] == [list[0]] + list[1..][..i - 1];
  }

  lemma RemovedAt(list: seq<Message>, m: Message, i: nat)
    requires i < |list| && list[i] == m && m !in list[..i]
    ensures RemoveFirstEqual(list, m) == list[..i] + list[i + 1..]
  {
    hide RemoveFirstEqual;
    RemoveStep(list, m);
    if i == 0 {
      assert list[..0] + list[1..] == list[1..];
    } else {
      var rest := list[1..];
      assert list[..i][0] == list[0] && list[..i][0] in list[..i];
      RestBefore(list, m, i);
      RemovedAt(rest, m, i - 1);
      Slices(list, i);
    }
  }

  lemma SessionSpared(a: State, b: State)
    requires Spared(Session, a, b)
    ensures b.phase == a.phase && b.flushing == a.flushing && b.lost == a.lost && b.dead == a.dead
  {
  }

  lemma PumpSpared(a: State, b: State)
    requires Spared(Pump, a, b) && (a.hand.Some? || a.written.Some?)
    ensures b.hand == a.hand && b.written == a.written && b.phase == a.phase
  {
  }

  lemma SparesItself(me: Thread, st: State)
    ensures Spared(me, st, st)
  {
  }
}
