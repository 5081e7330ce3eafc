/** Daily windows of the scheduled-compartment application: an occurrence is opened by the minute job,
    completed by a key press, or missed by its deadline job, and leaves a tombstone for 30 days.

    Times are nanoseconds since some midnight, and the zone of the configuration is a fixed offset.  An
    occurrence is a window on a day. */
module ScheduledCompartment {
  import opened Wrappers
  import Text

  const MINUTE: int := 60_000_000_000
  const DAY: int := 1440 * MINUTE
  const FRESH_OPEN_GRACE: int := MINUTE
  const RETENTION: int := 30 * DAY

  datatype WindowSpec = WindowSpec(id: string, compartment: string, start: int, end: int) {
    /** Minutes of the day. */
    predicate Valid() { 0 <= start < end < 1440 && id != "" && compartment != "" }
  }

  /** What a missed occurrence is announced as; the day is not part of it. */
  function MissedText(w: WindowSpec): string {
    "Window " + w.id + " for compartment " + w.compartment + " was not completed in time"
  }

  datatype Config = Config(offset: int, compartments: seq<string>, schedule: seq<WindowSpec>) {
    ghost predicate Valid() {
      (forall w <- schedule :: w.Valid())
      && (forall i, j :: 0 <= i < j < |schedule| ==> schedule[i].id != schedule[j].id)
    }

    function DayOf(t: int): int { (t + offset) / DAY }

    function Start(w: WindowSpec, day: int): int { day * DAY + w.start * MINUTE - offset }

    function End(w: WindowSpec, day: int): int { day * DAY + w.end * MINUTE - offset }

    function Find(id: string): (r: Option<WindowSpec>)
      ensures r.Some? ==> r.value in schedule && r.value.id == id
      ensures r.None? ==> forall w <- schedule :: w.id != id
    {
      FindIn(schedule, id)
    }
  }

  function FindIn(schedule: seq<WindowSpec>, id: string): (r: Option<WindowSpec>)
    ensures r.Some? ==> r.value in schedule && r.value.id == id
    ensures r.None? ==> forall w <- schedule :: w.id != id
  {
    if schedule == [] then None
    else if schedule[0].id == id then Some(schedule[0])
    else FindIn(schedule[1..], id)
  }

  datatype Occurrence = Occurrence(window: string, day: int)

  datatype Phase = Opened | Completed | Missed

  datatype Track = Track(start: int, end: int, phase: Phase, openedAt: Option<int>, closedAt: Option<int>,
                         reminder: string, missTask: bool)

  datatype Effect =
    | Record(o: Occurrence, phase: Phase)
    | Reminder(o: Occurrence)
    | MissTask(o: Occurrence)
    | CancelMissTask(o: Occurrence)
    | MissedNotification(o: Occurrence)

  /** One instance: what it tracks, which jobs it answered, the last time it looked at the clock, and
      every effect it ever decided on. */
  datatype State = State(windows: map<Occurrence, Track>, jobs: map<string, seq<string>>, clock: int, log: seq<Effect>)

  // ---------------------------------------------------------------- single decisions

  /** Forget opened occurrences of other days, and tombstones past their retention. */
  predicate Keeps(cfg: Config, t: Track, now: int) {
    !(t.phase == Opened && cfg.DayOf(t.start) != cfg.DayOf(now)) && now - t.end <= RETENTION
  }

  function Prune(cfg: Config, st: State, now: int): State {
    st.(windows := map o <- st.windows | Keeps(cfg, st.windows[o], now) :: st.windows[o], clock := now)
  }

  /** The minute job looks at one configured window. */
  function Visit(cfg: Config, reminder: string, st: State, w: WindowSpec, now: int): State {
    var o := Occurrence(w.id, cfg.DayOf(now));
    var start, end := cfg.Start(w, o.day), cfg.End(w, o.day);
    if end <= start || now < start then st
    else if now < end then
      if o in st.windows then st
      else
        var prompt := now <= start + FRESH_OPEN_GRACE;
        st.(windows := st.windows[o := Track(start, end, Opened, Some(now), None, reminder, prompt)],
            log := st.log + [Record(o, Opened)]
                   + (if prompt then (if reminder != "" then [Reminder(o)] else []) + [MissTask(o)] else []))
    else if o !in st.windows || st.windows[o].phase != Opened || st.windows[o].missTask then st
    else Close(st, o, now)
  }

  /** Whether the visit finds the window missed. */
  predicate VisitMisses(cfg: Config, st: State, w: WindowSpec, now: int) {
    var o := Occurrence(w.id, cfg.DayOf(now));
    cfg.Start(w, o.day) < cfg.End(w, o.day) <= now
    && o in st.windows && st.windows[o].phase == Opened && !st.windows[o].missTask
  }

  /** What a miss has as its effects. */
  function MissEffects(o: Occurrence): seq<Effect> { [Record(o, Missed), CancelMissTask(o), MissedNotification(o)] }

  /** A tracked occurrence is missed. */
  function Close(st: State, o: Occurrence, now: int): State
    requires o in st.windows
  {
    st.(windows := st.windows[o := st.windows[o].(phase := Missed, closedAt := Some(now))],
        log := st.log + MissEffects(o))
  }

  function VisitAll(cfg: Config, reminder: string, st: State, schedule: seq<WindowSpec>, now: int): State {
    if schedule == [] then st
    else
      var n := |schedule| - 1;
      Visit(cfg, reminder, VisitAll(cfg, reminder, st, schedule[..n], now), schedule[n], now)
  }

  function MissedBy(cfg: Config, reminder: string, st: State, schedule: seq<WindowSpec>, now: int): seq<string> {
    if schedule == [] then []
    else
      var n := |schedule| - 1;
      MissedBy(cfg, reminder, st, schedule[..n], now)
      + if VisitMisses(cfg, VisitAll(cfg, reminder, st, schedule[..n], now), schedule[n], now) then [schedule[n].id] else []
  }

  function Answered(st: State, key: string, body: seq<string>): State {
    if key == "" then st else st.(jobs := st.jobs[key := body])
  }

  /** The minute job; a key answered before is answered again without looking at anything. */
  function Check(cfg: Config, reminder: string, st: State, now: int, key: string): State {
    if key != "" && key in st.jobs then st.(clock := now)
    else
      var pruned := Prune(cfg, st, now);
      Answered(VisitAll(cfg, reminder, pruned, cfg.schedule, now), key,
               Text.Sorted(MissedBy(cfg, reminder, pruned, cfg.schedule, now)))
  }

  /** The deadline job of one occurrence. */
  function Deadline(cfg: Config, st: State, o: Occurrence, now: int, key: string): State {
    var w := cfg.Find(o.window);
    if key != "" && key in st.jobs then st.(clock := now)
    else if w.None? || now < cfg.End(w.value, o.day) then st.(clock := now)
    else if o in st.windows && st.windows[o].phase == Completed then
      Answered(st.(clock := now, log := st.log + [CancelMissTask(o)]), key, [])
    else if o in st.windows && st.windows[o].phase == Missed then Answered(st.(clock := now), key, [])
    else if o in st.windows then Answered(Close(st.(clock := now), o, now), key, [o.window])
    else
      Answered(
        st.(clock := now,
            windows := st.windows[o := Track(cfg.Start(w.value, o.day), cfg.End(w.value, o.day), Missed, None, Some(now), "", false)],
            log := st.log + MissEffects(o)),
        key, [o.window])
  }

  /** The first window of a compartment that contains a moment. */
  function WindowAt(cfg: Config, schedule: seq<WindowSpec>, compartment: string, at: int): (r: Option<WindowSpec>)
    ensures r.Some? ==> r.value in schedule && r.value.compartment == compartment
    ensures r.Some? ==> cfg.Start(r.value, cfg.DayOf(at)) <= at < cfg.End(r.value, cfg.DayOf(at))
    ensures r.None? ==> forall w <- schedule :: w.compartment == compartment ==>
      !(cfg.Start(w, cfg.DayOf(at)) <= at < cfg.End(w, cfg.DayOf(at)))
  {
    if schedule == [] then None
    else
      var w := schedule[0];
      if w.compartment == compartment && cfg.Start(w, cfg.DayOf(at)) <= at < cfg.End(w, cfg.DayOf(at)) then Some(w)
      else WindowAt(cfg, schedule[1..], compartment, at)
  }

  /** A key was pressed for a compartment; the time of the event decides, not the clock. */
  function Press(cfg: Config, st: State, compartment: string, at: int, reminder: string): State {
    var w := WindowAt(cfg, cfg.schedule, compartment, at);
    if w.None? then st
    else
      var o := Occurrence(w.value.id, cfg.DayOf(at));
      if o in st.windows && st.windows[o].phase != Opened then st
      else
        var t := if o in st.windows then st.windows[o]
          else Track(cfg.Start(w.value, o.day), cfg.End(w.value, o.day), Opened, None, None, reminder, false);
        st.(windows := st.windows[o := t.(phase := Completed, closedAt := Some(at))],
            log := st.log + [Record(o, Completed), CancelMissTask(o)])
  }

  /** Keys are bound to compartments by position; the first binding of a key counts, and the empty
      string stands for a key that is not bound. */
  function CompartmentOf(keys: seq<string>, compartments: seq<string>, entity: string): string {
    if keys == [] || compartments == [] then ""
    else if keys[0] == entity then compartments[0]
    else CompartmentOf(keys[1..], compartments[1..], entity)
  }

  /** The first position of a key decides, provided that there is a compartment at that position. */
  lemma {:induction false} FirstBindingCounts(keys: seq<string>, compartments: seq<string>, entity: string, i: nat)
    requires i <= |keys| && entity !in keys[..i] && (i < |keys| ==> keys[i] == entity)
    ensures CompartmentOf(keys, compartments, entity) == if i < |keys| && i < |compartments| then compartments[i] else ""
  {
    if i > 0 && compartments != [] {
      assert keys[0] == keys[..i][0] && keys[1..][..i - 1] == keys[..i][1..];
      FirstBindingCounts(keys[1..], compartments[1..], entity, i - 1);
    }
  }

  /** A key was pressed: what that means for the compartment it is bound to, if any. */
  function PressKey(cfg: Config, st: State, keys: seq<string>, entity: string, at: int, reminder: string): State {
    var compartment := CompartmentOf(keys, cfg.compartments, entity);
    if compartment == "" then st else Press(cfg, st, compartment, at, reminder)
  }

  // ---------------------------------------------------------------- what every step keeps

  function Count(log: seq<Effect>, e: Effect): nat { multiset(log)[e] }

  /** What is tracked fits the configuration and the clock. */
  ghost predicate TrackFits(cfg: Config, st: State, o: Occurrence, w: WindowSpec) {
    o in st.windows ==>
      var t := st.windows[o];
      && t.start == cfg.Start(w, o.day) && t.end == cfg.End(w, o.day)
      && (t.phase == Opened ==> t.start <= st.clock)
      && (t.phase == Missed ==> t.end <= st.clock)
      && (t.phase == Completed ==> t.closedAt.Some? && t.start <= t.closedAt.value < t.end)
  }

  predicate Is(st: State, o: Occurrence, phase: Phase) { o in st.windows && st.windows[o].phase == phase }

  /** Until its tombstone may be gone, the log says of an occurrence exactly what is tracked: completed
      or missed, once, never both; and it was opened, with its reminder and its deadline job, at most
      once. */
  ghost predicate Told(cfg: Config, st: State, o: Occurrence) {
    && Count(st.log, Record(o, Completed)) == (if Is(st, o, Completed) then 1 else 0)
    && Count(st.log, Record(o, Missed)) == (if Is(st, o, Missed) then 1 else 0)
    && Count(st.log, MissedNotification(o)) == Count(st.log, Record(o, Missed))
    && Count(st.log, Record(o, Opened)) <= 1
    && Count(st.log, Reminder(o)) <= Count(st.log, Record(o, Opened))
    && Count(st.log, MissTask(o)) <= Count(st.log, Record(o, Opened))
    && (Count(st.log, Record(o, Opened)) == 1 ==> o in st.windows || o.day < cfg.DayOf(st.clock))
  }

  ghost predicate Safe(cfg: Config, st: State, o: Occurrence) {
    match cfg.Find(o.window)
    case None => o !in st.windows
    case Some(w) =>
      && TrackFits(cfg, st, o, w)
      && (st.clock <= cfg.End(w, o.day) + RETENTION ==> Told(cfg, st, o))
  }

  ghost predicate Inv(cfg: Config, st: State) {
    forall o :: Safe(cfg, st, o)
  }

  lemma DayBounds(cfg: Config, t: int)
    ensures cfg.DayOf(t) * DAY - cfg.offset <= t < (cfg.DayOf(t) + 1) * DAY - cfg.offset
  {
  }

  lemma DayMonotone(cfg: Config, a: int, b: int)
    requires a <= b
    ensures cfg.DayOf(a) <= cfg.DayOf(b)
  {
  }

  lemma DayIs(cfg: Config, t: int, day: int)
    requires day * DAY - cfg.offset <= t < (day + 1) * DAY - cfg.offset
    ensures cfg.DayOf(t) == day
  {
    DayBounds(cfg, t);
  }

  lemma PruneKeeps(cfg: Config, st: State, now: int, o: Occurrence)
    requires cfg.Valid() && Safe(cfg, st, o) && st.clock <= now
    ensures Safe(cfg, Prune(cfg, st, now), o)
  {
    hide Config.Find, Config.DayOf;
    var w := cfg.Find(o.window);
    if w.Some? && o in st.windows && st.windows[o].phase == Opened {
      var t := st.windows[o];
      StartDay(cfg, w.value, o.day);
      DayMonotone(cfg, t.start, now);
    }
    if w.Some? {
      DayMonotone(cfg, st.clock, now);
    }
  }

  lemma StartDay(cfg: Config, w: WindowSpec, day: int)
    requires w.Valid()
    ensures cfg.DayOf(cfg.Start(w, day)) == day
  {
    DayIs(cfg, cfg.Start(w, day), day);
  }

  lemma FindUnique(cfg: Config, w: WindowSpec)
    requires cfg.Valid() && w in cfg.schedule
    ensures cfg.Find(w.id) == Some(w) && w.Valid()
  {
    hide FindIn, WindowSpec.Valid;
  }

  lemma CountMore(log: seq<Effect>, more: seq<Effect>, e: Effect)
    ensures Count(log + more, e) == Count(log, e) + Count(more, e)
    ensures e !in more ==> Count(log + more, e) == Count(log, e)
  {
  }

  /** What is decided about one occurrence does not concern another. */
  lemma OthersKeep(cfg: Config, st: State, next: State, more: seq<Effect>, o: Occurrence)
    requires Safe(cfg, st, o) && next.clock == st.clock && next.log == st.log + more
    requires forall e <- more :: e.o != o
    requires (o in next.windows <==> o in st.windows) && (o in st.windows ==> next.windows[o] == st.windows[o])
    ensures Safe(cfg, next, o)
  {
    hide Config.Find, Config.DayOf, Config.Start, Config.End, Count;
    forall e: Effect | e.o == o
      ensures Count(next.log, e) == Count(st.log, e)
    {
      CountMore(st.log, more, e);
    }
  }

  /** An occurrence is opened: it never was before. */
  lemma OpenKeeps(cfg: Config, st: State, next: State, w: WindowSpec, o: Occurrence, more: seq<Effect>, t: Track)
    requires Safe(cfg, st, o) && cfg.Find(o.window) == Some(w) && o !in st.windows && o.day == cfg.DayOf(st.clock)
    requires cfg.Start(w, o.day) <= st.clock && t.phase == Opened && t.start == cfg.Start(w, o.day) && t.end == cfg.End(w, o.day)
    requires next == st.(windows := st.windows[o := t], log := st.log + ([Record(o, Opened)] + more))
    requires more == [] || more == [MissTask(o)] || more == [Reminder(o), MissTask(o)]
    ensures Safe(cfg, next, o)
  {
    hide Config.Find, Config.DayOf, Config.Start, Config.End;
    forall e: Effect
      ensures Count(next.log, e) == Count(st.log, e) + Count([Record(o, Opened)] + more, e)
    {
      CountMore(st.log, [Record(o, Opened)] + more, e);
    }
  }

  lemma CloseKeeps(cfg: Config, st: State, w: WindowSpec, o: Occurrence)
    requires Safe(cfg, st, o) && cfg.Find(o.window) == Some(w) && Is(st, o, Opened) && cfg.End(w, o.day) <= st.clock
    ensures Safe(cfg, Close(st, o, st.clock), o)
  {
    hide Config.Find, Config.DayOf, Config.Start, Config.End;
    var more := MissEffects(o);
    forall e: Effect
      ensures Count(st.log + more, e) == Count(st.log, e) + Count(more, e)
    {
      CountMore(st.log, more, e);
    }
  }

  lemma VisitKeeps(cfg: Config, reminder: string, st: State, w: WindowSpec, now: int, o: Occurrence)
    requires cfg.Valid() && w in cfg.schedule && st.clock == now && Safe(cfg, st, o)
    ensures Safe(cfg, Visit(cfg, reminder, st, w, now), o)
    ensures Visit(cfg, reminder, st, w, now).clock == now
  {
    hide Config.Find, Config.DayOf, Safe, Config.Start, Config.End, Count;
    FindUnique(cfg, w);
    var next := Visit(cfg, reminder, st, w, now);
    var visited := Occurrence(w.id, cfg.DayOf(now));
    if next == st {
    } else if o != visited {
      OthersKeep(cfg, st, next, next.log[|st.log|..], o);
    } else if o !in st.windows {
      OpenKeeps(cfg, st, next, w, o, next.log[|st.log| + 1..], next.windows[o]);
    } else {
      CloseKeeps(cfg, st, w, o);
    }
  }

  lemma {:induction false} VisitAllKeeps(cfg: Config, reminder: string, st: State, schedule: seq<WindowSpec>, now: int, o: Occurrence)
    requires cfg.Valid() && (forall w <- schedule :: w in cfg.schedule) && st.clock == now && Safe(cfg, st, o)
    ensures Safe(cfg, VisitAll(cfg, reminder, st, schedule, now), o)
    ensures VisitAll(cfg, reminder, st, schedule, now).clock == now
  {
    hide Safe, Visit, Config.Valid;
    if schedule != [] {
      var n := |schedule| - 1;
      VisitAllKeeps(cfg, reminder, st, schedule[..n], now, o);
      VisitKeeps(cfg, reminder, VisitAll(cfg, reminder, st, schedule[..n], now), schedule[n], now, o);
    }
  }

  lemma AnsweredKeeps(cfg: Config, st: State, key: string, body: seq<string>, o: Occurrence)
    requires Safe(cfg, st, o)
    ensures Safe(cfg, Answered(st, key, body), o)
  {
    hide Config.Find, Config.DayOf, Config.Start, Config.End, Count;
  }

  lemma ClockKeeps(cfg: Config, st: State, now: int, o: Occurrence)
    requires Safe(cfg, st, o) && st.clock <= now
    ensures Safe(cfg, st.(clock := now), o)
  {
    hide Config.Find, Config.DayOf, Config.Start, Config.End, Count;
    DayMonotone(cfg, st.clock, now);
  }

  lemma CheckKeeps(cfg: Config, reminder: string, st: State, now: int, key: string, o: Occurrence)
    requires cfg.Valid() && Safe(cfg, st, o) && st.clock <= now
    ensures Safe(cfg, Check(cfg, reminder, st, now, key), o)
  {
    hide Safe, Answered, VisitAll, MissedBy, Config.Valid;
    if key != "" && key in st.jobs {
      ClockKeeps(cfg, st, now, o);
    } else {
      var pruned := Prune(cfg, st, now);
      PruneKeeps(cfg, st, now, o);
      VisitAllKeeps(cfg, reminder, pruned, cfg.schedule, now, o);
      AnsweredKeeps(cfg, VisitAll(cfg, reminder, pruned, cfg.schedule, now), key,
                    Text.Sorted(MissedBy(cfg, reminder, pruned, cfg.schedule, now)), o);
    }
  }

  /** An occurrence nothing is known of is missed: it is reconstructed from the configuration. */
  lemma MissUnknownKeeps(cfg: Config, st: State, w: WindowSpec, o: Occurrence, t: Track)
    requires Safe(cfg, st, o) && cfg.Find(o.window) == Some(w) && o !in st.windows && cfg.End(w, o.day) <= st.clock
    requires t.start == cfg.Start(w, o.day) && t.end == cfg.End(w, o.day) && t.phase == Missed
    ensures Safe(cfg, st.(windows := st.windows[o := t], log := st.log + MissEffects(o)), o)
  {
    hide Config.Find, Config.DayOf, Config.Start, Config.End;
    var more := MissEffects(o);
    forall e: Effect
      ensures Count(st.log + more, e) == Count(st.log, e) + Count(more, e)
    {
      CountMore(st.log, more, e);
    }
  }

  lemma CancelKeeps(cfg: Config, st: State, c: Occurrence, o: Occurrence)
    requires Safe(cfg, st, o)
    ensures Safe(cfg, st.(log := st.log + [CancelMissTask(c)]), o)
  {
    hide Config.Find, Config.DayOf, Config.Start, Config.End, Count;
    forall e: Effect
      ensures !e.CancelMissTask? ==> Count(st.log + [CancelMissTask(c)], e) == Count(st.log, e)
    {
      CountMore(st.log, [CancelMissTask(c)], e);
    }
  }

  lemma DeadlineKeeps(cfg: Config, st: State, due: Occurrence, now: int, key: string, o: Occurrence)
    requires cfg.Valid() && Safe(cfg, st, o) && st.clock <= now
    ensures Safe(cfg, Deadline(cfg, st, due, now, key), o)
  {
    hide Safe, Answered, Config.Find, Config.DayOf, Config.Start, Config.End, Config.Valid, Count;
    var at := st.(clock := now);
    var w := cfg.Find(due.window);
    ClockKeeps(cfg, st, now, o);
    if (key != "" && key in st.jobs) || w.None? || now < cfg.End(w.value, due.day) {
    } else if Is(st, due, Completed) {
      CancelKeeps(cfg, at, due, o);
      AnsweredKeeps(cfg, at.(log := at.log + [CancelMissTask(due)]), key, [], o);
    } else if Is(st, due, Missed) {
      AnsweredKeeps(cfg, at, key, [], o);
    } else {
      var more := MissEffects(due);
      var next := if due in st.windows then Close(at, due, now)
        else at.(windows := st.windows[due := Track(cfg.Start(w.value, due.day), cfg.End(w.value, due.day), Missed, None,
                                                   Some(now), "", false)],
                 log := st.log + more);
      if o != due {
        OthersKeep(cfg, at, next, more, o);
      } else if due in st.windows {
        CloseKeeps(cfg, at, w.value, o);
      } else {
        MissUnknownKeeps(cfg, at, w.value, o, next.windows[due]);
      }
      AnsweredKeeps(cfg, next, key, [due.window], o);
    }
  }

  lemma CompleteKeeps(cfg: Config, st: State, w: WindowSpec, o: Occurrence, t: Track)
    requires Safe(cfg, st, o) && cfg.Find(o.window) == Some(w) && !Is(st, o, Completed) && !Is(st, o, Missed)
    requires t.start == cfg.Start(w, o.day) && t.end == cfg.End(w, o.day) && t.phase == Completed
    requires t.closedAt.Some? && t.start <= t.closedAt.value < t.end
    ensures Safe(cfg, st.(windows := st.windows[o := t], log := st.log + [Record(o, Completed), CancelMissTask(o)]), o)
  {
    hide Config.Find, Config.DayOf, Config.Start, Config.End;
    var more := [Record(o, Completed), CancelMissTask(o)];
    forall e: Effect
      ensures Count(st.log + more, e) == Count(st.log, e) + Count(more, e)
    {
      CountMore(st.log, more, e);
    }
  }

  lemma PressKeeps(cfg: Config, st: State, compartment: string, at: int, reminder: string, o: Occurrence)
    requires cfg.Valid() && Inv(cfg, st)
    ensures Safe(cfg, Press(cfg, st, compartment, at, reminder), o)
  {
    hide Config.Find, Config.DayOf, Config.Start, Config.End, Config.Valid, Count, WindowAt, Told;
    var next := Press(cfg, st, compartment, at, reminder);
    assert Safe(cfg, st, o);
    if next != st {
      var w := WindowAt(cfg, cfg.schedule, compartment, at).value;
      var pressed := Occurrence(w.id, cfg.DayOf(at));
      assert Safe(cfg, st, pressed);
      FindUnique(cfg, w);
      if o == pressed {
        CompleteKeeps(cfg, st, w, o, next.windows[o]);
      } else {
        OthersKeep(cfg, st, next, [Record(pressed, Completed), CancelMissTask(pressed)], o);
      }
    }
  }

  // ---------------------------------------------------------------- runs

  datatype Action =
    | Tick(now: int, key: string, reminder: string)
    | Due(o: Occurrence, now: int, key: string)
    | Pressed(compartment: string, at: int, reminder: string)
  {
    /** The clock never runs backwards; the time of a key press may be anything. */
    predicate Timely(st: State) { this.Pressed? || st.clock <= now }

    function Apply(cfg: Config, st: State): State {
      match this
      case Tick(now, key, reminder) => Check(cfg, reminder, st, now, key)
      case Due(o, now, key) => Deadline(cfg, st, o, now, key)
      case Pressed(compartment, at, reminder) => Press(cfg, st, compartment, at, reminder)
    }
  }

  lemma ActionKeeps(cfg: Config, st: State, action: Action)
    requires cfg.Valid() && Inv(cfg, st) && action.Timely(st)
    ensures Inv(cfg, action.Apply(cfg, st))
  {
    hide Safe, Check, Deadline, Press, Config.Valid;
    forall o
      ensures Safe(cfg, action.Apply(cfg, st), o)
    {
      assert Safe(cfg, st, o);
      match action {
        case Tick(now, key, reminder) => CheckKeeps(cfg, reminder, st, now, key, o);
        case Due(due, now, key) => DeadlineKeeps(cfg, st, due, now, key, o);
        case Pressed(compartment, at, reminder) => PressKeeps(cfg, st, compartment, at, reminder, o);
      }
    }
  }

  predicate Legal(cfg: Config, st: State, actions: seq<Action>)
    decreases |actions|
  {
    actions == [] || (actions[0].Timely(st) && Legal(cfg, actions[0].Apply(cfg, st), actions[1..]))
  }

  function Run(cfg: Config, st: State, actions: seq<Action>): State
    decreases |actions|
  {
    if actions == [] then st else Run(cfg, actions[0].Apply(cfg, st), actions[1..])
  }

  lemma {:induction false} RunKeeps(cfg: Config, st: State, actions: seq<Action>)
    requires cfg.Valid() && Inv(cfg, st) && Legal(cfg, st, actions)
    ensures Inv(cfg, Run(cfg, st, actions))
    decreases |actions|
  {
    hide Inv, Config.Valid, Action.Apply, Action.Timely;
    if actions != [] {
      ActionKeeps(cfg, st, actions[0]);
      RunKeeps(cfg, actions[0].Apply(cfg, st), actions[1..]);
    }
  }

  function Started(clock: int): State { State(map[], map[], clock, []) }

  /** Over every run of one process with a fixed configuration, and for every occurrence until its
      tombstone may expire: it is never both completed and missed, each at most once; it is opened,
      reminded of and armed at most once; a miss is announced exactly once and not before the end. */
  lemma OccurrenceSafety(cfg: Config, clock: int, actions: seq<Action>, o: Occurrence, w: WindowSpec)
    requires cfg.Valid() && Legal(cfg, Started(clock), actions) && cfg.Find(o.window) == Some(w)
    requires Run(cfg, Started(clock), actions).clock <= cfg.End(w, o.day) + RETENTION
    ensures var st := Run(cfg, Started(clock), actions);
      && Count(st.log, Record(o, Completed)) + Count(st.log, Record(o, Missed)) <= 1
      && Count(st.log, MissedNotification(o)) == Count(st.log, Record(o, Missed))
      && Count(st.log, Record(o, Opened)) <= 1 && Count(st.log, Reminder(o)) <= 1 && Count(st.log, MissTask(o)) <= 1
      && (Count(st.log, Record(o, Missed)) == 1 ==> cfg.End(w, o.day) <= st.clock)
      && (Count(st.log, Record(o, Completed)) == 1 ==>
            o in st.windows && st.windows[o].closedAt.Some?
            && cfg.Start(w, o.day) <= st.windows[o].closedAt.value < cfg.End(w, o.day))
  {
    hide Config.Find, Config.DayOf, Config.Start, Config.End, Config.Valid, Count, Run, Legal;
    StartedSafe(cfg, clock);
    RunKeeps(cfg, Started(clock), actions);
    assert Safe(cfg, Run(cfg, Started(clock), actions), o);
  }

  lemma StartedSafe(cfg: Config, clock: int)
    ensures Inv(cfg, Started(clock))
  {
    hide Config.DayOf, Config.Start, Config.End;
  }

  /** Completed and missed are final as long as the tombstone is kept. */
  lemma Absorbing(cfg: Config, st: State, action: Action, o: Occurrence, w: WindowSpec, phase: Phase)
    requires cfg.Valid() && Inv(cfg, st) && action.Timely(st) && cfg.Find(o.window) == Some(w)
    requires Is(st, o, phase) && phase != Opened
    requires action.Apply(cfg, st).clock <= cfg.End(w, o.day) + RETENTION
    ensures Is(action.Apply(cfg, st), o, phase)
  {
    hide Config.Find, Config.DayOf, Config.Start, Config.End, Config.Valid, Action.Apply, Action.Timely;
    ActionKeeps(cfg, st, action);
    var next := action.Apply(cfg, st);
    assert Safe(cfg, next, o) && Safe(cfg, st, o);
    LogGrows(cfg, st, action, Record(o, phase));
    ClockGrows(cfg, st, action);
  }

  lemma ClockGrows(cfg: Config, st: State, action: Action)
    requires action.Timely(st)
    ensures st.clock <= action.Apply(cfg, st).clock
  {
    if action.Tick? {
      VisitAllClock(cfg, action.reminder, Prune(cfg, st, action.now), cfg.schedule, action.now);
    }
    hide VisitAll, MissedBy, WindowAt, Config.Find;
  }

  lemma {:induction false} VisitAllClock(cfg: Config, reminder: string, st: State, schedule: seq<WindowSpec>, now: int)
    ensures VisitAll(cfg, reminder, st, schedule, now).clock == st.clock
  {
    if schedule != [] {
      VisitAllClock(cfg, reminder, st, schedule[..|schedule| - 1], now);
    }
  }

  lemma LogGrows(cfg: Config, st: State, action: Action, e: Effect)
    ensures Count(st.log, e) <= Count(action.Apply(cfg, st).log, e)
  {
    if action.Tick? {
      VisitAllLog(cfg, action.reminder, Prune(cfg, st, action.now), cfg.schedule, action.now, e);
    }
    hide VisitAll, MissedBy, WindowAt, Config.Find, Count, MissEffects;
    var next := action.Apply(cfg, st);
    if !action.Tick? {
      var more := next.log[|st.log|..];
      assert next.log == st.log + more;
      CountMore(st.log, more, e);
    }
  }

  lemma {:induction false} VisitAllLog(cfg: Config, reminder: string, st: State, schedule: seq<WindowSpec>, now: int, e: Effect)
    ensures Count(st.log, e) <= Count(VisitAll(cfg, reminder, st, schedule, now).log, e)
  {
    if schedule != [] {
      VisitAllLog(cfg, reminder, st, schedule[..|schedule| - 1], now, e);
    }
  }

  /** Past its retention a completion can be followed by a miss: the tombstone is gone, and a late
      deadline job reconstructs the occurrence. */
  lemma LateDeadlineContradicts(cfg: Config, w: WindowSpec, day: int)
    requires cfg.Valid() && w in cfg.schedule && WindowAt(cfg, cfg.schedule, w.compartment, cfg.Start(w, day)) == Some(w)
    ensures var o, late := Occurrence(w.id, day), cfg.End(w, day) + RETENTION + 1;
      var actions := [Pressed(w.compartment, cfg.Start(w, day), ""), Tick(late, "", ""), Due(o, late, "")];
      var st := Run(cfg, Started(cfg.Start(w, day)), actions);
      && Legal(cfg, Started(cfg.Start(w, day)), actions)
      && Count(st.log, Record(o, Completed)) == 1 && Count(st.log, Record(o, Missed)) == 1
  {
    hide Config.Find, Config.DayOf, VisitAll, MissedBy, WindowAt, Config.Valid, Safe;
    var o, late := Occurrence(w.id, day), cfg.End(w, day) + RETENTION + 1;
    FindUnique(cfg, w);
    StartDay(cfg, w, day);
    var start := Started(cfg.Start(w, day));
    var press, tick, due := Pressed(w.compartment, cfg.Start(w, day), ""), Tick(late, "", ""), Due(o, late, "");
    var pressed := press.Apply(cfg, start);
    assert pressed.log == [] + [Record(o, Completed), CancelMissTask(o)];
    var pruned := Prune(cfg, pressed, late);
    assert pruned.windows == map[];
    LateDay(cfg, w, day);
    VisitAllElsewhere(cfg, "", pruned, cfg.schedule, late, o);
    VisitAllClock(cfg, "", pruned, cfg.schedule, late);
    var ticked := tick.Apply(cfg, pressed);
    assert ticked == VisitAll(cfg, "", pruned, cfg.schedule, late);
    var after := due.Apply(cfg, ticked);
    assert after.log == ticked.log + MissEffects(o);
    CountMore(ticked.log, MissEffects(o), Record(o, Missed));
    CountMore(ticked.log, MissEffects(o), Record(o, Completed));
    RunThree(cfg, start, press, tick, due);
  }

  lemma RunThree(cfg: Config, st: State, a: Action, b: Action, c: Action)
    ensures var s1 := a.Apply(cfg, st);
      var s2 := b.Apply(cfg, s1);
      && Run(cfg, st, [a, b, c]) == c.Apply(cfg, s2)
      && (Legal(cfg, st, [a, b, c]) <==> a.Timely(st) && b.Timely(s1) && c.Timely(s2))
  {
    hide Action.Apply, Action.Timely;
    var s1 := a.Apply(cfg, st);
    var s2 := b.Apply(cfg, s1);
    assert [a, b, c][1..] == [b, c] && [b, c][1..] == [c] && [c][1..] == [];
    assert Run(cfg, s2, [c]) == c.Apply(cfg, s2);
    assert Run(cfg, s1, [b, c]) == Run(cfg, s2, [c]);
    assert Legal(cfg, c.Apply(cfg, s2), []);
    assert Legal(cfg, s2, [c]) <==> c.Timely(s2);
    assert Legal(cfg, s1, [b, c]) <==> b.Timely(s1) && Legal(cfg, s2, [c]);
  }

  lemma LateDay(cfg: Config, w: WindowSpec, day: int)
    requires w.Valid()
    ensures cfg.DayOf(cfg.End(w, day) + RETENTION + 1) != day
  {
    DayBounds(cfg, cfg.End(w, day) + RETENTION + 1);
  }

  // ---------------------------------------------------------------- who decides what

  /** Two states know the same of an occurrence, and did the same about it. */
  ghost predicate SameOn(a: State, b: State, o: Occurrence) {
    && (o in a.windows <==> o in b.windows) && (o in a.windows ==> a.windows[o] == b.windows[o])
    && (forall e: Effect :: e.o == o ==> Count(a.log, e) == Count(b.log, e))
  }

  lemma VisitElsewhere(cfg: Config, reminder: string, st: State, w: WindowSpec, now: int, o: Occurrence)
    requires o != Occurrence(w.id, cfg.DayOf(now))
    ensures SameOn(Visit(cfg, reminder, st, w, now), st, o)
  {
    hide Config.DayOf, Config.Start, Config.End, Count;
    var next := Visit(cfg, reminder, st, w, now);
    if next != st {
      forall e: Effect | e.o == o
        ensures Count(next.log, e) == Count(st.log, e)
      {
        CountMore(st.log, next.log[|st.log|..], e);
        assert next.log == st.log + next.log[|st.log|..];
      }
    }
  }

  lemma {:induction false} VisitAllElsewhere(cfg: Config, reminder: string, st: State, schedule: seq<WindowSpec>, now: int, o: Occurrence)
    requires forall w <- schedule :: o != Occurrence(w.id, cfg.DayOf(now))
    ensures SameOn(VisitAll(cfg, reminder, st, schedule, now), st, o)
  {
    hide Visit, Config.DayOf, Count;
    if schedule != [] {
      var n := |schedule| - 1;
      VisitAllElsewhere(cfg, reminder, st, schedule[..n], now, o);
      VisitElsewhere(cfg, reminder, VisitAll(cfg, reminder, st, schedule[..n], now), schedule[n], now, o);
    }
  }

  /** A visit depends on nothing but the occurrence it visits. */
  lemma VisitLocal(cfg: Config, reminder: string, a: State, b: State, w: WindowSpec, now: int)
    requires SameOn(a, b, Occurrence(w.id, cfg.DayOf(now)))
    ensures SameOn(Visit(cfg, reminder, a, w, now), Visit(cfg, reminder, b, w, now), Occurrence(w.id, cfg.DayOf(now)))
  {
    hide Config.DayOf, Config.Start, Config.End, Count, MissEffects;
    var a', b' := Visit(cfg, reminder, a, w, now), Visit(cfg, reminder, b, w, now);
    assert a'.log == a.log + a'.log[|a.log|..] && b'.log == b.log + b'.log[|b.log|..];
    assert a'.log[|a.log|..] == b'.log[|b.log|..];
    forall e: Effect | e.o == Occurrence(w.id, cfg.DayOf(now))
      ensures Count(a'.log, e) == Count(b'.log, e)
    {
      CountMore(a.log, a'.log[|a.log|..], e);
      CountMore(b.log, b'.log[|b.log|..], e);
    }
  }

  lemma {:induction false} VisitAllAlone(cfg: Config, reminder: string, st: State, schedule: seq<WindowSpec>, now: int, i: nat)
    requires i < |schedule| && forall j, k :: 0 <= j < k < |schedule| ==> schedule[j].id != schedule[k].id
    ensures SameOn(VisitAll(cfg, reminder, st, schedule, now), Visit(cfg, reminder, st, schedule[i], now),
                   Occurrence(schedule[i].id, cfg.DayOf(now)))
    decreases |schedule|
  {
    hide Visit, Config.DayOf, Count;
    var n := |schedule| - 1;
    var before := VisitAll(cfg, reminder, st, schedule[..n], now);
    var o := Occurrence(schedule[i].id, cfg.DayOf(now));
    if i == n {
      VisitAllElsewhere(cfg, reminder, st, schedule[..n], now, o);
      VisitLocal(cfg, reminder, before, st, schedule[n], now);
    } else {
      VisitAllAlone(cfg, reminder, st, schedule[..n], now, i);
      VisitElsewhere(cfg, reminder, before, schedule[n], now, o);
    }
  }

  /** The minute job decides about each occurrence by itself, whatever else is configured and in whatever
      order: it looks at the occurrences of today, and leaves those of other days as pruning left them. */
  lemma MinuteJobDecides(cfg: Config, reminder: string, st: State, now: int, key: string, o: Occurrence)
    requires cfg.Valid() && !(key != "" && key in st.jobs)
    ensures var pruned, w := Prune(cfg, st, now), cfg.Find(o.window);
      SameOn(Check(cfg, reminder, st, now, key),
             if w.Some? && o.day == cfg.DayOf(now) then Visit(cfg, reminder, pruned, w.value, now) else pruned, o)
  {
    hide Visit, VisitAll, MissedBy, Prune, Config.DayOf, Count, WindowSpec.Valid, FindIn;
    var pruned, w := Prune(cfg, st, now), cfg.Find(o.window);
    if w.Some? && o.day == cfg.DayOf(now) {
      var i :| 0 <= i < |cfg.schedule| && cfg.schedule[i] == w.value;
      VisitAllAlone(cfg, reminder, pruned, cfg.schedule, now, i);
    } else {
      VisitAllElsewhere(cfg, reminder, pruned, cfg.schedule, now, o);
    }
  }

  /** The minute job forgets a tombstone, of a completion or of a miss, exactly when its retention is over. */
  lemma TombstoneKept(cfg: Config, reminder: string, st: State, now: int, key: string, o: Occurrence, w: WindowSpec, phase: Phase)
    requires cfg.Valid() && Inv(cfg, st) && st.clock <= now && cfg.Find(o.window) == Some(w)
    requires Is(st, o, phase) && phase != Opened
    ensures Is(Check(cfg, reminder, st, now, key), o, phase) <==>
      (key != "" && key in st.jobs) || now <= cfg.End(w, o.day) + RETENTION
  {
    hide Check, VisitAll, MissedBy, Config.Find, Count, Told;
    assert Safe(cfg, st, o) && o == Occurrence(w.id, o.day);
    if key != "" && key in st.jobs {
      CheckRepeated(cfg, reminder, st, now, key);
    } else {
      MinuteJobDecides(cfg, reminder, st, now, key, o);
    }
  }

  lemma CheckRepeated(cfg: Config, reminder: string, st: State, now: int, key: string)
    requires key != "" && key in st.jobs
    ensures Check(cfg, reminder, st, now, key) == st.(clock := now)
  {
  }

  /** The minute job opens an occurrence exactly within its window unless it is known already, and arms
      its deadline and reminds of it exactly within the first minute of it. */
  lemma OpensInTime(cfg: Config, reminder: string, st: State, now: int, key: string, o: Occurrence, w: WindowSpec)
    requires cfg.Valid() && Inv(cfg, st) && st.clock <= now && !(key != "" && key in st.jobs) && cfg.Find(o.window) == Some(w)
    ensures var next, opens := Check(cfg, reminder, st, now, key), cfg.Start(w, o.day) <= now < cfg.End(w, o.day) && o !in st.windows;
      var prompt := opens && now <= cfg.Start(w, o.day) + FRESH_OPEN_GRACE;
      && Count(next.log, Record(o, Opened)) == Count(st.log, Record(o, Opened)) + (if opens then 1 else 0)
      && Count(next.log, MissTask(o)) == Count(st.log, MissTask(o)) + (if prompt then 1 else 0)
      && Count(next.log, Reminder(o)) == Count(st.log, Reminder(o)) + (if prompt && reminder != "" then 1 else 0)
      && (opens ==>
            && o in next.windows
            && next.windows[o] == Track(cfg.Start(w, o.day), cfg.End(w, o.day), Opened, Some(now), None, reminder, prompt))
  {
    hide Check, VisitAll, MissedBy, Visit, Config.Find, Config.DayOf, Config.Start, Config.End, Count, Told;
    MinuteJobDecides(cfg, reminder, st, now, key, o);
    assert Safe(cfg, st, o) && o == Occurrence(w.id, o.day);
    var pruned := Prune(cfg, st, now);
    if cfg.Start(w, o.day) <= now < cfg.End(w, o.day) {
      WithinDay(cfg, w, o.day, now);
      StartDay(cfg, w, o.day);
      assert o in st.windows ==> Keeps(cfg, st.windows[o], now);
    }
    if o.day == cfg.DayOf(now) {
      VisitOpens(cfg, reminder, pruned, w, now);
    }
  }

  lemma VisitOpens(cfg: Config, reminder: string, st: State, w: WindowSpec, now: int)
    ensures var next, o := Visit(cfg, reminder, st, w, now), Occurrence(w.id, cfg.DayOf(now));
      var opens := cfg.Start(w, o.day) <= now < cfg.End(w, o.day) && o !in st.windows;
      var prompt := opens && now <= cfg.Start(w, o.day) + FRESH_OPEN_GRACE;
      && Count(next.log, Record(o, Opened)) == Count(st.log, Record(o, Opened)) + (if opens then 1 else 0)
      && Count(next.log, MissTask(o)) == Count(st.log, MissTask(o)) + (if prompt then 1 else 0)
      && Count(next.log, Reminder(o)) == Count(st.log, Reminder(o)) + (if prompt && reminder != "" then 1 else 0)
      && (opens ==>
            && o in next.windows
            && next.windows[o] == Track(cfg.Start(w, o.day), cfg.End(w, o.day), Opened, Some(now), None, reminder, prompt))
  {
    hide Config.DayOf, Config.Start, Config.End, Count;
    var next, o := Visit(cfg, reminder, st, w, now), Occurrence(w.id, cfg.DayOf(now));
    if next != st {
      var more := next.log[|st.log|..];
      assert next.log == st.log + more;
      CountMore(st.log, more, Record(o, Opened));
      CountMore(st.log, more, MissTask(o));
      CountMore(st.log, more, Reminder(o));
      var prompt := now <= cfg.Start(w, o.day) + FRESH_OPEN_GRACE;
      OpeningCounts(o, prompt, reminder);
      if o !in st.windows {
        assert more == [Record(o, Opened)] + (if prompt then (if reminder != "" then [Reminder(o)] else []) + [MissTask(o)] else []);
      } else {
        assert more == MissEffects(o);
      }
    }
  }

  lemma OpeningCounts(o: Occurrence, prompt: bool, reminder: string)
    ensures var more := [Record(o, Opened)] + (if prompt then (if reminder != "" then [Reminder(o)] else []) + [MissTask(o)] else []);
      && Count(more, Record(o, Opened)) == 1 && Count(more, MissTask(o)) == (if prompt then 1 else 0)
      && Count(more, Reminder(o)) == if prompt && reminder != "" then 1 else 0
    ensures var more := MissEffects(o);
      Count(more, Record(o, Opened)) == 0 && Count(more, MissTask(o)) == 0 && Count(more, Reminder(o)) == 0
  {
  }

  /** An occurrence that is open and that no deadline job owns is past its end. */
  predicate Overdue(cfg: Config, st: State, o: Occurrence, w: WindowSpec, now: int) {
    Is(st, o, Opened) && !st.windows[o].missTask && cfg.End(w, o.day) <= now
  }

  /** What the minute job newly misses: an overdue occurrence of today. */
  predicate Misses(cfg: Config, st: State, o: Occurrence, w: WindowSpec, now: int) {
    o.day == cfg.DayOf(now) && Overdue(cfg, st, o, w, now)
  }

  /** The minute job misses exactly the overdue occurrences of today: each is missed at that moment,
      recorded, announced, and its deadline job cancelled, once; and no other occurrence is.  What else is
      open stays open if it is of today, and is forgotten otherwise. */
  lemma MissesInTime(cfg: Config, reminder: string, st: State, now: int, key: string, o: Occurrence, w: WindowSpec)
    requires cfg.Valid() && Inv(cfg, st) && st.clock <= now && !(key != "" && key in st.jobs) && cfg.Find(o.window) == Some(w)
    ensures var next, misses := Check(cfg, reminder, st, now, key), Misses(cfg, st, o, w, now);
      && (Is(next, o, Missed) <==> misses || (Is(st, o, Missed) && now <= cfg.End(w, o.day) + RETENTION))
      && (Is(st, o, Opened) ==> (Is(next, o, Opened) <==> o.day == cfg.DayOf(now) && !misses))
      && (misses ==> next.windows[o] == st.windows[o].(phase := Missed, closedAt := Some(now)))
      && Count(next.log, Record(o, Missed)) == Count(st.log, Record(o, Missed)) + (if misses then 1 else 0)
      && Count(next.log, MissedNotification(o)) == Count(st.log, MissedNotification(o)) + (if misses then 1 else 0)
      && Count(next.log, CancelMissTask(o)) == Count(st.log, CancelMissTask(o)) + (if misses then 1 else 0)
  {
    hide Check, VisitAll, MissedBy, Visit, Config.Find, Config.DayOf, Config.Start, Config.End, Count, Told, Keeps;
    MinuteJobDecides(cfg, reminder, st, now, key, o);
    assert Safe(cfg, st, o) && o == Occurrence(w.id, o.day);
    var pruned := Prune(cfg, st, now);
    if o in st.windows {
      KeptToday(cfg, st, o, w, now);
    }
    if o.day == cfg.DayOf(now) {
      assert w.Valid();
      VisitCloses(cfg, reminder, pruned, w, now);
    }
  }

  /** Pruning leaves what is open today, and tombstones within their retention. */
  lemma KeptToday(cfg: Config, st: State, o: Occurrence, w: WindowSpec, now: int)
    requires cfg.Valid() && Safe(cfg, st, o) && cfg.Find(o.window) == Some(w) && o in st.windows
    ensures Keeps(cfg, st.windows[o], now) <==>
      now <= cfg.End(w, o.day) + RETENTION && (st.windows[o].phase == Opened ==> o.day == cfg.DayOf(now))
    ensures o.day == cfg.DayOf(now) ==> now <= cfg.End(w, o.day) + RETENTION
  {
    hide Config.Find, Told;
    StartDay(cfg, w, o.day);
    DayBounds(cfg, now);
  }

  lemma VisitCloses(cfg: Config, reminder: string, st: State, w: WindowSpec, now: int)
    requires w.Valid()
    ensures var next, o := Visit(cfg, reminder, st, w, now), Occurrence(w.id, cfg.DayOf(now));
      var misses := Overdue(cfg, st, o, w, now);
      && (Is(next, o, Missed) <==> misses || Is(st, o, Missed))
      && (Is(st, o, Opened) ==> (Is(next, o, Opened) <==> !misses))
      && (misses ==> next.windows[o] == st.windows[o].(phase := Missed, closedAt := Some(now)))
      && Count(next.log, Record(o, Missed)) == Count(st.log, Record(o, Missed)) + (if misses then 1 else 0)
      && Count(next.log, MissedNotification(o)) == Count(st.log, MissedNotification(o)) + (if misses then 1 else 0)
      && Count(next.log, CancelMissTask(o)) == Count(st.log, CancelMissTask(o)) + (if misses then 1 else 0)
  {
    hide Config.DayOf, Count;
    var next, o := Visit(cfg, reminder, st, w, now), Occurrence(w.id, cfg.DayOf(now));
    if next != st {
      var more := next.log[|st.log|..];
      assert next.log == st.log + more;
      CountMore(st.log, more, Record(o, Missed));
      CountMore(st.log, more, MissedNotification(o));
      CountMore(st.log, more, CancelMissTask(o));
      if Overdue(cfg, st, o, w, now) {
        assert more == MissEffects(o);
        MissCounts(o);
      }
    }
  }

  lemma MissCounts(o: Occurrence)
    ensures var more := MissEffects(o);
      Count(more, Record(o, Missed)) == 1 && Count(more, MissedNotification(o)) == 1 && Count(more, CancelMissTask(o)) == 1
  {
  }

  /** A list of identities names exactly the windows whose occurrence of today is newly missed, once each. */
  ghost predicate NamesTheMissed(cfg: Config, st: State, now: int, missed: seq<string>) {
    forall id :: multiset(missed)[id] ==
      var w := cfg.Find(id);
      if w.Some? && Misses(cfg, st, Occurrence(id, cfg.DayOf(now)), w.value, now) then 1 else 0
  }

  /** What the minute job answers, in order, are exactly the windows it newly missed. */
  lemma AnswersTheMissed(cfg: Config, reminder: string, st: State, now: int)
    requires cfg.Valid() && Inv(cfg, st)
    ensures var answer := Text.Sorted(MissedBy(cfg, reminder, Prune(cfg, st, now), cfg.schedule, now));
      NamesTheMissed(cfg, st, now, answer) && Text.Ascending(answer)
  {
    hide MissedBy, Prune, Config.Find, Config.DayOf, VisitMisses, Misses, Safe, WindowSpec.Valid, Text.Sorted, Text.Ascending;
    var pruned := Prune(cfg, st, now);
    var missed := MissedBy(cfg, reminder, pruned, cfg.schedule, now);
    Text.SortedAscends(missed);
    forall id: string
      ensures multiset(missed)[id] ==
        if cfg.Find(id).Some? && Misses(cfg, st, Occurrence(id, cfg.DayOf(now)), cfg.Find(id).value, now) then 1 else 0
    {
      var w := cfg.Find(id);
      if w.None? {
        OthersNotMissed(cfg, reminder, pruned, cfg.schedule, now, id);
      } else {
        var i :| 0 <= i < |cfg.schedule| && cfg.schedule[i] == w.value;
        MissedOnce(cfg, reminder, pruned, cfg.schedule, now, i);
        assert Safe(cfg, st, Occurrence(id, cfg.DayOf(now)));
        MissesOfToday(cfg, st, now, w.value);
      }
    }
  }

  lemma MissesOfToday(cfg: Config, st: State, now: int, w: WindowSpec)
    requires cfg.Valid() && Safe(cfg, st, Occurrence(w.id, cfg.DayOf(now))) && cfg.Find(w.id) == Some(w)
    ensures VisitMisses(cfg, Prune(cfg, st, now), w, now) <==> Misses(cfg, st, Occurrence(w.id, cfg.DayOf(now)), w, now)
  {
    hide Config.Find, Config.DayOf, Told, Keeps, TrackFits;
    var o := Occurrence(w.id, cfg.DayOf(now));
    if o in st.windows {
      KeptToday(cfg, st, o, w, now);
    }
    assert w.Valid();
  }

  lemma {:induction false} OthersNotMissed(cfg: Config, reminder: string, st: State, schedule: seq<WindowSpec>, now: int, id: string)
    requires forall w <- schedule :: w.id != id
    ensures multiset(MissedBy(cfg, reminder, st, schedule, now))[id] == 0
  {
    hide VisitAll, VisitMisses;
    if schedule != [] {
      OthersNotMissed(cfg, reminder, st, schedule[..|schedule| - 1], now, id);
    }
  }

  lemma {:induction false} MissedOnce(cfg: Config, reminder: string, st: State, schedule: seq<WindowSpec>, now: int, i: nat)
    requires i < |schedule| && forall j, k :: 0 <= j < k < |schedule| ==> schedule[j].id != schedule[k].id
    ensures multiset(MissedBy(cfg, reminder, st, schedule, now))[schedule[i].id] == if VisitMisses(cfg, st, schedule[i], now) then 1 else 0
    decreases |schedule|
  {
    hide VisitAll, VisitMisses;
    var n := |schedule| - 1;
    if i == n {
      OthersNotMissed(cfg, reminder, st, schedule[..n], now, schedule[n].id);
      MissesUntouched(cfg, reminder, st, schedule[..n], now, schedule[n]);
    } else {
      MissedOnce(cfg, reminder, st, schedule[..n], now, i);
    }
  }

  lemma MissesUntouched(cfg: Config, reminder: string, st: State, schedule: seq<WindowSpec>, now: int, w: WindowSpec)
    requires forall v <- schedule :: v.id != w.id
    ensures VisitMisses(cfg, VisitAll(cfg, reminder, st, schedule, now), w, now) <==> VisitMisses(cfg, st, w, now)
  {
    hide VisitAll, Config.DayOf, Config.Start, Config.End, Count;
    VisitAllElsewhere(cfg, reminder, st, schedule, now, Occurrence(w.id, cfg.DayOf(now)));
  }

  /** What a window contains is on its day. */
  lemma WithinDay(cfg: Config, w: WindowSpec, day: int, t: int)
    requires w.Valid() && cfg.Start(w, day) <= t < cfg.End(w, day)
    ensures cfg.DayOf(t) == day
  {
    DayIs(cfg, t, day);
  }

  /** A key press completes exactly the occurrence whose window it falls into, unless that was missed. */
  lemma PressDecides(cfg: Config, st: State, compartment: string, at: int, reminder: string, o: Occurrence)
    requires cfg.Valid()
    ensures var pressed := o.day == cfg.DayOf(at) && cfg.Find(o.window).Some?
        && WindowAt(cfg, cfg.schedule, compartment, at) == cfg.Find(o.window);
      var next := Press(cfg, st, compartment, at, reminder);
      var completes := pressed && !Is(st, o, Missed) && !Is(st, o, Completed);
      && (Is(next, o, Completed) <==> Is(st, o, Completed) || completes)
      && (completes ==> next.windows[o].closedAt == Some(at))
      && Count(next.log, Record(o, Completed)) == Count(st.log, Record(o, Completed)) + (if completes then 1 else 0)
      && Count(next.log, CancelMissTask(o)) == Count(st.log, CancelMissTask(o)) + (if completes then 1 else 0)
      && (!completes ==> SameOn(next, st, o))
  {
    hide WindowAt, Config.Find, Config.DayOf, Config.Start, Config.End, Config.Valid, Count;
    var w := WindowAt(cfg, cfg.schedule, compartment, at);
    if w.Some? {
      FindUnique(cfg, w.value);
      var next := Press(cfg, st, compartment, at, reminder);
      var p := Occurrence(w.value.id, cfg.DayOf(at));
      forall e: Effect | e.o == o && o != p
        ensures Count(next.log, e) == Count(st.log, e)
      {
        CountMore(st.log, [Record(p, Completed), CancelMissTask(p)], e);
      }
      CompletionCounts(st.log, p);
    }
  }

  lemma CancelCounts(log: seq<Effect>, o: Occurrence)
    ensures var next := log + [CancelMissTask(o)];
      && Count(next, CancelMissTask(o)) == Count(log, CancelMissTask(o)) + 1
      && Count(next, Record(o, Missed)) == Count(log, Record(o, Missed))
      && Count(next, MissedNotification(o)) == Count(log, MissedNotification(o))
  {
  }

  lemma CompletionCounts(log: seq<Effect>, o: Occurrence)
    ensures var next := log + [Record(o, Completed), CancelMissTask(o)];
      && Count(next, Record(o, Completed)) == Count(log, Record(o, Completed)) + 1
      && Count(next, CancelMissTask(o)) == Count(log, CancelMissTask(o)) + 1
  {
    assert log + [Record(o, Completed), CancelMissTask(o)] == log + [Record(o, Completed)] + [CancelMissTask(o)];
  }

  /** Once its deadline job ran in time, an occurrence is closed: completed if it was, missed otherwise. */
  lemma DeadlineDecides(cfg: Config, st: State, o: Occurrence, now: int, key: string, w: WindowSpec)
    requires cfg.Find(o.window) == Some(w) && !(key != "" && key in st.jobs)
    ensures var next := Deadline(cfg, st, o, now, key);
      var misses := cfg.End(w, o.day) <= now && !Is(st, o, Completed) && !Is(st, o, Missed);
      && (Is(next, o, Missed) <==> Is(st, o, Missed) || misses)
      && (Is(next, o, Completed) <==> Is(st, o, Completed))
      && Count(next.log, MissedNotification(o)) == Count(st.log, MissedNotification(o)) + (if misses then 1 else 0)
      && Count(next.log, Record(o, Missed)) == Count(st.log, Record(o, Missed)) + (if misses then 1 else 0)
      && Count(next.log, CancelMissTask(o)) ==
           Count(st.log, CancelMissTask(o)) + (if cfg.End(w, o.day) <= now && !Is(st, o, Missed) then 1 else 0)
  {
    hide Config.Find, Config.Start, Config.End, Count, MissEffects;
    CountMore(st.log, MissEffects(o), Record(o, Missed));
    CountMore(st.log, MissEffects(o), MissedNotification(o));
    CountMore(st.log, MissEffects(o), CancelMissTask(o));
    MissCounts(o);
    CancelCounts(st.log, o);
  }

  // ---------------------------------------------------------------- the service

  datatype Answer = Ok(missed: seq<string>) | Unavailable | InvalidArgument | Undelivered

  datatype Event = KeyPress(entity: string, occurredAt: Option<int>) | Other

  /** Nothing was sent that was not decided on. */
  ghost predicate Logged(sent: multiset<Effect>, log: seq<Effect>) { sent <= multiset(log) }

  class Instance {
    var config: Option<Config>
    var reminderEntities: seq<string>
    var compartmentKeys: seq<string>
    var windows: map<Occurrence, Track>
    var jobs: map<string, seq<string>>
    var lastSequence: nat
    var closed: bool
    var sent: multiset<Effect>
    ghost var clock: int
    ghost var log: seq<Effect>

    ghost function View(): State
      reads this
    {
      State(windows, jobs, clock, log)
    }

    /** What was sent was decided on, and what was decided on is safe. */
    ghost predicate Valid()
      reads this
    {
      && (config.Some? ==> config.value.Valid() && Inv(config.value, View()))
      && (config.None? ==> windows == map[] && log == [])
      && Logged(sent, log)
    }

    constructor (ghost clock: int)
      ensures Valid() && config.None? && sent == multiset{} && lastSequence == 0 && !closed && this.clock == clock
    {
      config, reminderEntities, compartmentKeys, windows, jobs := None, [], [], map[], map[];
      lastSequence, closed, sent := 0, false, multiset{};
      this.clock, log := clock, [];
    }

    function ReminderEntity(): string
      reads this
    {
      if reminderEntities == [] then "" else reminderEntities[0]
    }

    /** The configuration is set once; changing it is outside of what is proved here. */
    method Configure(cfg: Config)
      requires Valid() && cfg.Valid() && config.None?
      modifies this
      ensures Valid() && config == Some(cfg) && windows == old(windows) && sent == old(sent) && lastSequence == old(lastSequence)
    {
      StartedSafe(cfg, clock);
      assert forall o :: Safe(cfg, View(), o) by {
        EmptySafe(cfg, View());
      }
      config := Some(cfg);
    }

    method Bind(reminders: seq<string>, compartments: seq<string>)
      requires Valid()
      modifies this`reminderEntities, this`compartmentKeys
      ensures Valid() && reminderEntities == reminders && compartmentKeys == compartments
    {
      reminderEntities, compartmentKeys := reminders, compartments;
    }

    /** Send effects one after the other; without a stream they are dropped, and an error ends it. */
    method Flush(effects: seq<Effect>) returns (ok: bool, ghost done: nat)
      modifies this`sent
      // Only a prefix is attempted, and all of it on success.
      ensures done <= |effects| && (ok <==> done == |effects|) && (closed ==> done == 0)
      ensures old(sent) <= sent <= old(sent) + multiset(effects[..done])
    {
      ok, done := true, 0;
      var i := 0;
      while i < |effects|
        invariant 0 <= i <= |effects|
        invariant done == i && ok && (closed ==> i == 0)
        invariant old(sent) <= sent <= old(sent) + multiset(effects[..i])
      {
        assert effects[..i + 1] == effects[..i] + [effects[i]];
        var streaming: bool, failed: bool := *, *;
        if closed || (streaming && failed) {
          return false, i;
        }
        if streaming {
          sent := sent + multiset{effects[i]};
        }
        i, done := i + 1, done + 1;
      }
    }

    /** Send what was just decided on. */
    method Deliver(effects: seq<Effect>, ghost before: seq<Effect>) returns (ok: bool)
      requires Logged(sent, before) && log == before + effects
      modifies this`sent
      ensures old(sent) <= sent && Logged(sent, log)
    {
      assert multiset(log) == multiset(before) + multiset(effects);
      ghost var done;
      ok, done := Flush(effects);
      assert effects == effects[..done] + effects[done..];
    }

    /** The compartment a key is bound to, by position. */
    method KeyToCompartment(entity: string) returns (r: string)
      ensures r == if config.None? then "" else CompartmentOf(compartmentKeys, config.value.compartments, entity)
    {
      if config.None? {
        return "";
      }
      var keys, compartments := compartmentKeys, config.value.compartments;
      var i := 0;
      while i < |keys| && i < |compartments|
        invariant 0 <= i <= |keys| && i <= |compartments|
        invariant CompartmentOf(keys, compartments, entity) == CompartmentOf(keys[i..], compartments[i..], entity)
      {
        if keys[i] == entity {
          return compartments[i];
        }
        assert keys[i..][1..] == keys[i + 1..] && compartments[i..][1..] == compartments[i + 1..];
        i := i + 1;
      }
      r := "";
    }

    /** One event of the stream: what was seen before is ignored. */
    method HandleEvent(sequence: nat, event: Event, now: int) returns (handled: bool, ok: bool)
      requires Valid()
      modifies this
      ensures Valid() && config == old(config)
      ensures handled <==> sequence == 0 || sequence > old(lastSequence)
      ensures lastSequence == if handled && sequence != 0 then sequence else old(lastSequence)
      ensures View() == if handled && event.KeyPress? && config.Some?
        then PressKey(config.value, old(View()), compartmentKeys, event.entity, event.occurredAt.GetOr(now), ReminderEntity())
        else old(View())
      ensures View() == old(View()) ==> sent == old(sent) && ok
      ensures compartmentKeys == old(compartmentKeys) && reminderEntities == old(reminderEntities)
    {
      handled, ok := true, true;
      if sequence != 0 {
        if sequence <= lastSequence {
          return false, true;
        }
        lastSequence := sequence;
      }
      assert Valid() by {
        assert View() == old(View());
      }
      if event.KeyPress? {
        ok := OnKeyEvent(event.entity, event.occurredAt, now);
      }
    }

    /** A key press confirms the compartment's occurrence at the time of the event. */
    method OnKeyEvent(entity: string, occurredAt: Option<int>, now: int) returns (ok: bool)
      requires Valid()
      modifies this
      ensures Valid() && config == old(config) && lastSequence == old(lastSequence)
      ensures compartmentKeys == old(compartmentKeys) && reminderEntities == old(reminderEntities)
      ensures View() == if config.None? then old(View())
        else PressKey(config.value, old(View()), compartmentKeys, entity, occurredAt.GetOr(now), ReminderEntity())
      ensures old(sent) <= sent && (View() == old(View()) ==> sent == old(sent) && ok)
    {
      hide Logged, Inv, Config.Valid, WindowAt, Press, CompartmentOf, Config.Start, Config.End, Config.DayOf;
      var compartment := KeyToCompartment(entity);
      if compartment == "" {
        return true;
      }
      var cfg, at := config.value, occurredAt.GetOr(now);
      PressKept(cfg, View(), compartment, at, ReminderEntity());
      var w := WindowAt(cfg, cfg.schedule, compartment, at);
      if w.None? {
        return true;
      }
      var o := Occurrence(w.value.id, cfg.DayOf(at));
      if o in windows && windows[o].phase != Opened {
        return true;
      }
      var t := if o in windows then windows[o]
        else Track(cfg.Start(w.value, o.day), cfg.End(w.value, o.day), Opened, None, None, ReminderEntity(), false);
      var effects := Confirm(o, t, at);
      ok := Deliver(effects, old(log));
    }

    /** Turn a tracked occurrence into a tombstone. */
    method Confirm(o: Occurrence, t: Track, at: int) returns (effects: seq<Effect>)
      modifies this`windows, this`log
      ensures effects == [Record(o, Completed), CancelMissTask(o)] && log == old(log) + effects
      ensures View() == old(View()).(windows := old(windows)[o := t.(phase := Completed, closedAt := Some(at))], log := log)
    {
      windows := windows[o := t.(phase := Completed, closedAt := Some(at))];
      effects := [Record(o, Completed), CancelMissTask(o)];
      log := log + effects;
    }

    /** Forget what is not worth keeping. */
    method PruneWindows(cfg: Config, now: int)
      modifies this`windows
      ensures windows == Prune(cfg, old(View()), now).windows
    {
      var left := windows.Keys;
      while left != {}
        invariant left <= windows.Keys <= old(windows).Keys
        invariant forall o <- windows :: windows[o] == old(windows)[o]
        invariant forall o <- old(windows) :: o in windows <==> o in left || Keeps(cfg, old(windows)[o], now)
      {
        var o :| o in left;
        if !Keeps(cfg, windows[o], now) {
          windows := windows - {o};
        }
        left := left - {o};
      }
    }

    /** Look at one configured window. */
    method VisitWindow(cfg: Config, w: WindowSpec, now: int) returns (missed: bool, effects: seq<Effect>)
      requires clock == now
      modifies this`windows, this`log
      ensures View() == Visit(cfg, ReminderEntity(), old(View()), w, now)
      ensures log == old(log) + effects && missed == VisitMisses(cfg, old(View()), w, now)
      // It is missed exactly when it is overdue, and then set missed, recorded, cancelled and announced.
      ensures var o := Occurrence(w.id, cfg.DayOf(now));
        && (w.Valid() ==> (missed <==> Overdue(cfg, old(View()), o, w, now)))
        && (missed ==>
              && o in old(windows)
              && windows == old(windows)[o := old(windows)[o].(phase := Missed, closedAt := Some(now))]
              && effects == [Record(o, Missed), CancelMissTask(o), MissedNotification(o)])
    {
      missed, effects := false, [];
      assert log == log + [];
      var o := Occurrence(w.id, cfg.DayOf(now));
      var start, end := cfg.Start(w, o.day), cfg.End(w, o.day);
      if end <= start || now < start {
        return;
      }
      if now < end {
        if o in windows {
          return;
        }
        var reminder := ReminderEntity();
        effects := [Record(o, Opened)];
        windows := windows[o := Track(start, end, Opened, Some(now), None, reminder, false)];
        if now <= start + FRESH_OPEN_GRACE {
          if reminder != "" {
            effects := effects + [Reminder(o)];
          }
          windows := windows[o := windows[o].(missTask := true)];
          effects := effects + [MissTask(o)];
        }
        log := log + effects;
        return;
      }
      if o !in windows || windows[o].phase != Opened || windows[o].missTask {
        return;
      }
      windows := windows[o := windows[o].(phase := Missed, closedAt := Some(now))];
      missed := true;
      effects := MissEffects(o);
      log := log + effects;
    }

    /** The minute job. */
    method RunWindowCheck(now: int, key: string) returns (r: Answer)
      requires Valid() && clock <= now
      modifies this
      ensures Valid() && config == old(config) && lastSequence == old(lastSequence)
      ensures closed ==> r == Unavailable
      ensures !closed && config.None? ==> r == Ok([])
      ensures closed || config.None? ==> View() == old(View()) && sent == old(sent)
      ensures !closed && config.Some? ==> View() == Check(config.value, ReminderEntity(), old(View()), now, key)
      // A repeated key is answered as before, and nothing is decided or sent.
      ensures !closed && config.Some? && key != "" && key in old(jobs) ==> r == Ok(old(jobs)[key]) && sent == old(sent)
      ensures !closed && config.Some? && !(key != "" && key in old(jobs)) ==>
        var cfg := config.value;
        r == Undelivered || r == Ok(Text.Sorted(MissedBy(cfg, ReminderEntity(), Prune(cfg, old(View()), now), cfg.schedule, now)))
      // What is answered are exactly the windows newly missed, in order.
      ensures !closed && config.Some? && !(key != "" && key in old(jobs)) && r.Ok? ==>
        NamesTheMissed(config.value, old(View()), now, r.missed) && Text.Ascending(r.missed)
    {
      hide Logged, Inv, Config.Valid, Visit, Prune, VisitMisses, Check, VisitAll, MissedBy, Answered, NamesTheMissed, Text.Ascending;
      if closed {
        return Unavailable;
      }
      if config.None? {
        return Ok([]);
      }
      var cfg := config.value;
      CheckKept(cfg, View(), now, key, ReminderEntity());
      AnswersTheMissed(cfg, ReminderEntity(), View(), now);
      clock := now;
      if key != "" && key in jobs {
        return Ok(jobs[key]);
      }
      PruneView(cfg, old(View()), now);
      PruneWindows(cfg, now);
      ghost var pruned := View();
      assert pruned == Prune(cfg, old(View()), now);
      var missed, effects := VisitWindows(cfg, now);
      r := Finish(key, Text.Sorted(missed), effects, old(log));
    }

    /** Look at every configured window in turn. */
    method VisitWindows(cfg: Config, now: int) returns (missed: seq<string>, effects: seq<Effect>)
      requires clock == now
      modifies this`windows, this`log
      ensures View() == VisitAll(cfg, ReminderEntity(), old(View()), cfg.schedule, now)
      ensures missed == MissedBy(cfg, ReminderEntity(), old(View()), cfg.schedule, now) && log == old(log) + effects
    {
      hide Visit, VisitMisses, VisitAll, MissedBy;
      missed, effects := [], [];
      assert log == log + [];
      VisitAllStart(cfg, ReminderEntity(), View(), now);
      var i := 0;
      while i < |cfg.schedule|
        invariant 0 <= i <= |cfg.schedule| && log == old(log) + effects
        invariant View() == VisitAll(cfg, ReminderEntity(), old(View()), cfg.schedule[..i], now)
        invariant missed == MissedBy(cfg, ReminderEntity(), old(View()), cfg.schedule[..i], now)
      {
        VisitAllStep(cfg, ReminderEntity(), old(View()), cfg.schedule, i, now);
        var found, more := VisitWindow(cfg, cfg.schedule[i], now);
        assert log == old(log) + (effects + more);
        effects := effects + more;
        if found {
          missed := missed + [cfg.schedule[i].id];
        }
        i := i + 1;
      }
      assert cfg.schedule[..i] == cfg.schedule;
    }

    /** The deadline job of the occurrence in `args`, dispatched under the identity `job`. */
    method RunWindowMiss(job: Occurrence, args: Occurrence, now: int, key: string) returns (r: Answer)
      requires Valid() && clock <= now
      modifies this
      ensures Valid() && config == old(config) && lastSequence == old(lastSequence)
      ensures args.window == "" ==> r == InvalidArgument
      ensures args.window != "" && closed ==> r == Unavailable
      ensures args.window != "" && !closed && config.None? ==> r == Ok([])
      ensures args.window == "" || closed || config.None? ==> View() == old(View()) && sent == old(sent)
      ensures args.window != "" && !closed && config.Some? ==>
        var replay := key != "" && key in old(jobs);
        if !replay && (config.value.Find(args.window).None? || job != args) then
          r == InvalidArgument && View() == old(View()).(clock := now)
        else
          && View() == Deadline(config.value, old(View()), args, now, key)
          && (replay ==> r == Ok(old(jobs)[key]) && sent == old(sent))
          && (!replay ==>
                if now < config.value.End(config.value.Find(args.window).value, args.day) then r == Ok([])
                else r == Undelivered
                     || r == Ok(if Is(old(View()), args, Completed) || Is(old(View()), args, Missed) then [] else [args.window]))
    {
      hide Logged, Inv, Config.Valid, Config.Find, Deadline, Answered, Concluded, Config.Start, Config.End;
      if args.window == "" {
        return InvalidArgument;
      }
      if closed {
        return Unavailable;
      }
      if config.None? {
        return Ok([]);
      }
      var cfg := config.value;
      DeadlineKept(cfg, View(), args, now, key);
      clock := now;
      if key != "" && key in jobs {
        return Ok(jobs[key]);
      }
      var w := FindWindow(cfg, args.window);
      if w.None? || job != args {
        return InvalidArgument;
      }
      if now < cfg.End(w.value, args.day) {
        return Ok([]);
      }
      ConcludedClock(cfg, old(View()), w.value, args, now);
      var missed, effects := Conclude(cfg, w.value, args, now);
      r := Finish(key, missed, effects, old(log));
    }

    /** Remember the answer of a job under its key, then send what it decided on. */
    method Finish(key: string, missed: seq<string>, effects: seq<Effect>, ghost before: seq<Effect>) returns (r: Answer)
      requires config.Some? && config.value.Valid() && Inv(config.value, Answered(View(), key, missed))
      requires Logged(sent, before) && log == before + effects
      modifies this`jobs, this`sent
      ensures Valid() && View() == Answered(old(View()), key, missed) && (r == Ok(missed) || r == Undelivered)
    {
      hide Logged, Inv, Config.Valid;
      if key != "" {
        jobs := jobs[key := missed];
      }
      assert View() == Answered(old(View()), key, missed);
      var ok := Deliver(effects, before);
      r := if ok then Ok(missed) else Undelivered;
    }

    /** The deadline has passed: unless the occurrence is closed, it is missed. */
    method Conclude(cfg: Config, w: WindowSpec, o: Occurrence, now: int) returns (missed: seq<string>, effects: seq<Effect>)
      requires clock == now && cfg.End(w, o.day) <= now
      modifies this`windows, this`log
      ensures View() == Concluded(cfg, old(View()), w, o, now) && log == old(log) + effects
      ensures missed == if Is(old(View()), o, Completed) || Is(old(View()), o, Missed) then [] else [o.window]
    {
      hide Config.Start, Config.End;
      missed, effects := [], [];
      assert log == log + [];
      if o in windows && windows[o].phase == Completed {
        effects := [CancelMissTask(o)];
      } else if o !in windows || windows[o].phase != Missed {
        windows := windows[o :=
          if o in windows then windows[o].(phase := Missed, closedAt := Some(now))
          else Track(cfg.Start(w, o.day), cfg.End(w, o.day), Missed, None, Some(now), "", false)];
        missed := [o.window];
        effects := MissEffects(o);
      }
      log := log + effects;
    }

    method FindWindow(cfg: Config, id: string) returns (r: Option<WindowSpec>)
      ensures r == cfg.Find(id)
    {
      r := None;
      var i := 0;
      while i < |cfg.schedule|
        invariant 0 <= i <= |cfg.schedule|
        invariant FindIn(cfg.schedule, id) == FindIn(cfg.schedule[i..], id)
      {
        if cfg.schedule[i].id == id {
          return Some(cfg.schedule[i]);
        }
        assert cfg.schedule[i..][1..] == cfg.schedule[i + 1..];
        i := i + 1;
      }
    }

    method Shutdown()
      requires Valid()
      modifies this`closed
      ensures Valid() && closed
    {
      closed := true;
    }
  }

  lemma PressKept(cfg: Config, st: State, compartment: string, at: int, reminder: string)
    requires cfg.Valid() && Inv(cfg, st)
    ensures var next := Press(cfg, st, compartment, at, reminder);
      var w := WindowAt(cfg, cfg.schedule, compartment, at);
      && Inv(cfg, next)
      && (w.None? ==> next == st)
      && (w.Some? ==>
            var o := Occurrence(w.value.id, cfg.DayOf(at));
            next == if o in st.windows && st.windows[o].phase != Opened then st
              else
                var t := if o in st.windows then st.windows[o]
                  else Track(cfg.Start(w.value, o.day), cfg.End(w.value, o.day), Opened, None, None, reminder, false);
                st.(windows := st.windows[o := t.(phase := Completed, closedAt := Some(at))],
                    log := st.log + [Record(o, Completed), CancelMissTask(o)]))
  {
    hide Inv, Config.Valid, WindowAt, Config.Start, Config.End, Config.DayOf;
    ActionKeeps(cfg, st, Pressed(compartment, at, reminder));
  }

  lemma PruneView(cfg: Config, st: State, now: int)
    ensures Prune(cfg, st, now) == st.(clock := now, windows := Prune(cfg, st, now).windows)
    ensures Prune(cfg, st.(clock := now), now) == Prune(cfg, st, now)
  {
  }

  lemma CheckKept(cfg: Config, st: State, now: int, key: string, reminder: string)
    requires cfg.Valid() && Inv(cfg, st) && st.clock <= now
    ensures Inv(cfg, Check(cfg, reminder, st, now, key))
    ensures key != "" && key in st.jobs ==> Check(cfg, reminder, st, now, key) == st.(clock := now)
    ensures !(key != "" && key in st.jobs) ==>
      var pruned := Prune(cfg, st, now);
      var missed := Text.Sorted(MissedBy(cfg, reminder, pruned, cfg.schedule, now));
      var visited := VisitAll(cfg, reminder, pruned, cfg.schedule, now);
      Check(cfg, reminder, st, now, key) == Answered(visited, key, missed)
  {
    hide Inv, Prune, VisitAll, MissedBy, Config.Valid;
    ActionKeeps(cfg, st, Tick(now, key, reminder));
  }

  lemma VisitAllStart(cfg: Config, reminder: string, st: State, now: int)
    ensures VisitAll(cfg, reminder, st, [], now) == st && MissedBy(cfg, reminder, st, [], now) == []
  {
  }

  lemma VisitAllStep(cfg: Config, reminder: string, st: State, schedule: seq<WindowSpec>, i: nat, now: int)
    requires i < |schedule|
    ensures var before := VisitAll(cfg, reminder, st, schedule[..i], now);
      && VisitAll(cfg, reminder, st, schedule[..i + 1], now) == Visit(cfg, reminder, before, schedule[i], now)
      && MissedBy(cfg, reminder, st, schedule[..i + 1], now) ==
           (if VisitMisses(cfg, before, schedule[i], now) then MissedBy(cfg, reminder, st, schedule[..i], now) + [schedule[i].id]
            else MissedBy(cfg, reminder, st, schedule[..i], now))
  {
    hide Visit, VisitMisses;
    assert schedule[..i + 1][..i] == schedule[..i];
  }

  /** The state after a deadline that has passed. */
  function Concluded(cfg: Config, st: State, w: WindowSpec, o: Occurrence, now: int): State {
    if Is(st, o, Completed) then st.(clock := now, log := st.log + [CancelMissTask(o)])
    else if Is(st, o, Missed) then st.(clock := now)
    else if o in st.windows then Close(st.(clock := now), o, now)
    else
      st.(clock := now,
          windows := st.windows[o := Track(cfg.Start(w, o.day), cfg.End(w, o.day), Missed, None, Some(now), "", false)],
          log := st.log + MissEffects(o))
  }

  lemma DeadlineKept(cfg: Config, st: State, o: Occurrence, now: int, key: string)
    requires cfg.Valid() && Inv(cfg, st) && st.clock <= now
    ensures Inv(cfg, Deadline(cfg, st, o, now, key)) && Inv(cfg, st.(clock := now))
    ensures var w := cfg.Find(o.window);
      Deadline(cfg, st, o, now, key) ==
        if (key != "" && key in st.jobs) || w.None? || now < cfg.End(w.value, o.day) then st.(clock := now)
        else Answered(Concluded(cfg, st, w.value, o, now), key,
                      if Is(st, o, Completed) || Is(st, o, Missed) then [] else [o.window])
  {
    hide Inv, Config.Find, Config.Valid, Answered, Config.Start, Config.End;
    ActionKeeps(cfg, st, Due(o, now, key));
    ClockAlone(cfg, st, now);
  }

  lemma ConcludedClock(cfg: Config, st: State, w: WindowSpec, o: Occurrence, now: int)
    ensures Concluded(cfg, st.(clock := now), w, o, now) == Concluded(cfg, st, w, o, now)
  {
  }

  lemma ClockAlone(cfg: Config, st: State, now: int)
    requires Inv(cfg, st) && st.clock <= now
    ensures Inv(cfg, st.(clock := now))
  {
    forall o
      ensures Safe(cfg, st.(clock := now), o)
    {
      assert Safe(cfg, st, o);
      ClockKeeps(cfg, st, now, o);
    }
  }

  lemma EmptySafe(cfg: Config, st: State)
    requires st.windows == map[] && st.log == []
    ensures Inv(cfg, st)
  {
    hide Config.DayOf, Config.Start, Config.End;
  }
}
