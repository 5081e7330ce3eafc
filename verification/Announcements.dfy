/** The effects of the scheduled-compartment application as the core executes them: under which keys, and so
    which of them reach the executor. */
module Announcements {
  import ScheduledCompartment
  import EffectRouting
  import Text
  import Execution

  type Effect = ScheduledCompartment.Effect
  type Occurrence = ScheduledCompartment.Occurrence
  type Config = ScheduledCompartment.Config

  /** Texts whose contents do not matter here, except that dates are told apart and contain no '@'. */
  datatype Texts = Texts(
    date: int -> string, data: Effect -> string, deadline: Occurrence -> string, job: Occurrence -> string,
    reminderEntity: string, reminderAction: string, reminderArgs: string, cron: string)
  {
    ghost predicate Valid() {
      (forall day :: '@' !in date(day)) && (forall a, b :: date(a) == date(b) ==> a == b)
    }
  }

  /** The texts that can be announced. */
  function Bodies(cfg: Config): set<string> {
    {""} + set w <- cfg.schedule :: ScheduledCompartment.MissedText(w)
  }

  /** What one instance sends is turned into effects and keys by these; the digest tells apart the texts that
      can be announced. */
  datatype Setting = Setting(cfg: Config, texts: Texts, digests: EffectRouting.Digests, source: EffectRouting.Source) {
    function Digest(body: string): string { digests.notification(TITLE, body, SEVERITY) }

    ghost predicate Valid() {
      && texts.Valid() && digests.Valid()
      && (forall a, b :: a in Bodies(cfg) && b in Bodies(cfg) && Digest(a) == Digest(b) ==> a == b)
    }
  }

  const TITLE := "Scheduled window missed"
  const SEVERITY := "warning"
  const MISS_PREFIX := "window-miss-"

  function OccurrenceId(texts: Texts, o: Occurrence): string { o.window + "@" + texts.date(o.day) }

  /** The body of an announcement; the day is not part of it. */
  function Body(cfg: Config, o: Occurrence): (body: string)
    ensures body in Bodies(cfg)
  {
    var w := cfg.Find(o.window);
    if w.None? then "" else ScheduledCompartment.MissedText(w.value)
  }

  function WishOf(s: Setting, e: Effect): (wish: EffectRouting.Wish)
    ensures !wish.Unknown?
  {
    var id := OccurrenceId(s.texts, e.o);
    match e
    case Record(_, _) => EffectRouting.Upsert("window", id, s.texts.data(e), "1")
    case Reminder(o) =>
      EffectRouting.Request(s.texts.reminderEntity, s.texts.reminderAction, s.texts.reminderArgs, "reminder-" + id,
                            s.texts.deadline(o))
    case MissTask(o) => EffectRouting.Schedule(MISS_PREFIX + id, s.texts.cron, s.texts.job(o))
    case CancelMissTask(_) => EffectRouting.CancelSchedule(MISS_PREFIX + id)
    case MissedNotification(o) => EffectRouting.Notify(TITLE, Body(s.cfg, o), SEVERITY)
  }

  function Key(s: Setting, e: Effect): Execution.Key {
    EffectRouting.KeyOf(s.digests, EffectRouting.PayloadFor(s.source, WishOf(s, e)))
  }

  /** How the key of such an effect starts; the occurrence follows. */
  function Before(e: Effect): string {
    if e.Reminder? then "command:reminder-" else if e.MissTask? then "schedule:window-miss-" else "cancel-schedule:window-miss-"
  }

  lemma KeyIs(s: Setting, e: Effect)
    requires e.Reminder? || e.MissTask? || e.CancelMissTask?
    ensures Key(s, e) == Before(e) + OccurrenceId(s.texts, e.o)
  {
    hide OccurrenceId;
    match e
    case Reminder(o) =>
      var id := OccurrenceId(s.texts, o);
      assert "command:" + ("reminder-" + id) == "command:reminder-" + id;
    case MissTask(o) =>
      var id := OccurrenceId(s.texts, o);
      assert "schedule:" + (MISS_PREFIX + id) == "schedule:window-miss-" + id;
    case CancelMissTask(o) =>
      var id := OccurrenceId(s.texts, o);
      assert "cancel-schedule:" + (MISS_PREFIX + id) == "cancel-schedule:window-miss-" + id;
  }

  /** Reminders, tasks and their cancellations are told apart by occurrence. */
  lemma KeysNameTheDay(s: Setting, a: Effect, b: Effect)
    requires s.Valid()
    requires (a.Reminder? && b.Reminder?) || (a.MissTask? && b.MissTask?) || (a.CancelMissTask? && b.CancelMissTask?)
    ensures Key(s, a) == Key(s, b) <==> a == b
  {
    hide Key, OccurrenceId;
    KeyIs(s, a);
    KeyIs(s, b);
    if Key(s, a) == Key(s, b) {
      SameRest(Before(a), OccurrenceId(s.texts, a.o), OccurrenceId(s.texts, b.o));
      SameOccurrence(s.texts, a.o, b.o);
    }
  }

  lemma SameRest(before: string, x: string, y: string)
    requires before + x == before + y
    ensures x == y
  {
    assert (before + x)[|before|..] == x && (before + y)[|before|..] == y;
  }

  lemma SameOccurrence(texts: Texts, a: Occurrence, b: Occurrence)
    requires texts.Valid() && OccurrenceId(texts, a) == OccurrenceId(texts, b)
    ensures a == b
  {
    LastAtSplits(a.window, texts.date(a.day), b.window, texts.date(b.day));
  }

  /** A text is cut at its last '@' in one way only. */
  lemma LastAtSplits(v: string, d: string, w: string, e: string)
    requires '@' !in d && '@' !in e && v + "@" + d == w + "@" + e
    ensures v == w && d == e
  {
    var x, y := v + "@" + d, w + "@" + e;
    assert forall k :: |v| < k < |x| ==> x[k] == d[k - |v| - 1];
    assert forall k :: |w| < k < |y| ==> y[k] == e[k - |w| - 1];
    assert x[|v|] == '@' && y[|w|] == '@';
    assert x[..|v|] == v && x[|v| + 1..] == d && y[..|w|] == w && y[|w| + 1..] == e;
  }

  /** The key of an announcement is that of exactly the announcements with the same text. */
  lemma AnnouncementKeys(s: Setting, a: Effect, b: Effect)
    requires s.Valid() && a.MissedNotification?
    ensures Key(s, a) == Key(s, b) <==> b.MissedNotification? && Body(s.cfg, a.o) == Body(s.cfg, b.o)
  {
    hide OccurrenceId, Body;
    if !b.MissedNotification? {
      assert Key(s, a)[0] == 'n';
      assert Key(s, b)[0] != 'n';
    } else if Key(s, a) == Key(s, b) {
      SameRest("notification:", s.digests.notification(TITLE, Body(s.cfg, a.o), SEVERITY),
               s.digests.notification(TITLE, Body(s.cfg, b.o), SEVERITY));
    }
  }

  /** In whatever state concurrent calls left the executor, an announcement is a duplicate exactly if one with
      the same text was executed or is in flight. */
  lemma DuplicateIffSameText(s: Setting, st: Execution.State, known: set<Effect>, a: Effect)
    requires s.Valid() && a.MissedNotification?
    requires forall key :: Execution.IsDuplicate(st, key) <==> exists e <- known :: Key(s, e) == key
    ensures Execution.IsDuplicate(st, Key(s, a)) <==>
      exists e <- known :: e.MissedNotification? && Body(s.cfg, e.o) == Body(s.cfg, a.o)
  {
    hide Key, Body, Execution.IsDuplicate;
    forall e | e in known
      ensures Key(s, e) == Key(s, a) <==> e.MissedNotification? && Body(s.cfg, e.o) == Body(s.cfg, a.o)
    {
      AnnouncementKeys(s, a, e);
    }
  }

  // ---------------------------------------------------------------- such settings exist

  /** A day as a decimal number. */
  function DayText(day: int): string { if day < 0 then "-" + Text.Decimal(-day) else Text.Decimal(day) }

  lemma DayTextsDiffer(a: int, b: int)
    ensures '@' !in DayText(a) && (DayText(a) == DayText(b) ==> a == b)
  {
    hide Text.Decimal, Text.DigitsValue;
    var m: nat, n: nat := if a < 0 then -a else a, if b < 0 then -b else b;
    Text.DecimalValue(m);
    Text.DecimalValue(n);
    assert forall c <- Text.Decimal(m) :: Text.IsDigit(c);
    assert Text.Decimal(m)[0] in Text.Decimal(m) && Text.Decimal(n)[0] in Text.Decimal(n);
    if DayText(a) == DayText(b) {
      assert DayText(a)[0] == '-' <==> a < 0;
      assert DayText(b)[0] == '-' <==> b < 0;
      if a < 0 {
        assert DayText(a)[1..] == Text.Decimal(m) && DayText(b)[1..] == Text.Decimal(n);
      }
    }
  }

  /** A digest of 64 characters that spells out a number up to 64. */
  function Spelled(n: nat, length: nat): (r: string)
    ensures |r| == length
  {
    if length == 0 then "" else if n == 0 then ['0'] + Spelled(0, length - 1) else ['1'] + Spelled(n - 1, length - 1)
  }

  lemma {:induction false} SpelledDiffer(m: nat, n: nat, length: nat)
    requires m <= length && n <= length && Spelled(m, length) == Spelled(n, length)
    ensures m == n
  {
    if length > 0 {
      assert Spelled(m, length)[0] == Spelled(n, length)[0];
      if m > 0 && n > 0 {
        assert Spelled(m, length)[1..] == Spelled(m - 1, length - 1) && Spelled(n, length)[1..] == Spelled(n - 1, length - 1);
        SpelledDiffer(m - 1, n - 1, length - 1);
      }
    }
  }

  /** Where a text is announced first in the schedule, counted from one; zero for a text that is not. */
  function Position(schedule: seq<ScheduledCompartment.WindowSpec>, body: string): (r: nat)
    ensures r <= |schedule|
    ensures r > 0 ==> ScheduledCompartment.MissedText(schedule[r - 1]) == body
    ensures r == 0 ==> forall w <- schedule :: ScheduledCompartment.MissedText(w) != body
  {
    if schedule == [] then 0
    else
      var n := |schedule| - 1;
      var before := Position(schedule[..n], body);
      assert schedule == schedule[..n] + [schedule[n]];
      if before > 0 then before else if ScheduledCompartment.MissedText(schedule[n]) == body then n + 1 else 0
  }

  function UnaryDigest(schedule: seq<ScheduledCompartment.WindowSpec>, body: string): (r: string)
    ensures |r| == 64
  {
    Spelled(Position(schedule, body), 64)
  }

  lemma UnaryDigestsDiffer(cfg: Config, a: string, b: string)
    requires |cfg.schedule| <= 64 && a in Bodies(cfg) && b in Bodies(cfg)
    requires UnaryDigest(cfg.schedule, a) == UnaryDigest(cfg.schedule, b)
    ensures a == b
  {
    hide Position, Spelled, ScheduledCompartment.MissedText;
    SpelledDiffer(Position(cfg.schedule, a), Position(cfg.schedule, b), 64);
    if Position(cfg.schedule, a) == 0 {
      NotAnnounced(cfg, a);
      NotAnnounced(cfg, b);
    }
  }

  /** Every application with up to 64 windows has a valid setting, with digests of the lengths of the real
      ones. */
  lemma SettingExists(cfg: Config, source: EffectRouting.Source) returns (s: Setting)
    requires |cfg.schedule| <= 64
    ensures s.cfg == cfg && s.source == source && s.Valid()
  {
    hide UnaryDigest, Spelled, DayText, Bodies;
    var texts := Texts(DayText, e => "", o => "", o => "", "", "", "", "");
    var digests := EffectRouting.Digests(data => Spelled(0, 16), (title, body, severity) => UnaryDigest(cfg.schedule, body));
    s := Setting(cfg, texts, digests, source);
    forall a, b
      ensures '@' !in DayText(a) && (DayText(a) == DayText(b) ==> a == b)
    {
      DayTextsDiffer(a, b);
    }
    assert texts.Valid() && digests.Valid();
    forall a, b | a in Bodies(cfg) && b in Bodies(cfg) && s.Digest(a) == s.Digest(b)
      ensures a == b
    {
      UnaryDigestsDiffer(cfg, a, b);
    }
  }

  lemma NotAnnounced(cfg: Config, body: string)
    requires body in Bodies(cfg) && Position(cfg.schedule, body) == 0
    ensures body == ""
  {
    hide ScheduledCompartment.MissedText, Position;
  }

  // ---------------------------------------------------------------- execution in order

  /** One call of the executor for a key, with its outcome if it takes place. */
  function Attempt(st: Execution.State, key: Execution.Key, ok: bool): Execution.State {
    var claimed := Execution.Claim(key).Apply(st);
    if Execution.IsDuplicate(st, key) then claimed else Execution.Settle(key, ok).Apply(claimed)
  }

  /** Effects are executed in the order in which they were sent. */
  function Executed(s: Setting, log: seq<Effect>, oks: seq<bool>): Execution.State
    requires |log| == |oks|
  {
    if log == [] then Execution.FRESH
    else
      var n := |log| - 1;
      Attempt(Executed(s, log[..n], oks[..n]), Key(s, log[n]), oks[n])
  }

  /** It is a run of the executor's own steps. */
  lemma {:induction false} ExecutedIsARun(s: Setting, log: seq<Effect>, oks: seq<bool>) returns (steps: seq<Execution.Step>)
    requires |log| == |oks|
    ensures Execution.Legal(Execution.FRESH, steps) && Execution.Run(Execution.FRESH, steps) == Executed(s, log, oks)
  {
    hide Key, Execution.Run, Execution.Legal;
    if log == [] {
      steps := [];
      Execution.LeadsNowhere(Execution.FRESH);
      Execution.LeadsSays(Execution.FRESH, [], Execution.FRESH);
    } else {
      var n := |log| - 1;
      var before := Executed(s, log[..n], oks[..n]);
      var key := Key(s, log[n]);
      steps := ExecutedIsARun(s, log[..n], oks[..n]);
      Execution.RunOneMore(Execution.FRESH, steps, Execution.Claim(key));
      steps := steps + [Execution.Claim(key)];
      if !Execution.IsDuplicate(before, key) {
        Execution.RunOneMore(Execution.FRESH, steps, Execution.Settle(key, oks[n]));
        steps := steps + [Execution.Settle(key, oks[n])];
      }
    }
  }

  lemma AttemptKnows(st: Execution.State, key: Execution.Key, ok: bool, k: Execution.Key)
    requires st.inFlight == {}
    ensures var next := Attempt(st, key, ok);
      && next.inFlight == {}
      && (Execution.IsDuplicate(next, k) <==> Execution.IsDuplicate(st, k) || (k == key && ok))
  {
  }

  lemma ExecutedMore(s: Setting, log: seq<Effect>, oks: seq<bool>)
    requires |log| == |oks| && log != []
    ensures var n := |log| - 1;
      Executed(s, log, oks) == Attempt(Executed(s, log[..n], oks[..n]), Key(s, log[n]), oks[n])
  {
    hide Attempt, Key;
  }

  /** The effect with number `j` went under this key, and well. */
  predicate DoneAt(s: Setting, log: seq<Effect>, oks: seq<bool>, key: Execution.Key, j: int)
    requires |log| == |oks|
  {
    0 <= j < |log| && Key(s, log[j]) == key && oks[j]
  }

  /** A key is known exactly if an earlier effect under it was executed well. */
  lemma {:induction false} KnownIff(s: Setting, log: seq<Effect>, oks: seq<bool>, key: Execution.Key)
    requires |log| == |oks|
    ensures Executed(s, log, oks).inFlight == {}
    ensures Execution.IsDuplicate(Executed(s, log, oks), key) <==> exists j :: DoneAt(s, log, oks, key, j)
  {
    if log != [] {
      hide Key, Attempt, Executed, Execution.IsDuplicate;
      var n := |log| - 1;
      ExecutedMore(s, log, oks);
      KnownIff(s, log[..n], oks[..n], key);
      AttemptKnows(Executed(s, log[..n], oks[..n]), Key(s, log[n]), oks[n], key);
      forall j
        ensures DoneAt(s, log, oks, key, j) <==> DoneAt(s, log[..n], oks[..n], key, j) || (j == n && DoneAt(s, log, oks, key, n))
      {
      }
      assert DoneAt(s, log, oks, key, n) <==> Key(s, log[n]) == key && oks[n];
      hide DoneAt;
    }
  }

  /** An announcement with the same text was executed well. */
  predicate AnnouncedAt(s: Setting, log: seq<Effect>, oks: seq<bool>, i: nat, j: int)
    requires |log| == |oks| && i < |log|
  {
    0 <= j < i && log[j].MissedNotification? && Body(s.cfg, log[j].o) == Body(s.cfg, log[i].o) && oks[j]
  }

  /** Over every sequence of effects: an announcement reaches the executor exactly if no announcement with
      the same text, for whatever day, was executed well before. */
  lemma AnnouncedUnlessSameText(s: Setting, log: seq<Effect>, oks: seq<bool>, i: nat)
    requires s.Valid() && |log| == |oks| && i < |log| && log[i].MissedNotification?
    ensures Execution.IsDuplicate(Executed(s, log[..i], oks[..i]), Key(s, log[i])) <==>
      exists j :: AnnouncedAt(s, log, oks, i, j)
  {
    hide Key, Body, Executed, Execution.IsDuplicate;
    KnownIff(s, log[..i], oks[..i], Key(s, log[i]));
    forall j
      ensures DoneAt(s, log[..i], oks[..i], Key(s, log[i]), j) <==> AnnouncedAt(s, log, oks, i, j)
    {
      if 0 <= j < i {
        AnnouncementKeys(s, log[i], log[j]);
      }
    }
    hide DoneAt, AnnouncedAt;
  }

  /** Other effects are not affected: no reminder or task is ever held back by that of another occurrence. */
  lemma RemindersAndTasksAreTheirOwn(s: Setting, log: seq<Effect>, oks: seq<bool>, i: nat)
    requires s.Valid() && |log| == |oks| && i < |log| && (log[i].Reminder? || log[i].MissTask? || log[i].CancelMissTask?)
    ensures Execution.IsDuplicate(Executed(s, log[..i], oks[..i]), Key(s, log[i])) <==> exists j :: RepeatedAt(log, oks, i, j)
  {
    hide Key, Executed, Execution.IsDuplicate;
    KnownIff(s, log[..i], oks[..i], Key(s, log[i]));
    forall j
      ensures DoneAt(s, log[..i], oks[..i], Key(s, log[i]), j) <==> RepeatedAt(log, oks, i, j)
    {
      if 0 <= j < i {
        OtherKinds(s, log[i], log[j]);
      }
    }
    hide DoneAt, RepeatedAt;
  }

  /** The same effect, for the same occurrence, was executed well. */
  predicate RepeatedAt(log: seq<Effect>, oks: seq<bool>, i: nat, j: int)
    requires |log| == |oks| && i < |log|
  {
    0 <= j < i && log[j] == log[i] && oks[j]
  }

  lemma OtherKinds(s: Setting, a: Effect, b: Effect)
    requires s.Valid() && (a.Reminder? || a.MissTask? || a.CancelMissTask?)
    ensures Key(s, a) == Key(s, b) <==> a == b
  {
    if (a.Reminder? && b.Reminder?) || (a.MissTask? && b.MissTask?) || (a.CancelMissTask? && b.CancelMissTask?) {
      KeysNameTheDay(s, a, b);
    } else {
      hide OccurrenceId, Body;
      assert Key(s, a)[0] == if a.MissTask? then 's' else 'c';
      assert (Key(s, a)[0] == 'c' ==> Key(s, a)[1] == if a.Reminder? then 'o' else 'a');
      if b.Reminder? {
        assert Key(s, b)[..2] == "co";
      } else if b.CancelMissTask? {
        assert Key(s, b)[..2] == "ca";
      }
    }
  }

  /** A complete run over two days: the window is missed on both, both misses are announced, and once the
      first announcement was executed well the second is taken for a duplicate. */
  lemma LaterMissesGoUnannounced(s: Setting, w: ScheduledCompartment.WindowSpec, first: int, second: int, oks: seq<bool>)
    requires s.Valid() && s.cfg.Valid() && w in s.cfg.schedule && first < second && |oks| == 6
    ensures var a, b := ScheduledCompartment.Occurrence(w.id, first), ScheduledCompartment.Occurrence(w.id, second);
      var start := ScheduledCompartment.Started(s.cfg.End(w, first));
      var actions := [ScheduledCompartment.Due(a, s.cfg.End(w, first), ""), ScheduledCompartment.Due(b, s.cfg.End(w, second), "")];
      && ScheduledCompartment.Legal(s.cfg, start, actions)
      && var log := ScheduledCompartment.Run(s.cfg, start, actions).log;
      && |log| == 6 && log[2] == ScheduledCompartment.MissedNotification(a) && log[5] == ScheduledCompartment.MissedNotification(b)
      && !Execution.IsDuplicate(Executed(s, log[..2], oks[..2]), Key(s, log[2]))
      && (Execution.IsDuplicate(Executed(s, log[..5], oks[..5]), Key(s, log[5])) <==> oks[2])
  {
    var a, b := ScheduledCompartment.Occurrence(w.id, first), ScheduledCompartment.Occurrence(w.id, second);
    var log := TwoMisses(s.cfg, w, first, second);
    hide Key, Executed, ScheduledCompartment.Run, ScheduledCompartment.Legal, ScheduledCompartment.Config.Find;
    assert log[0].Record? && log[1].CancelMissTask? && log[2] == ScheduledCompartment.MissedNotification(a);
    assert log[3].Record? && log[4].CancelMissTask? && log[5] == ScheduledCompartment.MissedNotification(b);
    hide ScheduledCompartment.MissEffects;
    SecondIsDuplicate(s, log, oks);
  }

  lemma SecondIsDuplicate(s: Setting, log: seq<Effect>, oks: seq<bool>)
    requires s.Valid() && |log| == |oks| == 6
    requires log[0].Record? && log[1].CancelMissTask? && log[2].MissedNotification? && log[3].Record? && log[4].CancelMissTask?
    requires log[5].MissedNotification? && log[2].o.window == log[5].o.window
    ensures !Execution.IsDuplicate(Executed(s, log[..2], oks[..2]), Key(s, log[2]))
    ensures Execution.IsDuplicate(Executed(s, log[..5], oks[..5]), Key(s, log[5])) <==> oks[2]
  {
    assert Body(s.cfg, log[2].o) == Body(s.cfg, log[5].o);
    hide Key, Executed, Execution.IsDuplicate, Body;
    AnnouncedUnlessSameText(s, log, oks, 2);
    AnnouncedUnlessSameText(s, log, oks, 5);
    assert forall j :: AnnouncedAt(s, log, oks, 2, j) ==> j == 0 || j == 1;
    assert forall j :: AnnouncedAt(s, log, oks, 5, j) ==> j == 0 || j == 1 || j == 2 || j == 3 || j == 4;
    assert AnnouncedAt(s, log, oks, 5, 2) <==> oks[2];
  }

  lemma TwoMisses(cfg: Config, w: ScheduledCompartment.WindowSpec, first: int, second: int) returns (log: seq<Effect>)
    requires cfg.Valid() && w in cfg.schedule && first < second
    ensures var a, b := ScheduledCompartment.Occurrence(w.id, first), ScheduledCompartment.Occurrence(w.id, second);
      var start := ScheduledCompartment.Started(cfg.End(w, first));
      var actions := [ScheduledCompartment.Due(a, cfg.End(w, first), ""), ScheduledCompartment.Due(b, cfg.End(w, second), "")];
      && ScheduledCompartment.Legal(cfg, start, actions)
      && log == ScheduledCompartment.Run(cfg, start, actions).log
      && log == ScheduledCompartment.MissEffects(a) + ScheduledCompartment.MissEffects(b)
  {
    var a, b := ScheduledCompartment.Occurrence(w.id, first), ScheduledCompartment.Occurrence(w.id, second);
    var start := ScheduledCompartment.Started(cfg.End(w, first));
    log := ScheduledCompartment.MissEffects(a) + ScheduledCompartment.MissEffects(b);
    ScheduledCompartment.FindUnique(cfg, w);
    var one, two := ScheduledCompartment.Due(a, cfg.End(w, first), ""), ScheduledCompartment.Due(b, cfg.End(w, second), "");
    hide ScheduledCompartment.Config.Find;
    var st := one.Apply(cfg, start);
    var end := two.Apply(cfg, st);
    assert st.log == [] + ScheduledCompartment.MissEffects(a) && end.log == st.log + ScheduledCompartment.MissEffects(b);
    assert [one, two][1..] == [two];
    assert ScheduledCompartment.Legal(cfg, end, []) && ScheduledCompartment.Run(cfg, end, []) == end;
    assert ScheduledCompartment.Legal(cfg, st, [two]) && ScheduledCompartment.Run(cfg, st, [two]) == end;
  }
}
