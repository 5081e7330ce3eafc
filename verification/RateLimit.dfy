/** A sliding-window limiter per key, bounded in how many keys it remembers.  Times are nanoseconds. */
module RateLimit {
  const SECOND: int := 1_000_000_000
  const DEFAULT_WINDOW: int := 60 * SECOND
  const DEFAULT_MAX_KEYS: nat := 10000

  datatype Config = Config(per: nat, window: int, maxKeys: nat) {
    predicate Valid() { per >= 1 && window > 0 && maxKeys >= 1 }
  }

  type Hits = map<string, seq<int>>

  // ---------------------------------------------------------------- one call

  predicate Recent(cfg: Config, t: int, now: int) { now - t < cfg.window }

  function Kept(cfg: Config, hits: seq<int>, now: int): seq<int> {
    if hits == [] then []
    else
      var n := |hits| - 1;
      Kept(cfg, hits[..n], now) + if Recent(cfg, hits[n], now) then [hits[n]] else []
  }

  function Pruned(cfg: Config, hits: Hits, now: int): Hits {
    map k <- hits | exists t <- hits[k] :: Recent(cfg, t, now) :: hits[k]
  }

  /** The key to give up, looking at the keys in some order; the empty string stands for none so far. */
  function Victim(hits: Hits, key: string, order: seq<string>): string {
    if order == [] then ""
    else
      var k := order[|order| - 1];
      var before := Victim(hits, key, order[..|order| - 1]);
      if k == key || k !in hits || hits[k] == [] then before
      else if before == "" || before !in hits || hits[before] == [] || hits[k][0] < hits[before][0] then k
      else before
  }

  function Evicted(cfg: Config, hits: Hits, key: string, order: seq<string>): Hits {
    if |hits| < cfg.maxKeys || Victim(hits, key, order) == "" then hits else hits - {Victim(hits, key, order)}
  }

  /** Denied with the time to wait, or granted. */
  datatype Verdict = Granted | Denied(retry: int)

  function At(hits: Hits, key: string): seq<int> { if key in hits then hits[key] else [] }

  function Allow(cfg: Config, hits: Hits, key: string, now: int, order: seq<string>): (Hits, Verdict)
    requires cfg.Valid()
  {
    var pruned := Pruned(cfg, hits, now);
    var kept := Kept(cfg, At(pruned, key), now);
    if |kept| >= cfg.per then
      var retry := kept[0] + cfg.window - now;
      (pruned[key := kept], Denied(if retry < SECOND then SECOND else retry))
    else
      ((if key in pruned then pruned else Evicted(cfg, pruned, key, order))[key := kept + [now]], Granted)
  }

  // ---------------------------------------------------------------- what is stored

  ghost predicate Sorted(s: seq<int>) { forall i, j :: 0 <= i < j < |s| ==> s[i] <= s[j] }

  /** Stored hits are sorted, not in the future, at least one and at most `per`. */
  ghost predicate Stored(cfg: Config, hits: seq<int>, clock: int) {
    1 <= |hits| <= cfg.per && Sorted(hits) && hits[|hits| - 1] <= clock
  }

  ghost predicate Inv(cfg: Config, hits: Hits, clock: int) {
    forall k <- hits :: Stored(cfg, hits[k], clock)
  }

  /** Of sorted hits the recent ones are kept, which are the last ones. */
  lemma {:induction false} KeptIsSuffix(cfg: Config, hits: seq<int>, now: int)
    requires Sorted(hits)
    ensures var kept := Kept(cfg, hits, now);
      && |kept| <= |hits| && kept == hits[|hits| - |kept|..]
      && (forall i :: 0 <= i < |hits| - |kept| ==> hits[i] + cfg.window <= now)
      && (forall i :: |hits| - |kept| <= i < |hits| ==> hits[i] + cfg.window > now)
  {
    if hits != [] {
      var n := |hits| - 1;
      KeptIsSuffix(cfg, hits[..n], now);
    }
  }

  lemma KeptStored(cfg: Config, hits: seq<int>, clock: int, now: int)
    requires cfg.Valid() && clock <= now && (hits == [] || Stored(cfg, hits, clock))
    ensures var kept := Kept(cfg, hits, now);
      && Sorted(kept) && |kept| <= cfg.per
      && (kept != [] ==> Stored(cfg, kept, now))
      && (|kept| < cfg.per ==> Stored(cfg, kept + [now], now))
  {
    KeptIsSuffix(cfg, hits, now);
  }

  /** Every call keeps what is stored sorted and small. */
  lemma AllowKeeps(cfg: Config, hits: Hits, clock: int, key: string, now: int, order: seq<string>)
    requires cfg.Valid() && Inv(cfg, hits, clock) && clock <= now
    ensures Inv(cfg, Allow(cfg, hits, key, now, order).0, now)
  {
    hide Kept, Victim;
    var pruned := Pruned(cfg, hits, now);
    KeptStored(cfg, At(pruned, key), clock, now);
  }

  // ---------------------------------------------------------------- the number of keys

  lemma {:induction false} VictimFound(hits: Hits, key: string, order: seq<string>)
    requires forall k <- hits :: hits[k] != []
    ensures var v := Victim(hits, key, order); v != "" ==> v in hits && v != key && v in order
    ensures "" !in order && (exists k <- order :: k in hits && k != key) ==> Victim(hits, key, order) != ""
  {
    if order != [] {
      var n := |order| - 1;
      assert order == order[..n] + [order[n]];
      VictimFound(hits, key, order[..n]);
    }
  }

  ghost predicate Enumerates(order: seq<string>, hits: Hits) {
    forall k :: k in hits <==> k in order
  }

  /** As long as the empty key is not used, the number of keys never exceeds the maximum. */
  lemma KeysBounded(cfg: Config, hits: Hits, clock: int, key: string, now: int, order: seq<string>)
    requires cfg.Valid() && Inv(cfg, hits, clock) && clock <= now && |hits| <= cfg.maxKeys
    requires "" !in hits && Enumerates(order, Pruned(cfg, hits, now))
    ensures |Allow(cfg, hits, key, now, order).0| <= cfg.maxKeys
    ensures key != "" ==> "" !in Allow(cfg, hits, key, now, order).0
  {
    hide Kept, Victim, Pruned, Evicted;
    var pruned := Pruned(cfg, hits, now);
    var kept := Kept(cfg, At(pruned, key), now);
    PrunedSmaller(cfg, hits, now);
    PrunedNonEmpty(cfg, hits, clock, now);
    if key in pruned || |kept| >= cfg.per {
      DenialKnown(cfg, pruned, key, now);
      SetKnown(pruned, key, if |kept| >= cfg.per then kept else kept + [now]);
    } else {
      EvictedSize(cfg, pruned, key, order, kept + [now]);
      EvictedLess(cfg, pruned, key, order);
    }
  }

  lemma PrunedNonEmpty(cfg: Config, hits: Hits, clock: int, now: int)
    requires Inv(cfg, hits, clock)
    ensures "" !in hits ==> "" !in Pruned(cfg, hits, now)
    ensures forall k <- Pruned(cfg, hits, now) :: Pruned(cfg, hits, now)[k] != []
  {
  }

  /** Only a key with stored hits can be denied. */
  lemma DenialKnown(cfg: Config, hits: Hits, key: string, now: int)
    requires cfg.Valid()
    ensures |Kept(cfg, At(hits, key), now)| >= cfg.per ==> key in hits
  {
  }

  lemma SetKnown(hits: Hits, key: string, s: seq<int>)
    requires key in hits
    ensures |hits[key := s]| == |hits|
  {
    assert hits[key := s].Keys == hits.Keys;
  }

  lemma EvictedSize(cfg: Config, hits: Hits, key: string, order: seq<string>, s: seq<int>)
    requires cfg.Valid() && key !in hits && |hits| <= cfg.maxKeys && (forall k <- hits :: hits[k] != [])
    requires "" !in hits && Enumerates(order, hits)
    ensures |Evicted(cfg, hits, key, order)[key := s]| <= cfg.maxKeys
  {
    hide Victim;
    var rest := Evicted(cfg, hits, key, order);
    assert rest[key := s].Keys == rest.Keys + {key};
    if |hits| >= cfg.maxKeys {
      VictimFound(hits, key, order);
      var k :| k in hits;
      assert k in order && k != key;
      var v := Victim(hits, key, order);
      assert rest.Keys == hits.Keys - {v};
    }
  }

  lemma PrunedSmaller(cfg: Config, hits: Hits, now: int)
    ensures |Pruned(cfg, hits, now)| <= |hits| && Pruned(cfg, hits, now).Keys <= hits.Keys
  {
    SubsetSize(Pruned(cfg, hits, now).Keys, hits.Keys);
  }

  lemma {:induction false} SubsetSize(a: set<string>, b: set<string>)
    requires a <= b
    ensures |a| <= |b|
  {
    if a != {} {
      var x :| x in a;
      SubsetSize(a - {x}, b - {x});
    }
  }

  /** With the empty key in use eviction can fail: exactly when its first hit is older than everybody
      else's, some order of looking at the keys ends with giving up nobody. */
  lemma EmptyKeyEscapes(hits: Hits, key: string)
    requires (forall k <- hits :: hits[k] != []) && key !in hits && hits != map[]
    ensures (exists order :: Enumerates(order, hits) && NoRepeat(order) && Victim(hits, key, order) == "") <==>
      "" in hits && forall k <- hits :: k != "" ==> hits[""][0] < hits[k][0]
  {
    hide Victim;
    if "" in hits && forall k <- hits :: k != "" ==> hits[""][0] < hits[k][0] {
      var others := Listing(hits.Keys - {""});
      var order := others + [""];
      EmptyLast(hits, key, others);
      assert NoRepeat(order);
      assert Enumerates(order, hits);
    }
    if exists order :: Enumerates(order, hits) && NoRepeat(order) && Victim(hits, key, order) == "" {
      var order :| Enumerates(order, hits) && NoRepeat(order) && Victim(hits, key, order) == "";
      EmptyWasLast(hits, key, order);
    }
  }

  /** Exactly when a call takes the number of keys beyond its bound: at capacity, for a key that is not
      remembered, while the empty key is in use and its first hit is older than everybody else's.  It is
      then up to the order in which the keys are looked at. */
  lemma BoundBroken(cfg: Config, hits: Hits, clock: int, key: string, now: int)
    requires cfg.Valid() && Inv(cfg, hits, clock) && |hits| <= cfg.maxKeys
    ensures var pruned := Pruned(cfg, hits, now);
      (exists order :: Enumerates(order, pruned) && NoRepeat(order) && |Allow(cfg, hits, key, now, order).0| > cfg.maxKeys)
      <==>
      && key !in pruned && |pruned| == cfg.maxKeys
      && "" in pruned && forall k <- pruned :: k != "" ==> pruned[""][0] < pruned[k][0]
  {
    hide Kept, Victim, Pruned, NoRepeat, Allow, Inv, Enumerates;
    var pruned := Pruned(cfg, hits, now);
    PrunedSmaller(cfg, hits, now);
    PrunedNonEmpty(cfg, hits, clock, now);
    forall order | Enumerates(order, pruned) && NoRepeat(order)
      ensures |Allow(cfg, hits, key, now, order).0| > cfg.maxKeys <==>
        key !in pruned && |pruned| == cfg.maxKeys && Victim(pruned, key, order) == ""
    {
      SizeAfter(cfg, hits, key, now, order);
    }
    if key !in pruned && |pruned| == cfg.maxKeys {
      EmptyKeyEscapes(pruned, key);
    }
  }

  lemma SizeAfter(cfg: Config, hits: Hits, key: string, now: int, order: seq<string>)
    requires cfg.Valid() && |Pruned(cfg, hits, now)| <= cfg.maxKeys
    requires forall k <- Pruned(cfg, hits, now) :: Pruned(cfg, hits, now)[k] != []
    ensures var pruned := Pruned(cfg, hits, now);
      |Allow(cfg, hits, key, now, order).0| > cfg.maxKeys <==>
        key !in pruned && |pruned| == cfg.maxKeys && Victim(pruned, key, order) == ""
  {
    hide Kept, Victim, Pruned;
    var pruned := Pruned(cfg, hits, now);
    DenialKnown(cfg, pruned, key, now);
    var s := Kept(cfg, At(pruned, key), now) + [now];
    if key in pruned {
      SetKnown(pruned, key, Kept(cfg, At(pruned, key), now));
      SetKnown(pruned, key, s);
    } else {
      var rest := Evicted(cfg, pruned, key, order);
      assert rest[key := s].Keys == rest.Keys + {key} && key !in rest;
      var v := Victim(pruned, key, order);
      VictimFound(pruned, key, order);
      if |pruned| >= cfg.maxKeys && v != "" {
        assert rest.Keys == pruned.Keys - {v};
      }
    }
  }

  ghost predicate NoRepeat(order: seq<string>) { forall i, j :: 0 <= i < j < |order| ==> order[i] != order[j] }

  ghost function Listing(keys: set<string>): (r: seq<string>)
    ensures NoRepeat(r) && forall k :: k in r <==> k in keys
  {
    if keys == {} then []
    else
      var k :| k in keys;
      Listing(keys - {k}) + [k]
  }

  lemma EmptyLast(hits: Hits, key: string, others: seq<string>)
    requires (forall k <- hits :: hits[k] != []) && key !in hits && "" in hits && "" !in others
    requires forall k <- hits :: k != "" ==> hits[""][0] < hits[k][0]
    ensures Victim(hits, key, others + [""]) == ""
  {
    assert (others + [""])[..|others|] == others;
    VictimFound(hits, key, others);
  }

  /** Giving up nobody means that the empty key came last and was the oldest. */
  lemma EmptyWasLast(hits: Hits, key: string, order: seq<string>)
    requires (forall k <- hits :: hits[k] != []) && key !in hits && hits != map[]
    requires Enumerates(order, hits) && NoRepeat(order) && Victim(hits, key, order) == ""
    ensures "" in hits && forall k <- hits :: k != "" ==> hits[""][0] < hits[k][0]
  {
    var n := |order| - 1;
    var some :| some in hits;
    assert some in order;
    assert order == order[..n] + [order[n]] && order[n] in hits;
    assert order[n] == "" by {
      VictimFound(hits, key, order[..n]);
    }
    assert "" !in order[..n];
    VictimFound(hits, key, order[..n]);
    VictimOldest(hits, key, order[..n]);
    forall k | k in hits && k != ""
      ensures hits[""][0] < hits[k][0]
    {
      assert k in order;
      assert k in order[..n];
    }
  }

  /** Without the empty key the victim is the oldest of all. */
  lemma {:induction false} VictimOldest(hits: Hits, key: string, order: seq<string>)
    requires (forall k <- hits :: hits[k] != []) && "" !in order
    ensures var v := Victim(hits, key, order);
      forall k <- order :: k in hits && k != key ==> v in hits && hits[v][0] <= hits[k][0]
  {
    if order != [] {
      var n := |order| - 1;
      assert order == order[..n] + [order[n]];
      VictimOldest(hits, key, order[..n]);
      VictimFound(hits, key, order[..n]);
    }
  }

  // ---------------------------------------------------------------- who is given up, and who is granted

  /** The keys that were hit within the window. */
  function Recents(cfg: Config, hits: Hits, now: int): set<string> {
    set k <- hits | exists t <- hits[k] :: now - t < cfg.window
  }

  lemma {:induction false} VictimIsOldest(hits: Hits, key: string, order: seq<string>)
    requires "" !in order && forall k <- hits :: hits[k] != []
    ensures var v := Victim(hits, key, order);
      v != "" ==> v in hits && v != key && forall k <- order :: k in hits && k != key ==> hits[v][0] <= hits[k][0]
  {
    if order != [] {
      var n := |order| - 1;
      assert order == order[..n] + [order[n]];
      VictimIsOldest(hits, key, order[..n]);
      VictimFound(hits, key, order[..n]);
    }
  }

  /** `v` was hit first, as far as is remembered. */
  ghost predicate Oldest(hits: Hits, keys: set<string>, v: string) {
    v in keys && v in hits && hits[v] != [] && forall k <- keys :: k in hits && hits[k] != [] ==> hits[v][0] <= hits[k][0]
  }

  /** What is remembered after a call: the keys of `keys` with their hits, apart from the key of the call. */
  ghost predicate KeepsOnly(next: Hits, hits: Hits, keys: set<string>, key: string) {
    next.Keys == keys + {key} && forall k <- keys :: k != key ==> k in hits && k in next && next[k] == hits[k]
  }

  /** Nobody hit within the window is given up as long as there is room or the key is remembered already;
      otherwise exactly one is, and that is one hit first of all. */
  lemma OnlyTheOldestIsGivenUp(cfg: Config, hits: Hits, clock: int, key: string, now: int, order: seq<string>)
    requires cfg.Valid() && Inv(cfg, hits, clock) && clock <= now && "" !in hits && Enumerates(order, Pruned(cfg, hits, now))
    ensures var next, recents := Allow(cfg, hits, key, now, order).0, Recents(cfg, hits, now);
      if key in recents || |recents| < cfg.maxKeys then KeepsOnly(next, hits, recents, key)
      else exists v :: Oldest(hits, recents, v) && KeepsOnly(next, hits, recents - {v}, key)
  {
    hide Kept, Victim, Evicted, Pruned, Recents;
    var pruned, recents := Pruned(cfg, hits, now), Recents(cfg, hits, now);
    PrunedAre(cfg, hits, now);
    PrunedNonEmpty(cfg, hits, clock, now);
    DenialKnown(cfg, pruned, key, now);
    if key !in recents {
      EvictsTheOldest(cfg, pruned, key, order);
      if |recents| >= cfg.maxKeys {
        assert forall v :: Oldest(pruned, pruned.Keys, v) ==> Oldest(hits, recents, v);
      }
    }
  }

  lemma PrunedAre(cfg: Config, hits: Hits, now: int)
    ensures var pruned := Pruned(cfg, hits, now);
      pruned.Keys == Recents(cfg, hits, now) && |pruned| == |pruned.Keys| && forall k <- pruned :: k in hits && pruned[k] == hits[k]
  {
  }

  lemma EvictsTheOldest(cfg: Config, hits: Hits, key: string, order: seq<string>)
    requires cfg.Valid() && key !in hits && "" !in hits && Enumerates(order, hits) && forall k <- hits :: hits[k] != []
    ensures var rest := Evicted(cfg, hits, key, order);
      if |hits| < cfg.maxKeys then rest == hits
      else exists v :: Oldest(hits, hits.Keys, v) && rest == hits - {v}
  {
    hide Victim;
    if |hits| >= cfg.maxKeys {
      var v := Victim(hits, key, order);
      VictimFound(hits, key, order);
      VictimIsOldest(hits, key, order);
      var other :| other in hits;
      assert other in order;
      assert Oldest(hits, hits.Keys, v);
    }
  }

  /** A key is granted exactly if the `per`-th last of its hits is out of the window, or there was none, and
      else is told to wait until it is, but a second at least. */
  lemma GrantedIff(cfg: Config, hits: Hits, clock: int, key: string, now: int, order: seq<string>)
    requires cfg.Valid() && Inv(cfg, hits, clock) && clock <= now
    ensures var mine, verdict := At(hits, key), Allow(cfg, hits, key, now, order).1;
      && (verdict == Granted <==> |mine| < cfg.per || mine[0] + cfg.window <= now)
      && (verdict.Denied? ==>
            verdict.retry == if mine[0] + cfg.window - now < SECOND then SECOND else mine[0] + cfg.window - now)
  {
    hide Kept, Victim, Evicted;
    var mine := At(hits, key);
    KeptIsSuffix(cfg, mine, now);
    KeptIsSuffix(cfg, [], now);
    if mine != [] {
      assert mine[0] in mine && mine[|mine| - 1] in mine;
      assert Stored(cfg, mine, clock);
    }
  }

  // ---------------------------------------------------------------- how much is granted

  /** One key over time: every grant it ever got. */
  ghost predicate Spaced(cfg: Config, grants: seq<int>) {
    Sorted(grants) && forall i :: 0 <= i && i + cfg.per < |grants| ==> grants[i] + cfg.window <= grants[i + cfg.per]
  }

  /** What is stored are the last grants, and everything before is out of the window. */
  ghost predicate Remembers(cfg: Config, grants: seq<int>, stored: seq<int>, clock: int) {
    && |stored| <= |grants| && stored == grants[|grants| - |stored|..]
    && (forall i :: 0 <= i < |grants| - |stored| ==> grants[i] + cfg.window <= clock)
    && (forall i :: 0 <= i < |grants| ==> grants[i] <= clock)
  }

  function CountIn(grants: seq<int>, from: int, window: int): nat {
    if grants == [] then 0
    else
      var n := |grants| - 1;
      CountIn(grants[..n], from, window) + if from <= grants[n] < from + window then 1 else 0
  }

  /** A call by the key itself. */
  lemma GrantSpaced(cfg: Config, grants: seq<int>, stored: seq<int>, clock: int, now: int)
    requires cfg.Valid() && clock <= now && Sorted(stored) && Spaced(cfg, grants) && Remembers(cfg, grants, stored, clock)
    ensures var kept := Kept(cfg, stored, now);
      && Remembers(cfg, grants, kept, now)
      && (|kept| < cfg.per ==> Spaced(cfg, grants + [now]) && Remembers(cfg, grants + [now], kept + [now], now))
  {
    hide Kept;
    KeptRemembers(cfg, grants, stored, clock, now);
    var kept := Kept(cfg, stored, now);
    if |kept| < cfg.per {
      var more := grants + [now];
      forall i | 0 <= i && i + cfg.per < |more|
        ensures more[i] + cfg.window <= more[i + cfg.per]
      {
        if i + cfg.per == |grants| {
          assert i < |grants| - |kept|;
        }
      }
    }
  }

  lemma KeptRemembers(cfg: Config, grants: seq<int>, stored: seq<int>, clock: int, now: int)
    requires clock <= now && Sorted(stored) && Remembers(cfg, grants, stored, clock)
    ensures Remembers(cfg, grants, Kept(cfg, stored, now), now)
  {
    KeptIsSuffix(cfg, stored, now);
    hide Kept;
    var kept := Kept(cfg, stored, now);
    forall i | 0 <= i < |grants| - |kept|
      ensures grants[i] + cfg.window <= now
    {
      var d := |grants| - |stored|;
      if i >= d {
        assert stored[i - d] == grants[i];
      }
    }
  }

  /** Spaced grants: at most `per` of them in any half-open interval of the window's length. */
  lemma {:induction false} WindowBound(cfg: Config, grants: seq<int>, from: int)
    requires cfg.Valid() && Spaced(cfg, grants)
    ensures CountIn(grants, from, cfg.window) <= cfg.per
  {
    if grants != [] {
      var n := |grants| - 1;
      WindowBound(cfg, grants[..n], from);
      if from <= grants[n] < from + cfg.window {
        var d := if n + 1 <= cfg.per then 0 else n + 1 - cfg.per;
        if d > 0 {
          assert grants[d - 1] + cfg.window <= grants[n];
          NoneBefore(grants, from, cfg.window, d);
        }
        CountSplit(grants, from, cfg.window, d);
      }
    }
  }

  lemma {:induction false} NoneBefore(grants: seq<int>, from: int, window: int, d: nat)
    requires Sorted(grants) && 0 < d <= |grants| && grants[d - 1] < from
    ensures CountIn(grants[..d], from, window) == 0
  {
    if d > 1 {
      assert grants[..d][..d - 1] == grants[..d - 1];
      assert grants[d - 2] <= grants[d - 1];
      NoneBefore(grants, from, window, d - 1);
    } else {
      assert grants[..1][..0] == [];
    }
  }

  lemma {:induction false} CountSplit(grants: seq<int>, from: int, window: int, d: nat)
    requires d <= |grants|
    ensures CountIn(grants, from, window) <= CountIn(grants[..d], from, window) + |grants| - d
    decreases |grants|
  {
    if d < |grants| {
      var n := |grants| - 1;
      assert grants[..n][..d] == grants[..d];
      CountSplit(grants[..n], from, window, d);
    } else {
      assert grants[..d] == grants;
    }
  }

  // ---------------------------------------------------------------- the limiter

  /** What is stored is sorted and small, and knows enough of every key's grants. */
  ghost predicate Accounted(cfg: Config, hits: Hits, granted: map<string, seq<int>>, clock: int) {
    && Inv(cfg, hits, clock)
    && (forall k <- granted :: Spaced(cfg, granted[k]) && Remembers(cfg, granted[k], At(hits, k), clock))
    && (forall k <- hits :: k in granted)
  }

  class RateLimiter {
    const cfg: Config
    var hits: Hits
    ghost var clock: int
    ghost var granted: map<string, seq<int>>   // every grant of a key since it was last evicted

    ghost predicate Valid()
      reads this
    {
      cfg.Valid() && Accounted(cfg, hits, granted, clock)
    }

    constructor (per: int, maxKeys: int, ghost clock: int)
      ensures Valid() && hits == map[] && granted == map[] && this.clock == clock
      ensures cfg == Config(if per <= 0 then 1 else per, DEFAULT_WINDOW, if maxKeys > 0 then maxKeys else DEFAULT_MAX_KEYS)
    {
      cfg := Config(if per <= 0 then 1 else per, DEFAULT_WINDOW, if maxKeys > 0 then maxKeys else DEFAULT_MAX_KEYS);
      hits, granted, this.clock := map[], map[], clock;
    }

    /** Drop the keys without a recent hit. */
    method Prune(now: int)
      modifies this`hits
      ensures hits == Pruned(cfg, old(hits), now)
    {
      var left := hits.Keys;
      while left != {}
        invariant left <= hits.Keys <= old(hits).Keys
        invariant forall k <- hits :: hits[k] == old(hits)[k]
        invariant forall k <- old(hits) :: k in hits <==> k in left || exists t <- old(hits)[k] :: Recent(cfg, t, now)
      {
        var k :| k in left;
        var recent, i := false, 0;
        while i < |hits[k]| && !recent
          invariant 0 <= i <= |hits[k]| && (recent <==> exists t <- hits[k][..i] :: Recent(cfg, t, now))
        {
          assert hits[k][..i + 1] == hits[k][..i] + [hits[k][i]];
          recent := Recent(cfg, hits[k][i], now);
          i := i + 1;
        }
        assert !recent ==> hits[k][..i] == hits[k];
        if !recent {
          hits := hits - {k};
        }
        left := left - {k};
      }
    }

    /** The recent hits of a sequence. */
    method Filter(window: seq<int>, now: int) returns (kept: seq<int>)
      ensures kept == Kept(cfg, window, now)
    {
      kept := [];
      var i := 0;
      while i < |window|
        invariant 0 <= i <= |window| && kept == Kept(cfg, window[..i], now)
      {
        assert window[..i + 1][..i] == window[..i];
        if Recent(cfg, window[i], now) {
          kept := kept + [window[i]];
        }
        i := i + 1;
      }
      assert window[..i] == window;
    }

    /** Make room for a new key. */
    method EvictIfNeeded(key: string) returns (ghost order: seq<string>)
      requires forall k <- hits :: hits[k] != []
      modifies this`hits
      ensures hits == Evicted(cfg, old(hits), key, order) && Enumerates(order, old(hits))
      ensures forall k <- old(hits) :: k in hits || k != key
    {
      order := [];
      if |hits| < cfg.maxKeys {
        order := Listing(hits.Keys);
        return;
      }
      var victim, oldest := "", 0;
      var left := hits.Keys;
      while left != {}
        invariant left <= hits.Keys && forall k :: k in order <==> k in hits && k !in left
        invariant victim == Victim(hits, key, order)
        invariant victim != "" ==> victim in hits && oldest == hits[victim][0]
        decreases |left|
      {
        var k :| k in left;
        assert (order + [k])[..|order|] == order;
        if k != key && hits[k] != [] && (victim == "" || hits[k][0] < oldest) {
          victim, oldest := k, hits[k][0];
        }
        order := order + [k];
        left := left - {k};
      }
      VictimFound(hits, key, order);
      if victim != "" {
        hits := hits - {victim};
      }
    }

    /** Record a hit and decide. */
    method AllowHit(key: string, now: int) returns (v: Verdict, ghost order: seq<string>)
      requires Valid() && clock <= now
      modifies this
      ensures Valid() && clock == now
      ensures (hits, v) == Allow(cfg, old(hits), key, now, order) && Enumerates(order, Pruned(cfg, old(hits), now))
      ensures v == Granted ==> key in granted && granted[key] == old(if key in granted then granted[key] else []) + [now]
      // Nobody's grants are forgotten, except those of a key that is evicted.
      ensures v.Denied? ==> granted == old(granted)
      ensures v == Granted ==> forall k <- old(granted) :: k != key && (k in hits || k !in Pruned(cfg, old(hits), now)) ==>
        k in granted && granted[k] == old(granted)[k]
      // Unless the empty key is used, the number of keys stays within its bound.
      ensures key != "" && "" !in old(hits) && |old(hits)| <= cfg.maxKeys ==> |hits| <= cfg.maxKeys && "" !in hits
    {
      hide Kept, Victim, Evicted, Accounted, Pruned, Allow;
      PrunedAccounted(cfg, hits, granted, clock, now);
      Prune(now);
      ghost var pruned := hits;
      clock := now;
      var kept := Filter(At(hits, key), now);
      if |kept| >= cfg.per {
        DenialKnown(cfg, hits, key, now);
        DeniedKeeps(cfg, pruned, granted, key, now);
        order := Listing(hits.Keys);
        hits := hits[key := kept];
        var retry := kept[0] + cfg.window - now;
        KeysStayBounded(cfg, old(hits), granted, old(clock), key, now, order);
        AllowIs(cfg, old(hits), key, now, order);
        return Denied(if retry < SECOND then SECOND else retry), order;
      }
      order := Record(key, now, kept);
      v := Granted;
      AllowIs(cfg, old(hits), key, now, order);
      KeysStayBounded(cfg, old(hits), old(granted), old(clock), key, now, order);
    }

    /** Remember a granted hit, making room for a new key. */
    method Record(key: string, now: int, kept: seq<int>) returns (ghost order: seq<string>)
      requires cfg.Valid() && Accounted(cfg, hits, granted, now) && (forall k <- hits :: hits[k] != [])
      requires kept == Kept(cfg, At(hits, key), now) && |kept| < cfg.per
      modifies this`hits, this`granted
      ensures Accounted(cfg, hits, granted, now) && Enumerates(order, old(hits))
      ensures hits == (if key in old(hits) then old(hits) else Evicted(cfg, old(hits), key, order))[key := kept + [now]]
      ensures key in granted && granted[key] == old(if key in granted then granted[key] else []) + [now]
      ensures forall k <- old(granted) :: k != key && (k in hits || k !in old(hits)) ==>
        k in granted && granted[k] == old(granted)[k]
    {
      hide Kept, Victim, Evicted, Accounted, RememberedGrants;
      ghost var pruned := hits;
      if key !in hits {
        order := EvictIfNeeded(key);
        EvictedLess(cfg, pruned, key, order);
      } else {
        order := Listing(hits.Keys);
      }
      GrantedKeeps(cfg, pruned, hits, granted, key, now);
      ghost var mine := if key in granted then granted[key] else [];
      RememberedKeeps(pruned, hits, granted, key, mine + [now]);
      granted := RememberedGrants(pruned, hits, granted, key, mine + [now]);
      hits := hits[key := kept + [now]];
    }
  }

  lemma AllowIs(cfg: Config, hits: Hits, key: string, now: int, order: seq<string>)
    requires cfg.Valid()
    ensures var pruned := Pruned(cfg, hits, now);
      var kept := Kept(cfg, At(pruned, key), now);
      var granted := ((if key in pruned then pruned else Evicted(cfg, pruned, key, order))[key := kept + [now]], Granted);
      |kept| < cfg.per ==> Allow(cfg, hits, key, now, order) == granted
    ensures var pruned := Pruned(cfg, hits, now);
      var kept := Kept(cfg, At(pruned, key), now);
      |kept| >= cfg.per ==>
        var retry := kept[0] + cfg.window - now;
        Allow(cfg, hits, key, now, order) == (pruned[key := kept], Denied(if retry < SECOND then SECOND else retry))
  {
    hide Kept, Evicted, Pruned;
  }

  lemma KeysStayBounded(cfg: Config, hits: Hits, granted: map<string, seq<int>>, clock: int, key: string, now: int,
                        order: seq<string>)
    requires cfg.Valid() && Accounted(cfg, hits, granted, clock) && clock <= now
    requires Enumerates(order, Pruned(cfg, hits, now))
    ensures key != "" && "" !in hits && |hits| <= cfg.maxKeys ==>
      var next := Allow(cfg, hits, key, now, order).0; |next| <= cfg.maxKeys && "" !in next
  {
    hide Allow, Pruned, Enumerates, Inv;
    if key != "" && "" !in hits && |hits| <= cfg.maxKeys {
      KeysBounded(cfg, hits, clock, key, now, order);
    }
  }

  lemma EvictedLess(cfg: Config, hits: Hits, key: string, order: seq<string>)
    ensures var rest := Evicted(cfg, hits, key, order); forall k <- rest :: k in hits && rest[k] == hits[k]
  {
  }

  lemma DeniedKeeps(cfg: Config, pruned: Hits, granted: map<string, seq<int>>, key: string, now: int)
    requires cfg.Valid() && Accounted(cfg, pruned, granted, now) && key in pruned
    requires |Kept(cfg, At(pruned, key), now)| >= cfg.per
    ensures Accounted(cfg, pruned[key := Kept(cfg, At(pruned, key), now)], granted, now)
  {
    hide Kept, Spaced, Remembers;
    assert Stored(cfg, pruned[key], now);
    KeptStored(cfg, pruned[key], now, now);
    KeptRemembers(cfg, granted[key], pruned[key], now, now);
  }

  lemma GrantedKeeps(cfg: Config, pruned: Hits, rest: Hits, granted: map<string, seq<int>>, key: string, now: int)
    requires cfg.Valid() && Accounted(cfg, pruned, granted, now)
    requires (forall k <- rest :: k in pruned && rest[k] == pruned[k]) && (key in pruned ==> rest == pruned)
    requires |Kept(cfg, At(pruned, key), now)| < cfg.per
    ensures var mine := if key in granted then granted[key] else [];
      Accounted(cfg, rest[key := Kept(cfg, At(pruned, key), now) + [now]],
                RememberedGrants(pruned, rest, granted, key, mine + [now]), now)
  {
    hide Kept, Spaced, Remembers, Stored;
    var mine := if key in granted then granted[key] else [];
    var stored := At(pruned, key);
    assert stored == [] || Stored(cfg, stored, now);
    KeptStored(cfg, stored, now, now);
    NothingGranted(cfg, now);
    assert Sorted(stored) by {
      StoredSorted(cfg, stored, now);
    }
    GrantSpaced(cfg, mine, stored, now, now);
    hide Sorted;
  }

  lemma StoredSorted(cfg: Config, stored: seq<int>, clock: int)
    requires stored == [] || Stored(cfg, stored, clock)
    ensures Sorted(stored)
  {
  }

  lemma NothingGranted(cfg: Config, now: int)
    ensures Spaced(cfg, []) && Remembers(cfg, [], [], now)
  {
  }

  ghost function RememberedGrants(pruned: Hits, rest: Hits, grants: map<string, seq<int>>, key: string, mine: seq<int>):
    map<string, seq<int>>
  {
    (map k <- grants | k == key || k in rest || k !in pruned :: grants[k])[key := mine]
  }

  lemma RememberedKeeps(pruned: Hits, rest: Hits, grants: map<string, seq<int>>, key: string, mine: seq<int>)
    ensures var next := RememberedGrants(pruned, rest, grants, key, mine);
      && key in next && next[key] == mine
      && (forall k <- grants :: k != key && (k in rest || k !in pruned) ==> k in next && next[k] == grants[k])
  {
  }

  lemma PrunedAccounted(cfg: Config, hits: Hits, granted: map<string, seq<int>>, clock: int, now: int)
    requires clock <= now && Accounted(cfg, hits, granted, clock)
    ensures Accounted(cfg, Pruned(cfg, hits, now), granted, now)
    ensures forall k <- Pruned(cfg, hits, now) :: Pruned(cfg, hits, now)[k] != []
  {
    hide Spaced, Remembers, Sorted;
    forall k | k in granted
      ensures Remembers(cfg, granted[k], At(Pruned(cfg, hits, now), k), now)
    {
      PruneRemembers(cfg, granted[k], At(hits, k), clock, now);
    }
  }

  lemma PruneRemembers(cfg: Config, grants: seq<int>, stored: seq<int>, clock: int, now: int)
    requires clock <= now && Remembers(cfg, grants, stored, clock)
    ensures Remembers(cfg, grants, stored, now)
    ensures (forall t <- stored :: !Recent(cfg, t, now)) ==> Remembers(cfg, grants, [], now)
  {
    var d := |grants| - |stored|;
    forall i | 0 <= i < |grants| && forall t <- stored :: !Recent(cfg, t, now)
      ensures grants[i] + cfg.window <= now
    {
      if i >= d {
        assert grants[i] == stored[i - d] && stored[i - d] in stored;
      }
    }
  }

  /** A denied key that comes back after the delay it was told, not having called in between, is granted
      whatever the other keys did. */
  lemma RetryIsGranted(cfg: Config, hits: Hits, clock: int, key: string, now: int, order: seq<string>,
                       later: Hits, then': int, order': seq<string>)
    requires cfg.Valid() && Inv(cfg, hits, clock) && clock <= now
    requires Allow(cfg, hits, key, now, order).1.Denied?
    requires var (next, v) := Allow(cfg, hits, key, now, order);
      then' >= now + v.retry && (key in later ==> later[key] == next[key])
    ensures Allow(cfg, later, key, then', order').1 == Granted
  {
    hide Victim, Evicted;
    var kept := Kept(cfg, At(Pruned(cfg, hits, now), key), now);
    KeptStored(cfg, At(Pruned(cfg, hits, now), key), clock, now);
    var again := Kept(cfg, At(Pruned(cfg, later, then'), key), then');
    if key in Pruned(cfg, later, then') {
      KeptIsSuffix(cfg, kept, then');
      assert kept[0] + cfg.window <= then';
    } else {
      assert again == [];
    }
    hide Kept;
  }

  /** Without eviction a key gets at most `per` grants in any interval of the window's length. */
  lemma AtMostPerWindow(limiter: RateLimiter, key: string, from: int)
    requires limiter.Valid() && key in limiter.granted
    ensures CountIn(limiter.granted[key], from, limiter.cfg.window) <= limiter.cfg.per
  {
    WindowBound(limiter.cfg, limiter.granted[key], from);
  }
}
