/** Revision-gated application of full snapshots: which desired messages are applied, which are
    acknowledged as replays, and which are rejected.

    `Receive` is one message handled under the lock, for an applier that may answer anything; `Syncer`
    is the same with the plugin host as the applier.  Digests are opaque strings and details of
    results are not kept. */
module Sync {
  import opened Wrappers
  import opened Text
  import PluginHost
  import PluginControl

  type Desired = PluginControl.Desired

  datatype Status = Unset | Applied | Failed | Rejected

  datatype Result = Result(id: string, status: Status)

  /** One desired snapshot of the server. */
  datatype Snapshot = Snapshot(revision: nat, digest: string, entries: seq<Desired>)

  datatype Ack = Ack(revision: nat, digest: string, status: Status, results: seq<Result>)

  /** The last snapshot that was applied completely. */
  datatype AppliedCache = AppliedCache(revision: nat, digest: string, results: seq<Result>) {
    predicate IsEmpty() { revision == 0 && TrimSpace(digest) == "" }
  }

  const NEVER_APPLIED := AppliedCache(0, "", [])

  datatype Answer = Answer(results: seq<Result>) | ApplierError

  // ---------------------------------------------------------------- results

  /** The last result reported for an instance; no report is a failure. */
  function LastResult(results: seq<Result>, id: string): (r: Result)
    ensures r.id == id && r.status != Unset
  {
    if results == [] then Result(id, Failed)
    else
      var last := results[|results| - 1];
      if last.id == id then (if last.status == Unset then Result(id, Failed) else last)
      else LastResult(results[..|results| - 1], id)
  }

  /** One result per desired instance. */
  function Normalized(entries: seq<Desired>, results: seq<Result>): (r: seq<Result>) {
    seq(|entries|, i requires 0 <= i < |entries| => LastResult(results, entries[i].id))
  }

  method NormalizeResults(entries: seq<Desired>, results: seq<Result>) returns (out: seq<Result>)
    ensures out == Normalized(entries, results)
  {
    var byId: map<string, Result> := map[];
    var i := 0;
    while i < |results|
      invariant 0 <= i <= |results|
      invariant forall id :: LastResult(results[..i], id) == if id in byId then byId[id] else Result(id, Failed)
    {
      var r := results[i];
      assert results[..i + 1][..i] == results[..i];
      if r.status == Unset {
        r := r.(status := Failed);
      }
      byId := byId[r.id := r];
      i := i + 1;
    }
    assert results[..i] == results;
    out := [];
    var k := 0;
    while k < |entries|
      invariant 0 <= k <= |entries| && |out| == k
      invariant forall j :: 0 <= j < k ==> out[j] == LastResult(results, entries[j].id)
    {
      var id := entries[k].id;
      out := out + [if id in byId then byId[id] else Result(id, Failed)];
      k := k + 1;
    }
  }

  predicate AnyFailure(results: seq<Result>) {
    exists r <- results :: r.status != Applied
  }

  method FirstFailure(results: seq<Result>) returns (failed: bool)
    ensures failed <==> AnyFailure(results)
  {
    var i := 0;
    while i < |results|
      invariant 0 <= i <= |results|
      invariant forall r <- results[..i] :: r.status == Applied
    {
      if results[i].status != Applied {
        return true;
      }
      i := i + 1;
    }
    failed := false;
  }

  function AllFailed(entries: seq<Desired>): seq<Result> {
    if entries == [] then [Result("", Failed)]
    else seq(|entries|, i requires 0 <= i < |entries| => Result(entries[i].id, Failed))
  }

  // ---------------------------------------------------------------- one message

  /** The revision is already applied, with this digest. */
  predicate IsReplay(cache: AppliedCache, desired: Snapshot) {
    desired.revision == cache.revision && !cache.IsEmpty() && TrimSpace(desired.digest) != ""
    && TrimSpace(desired.digest) == cache.digest
  }

  /** Whether the applier is asked. */
  predicate Admitted(cache: AppliedCache, desired: Snapshot) {
    TrimSpace(desired.digest) != ""
    && (desired.revision > cache.revision || (desired.revision == cache.revision && cache.IsEmpty()))
  }

  function Rejection(desired: Snapshot): Ack {
    Ack(desired.revision, TrimSpace(desired.digest), Rejected, [Result("", Rejected)])
  }

  function Receive(cache: AppliedCache, desired: Snapshot, answer: Answer): (AppliedCache, Ack) {
    var digest := TrimSpace(desired.digest);
    if IsReplay(cache, desired) then (cache, Ack(desired.revision, digest, Applied, cache.results))
    else if !Admitted(cache, desired) then (cache, Rejection(desired))
    else match answer
      case ApplierError => (cache, Ack(desired.revision, digest, Failed, AllFailed(desired.entries)))
      case Answer(results) =>
        var out := Normalized(desired.entries, results);
        if AnyFailure(out) then (cache, Ack(desired.revision, digest, Failed, out))
        else (AppliedCache(desired.revision, digest, out), Ack(desired.revision, digest, Applied, out))
  }

  /** What one message can do to the cache, and what its acknowledgement then says. */
  lemma ReceiveOutcome(cache: AppliedCache, desired: Snapshot, answer: Answer)
    ensures var (next, ack) := Receive(cache, desired, answer);
      && ack.revision == desired.revision && ack.digest == TrimSpace(desired.digest)
      && (ack.status != Applied ==> next == cache)
      && (ack.status == Applied ==> next.revision == ack.revision && next.digest == ack.digest && next.results == ack.results)
      && (ack.status == Applied ==> ack.digest != "" && !next.IsEmpty())
      && (ack.status == Applied && Admitted(cache, desired) ==> CompletelyApplied(desired.entries, ack.results))
      && (!Admitted(cache, desired) ==> next == cache && (ack.status == Applied <==> IsReplay(cache, desired)))
      && (ack.status == Rejected <==> !IsReplay(cache, desired) && !Admitted(cache, desired))
      && cache.revision <= next.revision
  {
    TrimTwice(desired.digest);
    hide TrimSpace, LastResult, Normalized, CompletelyApplied, AnyFailure;
    if answer.Answer? {
      NormalizedComplete(desired.entries, answer.results);
    }
  }

  /** The last report for an instance says that it was applied. */
  ghost predicate SaysApplied(results: seq<Result>, id: string) {
    exists k :: 0 <= k < |results| && results[k] == Result(id, Applied) && forall j :: k < j < |results| ==> results[j].id != id
  }

  lemma {:induction false} AppliedReport(results: seq<Result>, id: string)
    ensures LastResult(results, id).status == Applied <==> SaysApplied(results, id)
  {
    if results != [] {
      var n := |results| - 1;
      if results[n].id == id {
        assert results[n].status == Applied ==> results[n] == Result(id, Applied);
      } else {
        AppliedReport(results[..n], id);
        if SaysApplied(results[..n], id) {
          var k :| 0 <= k < n && results[..n][k] == Result(id, Applied) && forall j :: k < j < n ==> results[..n][j].id != id;
          assert results[k] == Result(id, Applied) && forall j :: k < j < n ==> results[..n][j] == results[j];
        }
        if SaysApplied(results, id) {
          var k :| 0 <= k < |results| && results[k] == Result(id, Applied) && forall j :: k < j < |results| ==> results[j].id != id;
          assert results[..n][k] == Result(id, Applied);
        }
      }
    }
  }

  /** A revision is lost to an edge in two ways only: it is older than the one applied, or another digest was
      applied under it; and a message has to have a digest.  The one applied is acknowledged again with its
      results.  Every other message is applied, exactly if the applier answers and the last report for each
      of its instances says so, and then it is what was applied. */
  lemma MessageDecides(cache: AppliedCache, desired: Snapshot, answer: Answer)
    ensures var (next, ack) := Receive(cache, desired, answer);
      var digest, never := TrimSpace(desired.digest), cache.revision == 0 && TrimSpace(cache.digest) == "";
      if digest == "" || desired.revision < cache.revision || (desired.revision == cache.revision && !never && digest != cache.digest)
      then ack.status == Rejected && next == cache
      else if desired.revision == cache.revision && !never
      then next == cache && ack.status == Applied && ack.results == cache.results
      else
        && (ack.status == Applied <==>
              answer.Answer? && forall e <- desired.entries :: SaysApplied(answer.results, e.id))
        && (ack.status == Applied ==> next.revision == desired.revision && next.digest == digest && next.results == ack.results)
        && (ack.status != Applied ==> next == cache && ack.status == Failed)
  {
    hide TrimSpace, LastResult, SaysApplied;
    if Admitted(cache, desired) && answer.Answer? {
      SuccessMeans(desired.entries, answer.results);
    }
  }

  lemma SuccessMeans(entries: seq<Desired>, results: seq<Result>)
    ensures !AnyFailure(Normalized(entries, results)) <==> forall e <- entries :: SaysApplied(results, e.id)
  {
    hide LastResult, SaysApplied;
    var out := Normalized(entries, results);
    forall i | 0 <= i < |entries|
      ensures out[i].status == Applied <==> SaysApplied(results, entries[i].id)
    {
      AppliedReport(results, entries[i].id);
    }
    if !AnyFailure(out) {
      forall e | e in entries
        ensures SaysApplied(results, e.id)
      {
        var i :| 0 <= i < |entries| && entries[i] == e;
        assert out[i] in out;
      }
    }
  }

  lemma NormalizedComplete(entries: seq<Desired>, results: seq<Result>)
    ensures !AnyFailure(Normalized(entries, results)) <==> CompletelyApplied(entries, Normalized(entries, results))
  {
    var out := Normalized(entries, results);
    assert forall i :: 0 <= i < |out| ==> out[i] in out;
  }

  /** One applied result per desired instance, in order. */
  predicate CompletelyApplied(entries: seq<Desired>, results: seq<Result>) {
    |results| == |entries| && forall i :: 0 <= i < |entries| ==> results[i] == Result(entries[i].id, Applied)
  }

  /** Without asking the applier, any answer it might have given leads to the same place. */
  lemma ReplayNeedsNoApplier(cache: AppliedCache, desired: Snapshot, a: Answer, b: Answer)
    requires !Admitted(cache, desired)
    ensures Receive(cache, desired, a) == Receive(cache, desired, b)
  {
  }

  // ---------------------------------------------------------------- runs

  /** What happens to one edge: it handles a message, whose new cache may or may not reach the disk,
      or it restarts, and its cache file may be unreadable. */
  datatype Event =
    | Message(desired: Snapshot, answer: Answer, saved: bool)
    | Restart(readable: bool)

  datatype Node = Node(cache: AppliedCache, disk: AppliedCache)

  function Step(node: Node, event: Event): (Node, Option<Ack>) {
    match event
    case Message(desired, answer, saved) =>
      var (next, ack) := Receive(node.cache, desired, answer);
      var written := ack.status == Applied && Admitted(node.cache, desired) && saved;
      (Node(next, if written then next else node.disk), Some(ack))
    case Restart(readable) =>
      (Node(if readable then node.disk else NEVER_APPLIED, node.disk), None)
  }

  function Run(node: Node, events: seq<Event>): (r: (Node, seq<Option<Ack>>))
    ensures |r.1| == |events|
  {
    if events == [] then (node, [])
    else
      var (before, acks) := Run(node, events[..|events| - 1]);
      var (after, ack) := Step(before, events[|events| - 1]);
      (after, acks + [ack])
  }

  predicate IsApplied(ack: Option<Ack>) { ack.Some? && ack.value.status == Applied }

  /** Everything acknowledged so far is at or below the cache, and at its revision has its digest. */
  ghost predicate Covers(cache: AppliedCache, acks: seq<Option<Ack>>) {
    forall ack <- acks :: IsApplied(ack) ==>
      && ack.value.revision <= cache.revision
      && (ack.value.revision == cache.revision ==> ack.value.digest == cache.digest && !cache.IsEmpty())
  }

  ghost predicate OneDigestPerRevision(acks: seq<Option<Ack>>) {
    forall a, b :: a in acks && b in acks && IsApplied(a) && IsApplied(b) && a.value.revision == b.value.revision ==>
      a.value.digest == b.value.digest
  }

  ghost predicate NoRestart(events: seq<Event>) {
    forall e <- events :: e.Message?
  }

  lemma CoversStep(cache: AppliedCache, acks: seq<Option<Ack>>, desired: Snapshot, answer: Answer)
    requires Covers(cache, acks) && OneDigestPerRevision(acks)
    ensures var (next, ack) := Receive(cache, desired, answer);
      Covers(next, acks + [Some(ack)]) && OneDigestPerRevision(acks + [Some(ack)])
  {
    hide Receive, AppliedCache.IsEmpty, Admitted, IsReplay, TrimSpace, CompletelyApplied;
    ReceiveOutcome(cache, desired, answer);
    var (next, ack) := Receive(cache, desired, answer);
    if ack.status == Applied {
      OnlyNewer(cache, desired);
    }
  }

  lemma OnlyNewer(cache: AppliedCache, desired: Snapshot)
    requires IsReplay(cache, desired) || Admitted(cache, desired)
    ensures desired.revision == cache.revision && !cache.IsEmpty() ==> TrimSpace(desired.digest) == cache.digest
  {
  }

  /** Over every run of one process, whatever is lost, duplicated, reordered or fails: the applied
      revision never decreases, and no revision is acknowledged as applied with two digests. */
  lemma {:induction false} RevisionSafety(node: Node, events: seq<Event>)
    requires NoRestart(events)
    ensures var (after, acks) := Run(node, events);
      Covers(after.cache, acks) && OneDigestPerRevision(acks) && node.cache.revision <= after.cache.revision
  {
    if events != [] {
      var n := |events| - 1;
      var e := events[n];
      RevisionSafety(node, events[..n]);
      var (before, acks) := Run(node, events[..n]);
      CoversStep(before.cache, acks, e.desired, e.answer);
      ReceiveOutcome(before.cache, e.desired, e.answer);
      hide Receive, Covers, OneDigestPerRevision;
    }
  }

  /** The applier succeeds at most once per revision: every fresh application raises the revision. */
  lemma {:induction false} FreshOnce(node: Node, events: seq<Event>, i: nat, j: nat)
    requires NoRestart(events) && i < j < |events|
    requires Fresh(node, events, i) && Fresh(node, events, j)
    ensures events[i].desired.revision < events[j].desired.revision
  {
    var at := Run(node, events[..i]).0;
    ReceiveOutcome(at.cache, events[i].desired, events[i].answer);
    RunStep(node, events, i);
    RunFrom(node, events[..j], i + 1);
    assert events[..j][..i + 1] == events[..i + 1];
    var next := Run(node, events[..i + 1]).0;
    assert next.cache.revision == events[i].desired.revision && !next.cache.IsEmpty();
    StaysNonEmpty(next, events[..j][i + 1..]);
    RevisionSafety(next, events[..j][i + 1..]);
  }

  /** The message was handed to the applier and applied completely. */
  ghost predicate Fresh(node: Node, events: seq<Event>, i: nat)
    requires i < |events|
  {
    var cache := Run(node, events[..i]).0.cache;
    && events[i].Message? && Admitted(cache, events[i].desired)
    && Receive(cache, events[i].desired, events[i].answer).1.status == Applied
  }

  lemma RunStep(node: Node, events: seq<Event>, i: nat)
    requires i < |events|
    ensures Run(node, events[..i + 1]).0 == Step(Run(node, events[..i]).0, events[i]).0
  {
    assert events[..i + 1][..i] == events[..i];
  }

  lemma {:induction false} RunFrom(node: Node, events: seq<Event>, i: nat)
    requires i <= |events|
    ensures Run(node, events).0 == Run(Run(node, events[..i]).0, events[i..]).0
  {
    hide Step;
    if i == |events| {
      assert events[..i] == events;
    } else {
      var n := |events| - 1;
      RunFrom(node, events[..n], i);
      assert events[..n][..i] == events[..i];
      assert events[i..][..n - i] == events[..n][i..];
    }
  }

  lemma {:induction false} StaysNonEmpty(node: Node, events: seq<Event>)
    requires NoRestart(events) && !node.cache.IsEmpty()
    ensures !Run(node, events).0.cache.IsEmpty()
  {
    if events != [] {
      var n := |events| - 1;
      StaysNonEmpty(node, events[..n]);
      ReceiveOutcome(Run(node, events[..n]).0.cache, events[n].desired, events[n].answer);
      hide Receive;
    }
  }

  /** Every save reached the disk and every restart could read it. */
  ghost predicate Durable(events: seq<Event>) {
    forall e <- events :: if e.Message? then e.saved else e.readable
  }

  /** Then restarts cannot be told from no restarts: the disk is always the cache. */
  lemma {:induction false} RestartsAreInvisible(node: Node, events: seq<Event>)
    requires Durable(events) && node.disk == node.cache
    ensures var (after, acks) := Run(node, events);
      after.disk == after.cache && Covers(after.cache, acks) && OneDigestPerRevision(acks)
      && node.cache.revision <= after.cache.revision
  {
    if events != [] {
      var n := |events| - 1;
      var e := events[n];
      RestartsAreInvisible(node, events[..n]);
      var (before, acks) := Run(node, events[..n]);
      if e.Message? {
        CoversStep(before.cache, acks, e.desired, e.answer);
        ReceiveOutcome(before.cache, e.desired, e.answer);
        hide Receive, Covers, OneDigestPerRevision;
      }
    }
  }

  /** The disk is behind the cache. */
  predicate Behind(disk: AppliedCache, cache: AppliedCache) {
    disk.revision < cache.revision || (disk.revision == cache.revision && disk.IsEmpty() && !cache.IsEmpty())
  }

  /** Either the disk holds the cache, or what is in the cache only was acknowledged. */
  ghost predicate SavedOrBehind(node: Node, acks: seq<Option<Ack>>) {
    node.disk == node.cache
    || (Behind(node.disk, node.cache)
        && exists ack <- acks :: IsApplied(ack) && ack.value.revision == node.cache.revision)
  }

  lemma {:induction false} RunSavedOrBehind(node: Node, events: seq<Event>)
    requires NoRestart(events) && node.disk == node.cache
    ensures var (after, acks) := Run(node, events); SavedOrBehind(after, acks)
  {
    if events != [] {
      var n := |events| - 1;
      var e := events[n];
      RunSavedOrBehind(node, events[..n]);
      var (before, acks) := Run(node, events[..n]);
      ReceiveOutcome(before.cache, e.desired, e.answer);
      var ack := Some(Receive(before.cache, e.desired, e.answer).1);
      hide Receive, AppliedCache.IsEmpty;
      assert ack in acks + [ack] && forall x <- acks :: x in acks + [ack];
    }
  }

  /** After any run of one process, the disk covers what was acknowledged, so that a restart is safe, if and
      only if it holds the cache. */
  lemma RestartSafeIffSaved(events: seq<Event>)
    requires NoRestart(events)
    ensures var (after, acks) := Run(Node(NEVER_APPLIED, NEVER_APPLIED), events);
      Covers(after.disk, acks) <==> after.disk == after.cache
  {
    hide Run, AppliedCache.IsEmpty;
    RevisionSafety(Node(NEVER_APPLIED, NEVER_APPLIED), events);
    RunSavedOrBehind(Node(NEVER_APPLIED, NEVER_APPLIED), events);
  }

  /** Otherwise safety is lost: after one save that failed, a restart lets the same revision be applied
      again with any other digest. */
  lemma UnsavedRevisionIsReused(revision: nat, a: string, b: string)
    requires revision > 0 && TrimSpace(a) != "" && TrimSpace(b) != "" && TrimSpace(a) != TrimSpace(b)
    ensures var start := Node(NEVER_APPLIED, NEVER_APPLIED);
      var events := [Message(Snapshot(revision, a, []), Answer([]), false), Restart(true),
                     Message(Snapshot(revision, b, []), Answer([]), true)];
      !OneDigestPerRevision(Run(start, events).1)
  {
    hide TrimSpace, Run;
    var start := Node(NEVER_APPLIED, NEVER_APPLIED);
    var m1, m2, m3 := Message(Snapshot(revision, a, []), Answer([]), false), Restart(true),
                      Message(Snapshot(revision, b, []), Answer([]), true);
    RunNone(start);
    RunMore(start, [], m1);
    RunMore(start, [m1], m2);
    RunMore(start, [m1, m2], m3);
    assert [] + [m1] == [m1] && [m1] + [m2] == [m1, m2] && [m1, m2] + [m3] == [m1, m2, m3];
    assert Normalized([], []) == [];
    var first, second := Ack(revision, TrimSpace(a), Applied, []), Ack(revision, TrimSpace(b), Applied, []);
    assert Receive(NEVER_APPLIED, m1.desired, m1.answer).1 == first;
    assert Receive(NEVER_APPLIED, m3.desired, m3.answer).1 == second;
    assert Run(start, [m1, m2]).0 == start;
    var acks := Run(start, [m1, m2, m3]).1;
    assert acks[0] == Some(first) && acks[2] == Some(second);
  }

  /** A digest as it was received: trimmed, and there is one. */
  predicate ProperDigest(digest: string) { digest != "" && TrimSpace(digest) == digest }

  /** Caches and acknowledgements of a run carry proper digests. */
  ghost predicate Proper(node: Node, acks: seq<Option<Ack>>) {
    && (node.cache.IsEmpty() || ProperDigest(node.cache.digest)) && (node.disk.IsEmpty() || ProperDigest(node.disk.digest))
    && (forall ack <- acks :: IsApplied(ack) ==> ProperDigest(ack.value.digest))
  }

  lemma {:induction false} RunProper(node: Node, events: seq<Event>)
    requires Proper(node, [])
    ensures var (after, acks) := Run(node, events); Proper(after, acks)
  {
    hide TrimSpace, Receive, AppliedCache.IsEmpty, ProperDigest;
    if events != [] {
      var n := |events| - 1;
      var e := events[n];
      RunProper(node, events[..n]);
      NothingAppliedIsEmpty();
      if e.Message? {
        var before := Run(node, events[..n]).0;
        ReceiveOutcome(before.cache, e.desired, e.answer);
        AppliedIsProper(before.cache, e.desired, e.answer);
      }
    }
  }

  lemma NothingAppliedIsEmpty()
    ensures NEVER_APPLIED.IsEmpty()
  {
  }

  lemma AppliedIsProper(cache: AppliedCache, desired: Snapshot, answer: Answer)
    ensures Receive(cache, desired, answer).1.status == Applied ==> ProperDigest(Receive(cache, desired, answer).1.digest)
  {
    TrimTwice(desired.digest);
    ReceiveOutcome(cache, desired, answer);
    hide TrimSpace, Receive;
  }

  /** The exact condition, after any run of a new edge with any restarts and any lost saves: no next message
      can make a revision acknowledged with two digests if and only if the cache covers what was
      acknowledged, and that was consistent. */
  lemma SafeNextIffCovered(events: seq<Event>)
    ensures var (after, acks) := Run(Node(NEVER_APPLIED, NEVER_APPLIED), events);
      (forall desired, answer :: OneDigestPerRevision(acks + [Some(Receive(after.cache, desired, answer).1)]))
      <==> Covers(after.cache, acks) && OneDigestPerRevision(acks)
  {
    hide Receive, Run, Covers, OneDigestPerRevision, Proper;
    var start := Node(NEVER_APPLIED, NEVER_APPLIED);
    var (after, acks) := Run(start, events);
    NothingAppliedIsEmpty();
    assert Proper(start, []) by {
      StartProper();
    }
    RunProper(start, events);
    if Covers(after.cache, acks) && OneDigestPerRevision(acks) {
      forall desired, answer
        ensures OneDigestPerRevision(acks + [Some(Receive(after.cache, desired, answer).1)])
      {
        CoversStep(after.cache, acks, desired, answer);
      }
    } else {
      var desired := Contradiction(after, acks);
    }
  }

  lemma StartProper()
    ensures Proper(Node(NEVER_APPLIED, NEVER_APPLIED), [])
  {
  }

  /** The message that does it. */
  lemma Contradiction(node: Node, acks: seq<Option<Ack>>) returns (desired: Snapshot)
    requires Proper(node, acks) && !(Covers(node.cache, acks) && OneDigestPerRevision(acks))
    ensures !OneDigestPerRevision(acks + [Some(Receive(node.cache, desired, Answer([])).1)])
  {
    hide TrimSpace, Receive;
    desired := Snapshot(0, "", []);
    if !OneDigestPerRevision(acks) {
      var a, b :| a in acks && b in acks && IsApplied(a) && IsApplied(b) && a.value.revision == b.value.revision
        && a.value.digest != b.value.digest;
      var more := acks + [Some(Receive(node.cache, desired, Answer([])).1)];
      assert a in more && b in more;
    } else {
      var a :| a in acks && IsApplied(a) && !(a.value.revision <= node.cache.revision
        && (a.value.revision == node.cache.revision ==> a.value.digest == node.cache.digest && !node.cache.IsEmpty()));
      var replay := a.value.revision == node.cache.revision && !node.cache.IsEmpty();
      desired := Snapshot(a.value.revision, if replay then node.cache.digest else a.value.digest + a.value.digest, []);
      assert ProperDigest(desired.digest) && desired.digest != a.value.digest;
      var next := Some(Receive(node.cache, desired, Answer([])).1);
      Accepts(node.cache, desired);
      var more := acks + [next];
      assert a in more && next in more;
    }
  }

  /** An empty snapshot that is admitted, or repeats what was applied, is acknowledged. */
  lemma Accepts(cache: AppliedCache, desired: Snapshot)
    requires ProperDigest(desired.digest) && desired.entries == []
    requires desired.revision > cache.revision || (desired.revision == cache.revision && cache.IsEmpty())
      || (desired.revision == cache.revision && desired.digest == cache.digest)
    ensures var ack := Receive(cache, desired, Answer([])).1;
      ack.status == Applied && ack.revision == desired.revision && ack.digest == desired.digest
  {
    hide TrimSpace;
    assert Normalized([], []) == [];
  }

  lemma RunNone(node: Node)
    ensures Run(node, []) == (node, [])
  {
  }

  lemma RunMore(node: Node, events: seq<Event>, e: Event)
    ensures var (before, acks) := Run(node, events);
      Run(node, events + [e]) == (Step(before, e).0, acks + [Step(before, e).1])
  {
    assert (events + [e])[..|events|] == events;
  }

  // ---------------------------------------------------------------- the plugin host as the applier

  function Reported(results: seq<PluginControl.ApplyResult>): (r: seq<Result>)
    ensures |r| == |results|
  {
    seq(|results|, i requires 0 <= i < |results| => Result(results[i].id, if results[i].applied then Applied else Failed))
  }

  ghost predicate DistinctIds(entries: seq<Desired>) {
    forall i, j :: 0 <= i < j < |entries| ==> TrimSpace(entries[i].id) != TrimSpace(entries[j].id)
  }

  /** The host answers in the order of the entries, under trimmed identities. */
  ghost predicate Answers(entries: seq<Desired>, results: seq<PluginControl.ApplyResult>) {
    |results| == |entries| && forall i :: 0 <= i < |entries| ==> results[i].id == TrimSpace(entries[i].id)
  }

  /** Where an identity was answered last. */
  function LastAnswer(results: seq<PluginControl.ApplyResult>, id: string): (r: Option<nat>)
    ensures r.Some? ==> r.value < |results| && results[r.value].id == id
    ensures r.Some? ==> forall j :: r.value < j < |results| ==> results[j].id != id
    ensures r.None? ==> forall j :: 0 <= j < |results| ==> results[j].id != id
  {
    if results == [] then None
    else
      var n := |results| - 1;
      if results[n].id == id then Some(n) else LastAnswer(results[..n], id)
  }

  /** The result looked up is the one that was answered last. */
  lemma {:induction false} LookedUp(results: seq<PluginControl.ApplyResult>, id: string)
    ensures var last := LastAnswer(results, id);
      LastResult(Reported(results), id).status == Applied <==> last.Some? && results[last.value].applied
  {
    if results != [] {
      var n := |results| - 1;
      assert Reported(results)[..n] == Reported(results[..n]);
      LookedUp(results[..n], id);
    }
  }

  /** The entry's identity needs no trimming, and the last entry with that identity was applied. */
  predicate Settles(entries: seq<Desired>, results: seq<PluginControl.ApplyResult>, i: nat)
    requires i < |entries|
  {
    TrimSpace(entries[i].id) == entries[i].id
    && var last := LastAnswer(results, entries[i].id); last.Some? && results[last.value].applied
  }

  /** An acknowledgement says applied exactly if no identity needs trimming and the last entry of every
      identity was applied. */
  lemma AppliedIffLastApplied(entries: seq<Desired>, results: seq<PluginControl.ApplyResult>)
    requires Answers(entries, results)
    ensures !AnyFailure(Normalized(entries, Reported(results))) <==>
      forall i :: 0 <= i < |entries| ==> Settles(entries, results, i)
  {
    hide TrimSpace, LastResult, Reported, LastAnswer, Settles;
    var reported := Reported(results);
    NormalizedComplete(entries, reported);
    forall i | 0 <= i < |entries|
      ensures LastResult(reported, entries[i].id) == Result(entries[i].id, Applied) <==> Settles(entries, results, i)
    {
      SettledOne(entries, results, i);
    }
  }

  /** The host answers under trimmed identities only. */
  lemma SettledOne(entries: seq<Desired>, results: seq<PluginControl.ApplyResult>, i: nat)
    requires Answers(entries, results) && i < |entries|
    ensures LastResult(Reported(results), entries[i].id).status == Applied <==> Settles(entries, results, i)
  {
    hide TrimSpace, LastResult, Reported;
    LookedUp(results, entries[i].id);
    var last := LastAnswer(results, entries[i].id);
    if last.Some? {
      TrimTwice(entries[last.value].id);
    }
    hide LastAnswer;
  }

  /** In other words, every instance of the snapshot came out well in the end; so what an acknowledgement may
      hide does no harm. */
  lemma AppliedIffEndedWell(tenant: string, entries: seq<Desired>, results: seq<PluginControl.ApplyResult>)
    requires Answers(entries, results)
    ensures !AnyFailure(Normalized(entries, Reported(results))) <==>
      PluginControl.EndedWell(tenant, entries, results) && forall e <- entries :: TrimSpace(e.id) == e.id
  {
    hide TrimSpace, LastResult, Reported, AnyFailure, LastAnswer, PluginControl.LastApplied;
    AppliedIffLastApplied(entries, results);
    KeysAnswered(tenant, entries, results);
    if forall i :: 0 <= i < |entries| ==> Settles(entries, results, i) {
      forall e | e in entries
        ensures TrimSpace(e.id) == e.id
      {
        var i :| 0 <= i < |entries| && entries[i] == e;
        assert Settles(entries, results, i);
      }
      forall k | k in PluginControl.KeysOf(tenant, entries)
        ensures k in PluginControl.LastApplied(tenant, entries, results)
      {
        var i :| 0 <= i < |entries| && entries[i].Key(tenant) == k;
        assert Settles(entries, results, i);
      }
    } else {
      var i :| 0 <= i < |entries| && !Settles(entries, results, i);
      assert entries[i] in entries && entries[i].Key(tenant) in PluginControl.KeysOf(tenant, entries);
    }
  }

  /** An instance ended well exactly if the last answer under its identity was good. */
  lemma KeysAnswered(tenant: string, entries: seq<Desired>, results: seq<PluginControl.ApplyResult>)
    requires Answers(entries, results)
    ensures PluginControl.LastApplied(tenant, entries, results) <= PluginControl.KeysOf(tenant, entries)
    ensures forall i :: 0 <= i < |entries| ==>
      var last := LastAnswer(results, TrimSpace(entries[i].id));
      entries[i].Key(tenant) in PluginControl.LastApplied(tenant, entries, results) <==> last.Some? && results[last.value].applied
  {
    hide TrimSpace, PluginControl.LastApplied;
    forall k | k in PluginControl.LastApplied(tenant, entries, results)
      ensures k in PluginControl.KeysOf(tenant, entries)
    {
      PluginControl.LastAppliedIff(tenant, entries, results, k);
      var i :| PluginControl.DecidedBy(tenant, entries, k, i) && results[i].applied;
      assert entries[i] in entries;
    }
    forall i | 0 <= i < |entries|
      ensures var last := LastAnswer(results, TrimSpace(entries[i].id));
        entries[i].Key(tenant) in PluginControl.LastApplied(tenant, entries, results) <==> last.Some? && results[last.value].applied
    {
      KeyAnswered(tenant, entries, results, i);
    }
  }

  lemma KeyAnswered(tenant: string, entries: seq<Desired>, results: seq<PluginControl.ApplyResult>, i: nat)
    requires Answers(entries, results) && i < |entries|
    ensures var last := LastAnswer(results, TrimSpace(entries[i].id));
      entries[i].Key(tenant) in PluginControl.LastApplied(tenant, entries, results) <==> last.Some? && results[last.value].applied
  {
    hide TrimSpace, PluginControl.LastApplied, LastAnswer;
    var k, last := entries[i].Key(tenant), LastAnswer(results, TrimSpace(entries[i].id));
    PluginControl.LastAppliedIff(tenant, entries, results, k);
    assert results[i].id == TrimSpace(entries[i].id);
    assert forall j :: 0 <= j < |entries| ==> (entries[j].Key(tenant) == k <==> results[j].id == results[i].id);
    assert PluginControl.DecidedBy(tenant, entries, k, last.value);
  }

  /** With distinct identities an acknowledgement hides no failure. */
  lemma AppliedMeansAllApplied(entries: seq<Desired>, results: seq<PluginControl.ApplyResult>)
    requires DistinctIds(entries) && Answers(entries, results)
    ensures !AnyFailure(Normalized(entries, Reported(results))) <==>
      PluginControl.AllApplied(results) && forall e <- entries :: TrimSpace(e.id) == e.id
  {
    hide TrimSpace, LastResult, Reported, AnyFailure;
    AppliedIffLastApplied(entries, results);
    forall i | 0 <= i < |entries|
      ensures Settles(entries, results, i) <==> results[i].applied && TrimSpace(entries[i].id) == entries[i].id
    {
      var last := LastAnswer(results, entries[i].id);
      assert results[i].id == TrimSpace(entries[i].id);
    }
    if forall i :: 0 <= i < |entries| ==> Settles(entries, results, i) {
      forall r | r in results
        ensures r.applied
      {
        var i :| 0 <= i < |results| && results[i] == r;
        assert Settles(entries, results, i);
      }
      forall e | e in entries
        ensures TrimSpace(e.id) == e.id
      {
        var i :| 0 <= i < |entries| && entries[i] == e;
        assert Settles(entries, results, i);
      }
    }
  }

  /** A failure is hidden by an acknowledgement exactly if a later entry with the same identity was applied. */
  lemma DuplicateHidesFailure(entries: seq<Desired>, results: seq<PluginControl.ApplyResult>)
    requires Answers(entries, results) && !AnyFailure(Normalized(entries, Reported(results)))
    ensures !PluginControl.AllApplied(results) <==>
      exists i, j :: 0 <= i < j < |results| && results[i].id == results[j].id && !results[i].applied && results[j].applied
  {
    hide TrimSpace, LastResult, Reported, AnyFailure;
    AppliedIffLastApplied(entries, results);
    if !PluginControl.AllApplied(results) {
      var r :| r in results && !r.applied;
      var i :| 0 <= i < |results| && results[i] == r;
      assert Settles(entries, results, i);
      var last := LastAnswer(results, entries[i].id);
      assert results[i].id == results[last.value].id && i <= last.value;
    }
  }

  /** It happens: any snapshot that names an instance twice can be answered like this. */
  lemma HiddenFailureHappens(first: Desired, second: Desired)
    requires first.id == second.id && TrimSpace(first.id) == first.id
    ensures var results := [PluginControl.ApplyResult(first.id, false), PluginControl.ApplyResult(first.id, true)];
      Answers([first, second], results) && !AnyFailure(Normalized([first, second], Reported(results)))
  {
    hide TrimSpace, AnyFailure;
    var results := [PluginControl.ApplyResult(first.id, false), PluginControl.ApplyResult(first.id, true)];
    AppliedIffLastApplied([first, second], results);
    assert LastAnswer(results, first.id) == Some(1);
  }

  class Syncer {
    const host: PluginControl.Host
    const tenant: string
    var sequence: nat
    var cache: AppliedCache
    var disk: AppliedCache

    ghost predicate Valid()
      reads this, host, host.manager, host.store
    {
      host.Valid()
    }

    /** A new process starts from the cache file; a corrupt file counts as never applied. */
    constructor (host: PluginControl.Host, tenant: string, disk: AppliedCache)
      requires host.Valid()
      ensures Valid() && this.host == host && this.tenant == (if TrimSpace(tenant) == "" then "default" else tenant)
      ensures sequence == 0 && this.disk == disk && (cache == disk || cache == NEVER_APPLIED)
    {
      this.host, this.tenant := host, if TrimSpace(tenant) == "" then "default" else tenant;
      var readable: bool := *;
      this.disk, this.cache, this.sequence := disk, if readable then disk else NEVER_APPLIED, 0;
    }

    /** Handle one desired snapshot. */
    method HandleDesired(desired: Snapshot, lock: Option<seq<PluginHost.Install>>)
      returns (ack: Ack, ghost answer: Answer, ghost saved: bool, ghost stages: seq<PluginControl.Stage>)
      requires Valid()
      modifies this, host.manager, host.store
      ensures Valid() && sequence == old(sequence)
      // One step of a run, for the answer of the host.
      ensures (Node(cache, disk), Some(ack)) == Step(Node(old(cache), old(disk)), Message(desired, answer, saved))
      ensures Admitted(old(cache), desired) && answer.Answer? ==> exists results ::
        && answer.results == Reported(results)
        && (if stages == [] then PluginControl.AllFailed(results)
            else PluginControl.Stages(stages, PluginControl.NormalizeTenant(tenant), desired.entries, results))
      // A replay, a stale or an unverifiable message has no effect on plugins or state files.
      ensures !Admitted(old(cache), desired) ==>
        host.manager.View() == old(host.manager.View()) && host.store.files == old(host.store.files) && disk == old(disk)
      // A fresh success is true: the host has converged to the snapshot.
      ensures Admitted(old(cache), desired) && ack.status == Applied ==>
        var t := PluginControl.NormalizeTenant(tenant);
        && PluginControl.AllAcceptable(t, desired.entries)
        && host.store.files == PluginControl.Settled(old(host.store.files), t, desired.entries)
        && PluginControl.WellStored(PluginControl.Settled(old(host.store.files), t, desired.entries))
        && PluginControl.Converged(old(host.manager.View()), host.manager.View(), old(host.store.files), t, desired.entries)
    {
      hide PluginControl.Host.Valid, PluginControl.AllAcceptable, PluginControl.WellStored, PluginControl.Converged,
           PluginControl.Settled, PluginControl.AllApplied, PluginControl.NormalizeTenant, PluginControl.UndisturbedBut,
           PluginControl.Backed, PluginControl.OtherTenantsKept, TrimSpace, LastResult, Normalized, AnyFailure, Reported,
           PluginControl.EndedWell, PluginControl.Stages, PluginControl.AllFailed;
      answer, saved, stages := ApplierError, false, [];
      var digest := TrimSpace(desired.digest);
      ghost var unasked := Receive(cache, desired, ApplierError);
      if digest == "" || desired.revision < cache.revision {
        ack := Rejection(desired);
        assert (cache, ack) == unasked;
        return;
      }
      if desired.revision == cache.revision && !cache.IsEmpty() {
        ack := if digest == cache.digest then Ack(desired.revision, digest, Applied, cache.results) else Rejection(desired);
        assert (cache, ack) == unasked;
        return;
      }
      var results, err;
      results, err, stages := host.ApplySnapshot(tenant, lock, desired.entries);
      if err {
        ack := Ack(desired.revision, digest, Failed, AllFailed(desired.entries));
        assert (cache, ack) == unasked;
        return;
      }
      answer := Answer(Reported(results));
      ghost var answered := Receive(cache, desired, answer);
      var out := NormalizeResults(desired.entries, Reported(results));
      var failed := FirstFailure(out);
      if failed {
        ack := Ack(desired.revision, digest, Failed, out);
        assert (cache, ack) == answered;
        return;
      }
      AppliedIffEndedWell(PluginControl.NormalizeTenant(tenant), desired.entries, results);
      cache := AppliedCache(desired.revision, digest, out);
      var written: bool := *;
      if written {
        disk := cache;
      }
      saved := written;
      ack := Ack(desired.revision, digest, Applied, out);
      assert (cache, ack) == answered;
    }

    /** A status report carries the applied revision under the next sequence number. */
    method Report() returns (number: nat, applied: nat)
      modifies this
      ensures number == sequence == old(sequence) + 1 && applied == cache.revision
      ensures cache == old(cache) && disk == old(disk)
    {
      sequence := sequence + 1;
      number, applied := sequence, cache.revision;
    }
  }
}
