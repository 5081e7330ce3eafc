/** Convergence of the local plugin host to a desired snapshot: one entry after the other is
    reconciled and then recorded, and what the snapshot no longer mentions is retired.

    The state files of one process are the map `store`.  Reading or writing a file, and resolving
    secrets, may fail at any point (`:= *`). */
module PluginControl {
  import opened Wrappers
  import opened PluginHost
  import opened Text

  const ISOLATION_SHARED := "shared"
  const ISOLATION_PER_INSTANCE := "per-instance"

  function ParseIsolation(value: string): (r: Option<Isolation>) {
    var v := TrimSpace(value);
    if v == "" || v == ISOLATION_SHARED then Some(SharedProcess)
    else if v == ISOLATION_PER_INSTANCE then Some(PerInstance)
    else None
  }

  function FormatIsolation(value: Isolation): string {
    if value == SharedProcess then ISOLATION_SHARED else ISOLATION_PER_INSTANCE
  }

  /** What may be a path component. */
  predicate ValidSegment(s: string) {
    s != "" && s != "." && s != ".." &&
    forall c <- s :: 'a' <= c <= 'z' || 'A' <= c <= 'Z' || '0' <= c <= '9' || c in "._-"
  }

  predicate ValidConfig(config: Config) {
    forall k <- config :: TrimSpace(k) != "" && !HasControl(k) && !HasControl(config[k])
  }

  /** One state file. */
  datatype InstanceState = InstanceState(
    tenant: string, id: string, plugin: string, version: string, configPath: string,
    enabled: bool, isolation: string, config: Config)
  {
    function Key(): InstKey { InstKey(tenant, id) }

    predicate Valid() {
      ValidSegment(tenant) && ValidSegment(id) && ValidSegment(plugin) && TrimSpace(version) != ""
      && ParseIsolation(isolation).Some? && ValidConfig(config)
    }

    /** The definition handed to the manager. */
    function Spec(): Instance
      requires Valid()
    {
      Instance(tenant, id, plugin, version,
        if TrimSpace(configPath) != "" then config[CONFIG_PATH_KEY := configPath] else config,
        ParseIsolation(isolation).value)
    }
  }

  type Store = map<InstKey, InstanceState>

  /** One entry of a desired snapshot. */
  datatype Desired = Desired(id: string, plugin: string, version: string, enabled: bool, isolation: string, config: Config) {
    function Key(tenant: string): InstKey { InstKey(tenant, TrimSpace(id)) }

    /** The state an accepted entry stands for; the local configuration path is not part of it. */
    function State(tenant: string, configPath: string): InstanceState
      requires ParseIsolation(isolation).Some?
    {
      InstanceState(tenant, TrimSpace(id), TrimSpace(plugin), TrimSpace(version), configPath, enabled,
        FormatIsolation(ParseIsolation(isolation).value), config)
    }

    predicate Acceptable(tenant: string) {
      ParseIsolation(isolation).Some? && State(tenant, "").Valid()
    }
  }

  datatype ApplyResult = ApplyResult(id: string, applied: bool)

  predicate AllFailed(results: seq<ApplyResult>) {
    forall r <- results :: !r.applied
  }

  predicate AllApplied(results: seq<ApplyResult>) {
    forall r <- results :: r.applied
  }

  function NormalizeTenant(tenant: string): string {
    if TrimSpace(tenant) != "" then TrimSpace(tenant) else "default"
  }

  // ---------------------------------------------------------------- what a snapshot means

  function PathOf(store: Store, key: InstKey): string {
    if key in store then store[key].configPath else ""
  }

  function KeysOf(tenant: string, entries: seq<Desired>): set<InstKey> {
    set e <- entries :: e.Key(tenant)
  }

  function LastEntry(tenant: string, entries: seq<Desired>, key: InstKey): (r: Option<Desired>)
    ensures r.Some? <==> key in KeysOf(tenant, entries)
    ensures r.Some? ==> r.value in entries && r.value.Key(tenant) == key
  {
    if entries == [] then None
    else
      var n := |entries| - 1;
      assert entries == entries[..n] + [entries[n]];
      if entries[n].Key(tenant) == key then Some(entries[n]) else LastEntry(tenant, entries[..n], key)
  }

  /** The entry that decides about an instance passes every check; earlier ones for it need not. */
  ghost predicate AllAcceptable(tenant: string, entries: seq<Desired>) {
    forall k <- KeysOf(tenant, entries) :: LastEntry(tenant, entries, k).value.Acceptable(tenant)
  }

  /** The instances whose last entry was applied. */
  function LastApplied(tenant: string, entries: seq<Desired>, results: seq<ApplyResult>): (r: set<InstKey>)
    requires |results| == |entries|
  {
    if entries == [] then {}
    else
      var n := |entries| - 1;
      var before, k := LastApplied(tenant, entries[..n], results[..n]), entries[n].Key(tenant);
      if results[n].applied then before + {k} else before - {k}
  }

  /** Every instance of the snapshot came out well in the end. */
  predicate EndedWell(tenant: string, entries: seq<Desired>, results: seq<ApplyResult>) {
    |results| == |entries| && LastApplied(tenant, entries, results) == KeysOf(tenant, entries)
  }

  lemma LastAppliedStep(tenant: string, entries: seq<Desired>, n: nat, results: seq<ApplyResult>, r: ApplyResult)
    requires n < |entries| && |results| == n
    ensures var before, k := LastApplied(tenant, entries[..n], results), entries[n].Key(tenant);
      LastApplied(tenant, entries[..n + 1], results + [r]) == if r.applied then before + {k} else before - {k}
  {
    assert entries[..n + 1][..n] == entries[..n] && (results + [r])[..n] == results;
  }

  /** If nothing was applied, nothing ended well. */
  lemma {:induction false} NoneEndedWell(tenant: string, entries: seq<Desired>, results: seq<ApplyResult>)
    requires |results| == |entries| && AllFailed(results)
    ensures LastApplied(tenant, entries, results) == {} && (EndedWell(tenant, entries, results) <==> entries == [])
  {
    if entries != [] {
      var n := |entries| - 1;
      assert forall r <- results[..n] :: r in results;
      NoneEndedWell(tenant, entries[..n], results[..n]);
      assert results[n] in results && entries[n].Key(tenant) in KeysOf(tenant, entries);
    }
  }

  lemma {:induction false} AllAppliedEndsWell(tenant: string, entries: seq<Desired>, results: seq<ApplyResult>)
    requires |results| == |entries| && AllApplied(results)
    ensures EndedWell(tenant, entries, results)
  {
    if entries != [] {
      var n := |entries| - 1;
      assert forall r <- results[..n] :: r in results;
      AllAppliedEndsWell(tenant, entries[..n], results[..n]);
      KeysStep(tenant, entries, n);
      assert entries[..n + 1] == entries && results[n] in results;
    }
  }

  /** Which instances ended well: those with an applied entry and none after it. */
  lemma {:induction false} LastAppliedIff(tenant: string, entries: seq<Desired>, results: seq<ApplyResult>, k: InstKey)
    requires |results| == |entries|
    ensures k in LastApplied(tenant, entries, results) <==>
      exists i :: DecidedBy(tenant, entries, k, i) && results[i].applied
  {
    hide Desired.Key;
    if entries != [] {
      var n := |entries| - 1;
      LastAppliedIff(tenant, entries[..n], results[..n], k);
      if entries[n].Key(tenant) == k {
        assert DecidedBy(tenant, entries, k, n);
      } else {
        forall i
          ensures DecidedBy(tenant, entries, k, i) <==> DecidedBy(tenant, entries[..n], k, i)
        {
        }
      }
    }
  }

  /** The last entry for an instance has this number. */
  predicate DecidedBy(tenant: string, entries: seq<Desired>, k: InstKey, i: int) {
    0 <= i < |entries| && entries[i].Key(tenant) == k && forall j :: i < j < |entries| ==> entries[j].Key(tenant) != k
  }

  /** The store after every entry was recorded: the last entry for an instance decides, and the local
      configuration path survives. */
  ghost function Recorded(store: Store, tenant: string, entries: seq<Desired>): Store
    requires AllAcceptable(tenant, entries)
  {
    map k <- store.Keys + KeysOf(tenant, entries) ::
      var last := LastEntry(tenant, entries, k);
      if last.Some? then last.value.State(tenant, PathOf(store, k)) else store[k]
  }

  /** States of the tenant that the snapshot does not mention. */
  ghost function Absent(store: Store, tenant: string, entries: seq<Desired>): set<InstKey> {
    set k <- store | k.tenant == tenant && k !in KeysOf(tenant, entries)
  }

  /** The store a fully applied snapshot leaves behind. */
  ghost function Settled(store: Store, tenant: string, entries: seq<Desired>): Store
    requires AllAcceptable(tenant, entries)
  {
    Recorded(store, tenant, entries) - Absent(store, tenant, entries)
  }

  /** The instances of the tenant are exactly those of the snapshot, as their last entry says; nobody
      else's state moved. */
  lemma SettledIsTheSnapshot(store: Store, tenant: string, entries: seq<Desired>, k: InstKey)
    requires AllAcceptable(tenant, entries)
    ensures var settled := Settled(store, tenant, entries);
      && (k.tenant != tenant ==> (k in settled <==> k in store) && (k in store ==> settled[k] == store[k]))
      && (k.tenant == tenant ==>
            var last := LastEntry(tenant, entries, k);
            && (k in settled <==> last.Some?)
            && (last.Some? ==> settled[k] == last.value.State(tenant, PathOf(store, k))))
  {
  }

  lemma StateValid(e: Desired, tenant: string, path: string)
    requires e.Acceptable(tenant)
    ensures ParseIsolation(e.isolation).Some?
    ensures e.State(tenant, path).Valid() && e.State(tenant, path).Key() == e.Key(tenant)
  {
    assert e.State(tenant, path).isolation == e.State(tenant, "").isolation;
  }

  /** Applying a snapshot again changes nothing. */
  lemma SettledAgain(store: Store, tenant: string, entries: seq<Desired>)
    requires AllAcceptable(tenant, entries)
    ensures var settled := Settled(store, tenant, entries); Settled(settled, tenant, entries) == settled
  {
    var settled := Settled(store, tenant, entries);
    var again := Settled(settled, tenant, entries);
    forall k
      ensures k in again <==> k in settled
      ensures k in again ==> again[k] == settled[k]
    {
      SettledIsTheSnapshot(store, tenant, entries, k);
      SettledIsTheSnapshot(settled, tenant, entries, k);
    }
  }

  /** Convergence does not depend on history: two stores with the same local configuration paths agree
      on the tenant after the same snapshot, whatever either held before. */
  lemma SettledForgetsHistory(store: Store, other: Store, tenant: string, entries: seq<Desired>)
    requires AllAcceptable(tenant, entries)
    requires forall k <- KeysOf(tenant, entries) :: PathOf(store, k) == PathOf(other, k)
    ensures var a, b := Settled(store, tenant, entries), Settled(other, tenant, entries);
      forall k: InstKey :: k.tenant == tenant ==> (k in a <==> k in b) && (k in a ==> a[k] == b[k])
  {
    forall k: InstKey | k.tenant == tenant
      ensures var a, b := Settled(store, tenant, entries), Settled(other, tenant, entries);
        (k in a <==> k in b) && (k in a ==> a[k] == b[k])
    {
      SettledIsTheSnapshot(store, tenant, entries, k);
      SettledIsTheSnapshot(other, tenant, entries, k);
    }
  }

  /** A later snapshot wins over an earlier one, except that an instance the earlier one left out has
      lost its local configuration path. */
  lemma LastSnapshotWins(store: Store, tenant: string, earlier: seq<Desired>, later: seq<Desired>, k: InstKey)
    requires AllAcceptable(tenant, earlier) && AllAcceptable(tenant, later) && k.tenant == tenant
    ensures var once := Settled(store, tenant, later);
      var twice := Settled(Settled(store, tenant, earlier), tenant, later);
      && (k in twice <==> k in once)
      && (k in once ==>
            (twice[k] == once[k] <==> (k !in KeysOf(tenant, earlier) ==> PathOf(store, k) == "")))
  {
    var first := Settled(store, tenant, earlier);
    SettledIsTheSnapshot(store, tenant, earlier, k);
    SettledIsTheSnapshot(store, tenant, later, k);
    SettledIsTheSnapshot(first, tenant, later, k);
  }

  lemma LastEntryStep(tenant: string, entries: seq<Desired>, n: nat, key: InstKey)
    requires n < |entries|
    ensures LastEntry(tenant, entries[..n + 1], key) ==
      if entries[n].Key(tenant) == key then Some(entries[n]) else LastEntry(tenant, entries[..n], key)
  {
    assert entries[..n + 1][..n] == entries[..n];
  }

  /** Recording one more entry. */
  lemma RecordedStep(store: Store, tenant: string, entries: seq<Desired>, n: nat)
    requires n < |entries| && AllAcceptable(tenant, entries[..n]) && entries[n].Acceptable(tenant)
    requires AllAcceptable(tenant, entries[..n + 1])
    ensures var k, before := entries[n].Key(tenant), Recorded(store, tenant, entries[..n]);
      Recorded(store, tenant, entries[..n + 1]) == before[k := entries[n].State(tenant, PathOf(before, k))]
  {
    hide *;
    StateValid(entries[n], tenant, "");
    var k, before, after := entries[n].Key(tenant), Recorded(store, tenant, entries[..n]), Recorded(store, tenant, entries[..n + 1]);
    RecordedPath(store, tenant, entries[..n], k);
    var latest := entries[n].State(tenant, PathOf(store, k));
    forall j
      ensures j in after <==> j in before || j == k
      ensures j in after ==> after[j] == if j == k then latest else before[j]
    {
      LastEntryStep(tenant, entries, n, j);
      RecordedAt(store, tenant, entries[..n], j);
      RecordedAt(store, tenant, entries[..n + 1], j);
    }
  }

  lemma RecordedAt(store: Store, tenant: string, entries: seq<Desired>, k: InstKey)
    requires AllAcceptable(tenant, entries)
    ensures var recorded, last := Recorded(store, tenant, entries), LastEntry(tenant, entries, k);
      && (k in recorded <==> k in store || last.Some?)
      && (k in recorded && last.None? ==> recorded[k] == store[k])
      && (last.Some? ==> last.value.Acceptable(tenant) && recorded[k] == last.value.State(tenant, PathOf(store, k)))
  {
  }

  lemma RecordedPath(store: Store, tenant: string, entries: seq<Desired>, k: InstKey)
    requires AllAcceptable(tenant, entries)
    ensures PathOf(Recorded(store, tenant, entries), k) == PathOf(store, k)
  {
  }

  lemma KeysStep(tenant: string, entries: seq<Desired>, n: nat)
    requires n < |entries|
    ensures KeysOf(tenant, entries[..n + 1]) == KeysOf(tenant, entries[..n]) + {entries[n].Key(tenant)}
  {
    assert entries[..n + 1] == entries[..n] + [entries[n]];
  }

  // ---------------------------------------------------------------- what the manager runs

  /** Outside `touched` every instance keeps its definition, and while enabled its process. */
  ghost predicate UndisturbedBut(a: State, b: State, touched: set<InstKey>) {
    && (forall k :: k !in touched ==> (k in a.instances <==> k in b.instances))
    && (forall k <- a.instances :: k !in touched ==>
          && b.instances[k].inst == a.instances[k].inst && b.instances[k].enabled == a.instances[k].enabled
          && (a.instances[k].enabled ==>
                Resolve(b, a.instances[k].inst.ProcKey()) == Resolve(a, a.instances[k].inst.ProcKey())))
  }

  lemma UndisturbedButComposes(a: State, b: State, c: State, first: set<InstKey>, second: set<InstKey>)
    requires UndisturbedBut(a, b, first) && UndisturbedBut(b, c, second)
    ensures UndisturbedBut(a, c, first + second)
  {
  }

  lemma UndisturbedAtAll(a: State, b: State, touched: set<InstKey>)
    requires a.instances == b.instances && a.procs == b.procs
    ensures UndisturbedBut(a, b, touched)
  {
  }

  /** The manager runs what the state file says. */
  ghost predicate Serves(st: State, state: InstanceState)
    requires state.Valid()
  {
    && (state.enabled ==> state.Key() in st.instances)
    && (state.Key() in st.instances ==>
          st.instances[state.Key()].inst == state.Spec() && st.instances[state.Key()].enabled == state.enabled)
  }

  /** What an entry asks the manager to run, field by field: the configuration of the entry, with the local
      path of the state file in place of its own if there is one, and a process of its own exactly if it says
      "per-instance". */
  ghost predicate AsAsked(inst: Instance, tenant: string, entry: Desired, path: string) {
    && inst.tenant == tenant && inst.id == TrimSpace(entry.id)
    && inst.plugin == TrimSpace(entry.plugin) && inst.version == TrimSpace(entry.version)
    && (forall x :: x != "path" ==>
          && (x in inst.config <==> x in entry.config)
          && (x in inst.config && x in entry.config ==> inst.config[x] == entry.config[x]))
    && (if TrimSpace(path) != "" then "path" in inst.config && inst.config["path"] == path
        else
          && ("path" in inst.config <==> "path" in entry.config)
          && ("path" in inst.config && "path" in entry.config ==> inst.config["path"] == entry.config["path"]))
    && (inst.isolation == PerInstance <==> TrimSpace(entry.isolation) == "per-instance")
    && (inst.isolation == SharedProcess <==> TrimSpace(entry.isolation) == "" || TrimSpace(entry.isolation) == "shared")
  }

  /** An enabled entry runs as asked; a disabled one does not run, and is remembered as asked if at all. */
  ghost predicate RunsAsAsked(st: State, tenant: string, entry: Desired, path: string) {
    var k := InstKey(tenant, TrimSpace(entry.id));
    && (entry.enabled ==> k in st.instances)
    && (k in st.instances ==> st.instances[k].enabled == entry.enabled && AsAsked(st.instances[k].inst, tenant, entry, path))
  }

  /** The state file of an entry, field by field. */
  ghost predicate StoredAsAsked(state: InstanceState, tenant: string, entry: Desired, path: string) {
    && state.tenant == tenant && state.id == TrimSpace(entry.id)
    && state.plugin == TrimSpace(entry.plugin) && state.version == TrimSpace(entry.version)
    && state.config == entry.config && state.configPath == path && state.enabled == entry.enabled
    && state.isolation == if TrimSpace(entry.isolation) == "per-instance" then "per-instance" else "shared"
  }

  lemma SpecAsAsked(tenant: string, entry: Desired, path: string)
    requires entry.Acceptable(tenant)
    ensures ParseIsolation(entry.isolation).Some? && entry.State(tenant, path).Valid()
    ensures AsAsked(entry.State(tenant, path).Spec(), tenant, entry, path)
    ensures StoredAsAsked(entry.State(tenant, path), tenant, entry, path)
  {
    StateValid(entry, tenant, path);
    IsolationMeans(entry.isolation);
    hide InstanceState.Valid, TrimSpace, ParseIsolation, Desired.Acceptable, InstanceState.Spec, AsAsked;
    var state := entry.State(tenant, path);
    SpecFields(state);
    FieldsAsAsked(state, state.Spec(), tenant, entry, path);
  }

  lemma FieldsAsAsked(state: InstanceState, inst: Instance, tenant: string, entry: Desired, path: string)
    requires StoredAsAsked(state, tenant, entry, path)
    requires TrimSpace(entry.isolation) == "per-instance" || TrimSpace(entry.isolation) == "" || TrimSpace(entry.isolation) == "shared"
    requires inst.tenant == state.tenant && inst.id == state.id && inst.plugin == state.plugin && inst.version == state.version
    requires inst.isolation == if state.isolation == "per-instance" then PerInstance else SharedProcess
    requires forall x :: x != "path" ==>
      && (x in inst.config <==> x in state.config)
      && (x in inst.config && x in state.config ==> inst.config[x] == state.config[x])
    requires if TrimSpace(state.configPath) != "" then "path" in inst.config && inst.config["path"] == state.configPath
      else inst.config == state.config
    ensures AsAsked(inst, tenant, entry, path)
  {
    hide TrimSpace;
  }

  lemma SpecFields(state: InstanceState)
    requires state.Valid()
    ensures var inst := state.Spec();
      && inst.tenant == state.tenant && inst.id == state.id && inst.plugin == state.plugin && inst.version == state.version
      && ParseIsolation(state.isolation) == Some(inst.isolation)
      && (forall x :: x != "path" ==>
            && (x in inst.config <==> x in state.config)
            && (x in inst.config && x in state.config ==> inst.config[x] == state.config[x]))
      && (if TrimSpace(state.configPath) != "" then "path" in inst.config && inst.config["path"] == state.configPath
          else inst.config == state.config)
  {
    hide TrimSpace, ParseIsolation, ValidSegment, ValidConfig;
  }

  lemma IsolationMeans(text: string)
    ensures ParseIsolation(text) ==
      if TrimSpace(text) == "per-instance" then Some(PerInstance)
      else if TrimSpace(text) == "" || TrimSpace(text) == "shared" then Some(SharedProcess)
      else None
    ensures ParseIsolation("shared") == Some(SharedProcess) && ParseIsolation("per-instance") == Some(PerInstance)
  {
    assert TrimSpace("shared") == "shared" && TrimSpace("per-instance") == "per-instance" by {
      assert !IsSpace("shared"[0]) && !IsSpace("shared"[5]) && !IsSpace("per-instance"[0]) && !IsSpace("per-instance"[11]);
    }
    hide TrimSpace;
  }

  /** Serving a state is running the entry as asked. */
  lemma ServesAsAsked(st: State, tenant: string, entry: Desired, path: string)
    requires entry.Acceptable(tenant) && ParseIsolation(entry.isolation).Some? && entry.State(tenant, path).Valid()
    requires Serves(st, entry.State(tenant, path))
    ensures RunsAsAsked(st, tenant, entry, path)
  {
    SpecAsAsked(tenant, entry, path);
    hide AsAsked, StoredAsAsked, InstanceState.Spec, InstanceState.Valid, TrimSpace;
  }

  lemma ServesStays(a: State, b: State, state: InstanceState, touched: set<InstKey>)
    requires state.Valid() && Serves(a, state) && UndisturbedBut(a, b, touched) && state.Key() !in touched
    ensures Serves(b, state)
  {
  }

  ghost predicate WellStored(store: Store) {
    forall k <- store :: store[k].Valid() && store[k].Key() == k
  }

  /** Every enabled state file names an installed plugin. */
  ghost predicate Backed(store: Store, installed: set<Install>) {
    forall k <- store :: store[k].enabled ==> Install(store[k].plugin, store[k].version) in installed
  }

  predicate Running(st: State, k: InstKey) { k in st.instances && st.instances[k].enabled }

  /** The manager after a fully applied snapshot: what the snapshot names runs as it says, what only
      the store named is gone, and nobody else was touched. */
  ghost predicate Converged(a: State, b: State, store: Store, tenant: string, entries: seq<Desired>)
    requires AllAcceptable(tenant, entries) && WellStored(Settled(store, tenant, entries))
  {
    && UndisturbedBut(a, b, KeysOf(tenant, entries) + Absent(store, tenant, entries))
    && (forall k <- KeysOf(tenant, entries) :: k in Settled(store, tenant, entries) && Serves(b, Settled(store, tenant, entries)[k]))
    && (forall k <- Absent(store, tenant, entries) :: k !in b.instances)
  }

  /** After full success every instance of the snapshot runs, and is stored, as its last entry asks. */
  lemma ConvergedAsAsked(a: State, b: State, store: Store, tenant: string, entries: seq<Desired>, k: InstKey)
    requires AllAcceptable(tenant, entries) && WellStored(Settled(store, tenant, entries))
    requires Converged(a, b, store, tenant, entries) && k in KeysOf(tenant, entries)
    ensures var last := LastEntry(tenant, entries, k).value;
      && RunsAsAsked(b, tenant, last, PathOf(store, k))
      && k in Settled(store, tenant, entries) && StoredAsAsked(Settled(store, tenant, entries)[k], tenant, last, PathOf(store, k))
  {
    hide Serves, RunsAsAsked, StoredAsAsked, InstanceState.Valid, Desired.State, UndisturbedBut, Desired.Key;
    var last := LastEntry(tenant, entries, k).value;
    SettledIsTheSnapshot(store, tenant, entries, k);
    InTenant(tenant, entries, k);
    SpecAsAsked(tenant, last, PathOf(store, k));
    hide Settled;
    ServesAsAsked(b, tenant, last, PathOf(store, k));
  }

  lemma AllAsAsked(a: State, b: State, store: Store, tenant: string, entries: seq<Desired>)
    requires AllAcceptable(tenant, entries) && WellStored(Settled(store, tenant, entries))
    requires Converged(a, b, store, tenant, entries)
    ensures forall k <- KeysOf(tenant, entries) ::
      var last, path := LastEntry(tenant, entries, k).value, PathOf(store, k);
      && RunsAsAsked(b, tenant, last, path)
      && k in Settled(store, tenant, entries) && StoredAsAsked(Settled(store, tenant, entries)[k], tenant, last, path)
  {
    hide Converged, AllAcceptable, WellStored, Settled, RunsAsAsked, StoredAsAsked, PathOf, KeysOf;
    forall k | k in KeysOf(tenant, entries)
      ensures var last, path := LastEntry(tenant, entries, k).value, PathOf(store, k);
        && RunsAsAsked(b, tenant, last, path)
        && k in Settled(store, tenant, entries) && StoredAsAsked(Settled(store, tenant, entries)[k], tenant, last, path)
    {
      ConvergedAsAsked(a, b, store, tenant, entries, k);
    }
  }

  lemma InTenant(tenant: string, entries: seq<Desired>, k: InstKey)
    requires k in KeysOf(tenant, entries)
    ensures k.tenant == tenant
  {
  }

  /** An enabled instance that neither the store nor the snapshot knows: left over when an earlier save,
      or the stop of a predecessor, failed after the manager had already switched. */
  predicate Orphan(a: State, store: Store, tenant: string, entries: seq<Desired>, k: InstKey) {
    k.tenant == tenant && Running(a, k) && k !in store && k !in KeysOf(tenant, entries)
  }

  lemma ConvergedOne(a: State, b: State, store: Store, tenant: string, entries: seq<Desired>, k: InstKey)
    requires AllAcceptable(tenant, entries) && WellStored(Settled(store, tenant, entries))
    requires Converged(a, b, store, tenant, entries) && k.tenant == tenant
    ensures var settled := Settled(store, tenant, entries);
      Running(b, k) <==> (k in settled && settled[k].enabled) || Orphan(a, store, tenant, entries, k)
  {
    SettledIsTheSnapshot(store, tenant, entries, k);
    hide Settled;
  }

  /** What runs for the tenant is exactly what the snapshot enables if, and only if, the manager was
      not ahead of the store on an instance the snapshot leaves out. */
  lemma RunsExactlyTheSnapshot(a: State, b: State, store: Store, tenant: string, entries: seq<Desired>)
    requires AllAcceptable(tenant, entries) && WellStored(Settled(store, tenant, entries))
    requires Converged(a, b, store, tenant, entries)
    ensures var settled := Settled(store, tenant, entries);
      (forall k: InstKey :: k.tenant == tenant ==> (Running(b, k) <==> k in settled && settled[k].enabled))
      <==> !exists k: InstKey :: Orphan(a, store, tenant, entries, k)
  {
    hide *;
    var settled := Settled(store, tenant, entries);
    forall k: InstKey | k.tenant == tenant
      ensures Running(b, k) <==> (k in settled && settled[k].enabled) || Orphan(a, store, tenant, entries, k)
    {
      ConvergedOne(a, b, store, tenant, entries, k);
    }
    forall k: InstKey | Orphan(a, store, tenant, entries, k)
      ensures k.tenant == tenant && !(k in settled && settled[k].enabled)
    {
      OrphanUnsettled(a, store, tenant, entries, k);
    }
  }

  /** What a save that fails leaves: the manager runs an instance that no state file mentions.  Every later
      snapshot that leaves the instance out is applied completely and does not notice it. */
  lemma OrphanSurvives(a: State, b: State, c: State, files: Store, tenant: string, entry: Desired, later: seq<Desired>)
    requires Explains(Unsaved, a, b, files, tenant, entry) && entry.enabled && entry.Key(tenant) !in files
    requires AllAcceptable(tenant, later) && WellStored(Settled(files, tenant, later))
    requires Converged(b, c, files, tenant, later) && entry.Key(tenant) !in KeysOf(tenant, later)
    ensures var k := entry.Key(tenant);
      Orphan(b, files, tenant, later, k) && Running(c, k) && k !in Settled(files, tenant, later)
  {
    hide InstanceState.Valid, InstanceState.Spec, Settled, Converged, AllAcceptable, KeysOf, ParseIsolation, TrimSpace, UndisturbedBut;
    var k := entry.Key(tenant);
    StateValid(entry, tenant, PathOf(files, k));
    assert k.tenant == tenant && Orphan(b, files, tenant, later, k);
    ConvergedOne(b, c, files, tenant, later, k);
    OrphanUnsettled(b, files, tenant, later, k);
  }

  /** Such a state is reached, for every acceptable entry that is enabled: from a manager that knows the
      installation and nothing else, by the steps of a reconcile that succeeds.  The empty snapshot then
      leaves it as it is. */
  lemma OrphanReached(tenant: string, entry: Desired)
    requires entry.Acceptable(tenant) && entry.enabled
    ensures var spec := Accepted(entry, tenant, "").Spec();
      var a, b := Installed(spec.Needs()), BoundAlone(spec);
      && a.Inv({}, NOBODY, None) && b.Inv({}, NOBODY, None)
      && Explains(Unsaved, a, b, map[], tenant, entry)
      && AllAcceptable(tenant, []) && WellStored(Settled(map[], tenant, [])) && Converged(b, b, map[], tenant, [])
      && Orphan(b, map[], tenant, [], entry.Key(tenant))
  {
    var spec := Accepted(entry, tenant, "").Spec();
    BoundAloneKeeps(spec);
    SavedNothing(tenant, entry);
    NothingAsked(BoundAlone(spec), tenant);
    hide Installed, BoundAlone, State.Inv, Explains, Settled, Converged, Accepted, InstanceState.Spec, Desired.Acceptable,
         AllAcceptable, WellStored, Orphan, Running;
    assert entry.Key(tenant) !in KeysOf(tenant, []);
    OrphanSurvives(Installed(spec.Needs()), BoundAlone(spec), BoundAlone(spec), map[], tenant, entry, []);
  }

  lemma SavedNothing(tenant: string, entry: Desired)
    requires entry.Acceptable(tenant) && entry.enabled
    ensures var spec := Accepted(entry, tenant, "").Spec();
      Explains(Unsaved, Installed(spec.Needs()), BoundAlone(spec), map[], tenant, entry)
  {
    hide Installed, BoundAlone, State.Inv, InstanceState.Valid, TrimSpace, ParseIsolation, Desired.Acceptable, Applied,
         Serves, UndisturbedBut, InstanceState.Spec, Desired.State, Desired.Key, InstanceState.Key, Instance.Key;
    var state := Accepted(entry, tenant, "");
    StateOfEntry(entry, tenant, "");
    BoundAloneKeeps(state.Spec());
    AppliedServes(Installed(state.Spec().Needs()), BoundAlone(state.Spec()), state);
    assert PathOf(map[], entry.Key(tenant)) == "";
  }

  /** The empty snapshot is settled in the empty store, whatever runs. */
  lemma NothingAsked(b: State, tenant: string)
    ensures AllAcceptable(tenant, []) && WellStored(Settled(map[], tenant, [])) && Converged(b, b, map[], tenant, [])
  {
    assert Settled(map[], tenant, []) == map[];
    UndisturbedAtAll(b, b, {});
  }

  lemma OrphanUnsettled(a: State, store: Store, tenant: string, entries: seq<Desired>, k: InstKey)
    requires AllAcceptable(tenant, entries) && Orphan(a, store, tenant, entries, k)
    ensures k.tenant == tenant && k !in Settled(store, tenant, entries)
  {
  }

  /** Applied again, the same snapshot leaves every definition, every enabled flag and the whole store
      alone. */
  lemma ConvergedAgain(a: State, b: State, c: State, store: Store, tenant: string, entries: seq<Desired>, k: InstKey)
    requires AllAcceptable(tenant, entries) && WellStored(Settled(store, tenant, entries))
    requires Converged(a, b, store, tenant, entries)
    requires var settled := Settled(store, tenant, entries);
      WellStored(Settled(settled, tenant, entries)) && Converged(b, c, settled, tenant, entries)
    ensures Running(c, k) <==> Running(b, k)
    ensures Running(c, k) ==> c.instances[k].inst == b.instances[k].inst
  {
    var settled := Settled(store, tenant, entries);
    SettledAgain(store, tenant, entries);
    SettledIsTheSnapshot(store, tenant, entries, k);
    SettledIsTheSnapshot(settled, tenant, entries, k);
    assert Absent(settled, tenant, entries) == {};
    hide Settled, KeysOf, LastEntry;
  }

  // ---------------------------------------------------------------- the state files

  lemma SharedByDefault(state: InstanceState)
    requires state.Valid()
    ensures state.(isolation := ISOLATION_SHARED).Valid()
  {
    hide TrimSpace, ValidSegment, ValidConfig;
  }

  /** By tenant, then by identity. */
  predicate KeyLess(a: InstKey, b: InstKey) {
    LexLess(a.tenant, b.tenant) || (a.tenant == b.tenant && LexLess(a.id, b.id))
  }

  lemma KeyTotal(a: InstKey, b: InstKey)
    ensures a == b || KeyLess(a, b) || KeyLess(b, a)
    ensures !KeyLess(a, a)
  {
    LexTotal(a.tenant, b.tenant);
    LexTotal(a.id, b.id);
    LexTotal(a.id, a.id);
    LexTotal(a.tenant, a.tenant);
  }

  lemma KeyTransitive(a: InstKey, b: InstKey, c: InstKey)
    requires KeyLess(a, b) && KeyLess(b, c)
    ensures KeyLess(a, c)
  {
    hide LexLess;
    if LexLess(a.tenant, b.tenant) && LexLess(b.tenant, c.tenant) {
      LexTransitive(a.tenant, b.tenant, c.tenant);
    }
    if LexLess(a.id, b.id) && LexLess(b.id, c.id) {
      LexTransitive(a.id, b.id, c.id);
    }
  }

  ghost predicate InOrder(states: seq<InstanceState>) {
    forall i, j :: 0 <= i < j < |states| ==> KeyLess(states[i].Key(), states[j].Key())
  }

  function Placed(state: InstanceState, states: seq<InstanceState>): seq<InstanceState> {
    if states == [] || KeyLess(state.Key(), states[0].Key()) then [state] + states
    else [states[0]] + Placed(state, states[1..])
  }

  lemma {:induction false} PlacedInOrder(state: InstanceState, states: seq<InstanceState>)
    requires InOrder(states) && forall other <- states :: other.Key() != state.Key()
    ensures var r := Placed(state, states);
      InOrder(r) && |r| == |states| + 1 && forall x :: x in r <==> x == state || x in states
  {
    hide KeyLess;
    if states != [] {
      var r := Placed(state, states);
      if KeyLess(state.Key(), states[0].Key()) {
        forall j | 0 < j < |r|
          ensures KeyLess(r[0].Key(), r[j].Key())
        {
          if j > 1 {
            KeyTransitive(state.Key(), states[0].Key(), states[j - 1].Key());
          }
        }
      } else {
        PlacedInOrder(state, states[1..]);
        KeyTotal(state.Key(), states[0].Key());
        assert states == [states[0]] + states[1..];
        forall j | 0 < j < |r|
          ensures KeyLess(r[0].Key(), r[j].Key())
        {
          assert r[j] in Placed(state, states[1..]);
          if r[j] != state {
            var i :| 0 <= i < |states[1..]| && states[1..][i] == r[j];
            assert KeyLess(states[0].Key(), states[i + 1].Key());
          }
        }
      }
    }
  }

  lemma InOrderDistinct(states: seq<InstanceState>)
    requires InOrder(states)
    ensures forall i, j :: 0 <= i < j < |states| ==> states[i].Key() != states[j].Key()
  {
    hide KeyLess;
    forall i, j | 0 <= i < j < |states|
      ensures states[i].Key() != states[j].Key()
    {
      KeyTotal(states[i].Key(), states[j].Key());
    }
  }

  datatype LoadedState = Found(state: InstanceState) | Missing | Unreadable

  /** One file per tenant and instance. */
  class StateStore {
    var files: Store

    ghost predicate Valid()
      reads this
    {
      WellStored(files)
    }

    constructor ()
      ensures Valid() && files == map[]
    {
      files := map[];
    }

    method Load(key: InstKey) returns (r: LoadedState)
      requires Valid()
      ensures r.Found? ==> key in files && r.state == files[key]
      ensures r.Missing? ==> key !in files
      ensures !ValidSegment(key.tenant) || !ValidSegment(key.id) ==> r.Unreadable?
    {
      var readable: bool := *;
      if !ValidSegment(key.tenant) || !ValidSegment(key.id) || !readable {
        return Unreadable;
      }
      r := if key in files then Found(files[key]) else Missing;
    }

    method Save(state: InstanceState) returns (ok: bool)
      requires Valid()
      modifies this
      ensures Valid()
      ensures ok ==> state.Valid()
      ensures files ==
        if ok then
          old(files)[state.Key() := if state.isolation == "" then state.(isolation := ISOLATION_SHARED) else state]
        else old(files)
    {
      hide InstanceState.Valid;
      ok := false;
      if state.Valid() {
        var written: bool := *;
        if written {
          SharedByDefault(state);
          files := files[state.Key() := if state.isolation == "" then state.(isolation := ISOLATION_SHARED) else state];
          ok := true;
        }
      }
    }

    /** A missing file is not an error. */
    method Delete(key: InstKey) returns (ok: bool)
      requires Valid()
      modifies this
      ensures Valid()
      ensures files == if ok then old(files) - {key} else old(files)
    {
      var removed: bool := *;
      ok := ValidSegment(key.tenant) && ValidSegment(key.id) && removed;
      if ok {
        files := files - {key};
      }
    }

    /** The files of one tenant, or of all of them, in order; one unreadable file fails the listing. */
    method List(tenant: Option<string>) returns (r: Option<seq<InstanceState>>)
      requires Valid()
      ensures r.Some? ==> InOrder(r.value)
      ensures r.Some? ==> (forall state <- r.value :: state.Key() in files && files[state.Key()] == state)
      ensures r.Some? ==> (forall i, j :: 0 <= i < j < |r.value| ==> r.value[i].Key() != r.value[j].Key())
      ensures r.Some? ==> forall k <- files :: (tenant == None || tenant == Some(k.tenant)) <==> files[k] in r.value
      ensures tenant.Some? && !ValidSegment(tenant.value) ==> r.None?
    {
      hide InstanceState.Valid, InOrder, Placed;
      if tenant.Some? && !ValidSegment(tenant.value) {
        return None;
      }
      hide ValidSegment;
      var left := set k <- files | tenant == None || tenant == Some(k.tenant);
      var states: seq<InstanceState> := [];
      NoneInOrder();
      while left != {}
        invariant InOrder(states)
        invariant forall k <- left :: k in files && (tenant == None || tenant == Some(k.tenant))
        invariant forall state <- states :: state.Key() in files && files[state.Key()] == state && state.Key() !in left
        invariant forall k <- files :: tenant == None || tenant == Some(k.tenant) <==> k in left || files[k] in states
      {
        var k :| k in left;
        var loaded := Load(k);
        if !loaded.Found? {
          return None;
        }
        left := left - {k};
        PlacedInOrder(loaded.state, states);
        states := Placed(loaded.state, states);
      }
      InOrderDistinct(states);
      r := Some(states);
    }
  }

  lemma NoneInOrder()
    ensures InOrder([])
  {
  }

  // ---------------------------------------------------------------- the host

  predicate BindsSecrets(config: Config) {
    exists k <- config :: |TrimSpace(config[k])| >= 9 && TrimSpace(config[k])[..9] == "secret://"
  }

  /** What a lock file lists. */
  function Listed(lock: seq<Install>): set<Install> { set i <- lock }

  lemma NothingListed()
    ensures Listed([]) == {}
  {
  }

  lemma ListedMore(lock: seq<Install>, n: nat)
    requires n < |lock|
    ensures Listed(lock[..n + 1]) == Listed(lock[..n]) + {lock[n]}
  {
    assert lock[..n + 1] == lock[..n] + [lock[n]];
  }

  /** Where the binaries of a plugin are, below the directory of the host. */
  const INSTALLATION_DIR := "assets/"

  datatype LoadCounts = LoadCounts(installations: nat, instances: nat, started: nat, idle: bool)

  datatype LoadError = Unlisted | Unregistered | Interrupted | NotReconciled(outcome: Reconciled)

  /** Why an entry was not applied. */
  datatype Refusal =
    | Unacceptable
    | SecretsUnavailable
    | PathUnreadable                      // the state file with the local configuration path
    | Unreconciled(outcome: Reconciled)
    | Unsaved                             // the manager runs it, the state file does not say so

  datatype Checked = Passed(state: InstanceState) | Refuses(why: Refusal)

  /** How far an entry that was not applied got between two states of the manager. */
  ghost predicate Explains(why: Refusal, a: State, b: State, files: Store, tenant: string, entry: Desired) {
    match why
    case Unacceptable => !entry.Acceptable(tenant) && b == a
    case SecretsUnavailable => BindsSecrets(entry.config) && b == a
    case PathUnreadable => b == a
    case Unreconciled(outcome) =>
      entry.Acceptable(tenant) && outcome != Done
      && var spec := Accepted(entry, tenant, PathOf(files, entry.Key(tenant))).Spec();
      if outcome.BeforeCommit() then a.SameBindings(b) else Applied(a, b, spec, entry.enabled)
    case Unsaved =>
      entry.Acceptable(tenant)
      && Serves(b, Accepted(entry, tenant, PathOf(files, entry.Key(tenant))))
      && UndisturbedBut(a, b, {entry.Key(tenant)})
  }

  /** The state of an acceptable entry. */
  function Accepted(entry: Desired, tenant: string, path: string): (r: InstanceState)
    requires entry.Acceptable(tenant)
    ensures r.Valid()
  {
    StateValid(entry, tenant, path);
    entry.State(tenant, path)
  }

  class Host {
    const manager: Manager
    const store: StateStore
    const resolvesSecrets: bool

    ghost predicate Valid()
      reads this, manager, store
    {
      manager.Valid() && store.Valid()
    }

    constructor (manager: Manager, store: StateStore, resolvesSecrets: bool)
      requires manager.Valid() && store.Valid()
      ensures Valid() && this.manager == manager && this.store == store
    {
      this.manager, this.store, this.resolvesSecrets := manager, store, resolvesSecrets;
    }

    /** Register what the lock file lists; what is registered already is skipped. */
    method RegisterInstallations(lock: Option<seq<Install>>) returns (ok: bool, registered: nat)
      requires Valid()
      modifies manager
      ensures Valid()
      ensures manager.View() == old(manager.View()).(installations := manager.installations)
      ensures old(manager.installations) <= manager.installations
      ensures |manager.installations| == |old(manager.installations)| + registered
      ensures ok ==> lock.Some? && manager.installations == old(manager.installations) + Listed(lock.value)
    {
      hide State.Inv, Listed, Manager.Valid, StateStore.Valid;
      registered := 0;
      if lock.None? {
        return false, 0;
      }
      var n := 0;
      assert lock.value[..0] == [] && Listed([]) == {} by {
        NothingListed();
      }
      while n < |lock.value|
        invariant 0 <= n <= |lock.value| && Valid()
        invariant manager.View() == old(manager.View()).(installations := manager.installations)
        invariant manager.installations == old(manager.installations) + Listed(lock.value[..n])
        invariant |manager.installations| == |old(manager.installations)| + registered
      {
        var cancelled: bool := *;
        if cancelled {
          return false, registered;
        }
        var r := manager.RegisterInstallation(lock.value[n], INSTALLATION_DIR + lock.value[n].plugin);
        if r == Some(InvalidArgument) {
          return false, registered;
        }
        ListedMore(lock.value, n);
        if r.None? {
          registered := registered + 1;
        }
        n := n + 1;
      }
      assert lock.value[..n] == lock.value;
      ok := true;
    }

    /** The state an entry asks for, if the entry passes every check. */
    method CheckEntry(tenant: string, entry: Desired) returns (r: Checked)
      requires Valid()
      ensures r.Passed? ==>
        && entry.Acceptable(tenant) && (BindsSecrets(entry.config) ==> resolvesSecrets)
        && r.state == entry.State(tenant, PathOf(store.files, entry.Key(tenant)))
      ensures r.Refuses? ==>
        || (r.why == Unacceptable && !entry.Acceptable(tenant))
        || (r.why == SecretsUnavailable && BindsSecrets(entry.config))
        || r.why == PathUnreadable
    {
      hide TrimSpace, ValidSegment, ValidConfig, BindsSecrets, Manager.Valid, WellStored;
      EmptyIsNoSegment();
      if TrimSpace(entry.id) == "" || TrimSpace(entry.plugin) == "" || TrimSpace(entry.version) == ""
         || !ValidSegment(TrimSpace(entry.id)) || ParseIsolation(entry.isolation).None? {
        return Refuses(Unacceptable);
      }
      if BindsSecrets(entry.config) {
        var resolved: bool := *;
        if !resolvesSecrets || !resolved {
          return Refuses(SecretsUnavailable);
        }
      }
      var state := entry.State(tenant, "");
      var previous := store.Load(entry.Key(tenant));
      if previous.Found? {
        state := state.(configPath := previous.state.configPath);
      } else if previous.Unreadable? {
        return Refuses(PathUnreadable);
      }
      r := if state.Valid() then Passed(state) else Refuses(Unacceptable);
    }

    /** Check an entry, reconcile the instance, and only then record it. */
    method ApplyOne(tenant: string, entry: Desired) returns (r: ApplyResult, ghost why: Option<Refusal>)
      requires Valid()
      modifies manager, store
      ensures Valid()
      ensures r == ApplyResult(TrimSpace(entry.id), why.None?)
      ensures manager.installations == old(manager.installations)
      ensures UndisturbedBut(old(manager.View()), manager.View(), {entry.Key(tenant)})
      ensures why.Some? ==>
        store.files == old(store.files) && Explains(why.value, old(manager.View()), manager.View(), store.files, tenant, entry)
      ensures r.applied ==>
        && entry.Acceptable(tenant)
        && (BindsSecrets(entry.config) ==> resolvesSecrets)
        && (entry.enabled ==> Install(TrimSpace(entry.plugin), TrimSpace(entry.version)) in manager.installations)
        && var state := entry.State(tenant, PathOf(old(store.files), entry.Key(tenant)));
        && state.Valid() && store.files == old(store.files)[entry.Key(tenant) := state] && Serves(manager.View(), state)
        && RunsAsAsked(manager.View(), tenant, entry, PathOf(old(store.files), entry.Key(tenant)))
        && StoredAsAsked(state, tenant, entry, PathOf(old(store.files), entry.Key(tenant)))
    {
      hide Manager.Valid, StateStore.Valid, InstanceState.Valid, InstanceState.Spec, InstanceState.Key, Desired.State,
           Desired.Acceptable, Desired.Key, Serves, UndisturbedBut, Applied, State.SameBindings, ParseIsolation,
           TrimSpace, BindsSecrets, PathOf, RunsAsAsked, StoredAsAsked, AsAsked;
      ghost var before := manager.View();
      var key := entry.Key(tenant);
      UndisturbedAtAll(before, before, {key});
      var checked := CheckEntry(tenant, entry);
      if checked.Refuses? {
        return ApplyResult(TrimSpace(entry.id), false), Some(checked.why);
      }
      var state := checked.state;
      StateOfEntry(entry, tenant, PathOf(store.files, key));
      var outcome := manager.ReconcileInstance(state.Spec(), entry.enabled);
      if outcome.BeforeCommit() {
        BindingsUndisturbed(before, manager.View(), key);
      } else {
        AppliedServes(before, manager.View(), state);
      }
      if outcome != Done {
        return ApplyResult(TrimSpace(entry.id), false), Some(Unreconciled(outcome));
      }
      DoneIsCommitted();
      SpecAsAsked(tenant, entry, PathOf(store.files, key));
      ServesAsAsked(manager.View(), tenant, entry, PathOf(store.files, key));
      var saved := store.Save(state);
      r, why := ApplyResult(TrimSpace(entry.id), saved), if saved then None else Some(Unsaved);
    }

    /** Disable, remove and forget the instances of the tenant that are not `present`; stop at the first
        failure.  A state file is deleted only after the last process is confirmed gone. */
    method RetireAbsent(tenant: string, present: set<string>) returns (ok: bool)
      requires Valid()
      modifies manager, store
      ensures Valid()
      ensures manager.installations == old(manager.installations)
      ensures var absent := AbsentFrom(old(store.files), tenant, present);
        && UndisturbedBut(old(manager.View()), manager.View(), absent)
        && Reduced(old(store.files), store.files, absent)
        && (ok ==> store.files == old(store.files) - absent && NoneKnown(manager.View(), absent))
    {
      hide Manager.Valid, WellStored, InstanceState.Valid, UndisturbedBut, ParseIsolation;
      ghost var start, absent := manager.View(), AbsentFrom(store.files, tenant, present);
      UndisturbedAtAll(start, start, absent);
      var listed := store.List(Some(tenant));
      if listed.None? {
        return false;
      }
      var states := listed.value;
      ghost var gone: set<InstKey> := {};
      var n := 0;
      while n < |states|
        invariant 0 <= n <= |states| && Valid() && manager.installations == old(manager.installations)
        invariant UndisturbedBut(start, manager.View(), absent)
        invariant gone <= absent && store.files == old(store.files) - gone && NoneKnown(manager.View(), gone)
        invariant forall j :: 0 <= j < n && states[j].Key() in absent ==> states[j].Key() in gone
        invariant forall j :: n <= j < |states| ==> states[j].Key() !in gone
      {
        StatesListed(old(store.files), states[n], tenant, present);
        if states[n].id !in present {
          ghost var before := manager.View();
          var retired := Retire(states[n]);
          StillUndisturbed(start, before, manager.View(), states[n].Key(), absent);
          NoneKnownStays(before, manager.View(), states[n].Key(), gone);
          if !retired {
            return false;
          }
          gone := gone + {states[n].Key()};
        }
        n := n + 1;
      }
      AllListed(old(store.files), states, tenant, present, gone);
      ok := true;
    }

    /** Retire one instance. */
    method Retire(state: InstanceState) returns (ok: bool)
      requires Valid() && state.Valid()
      modifies manager, store
      ensures Valid()
      ensures manager.installations == old(manager.installations)
      ensures UndisturbedBut(old(manager.View()), manager.View(), {state.Key()})
      ensures store.files == if ok then old(store.files) - {state.Key()} else old(store.files)
      ensures ok ==> state.Key() !in manager.instances
    {
      hide Manager.Valid, StateStore.Valid, InstanceState.Valid, Applied, State.SameBindings,
           State.Undisturbed, UndisturbedBut, ParseIsolation, TrimSpace;
      ghost var before := manager.View();
      var outcome := manager.ReconcileInstance(state.Spec(), false);
      if outcome.BeforeCommit() {
        BindingsUndisturbed(before, manager.View(), state.Key());
      } else {
        AppliedUndisturbed(before, manager.View(), state.Spec(), false);
      }
      if outcome != Done {
        return false;
      }
      ghost var disabled := manager.View();
      var removed := manager.Remove(state.Key());
      RemovedUndisturbed(before, disabled, manager.View(), state.Key(), removed.None?);
      if removed.Some? && removed != Some(NotFound) {
        return false;
      }
      ok := store.Delete(state.Key());
    }

    /** Converge to a complete snapshot. */
    method ApplySnapshot(tenant: string, lock: Option<seq<Install>>, entries: seq<Desired>)
      returns (results: seq<ApplyResult>, err: bool, ghost stages: seq<Stage>)
      requires Valid()
      modifies manager, store
      ensures Valid()
      // Every entry had its turn and came out as its result says, unless the lock file could not be
      // registered and nothing was done at all.
      ensures stages == [] ==>
        && AllFailed(results) && (err <==> entries == []) && store.files == old(store.files)
        && manager.View() == old(manager.View()).(installations := manager.installations)
      ensures stages != [] ==>
        && Stages(stages, NormalizeTenant(tenant), entries, results)
        && stages[0] == Stage(old(manager.View()).(installations := manager.installations), old(store.files))
      ensures |results| == |entries| && forall i :: 0 <= i < |entries| ==> results[i].id == TrimSpace(entries[i].id)
      // Full success, where the last entry for an instance counts: the store is the snapshot, and the manager
      // runs it.
      ensures !err && EndedWell(NormalizeTenant(tenant), entries, results) ==>
        var t := NormalizeTenant(tenant);
        && AllAcceptable(t, entries)
        && store.files == Settled(old(store.files), t, entries)
        && WellStored(Settled(old(store.files), t, entries))
        && Converged(old(manager.View()), manager.View(), old(store.files), t, entries)
        && (forall k <- KeysOf(t, entries) ::
              var last, path := LastEntry(t, entries, k).value, PathOf(old(store.files), k);
              && RunsAsAsked(manager.View(), t, last, path)
              && k in store.files && StoredAsAsked(store.files[k], t, last, path))
      // In any case: nobody else is touched.
      ensures var t := NormalizeTenant(tenant);
        && UndisturbedBut(old(manager.View()), manager.View(), KeysOf(t, entries) + Absent(old(store.files), t, entries))
        && OtherTenantsKept(old(store.files), store.files, t)
      // In any case: what the files say is enabled is installed.
      ensures Backed(old(store.files), old(manager.installations)) ==> Backed(store.files, manager.installations)
    {
      hide Manager.Valid, UndisturbedBut, OtherTenantsKept, Backed, Halfway, KeysOf, Absent,
           AbsentFrom, Settled, Converged, WellStored, Reduced, NoneKnown, TrimSpace, NormalizeTenant, AllAcceptable,
           LastApplied, RunsAsAsked, StoredAsAsked, PathOf;
      ghost var start, files := manager.View(), store.files;
      var t := NormalizeTenant(tenant);
      var registered, _ := RegisterInstallations(lock);
      UndisturbedAtAll(start, manager.View(), KeysOf(t, entries) + Absent(files, t, entries));
      BackedByMore(files, start.installations, manager.installations);
      NothingMoved(files, t);
      if !registered {
        results := seq(|entries|, i requires 0 <= i < |entries| => ApplyResult(TrimSpace(entries[i].id), false));
        NoneEndedWell(t, entries, results);
        return results, entries == [], [];
      }
      ghost var before := manager.View();
      var present: set<string>;
      results, present, stages := ApplyEntries(t, entries);
      ghost var applied, middle := manager.View(), store.files;
      var retired := RetireAbsent(t, present);
      err := !retired;
      HalfwayFrom(start, before, applied, files, middle, t, entries, LastApplied(t, entries, results));
      RetiredUndisturbed(start, applied, manager.View(), files, middle, store.files, t, entries, LastApplied(t, entries, results));
      if retired && EndedWell(t, entries, results) {
        RetiredConverged(start, applied, manager.View(), files, middle, store.files, t, entries);
        AllAsAsked(start, manager.View(), files, t, entries);
      }
      BackedByLess(middle, store.files, AbsentFrom(middle, t, present), manager.installations);
    }

    /** Apply the entries in order; one that fails does not keep the others from being applied. */
    method ApplyEntries(tenant: string, entries: seq<Desired>)
      returns (results: seq<ApplyResult>, present: set<string>, ghost stages: seq<Stage>)
      requires Valid()
      modifies manager, store
      ensures Valid()
      // Every entry had its turn, and came out as its result says.
      ensures |stages| == |entries| + 1 && stages[0] == Stage(old(manager.View()), old(store.files))
      ensures stages[|entries|] == Stage(manager.View(), store.files) && Stages(stages, tenant, entries, results)
      ensures |results| == |entries| && forall i :: 0 <= i < |entries| ==> results[i].id == TrimSpace(entries[i].id)
      ensures present == Present(entries)
      ensures manager.installations == old(manager.installations)
      ensures Halfway(old(manager.View()), manager.View(), old(store.files), store.files, tenant, entries,
                      LastApplied(tenant, entries, results))
      ensures Backed(old(store.files), manager.installations) ==> Backed(store.files, manager.installations)
    {
      hide Manager.Valid, StateStore.Valid, UndisturbedBut, Halfway, Backed, Serves, InstanceState.Valid, Desired.State,
           Desired.Acceptable, Desired.Key, BindsSecrets, TrimSpace, Present, CameOut, Explains, Stages, Stepped,
           LastApplied, RunsAsAsked, StoredAsAsked, AsAsked, PathOf, InstanceState.Spec, InstanceState.Key;
      ghost var start, files := manager.View(), store.files;
      results, present, stages := [], {}, [Stage(start, files)];
      HalfwayStart(start, files, tenant, entries);
      StagesStart(Stage(start, files), tenant, entries);
      var n := 0;
      while n < |entries|
        invariant 0 <= n <= |entries| && |results| == n && Valid()
        invariant forall i :: 0 <= i < n ==> results[i].id == TrimSpace(entries[i].id)
        invariant present == Present(entries[..n])
        invariant |stages| == n + 1 && stages[0] == Stage(start, files) && stages[n] == Stage(manager.View(), store.files)
        invariant Stages(stages, tenant, entries[..n], results)
        invariant manager.installations == old(manager.installations)
        invariant Halfway(start, manager.View(), files, store.files, tenant, entries[..n],
                          LastApplied(tenant, entries[..n], results))
        invariant Backed(files, manager.installations) ==> Backed(store.files, manager.installations)
      {
        PresentStep(entries, n);
        if TrimSpace(entries[n].id) != "" {
          present := present + {TrimSpace(entries[n].id)};
        }
        ghost var before, had := manager.View(), store.files;
        var r, why := ApplyOne(tenant, entries[n]);
        assert Stepped(before, manager.View(), had, store.files, tenant, entries[n], r.applied) by {
          SteppedIs(before, manager.View(), had, store.files, tenant, entries[n], r.applied);
        }
        HalfwayStep(start, before, manager.View(), files, had, store.files, tenant, entries, n,
                    LastApplied(tenant, entries[..n], results), r.applied);
        LastAppliedStep(tenant, entries, n, results, r);
        BackedStep(had, store.files, tenant, entries[n], manager.installations, r.applied);
        StageCameOut(Stage(before, had), Stage(manager.View(), store.files), tenant, entries[n], r.applied, why);
        StagesMore(stages, tenant, entries, n, results, Stage(manager.View(), store.files), r);
        stages, results := stages + [Stage(manager.View(), store.files)], results + [r];
        n := n + 1;
      }
      assert entries[..n] == entries;
    }

    /** Start every enabled instance of one tenant, or of all, from the state files. */
    method Load(tenant: Option<string>, lock: Option<seq<Install>>) returns (r: Option<LoadError>, counts: LoadCounts)
      requires Valid()
      modifies manager
      ensures Valid()
      ensures r.Some? ==> counts == LoadCounts(0, 0, 0, false)
      ensures r.None? ==>
        && |manager.installations| == |old(manager.installations)| + counts.installations
        && counts.instances == counts.started == |ToStart(store.files, tenant)|
        && (counts.idle <==> counts.installations == 0 && counts.started == 0)
      ensures r.None? ==> forall k <- store.files ::
        (tenant == None || tenant == Some(k.tenant)) && store.files[k].enabled ==>
          store.files[k].Valid() && Serves(manager.View(), store.files[k])
      // An instance is refused as not installed only if its state file asks for more than is installed.
      ensures r == Some(NotReconciled(Refused(NotInstalled))) ==>
        lock.Some? && !Backed(store.files, old(manager.installations) + Listed(lock.value))
    {
      hide Manager.Valid, WellStored, InstanceState.Valid, Serves, UndisturbedBut, Backed, Applied, State.SameBindings,
           InstanceState.Spec, InOrder, InstanceState.Key;
      counts := LoadCounts(0, 0, 0, false);
      var listed := store.List(tenant);
      if listed.None? {
        return Some(Unlisted), counts;
      }
      var registered, installed := RegisterInstallations(lock);
      if !registered {
        return Some(Unregistered), counts;
      }
      var states := listed.value;
      ListedValid(store.files, states);
      var started;
      r, started := StartAll(states, store.files);
      if r.None? {
        AllStarted(store.files, states, tenant);
        counts := LoadCounts(installed, started, started, installed == 0 && started == 0);
      }
    }

    /** Start the enabled instances in order; the first failure ends it. */
    method StartAll(states: seq<InstanceState>, ghost files: Store) returns (r: Option<LoadError>, started: nat)
      requires Valid() && forall state <- states :: state.Valid() && state.Key() in files && files[state.Key()] == state
      requires forall i, j :: 0 <= i < j < |states| ==> states[i].Key() != states[j].Key()
      modifies manager
      ensures Valid() && manager.installations == old(manager.installations)
      ensures r.None? ==> forall state <- states :: state.enabled ==> Serves(manager.View(), state)
      ensures r.None? ==> started == |StartedKeys(states)|
      ensures r == Some(NotReconciled(Refused(NotInstalled))) ==> !Backed(files, manager.installations)
    {
      hide Manager.Valid, InstanceState.Valid, Serves, UndisturbedBut, Backed, Applied, State.SameBindings,
           InstanceState.Spec, InstanceState.Key, StartedKeys;
      started := 0;
      var n := 0;
      ghost var keys: set<InstKey> := {};
      NothingStarted();
      assert states[..0] == [];
      while n < |states|
        invariant 0 <= n <= |states| && Valid() && manager.installations == old(manager.installations)
        invariant forall j :: 0 <= j < n && states[j].enabled ==> Serves(manager.View(), states[j])
        invariant |keys| == started && keys == StartedKeys(states[..n])
      {
        var cancelled: bool := *;
        if cancelled {
          return Some(Interrupted), started;
        }
        StartedMore(states, n);
        if states[n].enabled {
          ghost var before := manager.View();
          SpecOfState(states[n]);
          var outcome := manager.ReconcileInstance(states[n].Spec(), true);
          if outcome == Refused(NotInstalled) {
            NotBacked(files, states[n], manager.installations, before);
          }
          if outcome != Done {
            SameOrApplied(before, manager.View(), states[n], outcome);
            return Some(NotReconciled(outcome)), started;
          }
          DoneIsCommitted();
          AppliedServes(before, manager.View(), states[n]);
          ServedStay(before, manager.View(), states, n);
          started, keys := started + 1, keys + {states[n].Key()};
        }
        n := n + 1;
      }
      assert states[..n] == states;
      r := None;
    }

    /** A new process over the same state files.  If the lock file still lists what this one had
        installed, replaying the files never asks for an installation that is missing. */
    method Restart(lock: Option<seq<Install>>) returns (next: Host, r: Option<LoadError>, counts: LoadCounts)
      requires Valid()
      ensures next.Valid() && next.store == store
      ensures lock.Some? && Backed(store.files, manager.installations) && manager.installations <= Listed(lock.value) ==>
        r != Some(NotReconciled(Refused(NotInstalled)))
    {
      hide Manager.Valid, WellStored, Backed, Serves;
      var another := new Manager();
      next := new Host(another, store, resolvesSecrets);
      r, counts := next.Load(None, lock);
      if lock.Some? && manager.installations <= Listed(lock.value) {
        BackedByMore(store.files, manager.installations, {} + Listed(lock.value));
      }
    }
  }

  /** The instances a host starts from its state files. */
  function ToStart(files: Store, tenant: Option<string>): set<InstKey> {
    set k <- files | (tenant == None || tenant == Some(k.tenant)) && files[k].enabled
  }

  ghost function StartedKeys(states: seq<InstanceState>): set<InstKey> {
    set state <- states | state.enabled :: state.Key()
  }

  lemma StartedMore(states: seq<InstanceState>, n: nat)
    requires n < |states| && forall i, j :: 0 <= i < j < |states| ==> states[i].Key() != states[j].Key()
    ensures var before := StartedKeys(states[..n]);
      && StartedKeys(states[..n + 1]) == (if states[n].enabled then before + {states[n].Key()} else before)
      && states[n].Key() !in before
  {
    hide InstanceState.Key;
    assert states[..n + 1] == states[..n] + [states[n]];
    forall state | state in states[..n]
      ensures state.Key() != states[n].Key()
    {
      var i :| 0 <= i < n && states[..n][i] == state;
      assert states[i] == state;
    }
  }

  lemma NothingStarted()
    ensures StartedKeys([]) == {}
  {
  }

  lemma AllStarted(files: Store, states: seq<InstanceState>, tenant: Option<string>)
    requires WellStored(files) && forall state <- states :: state.Key() in files && files[state.Key()] == state
    requires forall k <- files :: (tenant == None || tenant == Some(k.tenant)) <==> files[k] in states
    ensures StartedKeys(states) == ToStart(files, tenant)
  {
    hide InstanceState.Valid;
    forall k
      ensures k in StartedKeys(states) <==> k in ToStart(files, tenant)
    {
      if k in ToStart(files, tenant) {
        assert files[k] in states && files[k].Key() == k;
      }
    }
  }

  lemma EmptyIsNoSegment()
    ensures !ValidSegment("")
  {
  }

  lemma ListedValid(files: Store, states: seq<InstanceState>)
    requires WellStored(files) && forall s <- states :: s.Key() in files && files[s.Key()] == s
    ensures (forall k <- files :: files[k].Valid()) && (forall s <- states :: s.Valid())
  {
    hide InstanceState.Valid;
  }

  lemma SpecOfState(state: InstanceState)
    requires state.Valid()
    ensures state.Spec().Key() == state.Key() && state.Spec().Needs() == Install(state.plugin, state.version)
  {
    hide InstanceState.Valid;
  }

  lemma NotBacked(files: Store, state: InstanceState, installed: set<Install>, before: State)
    requires state.Key() in files && files[state.Key()] == state && state.enabled
    requires Install(state.plugin, state.version) !in installed
    ensures !Backed(files, installed)
  {
  }

  lemma SameOrApplied(a: State, b: State, state: InstanceState, outcome: Reconciled)
    requires state.Valid() && state.enabled
    requires if outcome.BeforeCommit() then a.SameBindings(b) else Applied(a, b, state.Spec(), true)
    ensures a.installations == b.installations
  {
    hide InstanceState.Valid, InstanceState.Spec;
  }

  lemma ServedStay(a: State, b: State, states: seq<InstanceState>, n: nat)
    requires n < |states| && UndisturbedBut(a, b, {states[n].Key()}) && forall s <- states :: s.Valid()
    requires forall i, j :: 0 <= i < j < |states| ==> states[i].Key() != states[j].Key()
    ensures forall j :: 0 <= j < n && Serves(a, states[j]) ==> Serves(b, states[j])
  {
    hide InstanceState.Valid, Serves, UndisturbedBut;
    forall j | 0 <= j < n && Serves(a, states[j])
      ensures Serves(b, states[j])
    {
      ServesStays(a, b, states[j], {states[n].Key()});
    }
  }

  function Present(entries: seq<Desired>): set<string> {
    set e <- entries | TrimSpace(e.id) != "" :: TrimSpace(e.id)
  }

  lemma PresentStep(entries: seq<Desired>, n: nat)
    requires n < |entries|
    ensures Present(entries[..0]) == {}
    ensures Present(entries[..n + 1]) ==
      Present(entries[..n]) + if TrimSpace(entries[n].id) != "" then {TrimSpace(entries[n].id)} else {}
  {
    assert entries[..n + 1] == entries[..n] + [entries[n]];
    hide TrimSpace;
  }

  /** The outcome of one more entry, as `Host.ApplyOne` promises it. */
  ghost predicate Stepped(b: State, c: State, had: Store, now: Store, tenant: string, entry: Desired, applied: bool) {
    && UndisturbedBut(b, c, {entry.Key(tenant)})
    && (!applied ==> now == had)
    && (applied ==>
          && entry.Acceptable(tenant)
          && var state := entry.State(tenant, PathOf(had, entry.Key(tenant)));
          state.Valid() && now == had[entry.Key(tenant) := state] && Serves(c, state))
  }

  /** What the manager runs, and what the state files say. */
  datatype Stage = Stage(manager: State, files: Store)

  /** An entry was applied between two stages, or there is a reason why it was not. */
  ghost predicate CameOut(a: Stage, b: Stage, tenant: string, entry: Desired, applied: bool) {
    && Stepped(a.manager, b.manager, a.files, b.files, tenant, entry, applied)
    && (!applied ==> exists why :: Explains(why, a.manager, b.manager, a.files, tenant, entry))
  }

  ghost predicate Stages(stages: seq<Stage>, tenant: string, entries: seq<Desired>, results: seq<ApplyResult>) {
    && |stages| == |entries| + 1 && |results| == |entries|
    && forall i :: 0 <= i < |entries| ==> CameOut(stages[i], stages[i + 1], tenant, entries[i], results[i].applied)
  }

  lemma StageCameOut(a: Stage, b: Stage, tenant: string, entry: Desired, applied: bool, why: Option<Refusal>)
    requires applied <==> why.None?
    requires Stepped(a.manager, b.manager, a.files, b.files, tenant, entry, applied)
    requires why.Some? ==> Explains(why.value, a.manager, b.manager, a.files, tenant, entry)
    ensures CameOut(a, b, tenant, entry, applied)
  {
    hide Stepped, Explains;
  }

  lemma SteppedIs(b: State, c: State, had: Store, now: Store, tenant: string, entry: Desired, applied: bool)
    requires UndisturbedBut(b, c, {entry.Key(tenant)}) && (!applied ==> now == had)
    requires applied ==> entry.Acceptable(tenant)
    requires applied ==>
      var state := entry.State(tenant, PathOf(had, entry.Key(tenant)));
      state.Valid() && now == had[entry.Key(tenant) := state] && Serves(c, state)
    ensures Stepped(b, c, had, now, tenant, entry, applied)
  {
    hide UndisturbedBut, Serves, InstanceState.Valid, Desired.State, Desired.Key, Desired.Acceptable;
  }

  lemma StagesStart(first: Stage, tenant: string, entries: seq<Desired>)
    ensures Stages([first], tenant, entries[..0], [])
  {
  }

  lemma StagesMore(stages: seq<Stage>, tenant: string, entries: seq<Desired>, n: nat, results: seq<ApplyResult>,
                   next: Stage, r: ApplyResult)
    requires n < |entries| && Stages(stages, tenant, entries[..n], results)
    requires CameOut(stages[n], next, tenant, entries[n], r.applied)
    ensures Stages(stages + [next], tenant, entries[..n + 1], results + [r])
  {
    hide CameOut;
    forall i | 0 <= i < n + 1
      ensures CameOut((stages + [next])[i], (stages + [next])[i + 1], tenant, entries[..n + 1][i], (results + [r])[i].applied)
    {
      if i < n {
        assert CameOut(stages[i], stages[i + 1], tenant, entries[..n][i], results[i].applied);
      }
    }
  }

  /** The instance is recorded and served as its last entry says. */
  ghost predicate Finished(b: State, files: Store, now: Store, tenant: string, entries: seq<Desired>, k: InstKey) {
    var last := LastEntry(tenant, entries, k);
    && last.Some? && last.value.Acceptable(tenant) && k in now
    && var state := Accepted(last.value, tenant, PathOf(files, k));
    now[k] == state && state.Key() == k && Serves(b, state)
  }

  /** Some of the entries were applied; local paths survive, and what the entries do not name is untouched. */
  ghost predicate Halfway(a: State, b: State, files: Store, now: Store, tenant: string, entries: seq<Desired>, good: set<InstKey>) {
    && UndisturbedBut(a, b, KeysOf(tenant, entries))
    && OtherTenantsKept(files, now, tenant)
    && files.Keys <= now.Keys <= files.Keys + KeysOf(tenant, entries)
    && (forall k <- now :: k !in KeysOf(tenant, entries) ==> now[k] == files[k])
    && (forall k <- now :: PathOf(now, k) == PathOf(files, k))
    && (forall k <- good :: Finished(b, files, now, tenant, entries, k))
  }

  lemma HalfwayStart(a: State, files: Store, tenant: string, entries: seq<Desired>)
    ensures Halfway(a, a, files, files, tenant, entries[..0], {})
    ensures Present(entries[..0]) == {} && LastApplied(tenant, entries[..0], []) == {}
  {
  }

  lemma FinishedStays(b: State, c: State, files: Store, had: Store, now: Store, tenant: string, entries: seq<Desired>,
                      n: nat, k: InstKey)
    requires n < |entries| && k != entries[n].Key(tenant) && Finished(b, files, had, tenant, entries[..n], k)
    requires UndisturbedBut(b, c, {entries[n].Key(tenant)}) && k in now && now[k] == had[k]
    ensures Finished(c, files, now, tenant, entries[..n + 1], k)
  {
    hide UndisturbedBut, Serves, InstanceState.Valid, Desired.Acceptable, Desired.State, Desired.Key;
    LastEntryStep(tenant, entries, n, k);
    ServesStays(b, c, had[k], {entries[n].Key(tenant)});
  }

  lemma FinishedNow(c: State, files: Store, had: Store, now: Store, tenant: string, entries: seq<Desired>, n: nat)
    requires n < |entries| && entries[n].Acceptable(tenant)
    requires var key := entries[n].Key(tenant);
      && PathOf(had, key) == PathOf(files, key)
      && var state := entries[n].State(tenant, PathOf(had, key));
      state.Valid() && now == had[key := state] && Serves(c, state)
    ensures Finished(c, files, now, tenant, entries[..n + 1], entries[n].Key(tenant))
  {
    hide Serves, InstanceState.Valid, Desired.Acceptable, ParseIsolation, TrimSpace;
    LastEntryStep(tenant, entries, n, entries[n].Key(tenant));
    StateValid(entries[n], tenant, PathOf(had, entries[n].Key(tenant)));
  }

  lemma HalfwayStep(a: State, b: State, c: State, files: Store, had: Store, now: Store, tenant: string,
                    entries: seq<Desired>, n: nat, good: set<InstKey>, applied: bool)
    requires n < |entries| && Halfway(a, b, files, had, tenant, entries[..n], good)
    requires Stepped(b, c, had, now, tenant, entries[n], applied)
    ensures var key := entries[n].Key(tenant);
      Halfway(a, c, files, now, tenant, entries[..n + 1], if applied then good + {key} else good - {key})
  {
    hide UndisturbedBut, Finished, Desired.Acceptable, Desired.State, Serves, InstanceState.Valid, KeysOf, ParseIsolation, TrimSpace,
         Desired.Key, OtherTenantsKept;
    var key := entries[n].Key(tenant);
    KeysStep(tenant, entries, n);
    UndisturbedButComposes(a, b, c, KeysOf(tenant, entries[..n]), {key});
    OneEntryKept(files, had, now, tenant, entries[n], applied) by {
      SteppedStore(b, c, had, now, tenant, entries[n], applied);
    }
    forall k | k in good && k != key
      ensures Finished(c, files, now, tenant, entries[..n + 1], k)
    {
      FinishedKnown(b, files, had, tenant, entries[..n], k);
      FinishedStays(b, c, files, had, now, tenant, entries, n, k);
    }
    if applied {
      SamePath(files, had, key);
      FinishedNow(c, files, had, now, tenant, entries, n);
    }
  }

  lemma SteppedStore(b: State, c: State, had: Store, now: Store, tenant: string, e: Desired, applied: bool)
    requires Stepped(b, c, had, now, tenant, e, applied)
    ensures !applied ==> now == had
    ensures applied ==> e.Acceptable(tenant) && now == had[e.Key(tenant) := e.State(tenant, PathOf(had, e.Key(tenant)))]
  {
    hide UndisturbedBut, Serves, InstanceState.Valid, Desired.Acceptable, Desired.State, Desired.Key;
  }

  /** Recording one entry touches one instance of the tenant, and keeps its local path. */
  lemma OneEntryKept(files: Store, had: Store, now: Store, tenant: string, e: Desired, applied: bool)
    requires !applied ==> now == had
    requires applied ==> e.Acceptable(tenant) && now == had[e.Key(tenant) := e.State(tenant, PathOf(had, e.Key(tenant)))]
    requires OtherTenantsKept(files, had, tenant) && files.Keys <= had.Keys && forall k <- had :: PathOf(had, k) == PathOf(files, k)
    ensures OtherTenantsKept(files, now, tenant) && forall k <- now :: PathOf(now, k) == PathOf(files, k)
  {
    hide InstanceState.Valid, ParseIsolation, TrimSpace;
    if applied {
      PathKept(e, tenant, PathOf(had, e.Key(tenant)));
    }
  }

  lemma FinishedKnown(b: State, files: Store, now: Store, tenant: string, entries: seq<Desired>, k: InstKey)
    requires Finished(b, files, now, tenant, entries, k)
    ensures k in now
  {
    hide Serves, InstanceState.Valid, Desired.Acceptable, Desired.State;
  }

  lemma PathKept(e: Desired, tenant: string, path: string)
    requires ParseIsolation(e.isolation).Some?
    ensures e.State(tenant, path).configPath == path
  {
  }

  lemma SamePath(files: Store, now: Store, k: InstKey)
    requires files.Keys <= now.Keys && forall j <- now :: PathOf(now, j) == PathOf(files, j)
    ensures PathOf(now, k) == PathOf(files, k)
  {
  }

  lemma HalfwayFrom(a: State, b: State, c: State, files: Store, now: Store, tenant: string, entries: seq<Desired>, good: set<InstKey>)
    requires b == a.(installations := b.installations) && Halfway(b, c, files, now, tenant, entries, good)
    ensures Halfway(a, c, files, now, tenant, entries, good)
  {
    hide Finished, KeysOf, OtherTenantsKept;
  }

  /** When every instance ended well, the store is what the last entries say, and the manager serves it. */
  lemma HalfwayRecorded(a: State, b: State, files: Store, now: Store, tenant: string, entries: seq<Desired>)
    requires Halfway(a, b, files, now, tenant, entries, KeysOf(tenant, entries))
    ensures AllAcceptable(tenant, entries) && now == Recorded(files, tenant, entries)
    ensures forall k <- KeysOf(tenant, entries) :: k in now && now[k].Valid() && now[k].Key() == k && Serves(b, now[k])
  {
    hide UndisturbedBut, OtherTenantsKept, Serves, InstanceState.Valid, Desired.State, Desired.Acceptable, Recorded;
    forall k | k in KeysOf(tenant, entries)
      ensures LastEntry(tenant, entries, k).value.Acceptable(tenant)
      ensures k in now && now[k].Valid() && now[k].Key() == k && Serves(b, now[k])
    {
      assert Finished(b, files, now, tenant, entries, k);
    }
    var recorded := Recorded(files, tenant, entries);
    forall k
      ensures k in now <==> k in recorded
      ensures k in now ==> now[k] == recorded[k]
    {
      RecordedAt(files, tenant, entries, k);
      if k in KeysOf(tenant, entries) {
        assert Finished(b, files, now, tenant, entries, k);
      }
    }
  }

  /** The identities to retire are among those the snapshot does not mention. */
  lemma AbsentFromBounds(files: Store, now: Store, tenant: string, entries: seq<Desired>)
    requires WellStored(now) && now.Keys <= files.Keys + KeysOf(tenant, entries)
    ensures AbsentFrom(now, tenant, Present(entries)) <= Absent(files, tenant, entries)
    ensures files.Keys <= now.Keys ==> AbsentFrom(now, tenant, Present(entries)) == Absent(files, tenant, entries)
  {
    hide TrimSpace, ValidConfig, ParseIsolation;
    forall k | k in now && k.tenant == tenant
      ensures k.id in Present(entries) <==> k in KeysOf(tenant, entries)
    {
      assert now[k].id != "";
    }
    forall k | k in AbsentFrom(now, tenant, Present(entries))
      ensures k in Absent(files, tenant, entries)
    {
      assert now[k].id == k.id;
    }
  }

  lemma RetiredUndisturbed(a: State, b: State, c: State, files: Store, middle: Store, now: Store, tenant: string,
                           entries: seq<Desired>, good: set<InstKey>)
    requires Halfway(a, b, files, middle, tenant, entries, good) && WellStored(middle)
    requires UndisturbedBut(b, c, AbsentFrom(middle, tenant, Present(entries)))
    requires Reduced(middle, now, AbsentFrom(middle, tenant, Present(entries)))
    ensures UndisturbedBut(a, c, KeysOf(tenant, entries) + Absent(files, tenant, entries))
    ensures OtherTenantsKept(files, now, tenant)
  {
    hide UndisturbedBut, KeysOf, Absent, AbsentFrom, Present, WellStored, Finished, Reduced, OtherTenantsKept;
    AbsentFromBounds(files, middle, tenant, entries);
    var absent := AbsentFrom(middle, tenant, Present(entries));
    OthersKept(files, middle, now, tenant, Present(entries));
    UndisturbedButComposes(a, b, c, KeysOf(tenant, entries), absent);
    UndisturbedButMore(a, c, KeysOf(tenant, entries) + absent, KeysOf(tenant, entries) + Absent(files, tenant, entries));
  }

  lemma OthersKept(files: Store, middle: Store, now: Store, tenant: string, present: set<string>)
    requires OtherTenantsKept(files, middle, tenant) && Reduced(middle, now, AbsentFrom(middle, tenant, present))
    ensures OtherTenantsKept(files, now, tenant)
  {
  }

  lemma UndisturbedButMore(a: State, b: State, touched: set<InstKey>, more: set<InstKey>)
    requires UndisturbedBut(a, b, touched) && touched <= more
    ensures UndisturbedBut(a, b, more)
  {
  }

  lemma RetiredConverged(a: State, b: State, c: State, files: Store, middle: Store, now: Store, tenant: string,
                         entries: seq<Desired>)
    requires Halfway(a, b, files, middle, tenant, entries, KeysOf(tenant, entries)) && WellStored(middle) && WellStored(now)
    requires var absent := AbsentFrom(middle, tenant, Present(entries));
      UndisturbedBut(b, c, absent) && now == middle - absent && NoneKnown(c, absent)
    requires UndisturbedBut(a, c, KeysOf(tenant, entries) + Absent(files, tenant, entries))
    ensures AllAcceptable(tenant, entries) && now == Settled(files, tenant, entries)
    ensures Converged(a, c, files, tenant, entries)
  {
    hide UndisturbedBut, KeysOf, Absent, AbsentFrom, Present, WellStored, Recorded, AllAcceptable, Serves,
         InstanceState.Valid, OtherTenantsKept, Finished;
    HalfwayRecorded(a, b, files, middle, tenant, entries);
    RecordedKeys(files, tenant, entries);
    AbsentFromBounds(files, middle, tenant, entries);
    AbsentAreOthers(files, tenant, entries);
    forall k | k in KeysOf(tenant, entries)
      ensures k in now && Serves(c, now[k])
    {
      ServesStays(b, c, middle[k], Absent(files, tenant, entries));
    }
  }

  lemma RecordedKeys(files: Store, tenant: string, entries: seq<Desired>)
    requires AllAcceptable(tenant, entries)
    ensures files.Keys <= Recorded(files, tenant, entries).Keys
  {
  }

  lemma AbsentAreOthers(files: Store, tenant: string, entries: seq<Desired>)
    ensures Absent(files, tenant, entries) !! KeysOf(tenant, entries)
  {
  }

  lemma NothingMoved(files: Store, tenant: string)
    ensures OtherTenantsKept(files, files, tenant)
  {
  }

  lemma BackedByMore(store: Store, installed: set<Install>, more: set<Install>)
    requires installed <= more
    ensures Backed(store, installed) ==> Backed(store, more)
  {
  }

  lemma BackedByLess(store: Store, less: Store, absent: set<InstKey>, installed: set<Install>)
    requires Reduced(store, less, absent)
    ensures Backed(store, installed) ==> Backed(less, installed)
  {
  }

  /** A state is saved only after the manager accepted it, so what it enables is installed. */
  lemma BackedStep(had: Store, now: Store, tenant: string, entry: Desired, installed: set<Install>, applied: bool)
    requires !applied ==> now == had
    requires applied ==>
      && entry.Acceptable(tenant)
      && now == had[entry.Key(tenant) := entry.State(tenant, PathOf(had, entry.Key(tenant)))]
      && (entry.enabled ==> Install(TrimSpace(entry.plugin), TrimSpace(entry.version)) in installed)
    ensures Backed(had, installed) ==> Backed(now, installed)
  {
    hide TrimSpace, InstanceState.Valid;
  }

  ghost predicate OtherTenantsKept(a: Store, b: Store, tenant: string) {
    forall k: InstKey :: k.tenant != tenant ==> (k in a <==> k in b) && (k in a ==> b[k] == a[k])
  }

  /** States of the tenant under other identities than those `present`. */
  ghost function AbsentFrom(store: Store, tenant: string, present: set<string>): set<InstKey> {
    set k <- store | k.tenant == tenant && k.id !in present
  }

  /** Some of the `absent` files are gone, nothing else moved. */
  ghost predicate Reduced(a: Store, b: Store, absent: set<InstKey>) {
    && (forall k <- b :: k in a && b[k] == a[k])
    && (forall k <- a :: k !in absent ==> k in b)
  }

  ghost predicate NoneKnown(st: State, keys: set<InstKey>) {
    forall k <- keys :: k !in st.instances
  }

  lemma NoneKnownStays(a: State, b: State, key: InstKey, keys: set<InstKey>)
    requires NoneKnown(a, keys) && UndisturbedBut(a, b, {key}) && key !in keys
    ensures NoneKnown(b, keys)
  {
  }

  lemma StillUndisturbed(a: State, b: State, c: State, key: InstKey, touched: set<InstKey>)
    requires UndisturbedBut(a, b, touched) && UndisturbedBut(b, c, {key}) && key in touched
    ensures UndisturbedBut(a, c, touched)
  {
    UndisturbedButComposes(a, b, c, touched, {key});
    assert touched + {key} == touched;
  }

  lemma StatesListed(store: Store, state: InstanceState, tenant: string, present: set<string>)
    requires WellStored(store) && state.Key() in store && store[state.Key()] == state && state.tenant == tenant
    ensures state.Valid() && (state.id !in present <==> state.Key() in AbsentFrom(store, tenant, present))
  {
    hide InstanceState.Valid;
  }

  lemma AllListed(store: Store, states: seq<InstanceState>, tenant: string, present: set<string>, gone: set<InstKey>)
    requires WellStored(store) && gone <= AbsentFrom(store, tenant, present)
    requires forall k <- store :: k.tenant == tenant ==> store[k] in states
    requires forall j :: 0 <= j < |states| && states[j].Key() in AbsentFrom(store, tenant, present) ==> states[j].Key() in gone
    ensures gone == AbsentFrom(store, tenant, present)
  {
    hide InstanceState.Valid;
    forall k | k in AbsentFrom(store, tenant, present)
      ensures k in gone
    {
      assert store[k] in states && store[k].Key() == k;
    }
  }

  lemma AppliedUndisturbed(a: State, b: State, inst: Instance, enabled: bool)
    requires Applied(a, b, inst, enabled)
    ensures UndisturbedBut(a, b, {inst.Key()}) && a.installations == b.installations
  {
  }

  lemma RemovedUndisturbed(a: State, b: State, c: State, key: InstKey, removed: bool)
    requires UndisturbedBut(a, b, {key}) && (if removed then b.Undisturbed(c, key) else c == b)
    ensures UndisturbedBut(a, c, {key}) && c.installations == b.installations
  {
  }

  lemma DoneIsCommitted()
    ensures !Done.BeforeCommit()
  {
  }

  lemma StateOfEntry(e: Desired, tenant: string, path: string)
    requires e.Acceptable(tenant)
    ensures ParseIsolation(e.isolation).Some?
    ensures var state := e.State(tenant, path);
      && state.Valid() && state.Key() == e.Key(tenant) && state.Key() == InstKey(tenant, TrimSpace(e.id))
      && state.isolation != "" && state.enabled == e.enabled
      && state.Spec().Key() == e.Key(tenant)
      && state.Spec().Needs() == Install(TrimSpace(e.plugin), TrimSpace(e.version))
  {
    hide TrimSpace, ValidSegment, ValidConfig;
    StateValid(e, tenant, path);
  }

  lemma BindingsUndisturbed(a: State, b: State, key: InstKey)
    requires a.SameBindings(b)
    ensures UndisturbedBut(a, b, {key}) && a.installations == b.installations
  {
  }

  lemma AppliedServes(a: State, b: State, state: InstanceState)
    requires state.Valid() && Applied(a, b, state.Spec(), state.enabled)
    ensures Serves(b, state) && UndisturbedBut(a, b, {state.Key()}) && a.installations == b.installations
  {
  }
}
