/** Process ownership in the plugin host: which supervised process group serves which plugin
    instance, across create, reconcile, enable, disable, remove and health passes.

    Lifecycle operations are serialized by one lock, so each method below is one holder of it.
    What runs without that lock -- a supervisor losing a session, restoring the configurations of a
    restarted process, publishing the new session, a process exiting -- is `Interfere`, which
    performs any number of such steps and is called wherever an operation lets go of the inner
    lock.  Results of remote calls and of waiting for an exit are arbitrary (`:= *`).

    Process groups and sessions are tables indexed by identity: two bindings share a process when
    they hold the same identity. */
module PluginHost {
  import opened Wrappers

  type Config = map<string, string>

  datatype Isolation = SharedProcess | PerInstance

  datatype Install = Install(plugin: string, version: string)

  datatype InstKey = InstKey(tenant: string, id: string)

  datatype ProcKey = SharedKey(install: Install) | PerKey(owner: InstKey)

  datatype Instance = Instance(tenant: string, id: string, plugin: string, version: string,
                               config: Config, isolation: Isolation) {
    function Key(): InstKey { InstKey(tenant, id) }

    function Needs(): Install { Install(plugin, version) }

    function ProcKey(): ProcKey {
      if isolation == PerInstance then PerKey(Key()) else SharedKey(Needs())
    }
  }

  const CONFIG_PATH_KEY := "path"

  /** The part of a configuration that is sent to the plugin. */
  function PluginConfig(config: Config): Config { config - {CONFIG_PATH_KEY} }

  type GroupId = nat
  type SessionId = nat

  /** One supervised plugin process. */
  datatype ProcGroup = ProcGroup(
    key: ProcKey,
    install: Install,            // the installation it was built for
    cancelled: bool,             // told to stop for good
    exited: bool,                // confirmed gone
    stopped: bool,               // its supervisor is in the DISABLED state
    session: Option<SessionId>)

  /** One authenticated connection to one launch of a plugin process. */
  datatype Session = Session(
    owner: GroupId,
    published: bool,             // visible to users of the group
    applied: map<InstKey, Config>)  // what the plugin last accepted on this connection

  /** Bookkeeping for one instance; a new definition gets a new serial number. */
  datatype Record = Record(
    inst: Instance,
    enabled: bool,
    failures: nat,
    configured: Option<SessionId>,
    revision: nat,
    serial: nat)

  /** The local state of one running session restore. */
  datatype Ticket = Ticket(session: SessionId, targets: map<InstKey, Record>)

  datatype Error = InvalidArgument | NotInstalled | AlreadyExists | NotFound | Cancelled

  datatype Reconciled =
    | Done                        // applied, and nothing this instance owned is still being stopped
    | Refused(error: Error)       // turned away before anything happened
    | StillRetiring               // a predecessor of an earlier attempt has not exited; nothing changed
    | Rejected                    // the candidate failed before the switch; the old binding stays
    | SwitchedButRetiring         // the new binding is live, a predecessor has not exited yet
  {
    /** The operation ended before its commit point. */
    predicate BeforeCommit() { Refused? || StillRetiring? || Rejected? }
  }

  datatype State = State(
    installations: set<Install>,
    instances: map<InstKey, Record>,
    procs: map<ProcKey, GroupId>,
    retiring: map<GroupId, InstKey>,       // stopping, not yet confirmed gone; by owner
    groups: map<GroupId, ProcGroup>,       // every group ever launched
    sessions: map<SessionId, Session>,
    restores: map<GroupId, Ticket>,
    abandoned: set<GroupId>,               // Remove gave up waiting for these
    serials: nat)                          // serial numbers handed out so far
  {
    /** `g` is the group its own key resolves to. */
    predicate Current(g: GroupId)
      requires g in groups
    {
      groups[g].key in procs && procs[groups[g].key] == g
    }

    predicate Serves(g: GroupId, rec: Record) {
      rec.inst.ProcKey() in procs && procs[rec.inst.ProcKey()] == g
    }

    /** The plugin at the other end of `s` runs `inst` with exactly its configuration. */
    ghost predicate Runs(s: SessionId, inst: Instance) {
      s in sessions && inst.Key() in sessions[s].applied && sessions[s].applied[inst.Key()] == PluginConfig(inst.config)
    }

    /** Every identity in use is known. */
    ghost predicate Closed() {
      && (forall p <- procs :: procs[p] in groups && groups[procs[p]].key == p)
      && (forall g <- retiring :: g in groups)
      && (forall g <- groups :: groups[g].session.Some? ==>
            && groups[g].session.value in sessions
            && sessions[groups[g].session.value].owner == g
            && sessions[groups[g].session.value].published)
      && (forall s <- sessions :: sessions[s].owner in groups)
      && (forall k <- instances :: instances[k].configured.Some? ==> instances[k].configured.value in sessions)
    }

    /** Every enabled instance resolves to a group built for its own installation. */
    ghost predicate Bound()
      requires Closed()
    {
      BoundBut(None)
    }

    ghost predicate BoundBut(leaving: Option<ProcKey>)
      requires Closed()
    {
      && (forall k <- instances :: instances[k].inst.Key() == k)
      && (forall k <- instances :: instances[k].enabled ==> instances[k].inst.ProcKey() in procs)
      && (forall p <- procs :: p.SharedKey? ==> groups[procs[p]].install == p.install)
      && (forall p <- procs :: p.PerKey? && leaving != Some(p) ==>
            && p.owner in instances
            && instances[p.owner].inst.isolation == PerInstance
            && groups[procs[p]].install == instances[p.owner].inst.Needs())
    }

    /** No group is lost: apart from `loose` ones in the hands of the running operation, a launched
        group is either current or cancelled, and a cancelled one is tracked until it is gone. */
    ghost predicate Tracked(loose: set<GroupId>)
      requires Closed()
    {
      && (forall g <- groups :: g !in loose ==> (!groups[g].cancelled <==> Current(g)))
      && (forall g <- groups :: g in loose ==> !groups[g].cancelled && !Current(g))
      && (forall g <- groups :: groups[g].cancelled ==> g in retiring || groups[g].exited || g in abandoned)
      && (forall g <- retiring :: g in loose || groups[g].cancelled)
    }

    /** A restoring session is private, and has accepted what its targets record. */
    ghost predicate Restoring() {
      forall g <- restores ::
        && g in groups
        && restores[g].session in sessions
        && sessions[restores[g].session].owner == g
        && !sessions[restores[g].session].published
        && (forall k <- restores[g].targets ::
              var inst := restores[g].targets[k].inst;
              inst.Key() == k && (PluginConfig(inst.config) != map[] ==> Runs(restores[g].session, inst)))
    }

    /** A serial number stands for one record. */
    ghost predicate Numbered() {
      && (forall k <- instances :: instances[k].serial < serials)
      && (forall g <- restores :: forall k <- restores[g].targets ::
            && restores[g].targets[k].serial < serials
            && (k in instances && instances[k].serial == restores[g].targets[k].serial ==>
                  instances[k].inst == restores[g].targets[k].inst))
    }

    /** Recorded and accepted configurations agree.  An empty configuration is exempt: it is not
        sent on a first enable. */
    ghost predicate Agrees(rec: Record) {
      rec.configured.Some? && PluginConfig(rec.inst.config) != map[] ==> Runs(rec.configured.value, rec.inst)
    }

    /** All records agree, except possibly the one of `busy` while it points at the session `on`. */
    ghost predicate Agreement(busy: InstKey, on: Option<SessionId>) {
      forall k <- instances ::
        (k == busy && on.Some? && instances[k].configured == on) || Agrees(instances[k])
    }

    ghost predicate Inv(loose: set<GroupId>, busy: InstKey, on: Option<SessionId>) {
      && loose <= groups.Keys
      && Closed() && Bound() && Tracked(loose) && Restoring() && Numbered() && Agreement(busy, on)
    }

    /** Nothing that `owner` owned is still being stopped. */
    ghost predicate NothingRetiring(owner: InstKey) {
      forall g <- retiring :: retiring[g] != owner
    }

    /** The same instances, enabled alike, bound to the same groups. */
    ghost predicate SameBindings(next: State) {
      && next.installations == installations && next.procs == procs
      && next.instances.Keys == instances.Keys
      && (forall k <- instances ::
            next.instances[k].inst == instances[k].inst && next.instances[k].enabled == instances[k].enabled)
    }

    /** Every instance but `key` keeps its definition, and while enabled its process. */
    ghost predicate Undisturbed(next: State, key: InstKey) {
      && next.installations == installations
      && (forall k :: k != key ==> (k in instances <==> k in next.instances))
      && (forall k <- instances :: k != key ==>
            && next.instances[k].inst == instances[k].inst && next.instances[k].enabled == instances[k].enabled
            && (instances[k].enabled ==>
                  Resolve(next, instances[k].inst.ProcKey()) == Resolve(this, instances[k].inst.ProcKey())))
    }

    /** No operation moved a binding or a process: only supervision, and what plugins accepted. */
    ghost predicate Quiet(next: State) {
      && next.installations == installations && next.procs == procs && next.retiring == retiring
      && next.abandoned == abandoned && next.serials == serials
      && next.instances.Keys == instances.Keys
      && (forall k <- instances ::
            && next.instances[k].inst == instances[k].inst
            && next.instances[k].enabled == instances[k].enabled
            && next.instances[k].failures == instances[k].failures
            && next.instances[k].serial == instances[k].serial)
      && next.groups.Keys == groups.Keys
      && (forall g <- groups ::
            && next.groups[g].key == groups[g].key
            && next.groups[g].install == groups[g].install
            && next.groups[g].cancelled == groups[g].cancelled
            && (groups[g].exited ==> next.groups[g].exited))
      && (forall s <- sessions ::
            && s in next.sessions
            && next.sessions[s].owner == sessions[s].owner
            && (sessions[s].published ==> next.sessions[s].published))
      && (forall k <- instances :: next.instances[k].configured != instances[k].configured ==>
            Moved(next, next.instances[k].configured))
    }

    /** A record only ever moves by itself to a session restored on a current group. */
    ghost predicate Moved(next: State, configured: Option<SessionId>) {
      && configured.Some? && configured.value in next.sessions
      && (exists p :: p in procs && procs[p] == next.sessions[configured.value].owner)
      && (configured.value in sessions ==> !sessions[configured.value].published)
    }

    /** `next` differs from this state at most by what supervisors do on their own. */
    ghost predicate OnlySupervision(next: State) {
      && Quiet(next)
      && (forall s <- sessions :: s in next.sessions && next.sessions[s].applied == sessions[s].applied)
    }
  }

  // ------------------------------------------------------------- steps of the supervisors

  /** The process of `g` dies, or a running restore fails: the session is gone. */
  function LoseSession(st: State, g: GroupId): State
    requires g in st.groups
  {
    st.(groups := st.groups[g := st.groups[g].(session := None)], restores := st.restores - {g})
  }

  /** The supervisor of `g` enters or leaves DISABLED, or its run loop ends. */
  function MoveSupervisor(st: State, g: GroupId, stopped: bool, exited: bool): State
    requires g in st.groups
  {
    st.(groups := st.groups[g := st.groups[g].(stopped := stopped, exited := st.groups[g].exited || exited)])
  }

  /** Instances whose configuration the manager already applied to an earlier launch of `g`. */
  function RestoreTargets(st: State, g: GroupId): map<InstKey, Record> {
    map k <- st.instances |
      && st.instances[k].enabled && st.Serves(g, st.instances[k])
      && (st.instances[k].configured.Some? || st.instances[k].revision > 0) :: st.instances[k]
  }

  /** Whether a restart sends the configuration of a record again: an instance that was never configured, and
      has nothing to be configured with, is left alone. */
  predicate Replays(rec: Record) { rec.revision > 0 || PluginConfig(rec.inst.config) != map[] }

  /** A restarted process of `g` authenticated: every earlier configuration is replayed on a session
      nobody can see yet.  A replay that fails is `LoseSession`. */
  function BeginRestore(st: State, g: GroupId, s: SessionId): State
    requires g in st.groups && s !in st.sessions
  {
    var targets := RestoreTargets(st, g);
    var applied := map k <- targets | Replays(targets[k]) :: PluginConfig(targets[k].inst.config);
    st.(sessions := st.sessions[s := Session(g, false, applied)], restores := st.restores[g := Ticket(s, targets)])
  }

  /** Every replay was accepted: records that are still the ones replayed now point at the new
      session. */
  function CommitRestore(st: State, g: GroupId): State
    requires g in st.restores
  {
    var Ticket(s, targets) := st.restores[g];
    st.(instances := map k <- st.instances ::
          var rec := st.instances[k];
          if k in targets && rec.serial == targets[k].serial && rec.enabled && st.Serves(g, rec)
          then rec.(configured := Some(s), revision := MaxRevision(rec.revision, targets[k].revision + if Replays(targets[k]) then 1 else 0))
          else rec,
        restores := st.restores[g := Ticket(s, map[])])
  }

  function MaxRevision(a: nat, b: nat): nat { if a < b then b else a }

  /** Nothing is left to replay: users of the group may see the session. */
  function Publish(st: State, g: GroupId): State
    requires g in st.restores && g in st.groups && st.restores[g].session in st.sessions
  {
    var s := st.restores[g].session;
    st.(groups := st.groups[g := st.groups[g].(session := Some(s))],
        sessions := st.sessions[s := st.sessions[s].(published := true)],
        restores := st.restores - {g})
  }

  /** Supervisors cannot disturb ownership. */
  lemma SupervisionKeepsOwnership(a: State, b: State, loose: set<GroupId>)
    requires a.Closed() && a.Bound() && a.Tracked(loose)
    requires a.Quiet(b) && b.Closed()
    ensures b.Bound() && b.Tracked(loose)
  {
  }

  lemma LoseSessionSteps(st: State, g: GroupId)
    requires g in st.groups && st.Closed()
    ensures var next := LoseSession(st, g); next.Closed() && st.OnlySupervision(next)
  {
  }

  lemma LoseSessionKeeps(st: State, g: GroupId, busy: InstKey, on: Option<SessionId>)
    requires g in st.groups && st.Restoring() && st.Numbered() && st.Agreement(busy, on)
    ensures var next := LoseSession(st, g); next.Restoring() && next.Numbered() && next.Agreement(busy, on)
  {
  }

  lemma MoveSupervisorSteps(st: State, g: GroupId, stopped: bool, exited: bool)
    requires g in st.groups && st.Closed()
    ensures var next := MoveSupervisor(st, g, stopped, exited); next.Closed() && st.OnlySupervision(next)
  {
  }

  lemma MoveSupervisorKeeps(st: State, g: GroupId, stopped: bool, exited: bool, busy: InstKey, on: Option<SessionId>)
    requires g in st.groups && st.Restoring() && st.Numbered() && st.Agreement(busy, on)
    ensures var next := MoveSupervisor(st, g, stopped, exited);
      next.Restoring() && next.Numbered() && next.Agreement(busy, on)
  {
  }

  lemma BeginRestoreSteps(st: State, g: GroupId, s: SessionId)
    requires g in st.groups && s !in st.sessions && st.Closed()
    ensures var next := BeginRestore(st, g, s); next.Closed() && st.OnlySupervision(next)
  {
  }

  /** The new session has accepted the recorded configuration of each of its targets. */
  lemma BeginRestoreReplays(st: State, g: GroupId, s: SessionId, k: InstKey)
    requires g in st.groups && s !in st.sessions
    requires k in RestoreTargets(st, g) && st.instances[k].inst.Key() == k
    ensures var inst := st.instances[k].inst;
      PluginConfig(inst.config) != map[] ==> BeginRestore(st, g, s).Runs(s, inst)
  {
  }

  lemma BeginRestoreKeeps(st: State, g: GroupId, s: SessionId)
    requires g in st.groups && s !in st.sessions && st.Restoring() && st.Numbered()
    requires forall k <- st.instances :: st.instances[k].inst.Key() == k
    ensures var next := BeginRestore(st, g, s); next.Restoring() && next.Numbered()
  {
    var next := BeginRestore(st, g, s);
    forall k | k in next.restores[g].targets
      ensures var inst := next.restores[g].targets[k].inst;
        inst.Key() == k && (PluginConfig(inst.config) != map[] ==> next.Runs(s, inst))
    {
      BeginRestoreReplays(st, g, s, k);
    }
    hide PluginConfig;
    forall h | h in next.restores && h != g
      ensures forall k <- next.restores[h].targets ::
        var inst := next.restores[h].targets[k].inst;
        inst.Key() == k && (PluginConfig(inst.config) != map[] ==> next.Runs(next.restores[h].session, inst))
    {
      assert next.restores[h] == st.restores[h];
      assert next.sessions[st.restores[h].session] == st.sessions[st.restores[h].session];
    }
  }

  /** A new session cannot change what an older one accepted. */
  lemma NewSessionAgrees(st: State, next: State, busy: InstKey, on: Option<SessionId>)
    requires st.Agreement(busy, on) && next.instances == st.instances
    requires forall s <- st.sessions :: s in next.sessions && next.sessions[s].applied == st.sessions[s].applied
    ensures next.Agreement(busy, on)
  {
    forall k | k in next.instances
      ensures (k == busy && on.Some? && next.instances[k].configured == on) || next.Agrees(next.instances[k])
    {
      assert (k == busy && on.Some? && st.instances[k].configured == on) || st.Agrees(st.instances[k]);
    }
  }

  lemma CommitRestoreClosed(st: State, g: GroupId)
    requires st.Closed() && st.Restoring() && g in st.restores
    ensures var next := CommitRestore(st, g); next.Closed()
  {
  }

  lemma CommitRestoreSteps(st: State, g: GroupId)
    requires st.Closed() && st.Restoring() && g in st.restores
    ensures var next := CommitRestore(st, g); st.OnlySupervision(next)
  {
    hide MaxRevision, Replays, State.Moved;
    var next := CommitRestore(st, g);
    forall k | k in st.instances && next.instances[k].configured != st.instances[k].configured
      ensures st.Moved(next, next.instances[k].configured)
    {
      CommitMoves(st, g, k);
    }
  }

  lemma CommitMoves(st: State, g: GroupId, k: InstKey)
    requires st.Closed() && st.Restoring() && g in st.restores && k in st.instances
    ensures var next := CommitRestore(st, g);
      next.instances[k].configured != st.instances[k].configured ==> st.Moved(next, next.instances[k].configured)
  {
    hide MaxRevision, Replays;
  }

  /** The records that move to the new session are those the plugin accepted there. */
  lemma CommitRestoreKeeps(st: State, g: GroupId, busy: InstKey, on: Option<SessionId>)
    requires st.Restoring() && st.Numbered() && g in st.restores && st.Agreement(busy, on)
    ensures var next := CommitRestore(st, g); next.Restoring() && next.Numbered() && next.Agreement(busy, on)
  {
  }

  lemma PublishClosed(st: State, g: GroupId)
    requires st.Closed() && st.Restoring() && g in st.restores
    ensures var next := Publish(st, g); next.Closed()
  {
  }

  lemma PublishSteps(st: State, g: GroupId)
    requires st.Closed() && st.Restoring() && g in st.restores
    ensures var next := Publish(st, g); st.OnlySupervision(next)
  {
  }

  lemma PublishKeeps(st: State, g: GroupId)
    requires st.Restoring() && st.Numbered() && g in st.restores
    ensures var next := Publish(st, g); next.Restoring() && next.Numbered()
  {
  }

  lemma SupervisionMayIdle(st: State)
    ensures st.OnlySupervision(st)
  {
  }

  lemma SupervisionIsQuiet(a: State, b: State)
    requires a.OnlySupervision(b)
    ensures a.Quiet(b)
  {
  }

  lemma QuietIsNoRebinding(a: State, b: State)
    requires a.Quiet(b)
    ensures a.SameBindings(b) && b.groups.Keys == a.groups.Keys && b.retiring == a.retiring
  {
  }

  lemma BindingsCompose(a: State, b: State, c: State)
    requires a.SameBindings(b) && b.SameBindings(c)
    ensures a.SameBindings(c)
  {
  }

  lemma SameDefinition(st: State, next: State, key: InstKey)
    requires st.SameBindings(next) && key in st.instances
    ensures key in next.instances && next.instances[key].inst == st.instances[key].inst
  {
  }

  lemma BindingsAlike(st: State, next: State)
    requires next.installations == st.installations && next.procs == st.procs && next.instances == st.instances
    ensures st.SameBindings(next)
  {
  }

  lemma QuietComposes(a: State, b: State, c: State)
    requires a.Quiet(b) && b.Quiet(c)
    ensures a.Quiet(c)
  {
    forall k | k in a.instances && c.instances[k].configured != a.instances[k].configured
      ensures a.Moved(c, c.instances[k].configured)
    {
      if c.instances[k].configured != b.instances[k].configured {
        assert b.Moved(c, c.instances[k].configured);
      } else {
        assert a.Moved(b, b.instances[k].configured);
      }
    }
  }

  lemma SupervisionComposes(a: State, b: State, c: State)
    requires a.OnlySupervision(b) && b.OnlySupervision(c)
    ensures a.OnlySupervision(c)
  {
    hide State.Quiet;
    QuietComposes(a, b, c);
  }

  /** One step a supervisor may take on its own. */
  datatype SupervisorStep =
    | SessionLost(g: GroupId)
    | Moved(g: GroupId, stopped: bool, exited: bool)
    | RestoreBegun(g: GroupId, s: SessionId)
    | RestoreCommitted(g: GroupId)
    | Published(g: GroupId)
  {
    predicate Possible(st: State) {
      match this
      case SessionLost(g) => g in st.groups
      case Moved(g, _, _) => g in st.groups
      case RestoreBegun(g, s) => g in st.groups && g !in st.restores && st.groups[g].session.None? && s !in st.sessions
      case RestoreCommitted(g) => g in st.restores
      case Published(g) =>
        g in st.restores && g in st.groups && st.restores[g].session in st.sessions && st.restores[g].targets == map[]
    }

    function Apply(st: State): State
      requires Possible(st)
    {
      match this
      case SessionLost(g) => LoseSession(st, g)
      case Moved(g, stopped, exited) => MoveSupervisor(st, g, stopped, exited)
      case RestoreBegun(g, s) => BeginRestore(st, g, s)
      case RestoreCommitted(g) => CommitRestore(st, g)
      case Published(g) => Publish(st, g)
    }
  }

  /** Every step of a supervisor keeps the invariant, whatever operation is in progress. */
  lemma SupervisorStepKeeps(st: State, step: SupervisorStep, loose: set<GroupId>, busy: InstKey, on: Option<SessionId>)
    requires st.Inv(loose, busy, on) && step.Possible(st)
    ensures step.Apply(st).Inv(loose, busy, on) && st.OnlySupervision(step.Apply(st))
  {
    assert forall k <- st.instances :: st.instances[k].inst.Key() == k;
    hide State.Closed, State.Bound, State.Tracked, State.Restoring, State.Numbered, State.Agreement, State.Quiet;
    var next := step.Apply(st);
    match step {
      case SessionLost(g) => LoseSessionSteps(st, g); LoseSessionKeeps(st, g, busy, on);
      case Moved(g, stopped, exited) =>
        MoveSupervisorSteps(st, g, stopped, exited);
        MoveSupervisorKeeps(st, g, stopped, exited, busy, on);
      case RestoreBegun(g, s) =>
        BeginRestoreSteps(st, g, s);
        BeginRestoreKeeps(st, g, s);
        NewSessionAgrees(st, next, busy, on);
      case RestoreCommitted(g) => CommitRestoreClosed(st, g); CommitRestoreSteps(st, g); CommitRestoreKeeps(st, g, busy, on);
      case Published(g) => PublishClosed(st, g); PublishSteps(st, g); PublishKeeps(st, g); NewSessionAgrees(st, next, busy, on);
    }
    SupervisionKeepsOwnership(st, next, loose);
  }

  /** What a restart means for one instance.  If its process is the one restarted, and it was configured there
      before, or ever, then the plugin is told its configuration again, unless it never had one, and its record
      names the new session.  Otherwise nothing changes for it. */
  ghost predicate Replayed(st: State, end: State, g: GroupId, s: SessionId, k: InstKey)
    requires k in st.instances && k in end.instances && s in end.sessions
  {
    var rec := st.instances[k];
    if rec.enabled && (rec.configured.Some? || rec.revision > 0)
       && rec.inst.ProcKey() in st.procs && st.procs[rec.inst.ProcKey()] == g
    then
      var sent := rec.revision > 0 || PluginConfig(rec.inst.config) != map[];
      && end.instances[k] == rec.(configured := Some(s), revision := rec.revision + if sent then 1 else 0)
      && (sent ==> k in end.sessions[s].applied && end.sessions[s].applied[k] == PluginConfig(rec.inst.config))
      && (PluginConfig(rec.inst.config) != map[] ==> end.Runs(s, rec.inst))
    else end.instances[k] == rec && k !in end.sessions[s].applied
  }

  /** A restart with nothing in between. */
  function Restarted(st: State, g: GroupId, s: SessionId): State
    requires g in st.groups && s !in st.sessions
  {
    Publish(CommitRestore(BeginRestore(st, g, s), g), g)
  }

  /** It replays to everybody before anybody can see the session. */
  lemma RestartReplays(st: State, g: GroupId, s: SessionId, loose: set<GroupId>, busy: InstKey, on: Option<SessionId>)
    requires st.Inv(loose, busy, on) && RestoreBegun(g, s).Possible(st)
    ensures var begun := RestoreBegun(g, s).Apply(st);
      && RestoreCommitted(g).Possible(begun)
      && var committed := RestoreCommitted(g).Apply(begun);
      && Published(g).Possible(committed) && Published(g).Apply(committed) == Restarted(st, g, s)
    ensures var end := Restarted(st, g, s);
      && end.Inv(loose, busy, on) && g in end.groups && end.groups[g].session == Some(s) && s in end.sessions
      && end.instances.Keys == st.instances.Keys && forall k <- st.instances :: Replayed(st, end, g, s, k)
  {
    hide State.Inv, Replayed, Restarted, SupervisorStep.Apply, SupervisorStep.Possible;
    RestartPossible(g, s, st);
    RestartKeeps(st, g, s, loose, busy, on);
    InstancesNamed(st, loose, busy, on);
    RestartShape(st, g, s);
    forall k | k in st.instances
      ensures Replayed(st, Restarted(st, g, s), g, s, k)
    {
      ReplayedOne(st, g, s, k);
    }
  }

  lemma RestartPossible(g: GroupId, s: SessionId, st: State)
    requires RestoreBegun(g, s).Possible(st)
    ensures g in st.groups && s !in st.sessions
  {
  }

  lemma RestartShape(st: State, g: GroupId, s: SessionId)
    requires g in st.groups && s !in st.sessions
    ensures var end := Restarted(st, g, s);
      g in end.groups && end.groups[g].session == Some(s) && s in end.sessions && end.instances.Keys == st.instances.Keys
  {
    hide RestoreTargets, Replays, PluginConfig;
  }

  lemma InstancesNamed(st: State, loose: set<GroupId>, busy: InstKey, on: Option<SessionId>)
    requires st.Inv(loose, busy, on)
    ensures forall k <- st.instances :: st.instances[k].inst.Key() == k
  {
  }

  lemma ReplayedOne(st: State, g: GroupId, s: SessionId, k: InstKey)
    requires g in st.groups && s !in st.sessions && k in st.instances && st.instances[k].inst.Key() == k
    ensures var end := Restarted(st, g, s); k in end.instances && s in end.sessions && Replayed(st, end, g, s, k)
  {
    hide PluginConfig;
  }

  lemma RestartKeeps(st: State, g: GroupId, s: SessionId, loose: set<GroupId>, busy: InstKey, on: Option<SessionId>)
    requires st.Inv(loose, busy, on) && RestoreBegun(g, s).Possible(st)
    ensures var begun := RestoreBegun(g, s).Apply(st);
      && RestoreCommitted(g).Possible(begun)
      && var committed := RestoreCommitted(g).Apply(begun);
      && Published(g).Possible(committed) && Published(g).Apply(committed) == Restarted(st, g, s)
      && Restarted(st, g, s).Inv(loose, busy, on)
  {
    hide State.Inv, RestoreTargets, Replays, PluginConfig;
    var begun := RestoreBegun(g, s).Apply(st);
    SupervisorStepKeeps(st, RestoreBegun(g, s), loose, busy, on);
    var committed := RestoreCommitted(g).Apply(begun);
    SupervisorStepKeeps(begun, RestoreCommitted(g), loose, busy, on);
    SupervisorStepKeeps(committed, Published(g), loose, busy, on);
  }

  // ---------------------------------------------------------------- parts of the operations

  /** Some enabled instance resolves to `g`: identity counts, not the key. */
  predicate InUse(st: State, g: GroupId) {
    exists k <- st.instances :: st.instances[k].enabled && st.Serves(g, st.instances[k])
  }

  /** Take `g` out of `procs` when nothing uses it any more; what is taken out must be stopped. */
  function Detach(st: State, g: Option<GroupId>): (r: (State, set<GroupId>))
    requires g.Some? ==> g.value in st.groups
    ensures r.0 == st.(procs := r.0.procs) && r.0.groups == st.groups && r.1 <= st.groups.Keys
  {
    if g.None? || InUse(st, g.value) then (st, {})
    else (if st.Current(g.value) then st.(procs := st.procs - {st.groups[g.value].key}) else st, {g.value})
  }

  function Resolve(st: State, pk: ProcKey): Option<GroupId> {
    if pk in st.procs then Some(st.procs[pk]) else None
  }

  function ResolveInstance(st: State, key: InstKey): Option<GroupId> {
    if key in st.instances then Resolve(st, st.instances[key].inst.ProcKey()) else None
  }

  function Launch(st: State, g: GroupId, inst: Instance): State {
    st.(groups := st.groups[g := ProcGroup(inst.ProcKey(), inst.Needs(), false, false, false, None)])
  }

  /** Record a definition under a new serial number. */
  function Put(st: State, rec: Record): State {
    st.(instances := st.instances[rec.inst.Key() := rec.(serial := st.serials)], serials := st.serials + 1)
  }

  /** The switch of a reconcile: publish the record and its group, then let go of what they replace. */
  function SwitchBinding(st: State, rec: Record, g: GroupId): (State, set<GroupId>)
    requires st.Closed() && g in st.groups
  {
    var pk := rec.inst.ProcKey();
    var previous, replaced := ResolveInstance(st, rec.inst.Key()), Resolve(st, pk);
    var st1 := Put(st, rec).(procs := st.procs[pk := g]);
    var (st2, first) := Detach(st1, previous);
    var (st3, second) := if replaced != previous then Detach(st2, replaced) else (st2, {});
    (st3, first + second)
  }

  /** Keep a disabled definition, if there was one, and let go of its group. */
  function SwitchOff(st: State, rec: Record): (State, set<GroupId>)
    requires st.Closed()
  {
    var key := rec.inst.Key();
    var previous := ResolveInstance(st, key);
    Detach(if key in st.instances then Put(st, rec) else st, previous)
  }

  lemma DetachBound(st: State, g: Option<GroupId>, leaving: Option<ProcKey>)
    requires st.Closed() && st.BoundBut(leaving) && (g.Some? ==> g.value in st.groups)
    ensures var (next, detached) := Detach(st, g);
      && next.Closed() && next.BoundBut(leaving)
      && (detached != {} && st.Current(g.value) && leaving == Some(st.groups[g.value].key) ==> next.Bound())
  {
    var (next, detached) := Detach(st, g);
    if next != st {
      forall k | k in st.instances && st.instances[k].enabled
        ensures st.instances[k].inst.ProcKey() != st.groups[g.value].key
      {
        assert !st.Serves(g.value, st.instances[k]);
      }
      hide InUse, Detach;
      WithdrawBound(st, st.groups[g.value].key, leaving);
    }
  }

  /** A key that no enabled instance resolves under can go. */
  lemma WithdrawBound(st: State, pk: ProcKey, leaving: Option<ProcKey>)
    requires st.Closed() && st.BoundBut(leaving)
    requires forall k <- st.instances :: st.instances[k].enabled ==> st.instances[k].inst.ProcKey() != pk
    ensures var next := st.(procs := st.procs - {pk});
      next.Closed() && next.BoundBut(leaving) && (leaving == Some(pk) ==> next.Bound())
  {
  }

  lemma DetachTracked(st: State, g: Option<GroupId>, loose: set<GroupId>)
    requires st.Closed() && st.Tracked(loose) && (g.Some? ==> g.value in st.groups)
    requires g.Some? ==> !st.groups[g.value].cancelled
    requires Detach(st, g).0.Closed()
    ensures var (next, detached) := Detach(st, g); next.Tracked(loose + detached)
  {
  }

  /** The own process of an instance that moves to a shared one. */
  function Leaving(st: State, rec: Record): Option<ProcKey> {
    var key := rec.inst.Key();
    if rec.inst.ProcKey().SharedKey? && key in st.instances && st.instances[key].inst.ProcKey() == PerKey(key)
       && PerKey(key) in st.procs
    then Some(PerKey(key)) else None
  }

  function PublishBinding(st: State, rec: Record, g: GroupId): State {
    Put(st, rec).(procs := st.procs[rec.inst.ProcKey() := g])
  }

  /** A group is taken over only by one for the same key and installation. */
  ghost predicate Fits(st: State, rec: Record, g: GroupId) {
    && rec.enabled && (rec.configured.Some? ==> rec.configured.value in st.sessions)
    && g in st.groups && !st.groups[g].cancelled && g !in st.retiring
    && st.groups[g].key == rec.inst.ProcKey() && st.groups[g].install == rec.inst.Needs()
  }

  lemma PublishBindingClosed(st: State, rec: Record, g: GroupId)
    requires st.Closed() && Fits(st, rec, g)
    ensures PublishBinding(st, rec, g).Closed()
  {
  }

  lemma PublishBindingBound(st: State, rec: Record, g: GroupId)
    requires st.Closed() && st.Bound() && Fits(st, rec, g) && PublishBinding(st, rec, g).Closed()
    ensures PublishBinding(st, rec, g).BoundBut(Leaving(st, rec))
  {
  }

  /** A group overwritten in `procs` is in hand, and unused: groups are current under one key. */
  lemma PublishBindingTracked(st: State, rec: Record, g: GroupId, loose: set<GroupId>)
    requires st.Closed() && st.Tracked(loose) && Fits(st, rec, g) && PublishBinding(st, rec, g).Closed()
    requires loose == if st.Current(g) then {} else {g}
    ensures var pk, next := rec.inst.ProcKey(), PublishBinding(st, rec, g);
      && (pk in st.procs && st.procs[pk] != g ==> next.Tracked({st.procs[pk]}) && !InUse(next, st.procs[pk]))
      && (pk in st.procs && st.procs[pk] == g ==> next.Tracked({}))
      && (pk !in st.procs ==> next.Tracked({}))
  {
  }

  /** The binding itself is in use, and a process left behind is not. */
  lemma PublishBindingUse(st: State, rec: Record, g: GroupId)
    requires st.Closed() && st.Bound() && Fits(st, rec, g)
    ensures InUse(PublishBinding(st, rec, g), g)
    ensures Leaving(st, rec).Some? ==>
      var previous := ResolveInstance(st, rec.inst.Key());
      && previous.Some? && previous.value in st.groups
      && Some(st.groups[previous.value].key) == Leaving(st, rec)
      && !InUse(PublishBinding(st, rec, g), previous.value)
      && PublishBinding(st, rec, g).Current(previous.value)
  {
    var next := PublishBinding(st, rec, g);
    assert next.instances[rec.inst.Key()].enabled && next.Serves(g, next.instances[rec.inst.Key()]);
  }

  lemma PublishBindingGroups(st: State, rec: Record, g: GroupId)
    ensures PublishBinding(st, rec, g).groups == st.groups
    ensures PublishBinding(st, rec, g) ==
      Put(st, rec).(procs := st.procs[rec.inst.ProcKey() := g])
  {
  }

  lemma DetachResult(st: State, g: Option<GroupId>)
    requires g.Some? ==> g.value in st.groups
    ensures var (next, detached) := Detach(st, g);
      && next == st.(procs := next.procs)
      && next.groups == st.groups
      && detached == (if g.None? || InUse(st, g.value) then {} else {g.value})
      && (detached != {} ==> forall h :: h != g.value ==> (InUse(next, h) <==> InUse(st, h)))
      && (detached == {} ==> next == st)
  {
  }

  lemma ResolvedLive(st: State, pk: ProcKey, loose: set<GroupId>)
    requires st.Closed() && st.Tracked(loose) && Resolve(st, pk).Some?
    ensures Resolve(st, pk).value in st.groups && !st.groups[Resolve(st, pk).value].cancelled
  {
  }

  lemma DetachBothOwns(st: State, previous: Option<GroupId>, replaced: Option<GroupId>,
                       over: set<GroupId>, leaving: Option<ProcKey>)
    requires st.Closed() && st.Tracked(over) && st.BoundBut(leaving)
    requires previous.Some? ==> previous.value in st.groups && !st.groups[previous.value].cancelled
    requires replaced.Some? ==> replaced.value in st.groups && !st.groups[replaced.value].cancelled
    requires over != {} ==> replaced.Some? && over == {replaced.value} && !InUse(st, replaced.value)
    requires leaving.Some? ==>
      && previous.Some? && Some(st.groups[previous.value].key) == leaving
      && !InUse(st, previous.value) && st.Current(previous.value)
    ensures var (st2, first) := Detach(st, previous);
      var (st3, second) := if replaced != previous then Detach(st2, replaced) else (st2, {});
      st3.Closed() && st3.Bound() && st3.Tracked(first + second)
  {
    hide State.Closed, State.BoundBut, State.Tracked, InUse, Detach;
    DetachBound(st, previous, leaving);
    DetachTracked(st, previous, over);
    DetachResult(st, previous);
    var (st2, first) := Detach(st, previous);
    assert st2.Bound() && st2.Tracked(over + first);
    if replaced != previous {
      assert replaced.Some? ==> !st2.groups[replaced.value].cancelled;
      DetachBound(st2, replaced, None);
      DetachTracked(st2, replaced, over + first);
      DetachResult(st2, replaced);
      assert over + first + Detach(st2, replaced).1 == first + Detach(st2, replaced).1;
    } else {
      assert over + first == first + {};
    }
  }

  lemma SwitchBindingOwns(st: State, rec: Record, g: GroupId, loose: set<GroupId>)
    requires st.Closed() && st.Bound() && st.Tracked(loose) && Fits(st, rec, g)
    requires loose == if st.Current(g) then {} else {g}
    ensures var (next, detached) := SwitchBinding(st, rec, g);
      next.Closed() && next.Bound() && next.Tracked(detached)
  {
    hide State.Closed, State.BoundBut, State.Tracked, InUse, Fits, Leaving, Detach, PublishBinding;
    var key, pk := rec.inst.Key(), rec.inst.ProcKey();
    var previous, replaced := ResolveInstance(st, key), Resolve(st, pk);
    var st1 := PublishBinding(st, rec, g);
    var over := if replaced.Some? && replaced.value != g then {replaced.value} else {};
    PublishBindingClosed(st, rec, g);
    PublishBindingBound(st, rec, g);
    PublishBindingUse(st, rec, g);
    PublishBindingTracked(st, rec, g, loose);
    PublishBindingGroups(st, rec, g);
    if replaced.Some? {
      ResolvedLive(st, pk, loose);
    }
    if previous.Some? {
      ResolvedLive(st, st.instances[key].inst.ProcKey(), loose);
    }
    DetachBothOwns(st1, previous, replaced, over, Leaving(st, rec));
  }

  lemma ForgetTracked(st: State, rec: Record)
    requires st.Closed() && st.Tracked({}) && rec.configured.None?
    ensures var next := Put(st, rec); next.Closed() && next.Tracked({})
  {
  }

  lemma ForgetBound(st: State, rec: Record)
    requires st.Closed() && st.Bound() && !rec.enabled && Put(st, rec).Closed()
    ensures Put(st, rec).BoundBut(Some(PerKey(rec.inst.Key())))
  {
  }

  lemma NothingLeaves(st: State, key: InstKey)
    requires st.Closed() && st.BoundBut(Some(PerKey(key))) && PerKey(key) !in st.procs
    ensures st.Bound()
  {
  }

  lemma OwnKeyOnly(st: State, key: InstKey)
    requires st.Closed() && st.Bound() && key in st.instances && PerKey(key) in st.procs
    ensures st.instances[key].inst.ProcKey() == PerKey(key)
  {
  }

  /** An own process is used by its owner only. */
  lemma OwnProcessUnused(st: State, rec: Record)
    requires st.Closed() && st.Bound() && rec.inst.Key() in st.instances && !rec.enabled
    requires PerKey(rec.inst.Key()) in st.procs
    ensures var key := rec.inst.Key();
      var next := Put(st, rec);
      var previous := st.procs[PerKey(key)];
      st.groups[previous].key == PerKey(key) && next.Current(previous) && !InUse(next, previous)
  {
  }

  lemma SwitchOffOwns(st: State, rec: Record)
    requires st.Closed() && st.Bound() && st.Tracked({})
    requires !rec.enabled && rec.configured.None?
    ensures var (next, detached) := SwitchOff(st, rec);
      next.Closed() && next.Bound() && next.Tracked(detached)
  {
    hide State.BoundBut, State.Tracked, InUse, Detach;
    var key := rec.inst.Key();
    if key in st.instances {
      var st1 := Put(st, rec);
      var previous := ResolveInstance(st, key);
      ForgetTracked(st, rec);
      ForgetBound(st, rec);
      if previous.Some? {
        ResolvedLive(st, st.instances[key].inst.ProcKey(), {});
      }
      if PerKey(key) in st.procs {
        OwnKeyOnly(st, key);
        OwnProcessUnused(st, rec);
        hide State.Closed;
        DetachResult(st1, previous);
        DetachBound(st1, previous, Some(PerKey(key)));
      } else {
        NothingLeaves(st1, key);
        hide State.Closed;
        DetachResult(st1, previous);
        DetachBound(st1, previous, None);
      }
      DetachTracked(st1, previous, {});
      assert {} + Detach(st1, previous).1 == Detach(st1, previous).1;
    } else {
      DetachResult(st, None);
    }
  }

  /** Operations that do not concern sessions keep what is known about them. */
  lemma PutKeepsSessions(st: State, rec: Record, next: State)
    requires st.Restoring() && st.Numbered() && st.Agreement(rec.inst.Key(), rec.configured) && st.Agrees(rec)
    requires next == Put(st, rec).(procs := next.procs)
    ensures next.Restoring() && next.Numbered() && next.Agreement(rec.inst.Key(), None)
  {
  }

  /** Bindings do not depend on what state a process is in. */
  lemma BoundStays(st: State, next: State)
    requires st.Closed() && st.Bound() && next.Closed()
    requires next.instances == st.instances && next.procs == st.procs
    requires forall g <- st.groups ::
      g in next.groups && next.groups[g].key == st.groups[g].key && next.groups[g].install == st.groups[g].install
    ensures next.Bound()
  {
  }

  function Cancel(st: State, g: GroupId): State
    requires g in st.groups
  {
    st.(groups := st.groups[g := st.groups[g].(cancelled := true)])
  }

  lemma CancelTracked(st: State, g: GroupId, loose: set<GroupId>)
    requires st.Closed() && st.Tracked(loose) && g in st.retiring
    ensures Cancel(st, g).Closed() && Cancel(st, g).Tracked(loose - {g})
  {
  }

  lemma CancelKeeps(st: State, g: GroupId, loose: set<GroupId>, busy: InstKey, on: Option<SessionId>)
    requires st.Inv(loose, busy, on) && g in st.groups && g in st.retiring
    ensures Cancel(st, g).Inv(loose - {g}, busy, on)
  {
    hide State.Closed, State.BoundBut, State.Tracked, State.Restoring, State.Numbered, State.Agreement;
    CancelTracked(st, g, loose);
    BoundStays(st, Cancel(st, g));
    SameSessionsKeep(st, Cancel(st, g), busy, on);
  }

  /** The exit of `g` is confirmed: nobody has to remember it any more. */
  function Confirm(st: State, g: GroupId): State {
    st.(retiring := st.retiring - {g})
  }

  lemma ConfirmTracked(st: State, g: GroupId, loose: set<GroupId>)
    requires st.Closed() && st.Tracked(loose) && g in st.groups && st.groups[g].exited
    ensures Confirm(st, g).Closed() && Confirm(st, g).Tracked(loose)
  {
  }

  lemma ConfirmKeeps(st: State, g: GroupId, loose: set<GroupId>, busy: InstKey, on: Option<SessionId>)
    requires st.Inv(loose, busy, on) && g in st.groups && st.groups[g].exited
    ensures Confirm(st, g).Inv(loose, busy, on)
  {
    hide State.Closed, State.BoundBut, State.Tracked, State.Restoring, State.Numbered, State.Agreement;
    ConfirmTracked(st, g, loose);
    BoundStays(st, Confirm(st, g));
    SameSessionsKeep(st, Confirm(st, g), busy, on);
  }

  /** Groups that are in nobody's way: `more` is in hand, and about to be stopped for `owner`. */
  lemma RetireTracked(st: State, owner: InstKey, more: set<GroupId>, next: State)
    requires st.Closed() && st.Tracked(more) && more <= st.groups.Keys
    requires next == st.(retiring := st.retiring + map g <- more :: owner)
    ensures next.Closed() && next.Tracked(more)
  {
  }

  lemma RetireKeeps(st: State, owner: InstKey, more: set<GroupId>, next: State, busy: InstKey, on: Option<SessionId>)
    requires st.Inv(more, busy, on)
    requires next == st.(retiring := st.retiring + map g <- more :: owner)
    ensures next.Inv(more, busy, on)
  {
    hide State.Closed, State.BoundBut, State.Tracked, State.Restoring, State.Numbered, State.Agreement;
    RetireTracked(st, owner, more, next);
    BoundStays(st, next);
    SameSessionsKeep(st, next, busy, on);
  }

  lemma SameSessionsKeep(st: State, next: State, busy: InstKey, on: Option<SessionId>)
    requires st.Restoring() && st.Numbered() && st.Agreement(busy, on)
    requires next.sessions == st.sessions && next.restores == st.restores && st.groups.Keys <= next.groups.Keys
    requires next.instances == st.instances && next.serials == st.serials
    ensures next.Restoring() && next.Numbered() && next.Agreement(busy, on)
  {
  }

  lemma LaunchTracked(st: State, g: GroupId, inst: Instance)
    requires st.Closed() && st.Tracked({}) && g !in st.groups
    ensures Launch(st, g, inst).Closed() && Launch(st, g, inst).Tracked({g})
  {
  }

  lemma LaunchKeeps(st: State, g: GroupId, inst: Instance, busy: InstKey, on: Option<SessionId>)
    requires st.Inv({}, busy, on) && g !in st.groups
    ensures Launch(st, g, inst).Inv({g}, busy, on)
  {
    hide State.Closed, State.BoundBut, State.Tracked, State.Restoring, State.Numbered, State.Agreement;
    LaunchTracked(st, g, inst);
    BoundStays(st, Launch(st, g, inst));
    SameSessionsKeep(st, Launch(st, g, inst), busy, on);
  }

  /** What the plugin holds for `inst` after a configure call that reached it. */
  function Deliver(st: State, s: SessionId, inst: Instance): State
    requires s in st.sessions
  {
    st.(sessions := st.sessions[s := st.sessions[s].(applied :=
          st.sessions[s].applied[inst.Key() := PluginConfig(inst.config)])])
  }

  lemma DeliverTracked(st: State, s: SessionId, inst: Instance, loose: set<GroupId>)
    requires s in st.sessions && st.Closed() && st.Tracked(loose)
    ensures Deliver(st, s, inst).Closed() && Deliver(st, s, inst).Tracked(loose)
  {
  }

  /** A configure call touches nobody but its own instance, and only on its own session. */
  lemma DeliverAgrees(st: State, s: SessionId, inst: Instance, on: Option<SessionId>)
    requires s in st.sessions && st.sessions[s].published
    requires st.Restoring() && st.Numbered() && st.Agreement(inst.Key(), on) && (on.None? || on == Some(s))
    requires forall k <- st.instances :: st.instances[k].inst.Key() == k
    ensures var next := Deliver(st, s, inst);
      next.Restoring() && next.Numbered() && next.Agreement(inst.Key(), Some(s)) && next.Runs(s, inst)
  {
  }

  lemma DeliverKeeps(st: State, s: SessionId, inst: Instance, loose: set<GroupId>, on: Option<SessionId>)
    requires st.Inv(loose, inst.Key(), on) && s in st.sessions && st.sessions[s].published
    requires on.None? || on == Some(s)
    ensures var next := Deliver(st, s, inst); next.Inv(loose, inst.Key(), Some(s)) && next.Runs(s, inst)
  {
    assert forall k <- st.instances :: st.instances[k].inst.Key() == k;
    hide State.Closed, State.BoundBut, State.Tracked, State.Restoring, State.Numbered, State.Agreement;
    DeliverTracked(st, s, inst, loose);
    BoundStays(st, Deliver(st, s, inst));
    DeliverAgrees(st, s, inst, on);
  }

  /** No other enabled instance is entitled to the process of `inst`. */
  ghost predicate SoleUser(st: State, inst: Instance) {
    forall k <- st.instances :: k != inst.Key() && st.instances[k].enabled ==>
      st.instances[k].inst.ProcKey() != inst.ProcKey()
  }

  lemma DetachClosed(st: State, g: Option<GroupId>)
    requires st.Closed() && (g.Some? ==> g.value in st.groups)
    ensures Detach(st, g).0.Closed()
  {
  }

  lemma DetachUndisturbed(st: State, g: Option<GroupId>, key: InstKey)
    requires st.Closed() && (g.Some? ==> g.value in st.groups)
    ensures st.Undisturbed(Detach(st, g).0, key)
  {
  }

  lemma UndisturbedComposes(a: State, b: State, c: State, key: InstKey)
    requires a.Undisturbed(b, key) && b.Undisturbed(c, key)
    ensures a.Undisturbed(c, key)
  {
  }

  lemma RebindingUndisturbed(a: State, b: State, key: InstKey)
    requires a.SameBindings(b)
    ensures a.Undisturbed(b, key)
  {
  }

  lemma PublishBindingUndisturbed(st: State, rec: Record, g: GroupId)
    requires st.Closed() && g in st.groups && st.groups[g].key == rec.inst.ProcKey()
    requires st.Current(g) || SoleUser(st, rec.inst)
    ensures st.Undisturbed(PublishBinding(st, rec, g), rec.inst.Key())
  {
  }

  /** Siblings on a shared process, and everybody else, are not disturbed by a switch. */
  lemma SwitchBindingUndisturbed(st: State, rec: Record, g: GroupId)
    requires st.Closed() && Fits(st, rec, g) && (st.Current(g) || SoleUser(st, rec.inst))
    ensures st.Undisturbed(SwitchBinding(st, rec, g).0, rec.inst.Key())
  {
    var key, pk := rec.inst.Key(), rec.inst.ProcKey();
    var previous, replaced := ResolveInstance(st, key), Resolve(st, pk);
    var st1 := PublishBinding(st, rec, g);
    PublishBindingUndisturbed(st, rec, g);
    PublishBindingClosed(st, rec, g);
    PublishBindingGroups(st, rec, g);
    assert previous.Some? ==> previous.value in st.groups;
    assert replaced.Some? ==> replaced.value in st.groups;
    hide State.Undisturbed, Fits, SoleUser, Detach, Resolve, ResolveInstance, PublishBinding, InUse, State.Closed;
    DetachUndisturbed(st1, previous, key);
    DetachClosed(st1, previous);
    var st2 := Detach(st1, previous).0;
    UndisturbedComposes(st, st1, st2, key);
    if replaced != previous {
      DetachUndisturbed(st2, replaced, key);
      UndisturbedComposes(st, st2, Detach(st2, replaced).0, key);
    }
  }

  lemma SwitchOffUndisturbed(st: State, rec: Record)
    requires st.Closed() && !rec.enabled && rec.configured.None?
    ensures st.Undisturbed(SwitchOff(st, rec).0, rec.inst.Key())
  {
    var key := rec.inst.Key();
    var st1 := if key in st.instances then Put(st, rec) else st;
    assert st.Undisturbed(st1, key) && st1.Closed();
    hide State.Undisturbed, Detach, InUse;
    DetachUndisturbed(st1, ResolveInstance(st, key), key);
    UndisturbedComposes(st, st1, SwitchOff(st, rec).0, key);
  }

  lemma SwitchBindingShape(st: State, rec: Record, g: GroupId)
    requires st.Closed() && g in st.groups
    ensures var (next, detached) := SwitchBinding(st, rec, g);
      && next == Put(st, rec).(procs := next.procs)
      && detached <= st.groups.Keys && next.groups == st.groups
  {
    hide InUse, Detach;
  }

  /** The switch of a reconcile keeps the invariant; what it replaces is left in hand. */
  lemma SwitchBindingKeeps(st: State, rec: Record, g: GroupId, loose: set<GroupId>, on: Option<SessionId>)
    requires st.Inv(loose, rec.inst.Key(), on) && (on.None? || on == rec.configured)
    requires Fits(st, rec, g) && loose == (if st.Current(g) then {} else {g}) && st.Agrees(rec)
    ensures var (next, detached) := SwitchBinding(st, rec, g); next.Inv(detached, rec.inst.Key(), None)
  {
    assert g in st.groups;
    hide Fits, State.Closed, State.BoundBut, State.Tracked, State.Restoring, State.Numbered;
    var (next, detached) := SwitchBinding(st, rec, g);
    SwitchBindingOwns(st, rec, g, loose);
    SwitchBindingShape(st, rec, g);
    assert st.Agreement(rec.inst.Key(), rec.configured);
    hide State.Agreement, SwitchBinding;
    PutKeepsSessions(st, rec, next);
  }

  lemma SwitchOffKeeps(st: State, rec: Record)
    requires st.Inv({}, rec.inst.Key(), None) && !rec.enabled && rec.configured.None?
    ensures var (next, detached) := SwitchOff(st, rec);
      && next.Inv(detached, rec.inst.Key(), None)
      && next == (if rec.inst.Key() in st.instances then Put(st, rec) else st).(procs := next.procs)
  {
    hide State.Closed, State.BoundBut, State.Tracked, State.Restoring, State.Numbered, State.Agreement, InUse;
    var (next, detached) := SwitchOff(st, rec);
    SwitchOffOwns(st, rec);
    if rec.inst.Key() in st.instances {
      WeakerAgreement(st, rec.inst.Key(), None);
      PutKeepsSessions(st, rec, next);
    } else {
      SameSessionsKeep(st, next, rec.inst.Key(), None);
    }
  }

  /** Without a session in doubt it does not matter which instance is busy. */
  lemma WeakerAgreement(st: State, busy: InstKey, on: Option<SessionId>)
    requires st.Agreement(busy, None)
    ensures forall k :: st.Agreement(k, on)
  {
  }

  // ---------------------------------------------------------------- the manager

  const NOBODY := InstKey("", "")

  class Manager {
    var installations: set<Install>
    var instances: map<InstKey, Record>
    var procs: map<ProcKey, GroupId>
    var retiring: map<GroupId, InstKey>
    var groups: map<GroupId, ProcGroup>
    var sessions: map<SessionId, Session>
    var restores: map<GroupId, Ticket>
    var abandoned: set<GroupId>
    var serials: nat

    function View(): State
      reads this
    {
      State(installations, instances, procs, retiring, groups, sessions, restores, abandoned, serials)
    }

    /** What holds whenever no lifecycle operation is running. */
    ghost predicate Valid()
      reads this
    {
      View().Inv({}, NOBODY, None)
    }

    constructor ()
      ensures Valid() && instances == map[] && installations == {}
    {
      installations, instances, procs, retiring, groups := {}, map[], map[], map[], map[];
      sessions, restores, abandoned, serials := map[], map[], {}, 0;
    }

    /** Any number of steps of the supervisors, whatever operation is in progress. */
    method Interfere(ghost loose: set<GroupId>, ghost busy: InstKey, ghost on: Option<SessionId>)
      requires View().Inv(loose, busy, on)
      modifies this
      ensures View().Inv(loose, busy, on) && old(View()).OnlySupervision(View())
    {
      hide State.Inv, State.OnlySupervision;
      var n: int := *;
      SupervisionMayIdle(View());
      while n > 0
        invariant View().Inv(loose, busy, on) && old(View()).OnlySupervision(View())
      {
        n := n - 1;
        var step: SupervisorStep := *;
        if step.Possible(View()) {
          ghost var before := View();
          Take(step);
          SupervisorStepKeeps(before, step, loose, busy, on);
          SupervisionComposes(old(View()), before, View());
        }
      }
    }

    method Take(step: SupervisorStep)
      requires step.Possible(View())
      modifies this
      ensures View() == step.Apply(old(View()))
    {
      match step
      case SessionLost(g) =>
        groups := groups[g := groups[g].(session := None)];
        restores := restores - {g};
      case Moved(g, stopped, exited) =>
        groups := groups[g := groups[g].(stopped := stopped, exited := groups[g].exited || exited)];
      case RestoreBegun(g, s) =>
        var next := BeginRestore(View(), g, s);
        sessions, restores := next.sessions, next.restores;
      case RestoreCommitted(g) =>
        var next := CommitRestore(View(), g);
        instances, restores := next.instances, next.restores;
      case Published(g) =>
        var s := restores[g].session;
        groups := groups[g := groups[g].(session := Some(s))];
        sessions := sessions[s := sessions[s].(published := true)];
        restores := restores - {g};
    }

    /** Tell a group to stop, and wait for a while. */
    method StopProcGroup(g: GroupId, ghost loose: set<GroupId>, ghost busy: InstKey) returns (gone: bool)
      requires View().Inv(loose, busy, None) && g in groups && g in retiring
      modifies this
      ensures View().Inv(loose - {g}, busy, None) && old(View()).SameBindings(View())
      ensures retiring == old(retiring) && groups.Keys == old(groups.Keys)
      ensures gone == groups[g].exited
    {
      hide State.Inv;
      groups := groups[g := groups[g].(cancelled := true)];
      CancelKeeps(old(View()), g, loose, busy, None);
      ghost var before := View();
      Interfere(loose - {g}, busy, None);
      QuietIsNoRebinding(before, View());
      hide State.OnlySupervision;
      gone := groups[g].exited;
    }

    method StopAndConfirm(g: GroupId, ghost loose: set<GroupId>, ghost busy: InstKey) returns (gone: bool)
      requires View().Inv(loose, busy, None) && g in groups && g in retiring
      modifies this
      ensures View().Inv(loose - {g}, busy, None) && old(View()).SameBindings(View())
      ensures groups.Keys == old(groups.Keys)
      ensures retiring == if gone then old(retiring) - {g} else old(retiring)
    {
      hide State.Inv, State.SameBindings;
      gone := StopProcGroup(g, loose, busy);
      if gone {
        ghost var mid := View();
        retiring := retiring - {g};
        ConfirmKeeps(mid, g, loose - {g}, busy, None);
        BindingsAlike(mid, View());
        BindingsCompose(old(View()), mid, View());
      }
    }

    method MarkRetiring(owner: InstKey, detached: set<GroupId>, ghost busy: InstKey) returns (pending: set<GroupId>)
      requires View().Inv(detached, busy, None)
      modifies this`retiring
      ensures View().Inv(detached, busy, None) && old(View()).SameBindings(View())
      ensures detached <= pending
      ensures forall g :: g in pending <==> g in retiring && retiring[g] == owner
      ensures forall g <- pending :: g in groups
    {
      hide State.Inv, State.SameBindings;
      retiring := retiring + map g <- detached :: owner;
      RetireKeeps(old(View()), owner, detached, View(), busy, None);
      RetiringKnown(View(), detached, busy);
      BindingsAlike(old(View()), View());
      pending := set g <- retiring | retiring[g] == owner;
    }

    /** Stop the groups waiting for `owner`, old ones and those just detached.  A group leaves
        `retiring` only once its exit is confirmed. */
    method RetireProcGroups(owner: InstKey, detached: set<GroupId>, ghost busy: InstKey)
      returns (ok: bool)
      requires View().Inv(detached, busy, None)
      modifies this
      ensures View().Inv({}, busy, None) && old(View()).SameBindings(View())
      ensures ok <==> View().NothingRetiring(owner)
    {
      hide State.Inv, State.SameBindings;
      ghost var before := View();
      var pending := MarkRetiring(owner, detached, busy);
      ghost var left, stuck: GroupId := detached, 0;
      ok := true;
      while pending != {}
        invariant View().Inv(left, busy, None) && before.SameBindings(View())
        invariant left <= pending
        invariant forall g <- pending :: g in retiring && g in groups && retiring[g] == owner
        invariant forall g <- retiring :: retiring[g] == owner ==> g in pending || !ok
        invariant !ok ==> stuck in retiring && retiring[stuck] == owner && stuck !in pending
      {
        var g :| g in pending;
        pending := pending - {g};
        ghost var start := View();
        var gone := StopAndConfirm(g, left, busy);
        left := left - {g};
        BindingsCompose(before, start, View());
        if !gone {
          ok, stuck := false, g;
        }
      }
      assert left == {};
    }

    /** Start a process for `inst`; nobody is bound to it yet. */
    method LaunchGroup(inst: Instance) returns (g: GroupId)
      requires View().Inv({}, inst.Key(), None)
      modifies this`groups
      ensures g !in old(groups) && View() == Launch(old(View()), g, inst)
      ensures View().Inv({g}, inst.Key(), None)
    {
      hide State.Inv;
      SomeFresh(groups.Keys);
      g :| g !in groups;
      groups := groups[g := ProcGroup(inst.ProcKey(), inst.Needs(), false, false, false, None)];
      LaunchKeeps(old(View()), g, inst, inst.Key(), None);
    }

    /** The group that can be taken over for `inst`, if there is one: not another version's own
        process, and not a disabled one nobody uses. */
    method PickGroup(inst: Instance) returns (g: Option<GroupId>)
      requires View().Inv({}, inst.Key(), None)
      ensures g.Some? ==> Resolve(View(), inst.ProcKey()) == g && g.value in groups && Takes(View(), inst, g.value)
      ensures g.None? ==> SoleUser(View(), inst)
      // Exactly the current group of the key, if it fits and is not a disabled leftover.
      ensures var current := Resolve(View(), inst.ProcKey());
        current.Some? ==>
          && current.value in groups
          && (g.Some? <==> Takes(View(), inst, current.value)
                           && !(groups[current.value].stopped && !InUse(View(), current.value)))
    {
      g := Resolve(View(), inst.ProcKey());
      if g.Some? {
        PickFits(View(), inst);
        var old' := if inst.Key() in instances then Some(instances[inst.Key()].inst) else None;
        if (inst.isolation == PerInstance && old'.Some? && old'.value.Needs() != inst.Needs())
           || (groups[g.value].stopped && !InUse(View(), g.value)) {
          g := None;
        }
      }
    }

    /** One configure call.  An error does not tell whether the plugin took the configuration. */
    method ConfigureInstance(s: SessionId, inst: Instance, ghost loose: set<GroupId>, ghost on: Option<SessionId>)
      returns (ok: bool)
      requires View().Inv(loose, inst.Key(), on) && s in sessions && sessions[s].published
      requires on.None? || on == Some(s)
      modifies this`sessions
      ensures View().Inv(loose, inst.Key(), Some(s))
      ensures View() == old(View()) || View() == Deliver(old(View()), s, inst)
      ensures ok ==> View().Runs(s, inst)
    {
      hide State.Inv, State.Runs;
      var delivered: bool := *;
      ok := *;
      if ok || delivered {
        sessions := sessions[s := sessions[s].(applied := sessions[s].applied[inst.Key() := PluginConfig(inst.config)])];
        DeliverKeeps(old(View()), s, inst, loose, on);
      } else {
        MoreDoubt(View(), s, inst.Key(), loose, on);
      }
    }

    /** Wait for the candidate's session; its process may fail to come up. */
    method AwaitSession(g: GroupId, ghost loose: set<GroupId>, ghost busy: InstKey) returns (sess: Option<SessionId>)
      requires View().Inv(loose, busy, None) && g in groups
      modifies this
      ensures View().Inv(loose, busy, None) && old(View()).Quiet(View())
      ensures sess.Some? ==> Live(View(), sess.value, g)
    {
      hide State.Inv, State.Quiet;
      Interfere(loose, busy, None);
      var ready: bool := *;
      sess := if ready && g in groups then groups[g].session else None;
      if sess.Some? {
        SessionLive(View(), g, loose, busy);
      }
      assert old(View()).Quiet(View());
      hide State.OnlySupervision, Live;
      if sess.Some? {
        ghost var before := View();
        Interfere(loose, busy, None);
        SupervisionStays(before, View(), sess.value, g);
        SupervisionComposes(old(View()), before, View());
      }
    }

    /** Send the configuration if it has to be sent. */
    method ConfigureCandidate(inst: Instance, s: SessionId, ghost g: GroupId, ghost loose: set<GroupId>)
      returns (ok: bool, configured: bool, revision: nat)
      requires View().Inv(loose, inst.Key(), None) && Live(View(), s, g)
      modifies this
      ensures View().Inv(loose, inst.Key(), if configured then Some(s) else None)
      ensures old(View()).Quiet(View()) && Live(View(), s, g)
      ensures ok ==> PluginConfig(inst.config) == map[] || View().Runs(s, inst)
    {
      hide State.Inv, State.Quiet, State.OnlySupervision, Live, State.Runs;
      var (needed, next) := PlanConfigure(View(), inst, s);
      ok, configured, revision := true, needed, next;
      if !needed {
        NothingToSend(View(), inst, s, loose);
      }
      Interfere(loose, inst.Key(), None);
      SupervisionStays(old(View()), View(), s, g);
      SupervisionIsQuiet(old(View()), View());
      if needed {
        ghost var before := View();
        LiveKnown(View(), s, g);
        ok := ConfigureInstance(s, inst, loose, None);
        DeliverStays(before, View(), s, inst, g);
        QuietComposes(old(View()), before, View());
      }
    }

    /** Wait for the candidate's session and check it, configuring the instance if needed.  The
        instance keeps its record throughout. */
    method TryCandidate(inst: Instance, g: GroupId, ghost loose: set<GroupId>)
      returns (ok: bool, sess: Option<SessionId>, configured: bool, revision: nat)
      requires View().Inv(loose, inst.Key(), None) && g in groups
      modifies this
      ensures View().Inv(loose, inst.Key(), if configured then sess else None) && old(View()).Quiet(View())
      ensures sess.Some? ==> Live(View(), sess.value, g)
      ensures configured || ok ==> sess.Some?
      ensures ok ==> PluginConfig(inst.config) == map[] || View().Runs(sess.value, inst)
    {
      hide State.Inv, State.Quiet, State.OnlySupervision, Live, State.Runs;
      configured, revision := false, 0;
      sess := AwaitSession(g, loose, inst.Key());
      ok := *;                                            // Initialize
      ok := ok && sess.Some?;
      if ok {
        ghost var before := View();
        ok, configured, revision := ConfigureCandidate(inst, sess.value, g, loose);
        QuietComposes(old(View()), before, View());
        ghost var on := if configured then sess else None;
        ghost var middle := View();
        Interfere(loose, inst.Key(), on);
        SupervisionStays(middle, View(), sess.value, g);
        SupervisionIsQuiet(middle, View());
        QuietComposes(old(View()), middle, View());
        var healthy: bool := *;
        ok := ok && healthy && g in groups && groups[g].session == sess;
      }
    }

    /** Configure with nothing else going on but supervision. */
    method Reconfigure(inst: Instance, s: SessionId, ghost g: GroupId, ghost loose: set<GroupId>) returns (ok: bool)
      requires View().Inv(loose, inst.Key(), Some(s)) && Live(View(), s, g)
      modifies this
      ensures View().Inv(loose, inst.Key(), Some(s)) && old(View()).Quiet(View())
      ensures ok ==> View().Runs(s, inst)
    {
      hide State.Inv, State.Quiet, State.OnlySupervision, Live, State.Runs;
      ghost var key, on := inst.Key(), Some(s);
      Interfere(loose, key, on);
      SupervisionStays(old(View()), View(), s, g);
      SupervisionIsQuiet(old(View()), View());
      ghost var sent := View();
      LiveKnown(View(), s, g);
      ok := ConfigureInstance(s, inst, loose, on);
      DeliverStays(sent, View(), s, inst, g);
      QuietComposes(old(View()), sent, View());
      ghost var answered := View();
      Interfere(loose, key, on);
      SupervisionStays(answered, View(), s, g);
      SupervisionIsQuiet(answered, View());
      QuietComposes(old(View()), answered, View());
    }

    /** Send the recorded configuration again; if that fails too, stop claiming to know. */
    method Restore(key: InstKey, s: SessionId, g: GroupId, revision: nat, ghost loose: set<GroupId>)
      requires View().Inv(loose, key, Some(s)) && Live(View(), s, g)
      requires key in instances && instances[key].configured == Some(s)
      modifies this
      ensures View().Inv(loose, key, None)
      ensures old(View()).SameBindings(View()) && retiring == old(retiring) && groups.Keys == old(groups.Keys)
    {
      hide State.Inv, State.Quiet, State.OnlySupervision, State.SameBindings, Live, State.Runs;
      var rec := instances[key];
      KeyKnown(View(), key, loose, key, Some(s));
      instances := instances[key := rec.(revision := MaxRevision(rec.revision, revision) + 1)];
      ReplaceKeeps(old(View()), instances[key], loose, key, Some(s));
      ReplaceRebinds(old(View()), instances[key]);
      LiveAdjusted(old(View()), View(), s, g);
      ghost var revised := View();
      var ok := Reconfigure(rec.inst, s, g, loose);
      QuietIsNoRebinding(revised, View());
      BindingsCompose(old(View()), revised, View());
      SameDefinition(old(View()), View(), key);
      ghost var tried := View();
      if ok {
        DoubtSettled(View(), key, s, loose);
      } else if instances[key].configured == Some(s) {
        instances := instances[key := instances[key].(configured := None)];
        ReplaceKeeps(tried, instances[key], loose, key, Some(s));
        ReplaceRebinds(tried, instances[key]);
        BindingsCompose(old(View()), tried, View());
        DoubtDropped(View(), key, s, loose);
      } else {
        DoubtDropped(View(), key, s, loose);
      }
    }

    /** Undo the configuration of a rejected candidate.  Either the plugin is back to what the record
        says, or the record no longer claims to know. */
    method Rollback(key: InstKey, g: GroupId, created: bool, sess: Option<SessionId>, configured: bool,
                    revision: nat, ghost loose: set<GroupId>)
      requires View().Inv(loose, key, if configured then sess else None)
      requires configured ==> sess.Some? && Live(View(), sess.value, g)
      requires created ==> Unknown(View(), g)
      modifies this
      ensures View().Inv(loose, key, None)
      ensures old(View()).SameBindings(View()) && retiring == old(retiring) && groups.Keys == old(groups.Keys)
    {
      hide State.Inv;
      if configured && !created && key in instances && instances[key].configured == sess {
        Restore(key, sess.value, g, revision, loose);
      } else {
        DoubtElsewhere(View(), key, g, if configured then sess else None, loose);
      }
    }

    /** Publish the new binding and let go of what it replaces. */
    method Switch(rec: Record, g: GroupId, ghost loose: set<GroupId>, ghost on: Option<SessionId>)
      returns (detached: set<GroupId>)
      requires View().Inv(loose, rec.inst.Key(), on) && (on.None? || on == rec.configured)
      requires Fits(View(), rec, g) && loose == (if View().Current(g) then {} else {g}) && View().Agrees(rec)
      requires View().Current(g) || SoleUser(View(), rec.inst)
      modifies this
      ensures View().Inv(detached, rec.inst.Key(), None) && old(View()).Undisturbed(View(), rec.inst.Key())
      ensures instances == old(instances)[rec.inst.Key() := rec.(serial := old(serials))]
      ensures Tidy(old(View()), View(), rec.inst.Key())
    {
      hide State.Inv, State.Undisturbed, Fits, State.Agrees, SoleUser, Detach, InUse, ResolveInstance, Resolve, State.Current,
           Tidy;
      SwitchReady(View(), rec, g, loose, on);
      SwitchTidies(View(), rec, g);
      var key, pk := rec.inst.Key(), rec.inst.ProcKey();
      var previous, replaced := ResolveInstance(View(), key), Resolve(View(), pk);
      instances, serials := instances[key := rec.(serial := serials)], serials + 1;
      procs := procs[pk := g];
      detached := DetachUnused(previous);
      if replaced != previous {
        var more := DetachUnused(replaced);
        detached := detached + more;
      } else {
        detached := detached + {};
      }
    }

    /** Drop a group from `procs` unless an enabled instance uses it. */
    method DetachUnused(g: Option<GroupId>) returns (detached: set<GroupId>)
      requires g.Some? ==> g.value in groups
      modifies this`procs
      ensures (View(), detached) == Detach(old(View()), g)
    {
      detached := {};
      if g.Some? && !InUse(View(), g.value) {
        if View().Current(g.value) {
          procs := procs - {groups[g.value].key};
        }
        detached := {g.value};
      }
    }

    /** Publish a candidate that passed, and stop what it replaced. */
    method Adopt(inst: Instance, g: GroupId, sess: SessionId, configured: bool, revision: nat,
                 ghost loose: set<GroupId>, ghost created: bool)
      returns (gone: bool)
      requires View().Inv(loose, inst.Key(), if configured then Some(sess) else None)
      requires Ready(View(), inst, g, loose, created) && Live(View(), sess, g)
      requires PluginConfig(inst.config) == map[] || View().Runs(sess, inst)
      modifies this
      ensures View().Inv({}, inst.Key(), None) && Applied(old(View()), View(), inst, true)
      ensures Tidy(old(View()), View(), inst.Key())
      ensures gone <==> View().NothingRetiring(inst.Key())
    {
      hide State.Inv, State.Quiet, State.OnlySupervision, State.SameBindings, State.Runs, Applied, Ready, Live, Fits,
           SoleUser, State.Agrees, Tidy;
      ghost var on := if configured then Some(sess) else None;
      Interfere(loose, inst.Key(), on);
      SupervisionStays(old(View()), View(), sess, g);
      SupervisionIsQuiet(old(View()), View());
      ReadyStays(old(View()), View(), inst, g, loose, created, on);
      ghost var before := View();
      var rec := Record(inst, true, 0, Some(sess), revision, 0);
      ReadyFits(View(), rec, sess, g, loose, created);
      var detached := Switch(rec, g, loose, on);
      SwitchedApplied(before, View(), rec);
      ghost var switched := View();
      QuietIsNoRebinding(old(View()), before);
      gone := RetireProcGroups(inst.Key(), detached, inst.Key());
      AppliedAround(old(View()), before, switched, View(), inst, true);
      TidyAfter(old(View()), before, switched, inst.Key());
      TidyAround(old(View()), switched, View(), inst.Key());
    }

    method ReconcileEnabled(inst: Instance) returns (r: Reconciled)
      requires View().Inv({}, inst.Key(), None) && inst.Needs() in installations
      requires View().NothingRetiring(inst.Key())
      modifies this
      ensures View().Inv({}, inst.Key(), None) && (r.Done? || r.Rejected? || r.SwitchedButRetiring?)
      ensures r.Rejected? ==> old(View()).SameBindings(View())
      ensures !r.Rejected? ==> Applied(old(View()), View(), inst, true) && Tidy(old(View()), View(), inst.Key())
      ensures r.Done? ==> View().NothingRetiring(inst.Key())
      ensures r.SwitchedButRetiring? ==> !View().NothingRetiring(inst.Key())
    {
      hide State.Inv, State.Quiet, State.SameBindings, State.Runs, Applied, Ready, Live, Takes, SoleUser, Unknown, Tidy;
      var key := inst.Key();
      var reuse := PickGroup(inst);
      if reuse.Some? && Unchanged(View(), inst, reuse.value) {
        UnchangedApplied(View(), inst, reuse.value);
        UnchangedTidy(View(), inst, reuse.value);
        return Done;
      }
      var created := reuse.None?;
      var g := 0;
      if created {
        g := LaunchGroup(inst);
      } else {
        g := reuse.value;
      }
      ghost var loose := if created then {g} else {};
      CandidateReady(old(View()), View(), inst, g, loose, created);
      ghost var before := View();
      var ok, sess, configured, revision := TryCandidate(inst, g, loose);
      ReadyStays(before, View(), inst, g, loose, created, None);
      QuietIsNoRebinding(before, View());
      LaunchRebinds(old(View()), before);
      BindingsCompose(old(View()), before, View());
      ghost var tried := View();
      if ok {
        var gone := Adopt(inst, g, sess.value, configured, revision, loose, created);
        AppliedAfter(old(View()), tried, View(), inst, true);
        TidyAfter(old(View()), tried, View(), inst.Key());
        r := if gone then Done else SwitchedButRetiring;
      } else {
        ReadyUnknown(View(), inst, g, loose, created);
        Rollback(key, g, created, sess, configured, revision, loose);
        BindingsCompose(old(View()), tried, View());
        if created {
          ghost var undone := View();
          var gone := RetireProcGroups(key, {g}, key);
          BindingsCompose(old(View()), undone, View());
        }
        r := Rejected;
      }
    }

    /** Put a record under the next serial number. */
    method StoreRecord(rec: Record)
      modifies this`instances, this`serials
      ensures View() == Put(old(View()), rec)
    {
      instances, serials := instances[rec.inst.Key() := rec.(serial := serials)], serials + 1;
    }

    /** Replace a definition by a disabled one. */
    method TurnOff(inst: Instance) returns (detached: set<GroupId>)
      requires View().Inv({}, inst.Key(), None)
      modifies this
      ensures View().Inv(detached, inst.Key(), None) && Applied(old(View()), View(), inst, false)
      ensures Tidy(old(View()), View(), inst.Key())
    {
      var rec := Record(inst, false, 0, None, 0, 0);
      hide State.Inv, State.Closed, Applied, Detach, InUse, ResolveInstance, Tidy, Put, SwitchOff;
      SwitchOffReady(View(), rec);
      SwitchOffTidies(View(), rec);
      var key := inst.Key();
      var previous := ResolveInstance(View(), key);
      if key in instances {
        StoreRecord(rec);
      }
      ghost var replaced := View();
      detached := DetachUnused(previous);
      SwitchOffIs(old(View()), rec, replaced, View(), detached);
    }

    /** Apply a complete definition.  Candidate processes must have served a session before they
        replace a live binding. */
    method ReconcileInstance(inst: Instance, enabled: bool) returns (r: Reconciled)
      requires Valid()
      modifies this
      ensures Valid()
      // Turned away or rejected: every binding is as before.
      ensures r.BeforeCommit() ==> old(View()).SameBindings(View())
      // Otherwise exactly this definition changed, and nobody else's process.
      ensures !r.BeforeCommit() ==> Applied(old(View()), View(), inst, enabled)
      // The process it had before is no longer current, unless somebody enabled shares it.
      ensures !r.BeforeCommit() ==> Tidy(old(View()), View(), inst.Key())
      // Success is reported only after every predecessor is confirmed gone.
      ensures r.Done? ==> View().NothingRetiring(inst.Key())
      ensures r.SwitchedButRetiring? ==> !View().NothingRetiring(inst.Key())
      ensures r.StillRetiring? ==> !View().NothingRetiring(inst.Key())
      // Each way of being turned away has its own reason.
      ensures r == Refused(InvalidArgument) ==> inst.tenant == "" || inst.id == ""
      ensures inst.tenant == "" || inst.id == "" ==> r == Refused(InvalidArgument) || r == Refused(Cancelled)
      ensures r == Refused(NotInstalled) ==> enabled && inst.Needs() !in installations
      ensures enabled && (r.Rejected? || !r.BeforeCommit()) ==> inst.Needs() in installations
      ensures r.Rejected? ==> enabled
      ensures r.Refused? ==> r.error == InvalidArgument || r.error == NotInstalled || r.error == Cancelled
    {
      hide State.Inv, State.SameBindings, Applied, Tidy;
      var key := inst.Key();
      var live: bool := *;
      BindingsAlike(View(), View());
      if !live {
        return Refused(Cancelled);
      }
      if inst.tenant == "" || inst.id == "" {
        return Refused(InvalidArgument);
      }
      var clear := RetireProcGroups(key, {}, NOBODY);
      if !clear {
        return StillRetiring;
      }
      Occupy(View(), NOBODY, key);
      ghost var before := View();
      SameInstallations(old(View()), before);
      if enabled && inst.Needs() !in installations {
        r := Refused(NotInstalled);
      } else {
        r := ReconcileKnown(inst, enabled);
        if r.Rejected? {
          BindingsCompose(old(View()), before, View());
        } else {
          AppliedAfter(old(View()), before, View(), inst, enabled);
          TidyAfter(old(View()), before, View(), inst.Key());
          AppliedInstallations(old(View()), View(), inst, enabled);
        }
      }
      Occupy(View(), key, NOBODY);
    }

    method ReconcileKnown(inst: Instance, enabled: bool) returns (r: Reconciled)
      requires View().Inv({}, inst.Key(), None) && (enabled ==> inst.Needs() in installations)
      requires View().NothingRetiring(inst.Key())
      modifies this
      ensures View().Inv({}, inst.Key(), None) && (r.Done? || (r.Rejected? && enabled) || r.SwitchedButRetiring?)
      ensures r.Rejected? ==> old(View()).SameBindings(View())
      ensures !r.Rejected? ==> Applied(old(View()), View(), inst, enabled) && Tidy(old(View()), View(), inst.Key())
      ensures r.Done? ==> View().NothingRetiring(inst.Key())
      ensures r.SwitchedButRetiring? ==> !View().NothingRetiring(inst.Key())
    {
      hide State.Inv, State.SameBindings, Applied, Tidy;
      if enabled {
        r := ReconcileEnabled(inst);
      } else {
        ghost var before := View();
        BindingsAlike(before, before);
        var detached := TurnOff(inst);
        ghost var off := View();
        var gone := RetireProcGroups(inst.Key(), detached, inst.Key());
        AppliedAround(before, before, off, View(), inst, false);
        TidyAround(before, off, View(), inst.Key());
        r := if gone then Done else SwitchedButRetiring;
      }
    }

    method RegisterInstallation(install: Install, path: string) returns (r: Option<Error>)
      requires Valid()
      modifies this
      ensures Valid()
      ensures r == Some(InvalidArgument) <==> install.plugin == "" || install.version == "" || path == ""
      ensures r == Some(AlreadyExists) ==> install in old(installations)
      ensures r.None? ==> install !in old(installations)
      ensures r.None? || r == Some(InvalidArgument) || r == Some(AlreadyExists)
      ensures View() == old(View()).(installations := old(installations) + if r.None? then {install} else {})
    {
      hide State.Inv;
      if install.plugin == "" || install.version == "" || path == "" {
        return Some(InvalidArgument);
      }
      if install in installations {
        return Some(AlreadyExists);
      }
      installations := installations + {install};
      MoreInstalled(old(View()), install);
      r := None;
    }

    /** A new instance starts out stopped. */
    method CreateInstance(inst: Instance) returns (r: Option<Error>)
      requires Valid()
      modifies this
      ensures Valid()
      ensures r ==
        if inst.tenant == "" || inst.id == "" then Some(InvalidArgument)
        else if inst.Needs() !in installations then Some(NotInstalled)
        else if inst.Key() in old(instances) then Some(AlreadyExists)
        else None
      ensures View() == if r.Some? then old(View()) else Put(old(View()), Record(inst, false, 0, None, 0, 0))
      ensures r.None? ==> old(View()).Undisturbed(View(), inst.Key())
    {
      hide State.Inv, State.Undisturbed;
      if inst.tenant == "" || inst.id == "" {
        return Some(InvalidArgument);
      }
      if inst.Needs() !in installations {
        return Some(NotInstalled);
      }
      if inst.Key() in instances {
        return Some(AlreadyExists);
      }
      var rec := Record(inst, false, 0, None, 0, serials);
      PutNewKeeps(View(), rec);
      instances, serials := instances[inst.Key() := rec], serials + 1;
      r := None;
    }

    /** Bind the instance to the running process of its key, or launch one. */
    method EnableInstance(key: InstKey) returns (r: Option<Error>, ghost g: GroupId)
      requires Valid()
      modifies this
      ensures Valid()
      ensures r.None? <==>
        && key in old(instances) && key.tenant != "" && key.id != ""
        && (old(instances)[key].enabled || old(instances)[key].inst.Needs() in installations)
      ensures r.Some? ==> View() == old(View())
      ensures r.None? ==> Applied(old(View()), View(), old(instances)[key].inst, true)
      // Apart from supervision exactly this changed: the process of its key, or a new one, serves it.
      ensures r.None? && old(instances)[key].enabled ==> View() == old(View())
      ensures r.None? && !old(instances)[key].enabled ==>
        var rec := old(instances)[key].(enabled := true, failures := 0);
        var pk := rec.inst.ProcKey();
        && (if pk in old(procs) then g == old(procs)[pk] else g !in old(groups))
        && var ready := if pk in old(procs) then old(View()) else Launch(old(View()), g, rec.inst);
        Replace(ready, rec).(procs := ready.procs[pk := g]).OnlySupervision(View())
    {
      hide State.Inv, Applied;
      if key.tenant == "" || key.id == "" {
        return Some(InvalidArgument), 0;
      }
      if key !in instances {
        return Some(NotFound), 0;
      }
      KeyKnown(View(), key, {}, NOBODY, None);
      var rec := instances[key];
      if rec.enabled {
        AppliedAlready(View(), key);
        return None, 0;
      }
      if rec.inst.Needs() !in installations {
        return Some(NotInstalled), 0;
      }
      var pk := rec.inst.ProcKey();
      var group := 0;
      if pk in procs {
        group := procs[pk];
        EnableExisting(View(), key);
      } else {
        Occupy(View(), NOBODY, key);
        group := LaunchGroup(rec.inst);
        EnableLaunched(old(View()), View(), key, group);
      }
      ghost var before := View();
      instances := instances[key := rec.(enabled := true, failures := 0)];
      procs, g := procs[pk := group], group;
      EnableKeeps(before, instances[key], g, if before.Current(g) then {} else {g});
      EnableApplied(old(View()), before, View(), key, g);
      ghost var bound := View();
      Interfere({}, NOBODY, None);
      AppliedUnderway(old(View()), bound, View(), rec.inst, true);
      r := None;
    }

    /** Stop the instance; its process is told to stop only if it served nobody else. */
    method Disable(key: InstKey) returns (r: Option<Error>)
      requires Valid()
      modifies this
      ensures Valid()
      ensures r.None? <==> key in old(instances) && key.tenant != "" && key.id != ""
      ensures r.Some? ==> View() == old(View())
      ensures r.None? ==> Applied(old(View()), View(), old(instances)[key].inst, false)
      ensures r.None? ==>
        Replace(old(View()), old(instances)[key].(enabled := false)).OnlySupervision(View())
    {
      hide State.Inv, Applied;
      if key.tenant == "" || key.id == "" {
        return Some(InvalidArgument);
      }
      if key !in instances {
        return Some(NotFound);
      }
      KeyKnown(View(), key, {}, NOBODY, None);
      instances := instances[key := instances[key].(enabled := false)];
      ReplaceKeeps(old(View()), instances[key], {}, NOBODY, None);
      DisableApplied(old(View()), View(), key);
      ghost var off := View();
      Interfere({}, NOBODY, None);
      AppliedUnderway(old(View()), off, View(), old(instances)[key].inst, false);
      r := None;
    }

    /** The outcome of probing the instance that was `probed` on `g`, if it is still that one.  After
        enough failures in a row the instance is disabled, or its process restarted. */
    method ProbeOutcome(key: InstKey, probed: nat, g: GroupId, degraded: bool, threshold: nat, restart: bool)
      requires Valid() && threshold > 0
      modifies this
      ensures Valid()
      ensures old(View()).SameBindings(View())
        || (degraded && !restart && key in old(instances) && old(instances)[key].failures + 1 >= threshold
            && old(instances)[key].serial == probed
            && Applied(old(View()), View(), old(instances)[key].inst, false))
      // Apart from supervision exactly this changed.
      ensures (if key in old(instances) && IsProbed(old(View()), key, probed, g)
               then Replace(old(View()), Noted(old(instances)[key], degraded, threshold, restart))
               else old(View())).OnlySupervision(View())
    {
      hide State.Inv, Applied, State.SameBindings, State.OnlySupervision;
      BindingsAlike(View(), View());
      SupervisionMayIdle(View());
      if key !in instances || !IsProbed(View(), key, probed, g) {
        return;
      }
      KeyKnown(View(), key, {}, NOBODY, None);
      var rec := instances[key];
      var failures := if degraded then rec.failures + 1 else 0;
      var act := degraded && failures >= threshold;
      instances := instances[key := rec.(failures := if act then 0 else failures, enabled := !(act && !restart))];
      assert View() == Replace(old(View()), Noted(rec, degraded, threshold, restart));
      ReplaceKeeps(old(View()), instances[key], {}, NOBODY, None);
      ghost var noted := View();
      hide IsProbed, Replace;
      Interfere({}, NOBODY, None);
      NotedSays(old(View()), noted, View(), key, degraded, threshold, restart);
    }

    /** Forget an instance.  Its process is stopped unless another enabled instance shares it, but a
        process that does not exit in time is abandoned rather than kept in `retiring`. */
    method Remove(key: InstKey) returns (r: Option<Error>)
      requires Valid()
      modifies this
      ensures Valid()
      ensures r.None? <==> key in old(instances) && key.tenant != "" && key.id != ""
      ensures r.Some? ==> View() == old(View())
      ensures r == Some(NotFound) ==> key !in old(instances)
      ensures r.None? ==> key !in instances && old(View()).Undisturbed(View(), key)
      ensures r.None? ==> old(View()).Closed() && RemoveInstance(old(View()), key).OnlySupervision(View())
    {
      hide State.Inv, State.Undisturbed;
      if key.tenant == "" || key.id == "" {
        return Some(InvalidArgument);
      }
      if key !in instances {
        return Some(NotFound);
      }
      RemoveKeeps(View(), key);
      var pk := instances[key].inst.ProcKey();
      instances := instances - {key};
      if pk in procs && forall k <- instances :: instances[k].enabled ==> instances[k].inst.ProcKey() != pk {
        var g := procs[pk];
        procs := procs - {pk};
        groups := groups[g := groups[g].(cancelled := true)];
        abandoned := abandoned + {g};
      }
      ghost var removed := View();
      Interfere({}, NOBODY, None);
      SupervisionIsQuiet(removed, View());
      QuietIsNoRebinding(removed, View());
      RebindingUndisturbed(removed, View(), key);
      UndisturbedComposes(old(View()), removed, View(), key);
      SameKeys(removed, View());
      r := None;
    }
  }

  /** `g` serves the key of `inst` and was built for the same installation. */
  predicate Takes(st: State, inst: Instance, g: GroupId)
    requires g in st.groups
  {
    && !st.groups[g].cancelled && g !in st.retiring
    && st.groups[g].key == inst.ProcKey() && st.groups[g].install == inst.Needs()
  }

  /** The instance is still the one that was probed, on the same process. */
  predicate IsProbed(st: State, key: InstKey, probed: nat, g: GroupId)
    requires key in st.instances
  {
    st.instances[key].serial == probed && st.instances[key].enabled && st.Serves(g, st.instances[key])
  }

  /** Failures in a row are counted; enough of them disable the instance or restart its process, and start
      the count afresh. */
  function Noted(rec: Record, degraded: bool, threshold: nat, restart: bool): Record {
    if !degraded then rec.(failures := 0)
    else if rec.failures + 1 < threshold then rec.(failures := rec.failures + 1)
    else rec.(failures := 0, enabled := restart)
  }

  lemma NotedSays(a: State, b: State, c: State, key: InstKey, degraded: bool, threshold: nat, restart: bool)
    requires key in a.instances && a.instances[key].inst.Key() == key && a.instances[key].enabled
    requires b == Replace(a, Noted(a.instances[key], degraded, threshold, restart)) && b.OnlySupervision(c)
    ensures a.SameBindings(c)
      || (degraded && !restart && a.instances[key].failures + 1 >= threshold && Applied(a, c, a.instances[key].inst, false))
  {
    hide State.Quiet, Applied, State.SameBindings;
    if b.instances[key].enabled {
      ReplaceRebinds(a, b.instances[key]);
      QuietIsNoRebinding(b, c);
      BindingsCompose(a, b, c);
    } else {
      DisableApplied(a, b, key);
      AppliedUnderway(a, b, c, a.instances[key].inst, false);
    }
  }

  lemma PickFits(st: State, inst: Instance)
    requires st.Inv({}, inst.Key(), None) && Resolve(st, inst.ProcKey()).Some?
    ensures var g := Resolve(st, inst.ProcKey()).value;
      && g in st.groups
      && (inst.ProcKey().PerKey? ==> inst.Key() in st.instances)
      && (inst.ProcKey().SharedKey? || st.instances[inst.Key()].inst.Needs() == inst.Needs() ==> Takes(st, inst, g))
  {
  }

  /** `s` is, or was, a session users of `g` could see. */
  ghost predicate Live(st: State, s: SessionId, g: GroupId) {
    s in st.sessions && st.sessions[s].owner == g && st.sessions[s].published
  }

  lemma LiveKnown(st: State, s: SessionId, g: GroupId)
    requires Live(st, s, g)
    ensures s in st.sessions && st.sessions[s].published
  {
  }

  lemma SessionLive(st: State, g: GroupId, loose: set<GroupId>, busy: InstKey)
    requires st.Inv(loose, busy, None) && g in st.groups && st.groups[g].session.Some?
    ensures Live(st, st.groups[g].session.value, g)
  {
  }

  lemma SupervisionStays(a: State, b: State, s: SessionId, g: GroupId)
    requires a.OnlySupervision(b) && Live(a, s, g)
    ensures Live(b, s, g) && forall inst :: a.Runs(s, inst) ==> b.Runs(s, inst)
  {
  }

  lemma DeliverStays(a: State, b: State, s: SessionId, inst: Instance, g: GroupId)
    requires Live(a, s, g) && (b == a || b == Deliver(a, s, inst))
    ensures Live(b, s, g) && a.Quiet(b)
  {
  }

  /** Whether the configuration has to be sent, and under which revision: it changed, or this session
      was never told (an empty one only after an earlier non-empty one). */
  function PlanConfigure(st: State, inst: Instance, s: SessionId): (bool, nat) {
    var old' := if inst.Key() in st.instances then Some(st.instances[inst.Key()]) else None;
    var config := PluginConfig(inst.config);
    var previous := if old'.Some? then PluginConfig(old'.value.inst.config) else map[];
    var told := old'.Some? && old'.value.configured == Some(s);
    var revision := if old'.Some? then old'.value.revision else 0;
    var needed := config != previous || ((config != map[] || revision > 0) && !told);
    (needed, if needed then revision + 1 else revision)
  }

  lemma NothingToSend(st: State, inst: Instance, s: SessionId, loose: set<GroupId>)
    requires st.Inv(loose, inst.Key(), None) && !PlanConfigure(st, inst, s).0
    ensures PluginConfig(inst.config) == map[] || st.Runs(s, inst)
  {
    if PluginConfig(inst.config) != map[] {
      assert st.Agrees(st.instances[inst.Key()]);
    }
  }

  /** No call is made that would tell the session what it was told already. */
  lemma NothingToldTwice(st: State, inst: Instance, s: SessionId)
    requires inst.Key() in st.instances && st.instances[inst.Key()].configured == Some(s)
    requires forall x :: x != "path" ==> (x in inst.config <==> x in st.instances[inst.Key()].inst.config)
    requires forall x <- inst.config :: x != "path" ==> inst.config[x] == st.instances[inst.Key()].inst.config[x]
    ensures PlanConfigure(st, inst, s) == (false, st.instances[inst.Key()].revision)
  {
    assert PluginConfig(inst.config) == PluginConfig(st.instances[inst.Key()].inst.config);
  }

  /** What a session runs is the configuration of the instance without the local path, entry by entry. */
  lemma RunsMeans(st: State, s: SessionId, inst: Instance)
    ensures st.Runs(s, inst) <==>
      && s in st.sessions && inst.Key() in st.sessions[s].applied
      && forall x ::
           var accepted := st.sessions[s].applied[inst.Key()];
           && (x in accepted <==> x in inst.config && x != "path")
           && (x in accepted && x in inst.config ==> accepted[x] == inst.config[x])
  {
    if s in st.sessions && inst.Key() in st.sessions[s].applied {
      var accepted, config := st.sessions[s].applied[inst.Key()], PluginConfig(inst.config);
      if forall x :: (x in accepted <==> x in inst.config && x != "path") && (x in accepted && x in inst.config ==> accepted[x] == inst.config[x]) {
        assert accepted.Keys == config.Keys;
        assert accepted == config;
      }
    }
  }

  /** The process an enabled instance is entitled to: its own, or the one shared by the instances of its
      plugin and version. */
  lemma EntitledProcess(st: State, k: InstKey)
    requires st.Inv({}, NOBODY, None) && k in st.instances && st.instances[k].enabled
    ensures var inst := st.instances[k].inst;
      var entitled := if inst.isolation == PerInstance then PerKey(k) else SharedKey(Install(inst.plugin, inst.version));
      && inst.tenant == k.tenant && inst.id == k.id
      && entitled in st.procs
      && var group := st.groups[st.procs[entitled]];
      group.key == entitled && group.install == Install(inst.plugin, inst.version) && !group.cancelled
  {
    EnabledIsServed(st, k);
  }

  /** So two enabled instances share a process exactly if both are to share, and are of the same plugin and
      version. */
  lemma SharingIff(st: State, j: InstKey, k: InstKey, g: GroupId, h: GroupId)
    requires st.Inv({}, NOBODY, None) && j in st.instances && k in st.instances && j != k
    requires st.instances[j].enabled && st.instances[k].enabled
    requires st.Serves(g, st.instances[j]) && st.Serves(h, st.instances[k])
    ensures var a, b := st.instances[j].inst, st.instances[k].inst;
      g == h <==> a.isolation == b.isolation == SharedProcess && a.plugin == b.plugin && a.version == b.version
  {
    EntitledProcess(st, j);
    EntitledProcess(st, k);
    hide State.Tracked, State.Restoring, State.Numbered, State.Agreement;
  }

  /** The record after a number of bad probes in a row. */
  function NotedTimes(rec: Record, threshold: nat, restart: bool, n: nat): Record {
    if n == 0 then rec else Noted(NotedTimes(rec, threshold, restart, n - 1), true, threshold, restart)
  }

  /** From a clean record, exactly the last of `threshold` bad probes in a row acts; a good one in between
      starts the count afresh. */
  lemma {:induction false} ThresholdActs(rec: Record, threshold: nat, restart: bool, n: nat)
    requires rec.enabled && rec.failures == 0 && 0 < n <= threshold
    ensures NotedTimes(rec, threshold, restart, n) ==
      if n < threshold then rec.(failures := n) else rec.(enabled := restart)
    ensures Noted(rec.(failures := n), false, threshold, restart) == rec
  {
    if n > 1 {
      ThresholdActs(rec, threshold, restart, n - 1);
    } else {
      assert NotedTimes(rec, threshold, restart, 0) == rec;
    }
  }

  /** No record points at a session of `g`. */
  ghost predicate Unknown(st: State, g: GroupId) {
    forall k <- st.instances :: st.instances[k].configured.Some? ==>
      st.instances[k].configured.value in st.sessions && st.sessions[st.instances[k].configured.value].owner != g
  }

  lemma UnknownStays(a: State, b: State, g: GroupId)
    requires a.Closed() && a.Quiet(b) && Unknown(a, g) && g in a.groups && !a.Current(g)
    ensures Unknown(b, g)
  {
    forall k | k in b.instances && b.instances[k].configured.Some?
      ensures b.instances[k].configured.value in b.sessions && b.sessions[b.instances[k].configured.value].owner != g
    {
      if b.instances[k].configured != a.instances[k].configured {
        assert a.Moved(b, b.instances[k].configured);
      }
    }
  }

  lemma DoubtElsewhere(st: State, key: InstKey, g: GroupId, on: Option<SessionId>, loose: set<GroupId>)
    requires st.Inv(loose, key, on)
    requires on.Some? && key in st.instances && st.instances[key].configured == on ==> Live(st, on.value, g) && Unknown(st, g)
    ensures st.Inv(loose, key, None)
  {
    hide State.Closed, State.BoundBut, State.Tracked, State.Restoring, State.Numbered;
  }

  /** Change fields of a record in place. */
  function Replace(st: State, rec: Record): State {
    st.(instances := st.instances[rec.inst.Key() := rec])
  }

  ghost predicate Milder(st: State, rec: Record) {
    var key := rec.inst.Key();
    && key in st.instances && rec.inst == st.instances[key].inst && rec.serial == st.instances[key].serial
    && (rec.enabled ==> st.instances[key].enabled)
    && (rec.configured == st.instances[key].configured || rec.configured.None?)
  }

  lemma ReplaceTracked(st: State, rec: Record, loose: set<GroupId>)
    requires st.Closed() && st.Tracked(loose) && Milder(st, rec)
    ensures Replace(st, rec).Closed() && Replace(st, rec).Tracked(loose)
  {
  }

  lemma ReplaceBound(st: State, rec: Record)
    requires st.Closed() && st.Bound() && Milder(st, rec) && Replace(st, rec).Closed()
    ensures Replace(st, rec).Bound()
  {
  }

  lemma ReplaceAgrees(st: State, rec: Record, busy: InstKey, on: Option<SessionId>)
    requires st.Restoring() && st.Numbered() && st.Agreement(busy, on) && Milder(st, rec)
    ensures var next := Replace(st, rec); next.Restoring() && next.Numbered() && next.Agreement(busy, on)
  {
  }

  /** A record may be revised, disabled, or made to forget its session. */
  lemma ReplaceKeeps(st: State, rec: Record, loose: set<GroupId>, busy: InstKey, on: Option<SessionId>)
    requires st.Inv(loose, busy, on) && Milder(st, rec)
    ensures Replace(st, rec).Inv(loose, busy, on)
  {
    hide State.Closed, State.BoundBut, State.Tracked, State.Restoring, State.Numbered, State.Agreement;
    ReplaceTracked(st, rec, loose);
    ReplaceBound(st, rec);
    ReplaceAgrees(st, rec, busy, on);
  }

  lemma ReplaceRebinds(st: State, rec: Record)
    requires Milder(st, rec) && rec.enabled == st.instances[rec.inst.Key()].enabled
    ensures st.SameBindings(Replace(st, rec))
  {
  }

  lemma DoubtSettled(st: State, key: InstKey, s: SessionId, loose: set<GroupId>)
    requires st.Inv(loose, key, Some(s)) && key in st.instances && st.Runs(s, st.instances[key].inst)
    ensures st.Inv(loose, key, None)
  {
    hide State.Closed, State.BoundBut, State.Tracked, State.Restoring, State.Numbered;
  }

  lemma DoubtDropped(st: State, key: InstKey, s: SessionId, loose: set<GroupId>)
    requires st.Inv(loose, key, Some(s)) && key in st.instances && st.instances[key].configured != Some(s)
    ensures st.Inv(loose, key, None)
  {
    hide State.Closed, State.BoundBut, State.Tracked, State.Restoring, State.Numbered;
  }

  lemma LiveAdjusted(a: State, b: State, s: SessionId, g: GroupId)
    requires Live(a, s, g) && b.sessions == a.sessions
    ensures Live(b, s, g)
  {
  }

  lemma KeyKnown(st: State, key: InstKey, loose: set<GroupId>, busy: InstKey, on: Option<SessionId>)
    requires st.Inv(loose, busy, on) && key in st.instances
    ensures st.instances[key].inst.Key() == key
  {
  }

  /** The definition took effect, and no one else was touched. */
  ghost predicate Applied(a: State, b: State, inst: Instance, enabled: bool) {
    && a.Undisturbed(b, inst.Key())
    && (enabled ==> inst.Key() in b.instances)
    && (!enabled ==> (inst.Key() in b.instances <==> inst.Key() in a.instances))
    && (inst.Key() in b.instances ==>
          b.instances[inst.Key()].inst == inst && b.instances[inst.Key()].enabled == enabled)
  }

  /** The process that `key` resolved to before is out of the process table, unless somebody enabled still
      resolves to it. */
  ghost predicate Tidy(a: State, b: State, key: InstKey) {
    key in a.instances && a.instances[key].inst.ProcKey() in a.procs ==> Kept(b, a.procs[a.instances[key].inst.ProcKey()])
  }

  ghost predicate Kept(b: State, g: GroupId) {
    (exists k <- b.instances :: b.instances[k].enabled && b.Serves(g, b.instances[k]))
    || forall p <- b.procs :: b.procs[p] != g
  }

  lemma TidyAfter(a: State, b: State, c: State, key: InstKey)
    requires a.SameBindings(b) && Tidy(b, c, key)
    ensures Tidy(a, c, key)
  {
    hide Kept;
  }

  lemma TidyAround(a: State, b: State, c: State, key: InstKey)
    requires Tidy(a, b, key) && b.SameBindings(c)
    ensures Tidy(a, c, key)
  {
    if key in a.instances && a.instances[key].inst.ProcKey() in a.procs {
      var g := a.procs[a.instances[key].inst.ProcKey()];
      if exists k <- b.instances :: b.instances[k].enabled && b.Serves(g, b.instances[k]) {
        var k :| k in b.instances && b.instances[k].enabled && b.Serves(g, b.instances[k]);
        assert c.instances[k].enabled && c.Serves(g, c.instances[k]);
      }
    }
  }

  /** What is taken out because nobody uses it is out, and what somebody uses stays. */
  lemma DetachTidies(st: State, g: Option<GroupId>, h: GroupId)
    requires st.Closed() && (g.Some? ==> g.value in st.groups)
    ensures g == Some(h) || Kept(st, h) ==> Kept(Detach(st, g).0, h)
  {
    var next := Detach(st, g).0;
    if exists k <- st.instances :: st.instances[k].enabled && st.Serves(h, st.instances[k]) {
      var k :| k in st.instances && st.instances[k].enabled && st.Serves(h, st.instances[k]);
      assert g.Some? && !InUse(st, g.value) ==> !st.Serves(g.value, st.instances[k]);
      assert next.instances[k].enabled && next.Serves(h, next.instances[k]);
    }
  }

  lemma SwitchTidies(st: State, rec: Record, g: GroupId)
    requires st.Closed() && Fits(st, rec, g)
    ensures var key := rec.inst.Key();
      && (ResolveInstance(st, key).Some? ==> Kept(SwitchBinding(st, rec, g).0, ResolveInstance(st, key).value))
      && Tidy(st, SwitchBinding(st, rec, g).0, key)
  {
    hide Kept, InUse, Detach;
    var previous, replaced := ResolveInstance(st, rec.inst.Key()), Resolve(st, rec.inst.ProcKey());
    var st1 := Put(st, rec).(procs := st.procs[rec.inst.ProcKey() := g]);
    PublishBindingClosed(st, rec, g);
    assert st1 == PublishBinding(st, rec, g);
    if previous.Some? {
      DetachTidies(st1, previous, previous.value);
      DetachClosed(st1, previous);
      DetachTidies(Detach(st1, previous).0, replaced, previous.value);
    }
  }

  lemma SwitchOffIs(st: State, rec: Record, replaced: State, next: State, detached: set<GroupId>)
    requires st.Closed() && replaced == if rec.inst.Key() in st.instances then Put(st, rec) else st
    requires var previous := ResolveInstance(st, rec.inst.Key());
      (previous.Some? ==> previous.value in replaced.groups) && (next, detached) == Detach(replaced, previous)
    ensures (next, detached) == SwitchOff(st, rec)
  {
    hide Detach, Put, ResolveInstance;
  }

  lemma SwitchOffTidies(st: State, rec: Record)
    requires st.Closed() && rec.configured.None?
    ensures Tidy(st, SwitchOff(st, rec).0, rec.inst.Key())
  {
    hide Kept, InUse, Detach;
    var key := rec.inst.Key();
    var previous := ResolveInstance(st, key);
    var st1 := if key in st.instances then Put(st, rec) else st;
    assert st1.Closed();
    if previous.Some? {
      DetachTidies(st1, previous, previous.value);
    }
  }

  /** The very same binding is in use. */
  lemma UnchangedTidy(st: State, inst: Instance, g: GroupId)
    requires g in st.groups && Unchanged(st, inst, g) && Resolve(st, inst.ProcKey()) == Some(g)
    ensures Tidy(st, st, inst.Key())
  {
    assert st.Serves(g, st.instances[inst.Key()]);
  }

  lemma AppliedAfter(a: State, b: State, c: State, inst: Instance, enabled: bool)
    requires a.SameBindings(b) && Applied(b, c, inst, enabled)
    ensures Applied(a, c, inst, enabled)
  {
    hide State.Undisturbed;
    RebindingUndisturbed(a, b, inst.Key());
    UndisturbedComposes(a, b, c, inst.Key());
  }

  lemma AppliedAround(a: State, b: State, c: State, d: State, inst: Instance, enabled: bool)
    requires a.SameBindings(b) && Applied(b, c, inst, enabled) && c.SameBindings(d)
    ensures Applied(a, d, inst, enabled)
  {
    hide State.Undisturbed;
    RebindingUndisturbed(a, b, inst.Key());
    UndisturbedComposes(a, b, c, inst.Key());
    RebindingUndisturbed(c, d, inst.Key());
    UndisturbedComposes(a, c, d, inst.Key());
  }

  lemma AppliedInstallations(a: State, b: State, inst: Instance, enabled: bool)
    requires Applied(a, b, inst, enabled)
    ensures a.installations == b.installations
  {
  }

  lemma SameInstallations(a: State, b: State)
    requires a.SameBindings(b)
    ensures a.installations == b.installations
  {
  }

  lemma SwitchedApplied(a: State, b: State, rec: Record)
    requires a.Undisturbed(b, rec.inst.Key()) && rec.enabled
    requires b.instances == a.instances[rec.inst.Key() := rec.(serial := a.serials)]
    ensures Applied(a, b, rec.inst, true)
  {
  }

  lemma SwitchOffApplied(st: State, rec: Record)
    requires st.Closed() && !rec.enabled && rec.configured.None?
    ensures Applied(st, SwitchOff(st, rec).0, rec.inst, false)
  {
    hide InUse, State.Undisturbed;
    SwitchOffUndisturbed(st, rec);
  }

  lemma SwitchReady(st: State, rec: Record, g: GroupId, loose: set<GroupId>, on: Option<SessionId>)
    requires st.Inv(loose, rec.inst.Key(), on) && (on.None? || on == rec.configured)
    requires Fits(st, rec, g) && loose == (if st.Current(g) then {} else {g}) && st.Agrees(rec)
    requires st.Current(g) || SoleUser(st, rec.inst)
    ensures var previous, replaced := ResolveInstance(st, rec.inst.Key()), Resolve(st, rec.inst.ProcKey());
      && (previous.Some? ==> previous.value in st.groups) && (replaced.Some? ==> replaced.value in st.groups)
      && st.Closed()
      && var (next, detached) := SwitchBinding(st, rec, g);
      && next.Inv(detached, rec.inst.Key(), None) && st.Undisturbed(next, rec.inst.Key())
      && next.instances == st.instances[rec.inst.Key() := rec.(serial := st.serials)]
  {
    SwitchBindingShape(st, rec, g);
    SwitchBindingKeeps(st, rec, g, loose, on) by {
      hide State.Inv;
    }
    SwitchBindingUndisturbed(st, rec, g);
    hide State.BoundBut, State.Tracked, State.Restoring, State.Numbered, State.Agreement, State.Undisturbed, Fits, SwitchBinding;
  }

  lemma SwitchOffReady(st: State, rec: Record)
    requires st.Inv({}, rec.inst.Key(), None) && !rec.enabled && rec.configured.None?
    ensures var previous := ResolveInstance(st, rec.inst.Key());
      && (previous.Some? ==> previous.value in st.groups)
      && st.Closed()
      && var (next, detached) := SwitchOff(st, rec);
      && next.Inv(detached, rec.inst.Key(), None) && Applied(st, next, rec.inst, false)
  {
    SwitchOffKeeps(st, rec);
    hide State.BoundBut, State.Tracked, State.Restoring, State.Numbered, State.Agreement, Applied;
    SwitchOffApplied(st, rec);
  }

  predicate Unchanged(st: State, inst: Instance, g: GroupId)
    requires g in st.groups
  {
    && inst.Key() in st.instances && st.instances[inst.Key()].enabled && st.instances[inst.Key()].inst == inst
    && st.instances[inst.Key()].configured.Some? && st.instances[inst.Key()].configured == st.groups[g].session
  }

  lemma UnchangedApplied(st: State, inst: Instance, g: GroupId)
    requires g in st.groups && Unchanged(st, inst, g)
    ensures Applied(st, st, inst, true)
  {
  }

  /** `g` may take over `inst`, fresh from launch or current. */
  ghost predicate Ready(st: State, inst: Instance, g: GroupId, loose: set<GroupId>, created: bool) {
    && g in st.groups && Takes(st, inst, g)
    && loose == (if st.Current(g) then {} else {g})
    && (created ==> !st.Current(g) && Unknown(st, g) && SoleUser(st, inst))
    && (!created ==> st.Current(g))
  }

  lemma ReadyStays(a: State, b: State, inst: Instance, g: GroupId, loose: set<GroupId>, created: bool, on: Option<SessionId>)
    requires a.Inv(loose, inst.Key(), on) && a.Quiet(b) && Ready(a, inst, g, loose, created)
    ensures Ready(b, inst, g, loose, created)
  {
    if created {
      UnknownStays(a, b, g);
    }
    hide State.Inv, Unknown;
  }

  lemma ReadyUnknown(st: State, inst: Instance, g: GroupId, loose: set<GroupId>, created: bool)
    requires Ready(st, inst, g, loose, created)
    ensures g in st.groups && (created ==> Unknown(st, g) && loose == {g}) && (!created ==> loose == {})
  {
  }

  lemma ReadyFits(st: State, rec: Record, s: SessionId, g: GroupId, loose: set<GroupId>, created: bool)
    requires Ready(st, rec.inst, g, loose, created) && Live(st, s, g)
    requires rec.enabled && rec.configured == Some(s)
    requires PluginConfig(rec.inst.config) == map[] || st.Runs(s, rec.inst)
    ensures Fits(st, rec, g) && st.Agrees(rec) && loose == (if st.Current(g) then {} else {g})
    ensures st.Current(g) || SoleUser(st, rec.inst)
  {
  }

  lemma CandidateReady(a: State, b: State, inst: Instance, g: GroupId, loose: set<GroupId>, created: bool)
    requires a.Inv({}, inst.Key(), None)
    requires created ==> g !in a.groups && b == Launch(a, g, inst) && SoleUser(a, inst) && loose == {g}
    requires !created ==> b == a && loose == {} && Resolve(a, inst.ProcKey()) == Some(g) && g in a.groups && Takes(a, inst, g)
    ensures Ready(b, inst, g, loose, created) && b.Inv(loose, inst.Key(), None)
  {
    if created {
      CandidateFresh(a, g, inst);
      LaunchKeeps(a, g, inst, inst.Key(), None);
    }
    hide State.Inv;
  }

  lemma CandidateFresh(st: State, g: GroupId, inst: Instance)
    requires st.Closed() && g !in st.groups
    ensures var next := Launch(st, g, inst); g !in next.retiring && !next.Current(g) && Unknown(next, g)
  {
  }

  lemma LaunchRebinds(a: State, b: State)
    requires b == a || b == a.(groups := b.groups)
    ensures a.SameBindings(b)
  {
  }

  lemma Occupy(st: State, busy: InstKey, key: InstKey)
    requires st.Inv({}, busy, None)
    ensures st.Inv({}, key, None)
  {
    hide State.Closed, State.BoundBut, State.Tracked, State.Restoring, State.Numbered;
  }

  lemma MoreInstalled(st: State, install: Install)
    requires st.Inv({}, NOBODY, None)
    ensures st.(installations := st.installations + {install}).Inv({}, NOBODY, None)
  {
    var next := st.(installations := st.installations + {install});
    assert next.Closed();
    BoundStays(st, next);
    SameSessionsKeep(st, next, NOBODY, None);
    hide State.BoundBut, State.Restoring, State.Numbered, State.Agreement;
  }

  lemma PutNewUndisturbed(st: State, rec: Record)
    requires rec.inst.Key() !in st.instances
    ensures st.Undisturbed(Put(st, rec), rec.inst.Key())
  {
  }

  lemma PutNewKeeps(st: State, rec: Record)
    requires st.Inv({}, NOBODY, None) && rec.inst.Key() !in st.instances
    requires !rec.enabled && rec.configured.None? && rec.serial == st.serials
    ensures Put(st, rec).Inv({}, NOBODY, None) && st.Undisturbed(Put(st, rec), rec.inst.Key())
  {
    PutNewUndisturbed(st, rec);
    assert PerKey(rec.inst.Key()) !in st.procs;
    hide State.Closed, State.BoundBut, State.Tracked, State.Restoring, State.Numbered, State.Agreement,
         State.Undisturbed;
    ForgetTracked(st, rec);
    ForgetBound(st, rec);
    NothingLeaves(Put(st, rec), rec.inst.Key());
    WeakerAgreement(st, NOBODY, None);
    PutKeepsSessions(st, rec, Put(st, rec));
    WeakerAgreement(Put(st, rec), rec.inst.Key(), None);
    hide State.Agreement;
  }

  lemma AppliedAlready(st: State, key: InstKey)
    requires key in st.instances && st.instances[key].inst.Key() == key
    ensures Applied(st, st, st.instances[key].inst, st.instances[key].enabled)
  {
  }

  lemma AppliedUnderway(a: State, b: State, c: State, inst: Instance, enabled: bool)
    requires Applied(a, b, inst, enabled) && b.OnlySupervision(c)
    ensures Applied(a, c, inst, enabled)
  {
    hide State.Quiet, Applied;
    QuietIsNoRebinding(b, c);
    hide State.OnlySupervision;
    BindingsAlike(a, a);
    AppliedAround(a, a, b, c, inst, enabled);
  }

  lemma DisableApplied(a: State, b: State, key: InstKey)
    requires key in a.instances && a.instances[key].inst.Key() == key
    requires key in b.instances && b.instances[key].inst == a.instances[key].inst && !b.instances[key].enabled
    requires b == a.(instances := a.instances[key := b.instances[key]])
    ensures Applied(a, b, a.instances[key].inst, false)
  {
  }

  ghost predicate Enables(st: State, rec: Record, g: GroupId) {
    && Fits(st, rec, g) && rec.inst.Key() in st.instances
    && rec == st.instances[rec.inst.Key()].(enabled := true, failures := rec.failures)
    && (rec.inst.ProcKey() in st.procs ==> st.procs[rec.inst.ProcKey()] == g)
  }

  lemma EnableTracked(st: State, rec: Record, g: GroupId, loose: set<GroupId>)
    requires st.Closed() && st.Tracked(loose) && Enables(st, rec, g) && loose == (if st.Current(g) then {} else {g})
    ensures var next := Replace(st, rec).(procs := st.procs[rec.inst.ProcKey() := g]); next.Closed() && next.Tracked({})
  {
  }

  /** Giving a key a group that fits its user unbinds nobody. */
  lemma RebindBound(st: State, next: State, key: InstKey, g: GroupId)
    requires st.Closed() && st.Bound() && next.Closed() && key in st.instances && g in st.groups
    requires next.groups == st.groups && next.procs == st.procs[st.instances[key].inst.ProcKey() := g]
    requires next.instances.Keys == st.instances.Keys
    requires forall k <- next.instances :: next.instances[k].inst == st.instances[k].inst
    requires forall k <- next.instances :: next.instances[k].enabled ==> k == key || st.instances[k].enabled
    requires st.groups[g].install == st.instances[key].inst.Needs()
    ensures next.Bound()
  {
    hide State.Closed;
  }

  lemma EnableBound(st: State, rec: Record, g: GroupId)
    requires st.Closed() && st.Bound() && Enables(st, rec, g)
    requires Replace(st, rec).(procs := st.procs[rec.inst.ProcKey() := g]).Closed()
    ensures Replace(st, rec).(procs := st.procs[rec.inst.ProcKey() := g]).Bound()
  {
    hide State.Closed, State.BoundBut, Instance.ProcKey;
    assert st.instances[rec.inst.Key()].inst == rec.inst;
    RebindBound(st, Replace(st, rec).(procs := st.procs[rec.inst.ProcKey() := g]), rec.inst.Key(), g);
  }

  lemma EnableAgrees(st: State, rec: Record, g: GroupId, busy: InstKey)
    requires st.Restoring() && st.Numbered() && st.Agreement(busy, None) && Enables(st, rec, g)
    ensures var next := Replace(st, rec).(procs := st.procs[rec.inst.ProcKey() := g]);
      next.Restoring() && next.Numbered() && next.Agreement(NOBODY, None)
  {
  }

  lemma EnableKeeps(st: State, rec: Record, g: GroupId, loose: set<GroupId>)
    requires st.Inv(loose, rec.inst.Key(), None) && Enables(st, rec, g) && loose == (if st.Current(g) then {} else {g})
    ensures Replace(st, rec).(procs := st.procs[rec.inst.ProcKey() := g]).Inv({}, NOBODY, None)
  {
    hide State.Closed, State.BoundBut, State.Tracked, State.Restoring, State.Numbered, State.Agreement, Enables;
    EnableTracked(st, rec, g, loose);
    EnableBound(st, rec, g);
    EnableAgrees(st, rec, g, rec.inst.Key());
  }

  lemma EnableExisting(st: State, key: InstKey)
    requires st.Inv({}, NOBODY, None) && key in st.instances && st.instances[key].inst.ProcKey() in st.procs
    ensures var rec := st.instances[key];
      var g := st.procs[rec.inst.ProcKey()];
      && Enables(st, rec.(enabled := true, failures := 0), g) && st.Current(g)
      && st.Inv({}, rec.inst.Key(), None)
  {
    hide State.Restoring, State.Numbered, State.Agreement, State.Tracked;
    var rec := st.instances[key];
    Occupy(st, NOBODY, key);
    assert rec.inst.Key() == key;
    PickFits(st, rec.inst);
    assert Takes(st, rec.inst, st.procs[rec.inst.ProcKey()]);
  }

  lemma EnableLaunched(st: State, next: State, key: InstKey, g: GroupId)
    requires st.Inv({}, NOBODY, None) && key in st.instances && st.instances[key].inst.ProcKey() !in st.procs
    requires g !in st.groups && next == Launch(st, g, st.instances[key].inst)
    ensures Enables(next, st.instances[key].(enabled := true, failures := 0), g) && !next.Current(g)
  {
    hide State.Tracked, State.Restoring, State.Numbered, State.Agreement;
  }

  lemma EnableApplied(a: State, b: State, c: State, key: InstKey, g: GroupId)
    requires key in a.instances && a.instances[key].inst.Key() == key
    requires b == a || b == a.(groups := b.groups)
    requires var rec := a.instances[key].(enabled := true, failures := 0);
      var pk := rec.inst.ProcKey();
      c == Replace(b, rec).(procs := b.procs[pk := g])
      && (pk in a.procs ==> a.procs[pk] == g)
    requires a.Inv({}, NOBODY, None)
    ensures Applied(a, c, a.instances[key].inst, true)
  {
    hide State.Closed, State.Tracked, State.Restoring, State.Numbered, State.Agreement;
  }

  /** Deleting the record and, when nobody else is entitled to it, taking its process away. */
  function RemoveInstance(st: State, key: InstKey): State
    requires st.Closed() && key in st.instances
  {
    var pk := st.instances[key].inst.ProcKey();
    var rest := st.instances - {key};
    if pk in st.procs && forall k <- rest :: rest[k].enabled ==> rest[k].inst.ProcKey() != pk
    then st.(instances := rest, procs := st.procs - {pk},
             groups := st.groups[st.procs[pk] := st.groups[st.procs[pk]].(cancelled := true)],
             abandoned := st.abandoned + {st.procs[pk]})
    else st.(instances := rest)
  }

  /** Take the process of `pk` away: out of `procs`, cancelled, and not waited for in `retiring`. */
  function Abandon(st: State, pk: ProcKey): State
    requires st.Closed() && pk in st.procs
  {
    st.(procs := st.procs - {pk},
        groups := st.groups[st.procs[pk] := st.groups[st.procs[pk]].(cancelled := true)],
        abandoned := st.abandoned + {st.procs[pk]})
  }

  lemma AbandonClosed(st: State, pk: ProcKey)
    requires st.Closed() && pk in st.procs
    ensures Abandon(st, pk).Closed()
  {
  }

  lemma AbandonTracked(st: State, pk: ProcKey)
    requires st.Closed() && st.Tracked({}) && pk in st.procs && Abandon(st, pk).Closed()
    ensures Abandon(st, pk).Tracked({})
  {
  }

  lemma AbandonBound(st: State, pk: ProcKey)
    requires st.Closed() && st.BoundBut(if pk.PerKey? then Some(pk) else None) && pk in st.procs
    requires Abandon(st, pk).Closed()
    requires forall k <- st.instances :: st.instances[k].enabled ==> st.instances[k].inst.ProcKey() != pk
    ensures Abandon(st, pk).Bound()
  {
  }

  function Drop(st: State, key: InstKey): State { st.(instances := st.instances - {key}) }

  lemma DropTracked(st: State, key: InstKey)
    requires st.Closed() && st.Tracked({})
    ensures Drop(st, key).Closed() && Drop(st, key).Tracked({})
  {
  }

  lemma DropBound(st: State, key: InstKey)
    requires st.Closed() && st.Bound() && key in st.instances && Drop(st, key).Closed()
    ensures Drop(st, key).BoundBut(Some(PerKey(key)))
    ensures PerKey(key) in st.procs ==> st.instances[key].inst.ProcKey() == PerKey(key)
  {
  }

  /** Whether a removal takes the process away, which it always does with an own process. */
  lemma RemoveCases(st: State, key: InstKey)
    requires st.Closed() && key in st.instances && forall k <- st.instances :: st.instances[k].inst.Key() == k
    ensures var pk := st.instances[key].inst.ProcKey();
      var dropped := Drop(st, key);
      if pk in st.procs && forall k <- dropped.instances :: dropped.instances[k].enabled ==> dropped.instances[k].inst.ProcKey() != pk
      then dropped.Closed() ==> RemoveInstance(st, key) == Abandon(dropped, pk)
      else RemoveInstance(st, key) == dropped && (pk in st.procs ==> pk != PerKey(key))
  {
  }

  /** The process of a removed instance is taken away, or somebody else still shares it. */
  lemma RemoveOwns(st: State, key: InstKey)
    requires st.Closed() && st.Bound() && st.Tracked({}) && key in st.instances
    ensures var next := RemoveInstance(st, key); next.Closed() && next.Bound() && next.Tracked({})
  {
    var dropped, pk := Drop(st, key), st.instances[key].inst.ProcKey();
    RemoveCases(st, key);
    hide State.Closed, State.Tracked, RemoveInstance, Abandon;
    DropTracked(st, key);
    DropBound(st, key);
    assert pk.PerKey? ==> pk == PerKey(key);
    hide State.BoundBut, Instance.ProcKey;
    if pk in st.procs && forall k <- dropped.instances :: dropped.instances[k].enabled ==> dropped.instances[k].inst.ProcKey() != pk {
      if pk.SharedKey? {
        NothingLeaves(dropped, key);
      }
      AbandonClosed(dropped, pk);
      AbandonTracked(dropped, pk);
      AbandonBound(dropped, pk);
    } else {
      NothingLeaves(dropped, key);
    }
  }

  lemma RemoveAgrees(st: State, key: InstKey)
    requires st.Closed() && st.Restoring() && st.Numbered() && st.Agreement(NOBODY, None) && key in st.instances
    ensures var next := RemoveInstance(st, key); next.Restoring() && next.Numbered() && next.Agreement(NOBODY, None)
  {
  }

  lemma RemoveKeeps(st: State, key: InstKey)
    requires st.Inv({}, NOBODY, None) && key in st.instances
    ensures st.Closed() && RemoveInstance(st, key).Inv({}, NOBODY, None)
    ensures st.Undisturbed(RemoveInstance(st, key), key)
    ensures var pk := st.instances[key].inst.ProcKey(); pk in st.procs ==> st.procs[pk] in st.groups
  {
    RemoveUndisturbed(st, key);
    RemoveOwns(st, key);
    RemoveAgrees(st, key);
    hide State.BoundBut, State.Tracked, State.Restoring, State.Numbered, State.Agreement, State.Undisturbed;
  }

  lemma RemoveUndisturbed(st: State, key: InstKey)
    requires st.Closed() && key in st.instances
    ensures st.Undisturbed(RemoveInstance(st, key), key)
  {
  }

  lemma SameKeys(a: State, b: State)
    requires a.SameBindings(b)
    ensures a.instances.Keys == b.instances.Keys
  {
  }

  /** What `Valid` means for one enabled instance: at every boundary between operations it is served
      by one process, built for its own plugin and version, which is neither cancelled nor being
      retired, under the key the instance is entitled to. */
  lemma EnabledIsServed(st: State, key: InstKey)
    requires st.Inv({}, NOBODY, None) && key in st.instances && st.instances[key].enabled
    ensures var inst := st.instances[key].inst;
      && inst.Key() == key && inst.ProcKey() in st.procs
      && var g := st.procs[inst.ProcKey()];
      && g in st.groups && st.groups[g].install == inst.Needs() && st.groups[g].key == inst.ProcKey()
      && !st.groups[g].cancelled && g !in st.retiring
  {
    hide State.Restoring, State.Numbered, State.Agreement;
  }

  /** No process is lost: each one ever launched is current under its own key, or was cancelled, and
      then it is gone, or still being waited for, or was abandoned by a removal. */
  lemma NoProcessIsLost(st: State, g: GroupId)
    requires st.Inv({}, NOBODY, None) && g in st.groups
    ensures st.groups[g].cancelled <==> !st.Current(g)
    ensures st.groups[g].cancelled ==> st.groups[g].exited || g in st.retiring || g in st.abandoned
    ensures forall k <- st.instances :: st.instances[k].enabled && st.Serves(g, st.instances[k]) ==> !st.groups[g].cancelled
  {
    hide State.Restoring, State.Numbered, State.Agreement;
  }

  /** A record that claims the session of its process knows what the plugin runs. */
  lemma ConfiguredAgrees(st: State, key: InstKey)
    requires st.Inv({}, NOBODY, None) && key in st.instances
    requires st.instances[key].configured.Some? && PluginConfig(st.instances[key].inst.config) != map[]
    ensures st.Runs(st.instances[key].configured.value, st.instances[key].inst)
  {
    hide State.Closed, State.BoundBut, State.Tracked, State.Restoring, State.Numbered;
    assert st.Agrees(st.instances[key]);
  }

  lemma MoreDoubt(st: State, s: SessionId, busy: InstKey, loose: set<GroupId>, on: Option<SessionId>)
    requires st.Inv(loose, busy, on) && (on.None? || on == Some(s))
    ensures st.Inv(loose, busy, Some(s))
  {
    hide State.Closed, State.BoundBut, State.Tracked, State.Restoring, State.Numbered;
  }

  lemma RetiringKnown(st: State, loose: set<GroupId>, busy: InstKey)
    requires st.Inv(loose, busy, None)
    ensures st.retiring.Keys <= st.groups.Keys
  {
  }

  // ---------------------------------------------------------------- a first instance

  /** A manager that knows one installation and nothing else. */
  function Installed(install: Install): State {
    State({install}, map[], map[], map[], map[], map[], map[], {}, 0)
  }

  /** One process, with a published session on which `applied` was accepted. */
  function Serving(inst: Instance, applied: map<InstKey, Config>): State {
    Installed(inst.Needs()).(
      groups := map[0 := ProcGroup(inst.ProcKey(), inst.Needs(), false, false, false, Some(0))],
      sessions := map[0 := Session(0, true, applied)])
  }

  /** An instance alone, bound to it. */
  function BoundAlone(inst: Instance): State {
    Serving(inst, map[inst.Key() := PluginConfig(inst.config)]).(
      instances := map[inst.Key() := Record(inst, true, 0, Some(0), 1, 0)], procs := map[inst.ProcKey() := 0], serials := 1)
  }

  /** It is reached: a process is launched and publishes its session, the instance is configured and then
      switched to. */
  lemma FirstInstance(inst: Instance)
    ensures var launched := Launch(Installed(inst.Needs()), 0, inst);
      && RestoreBegun(0, 0).Possible(launched)
      && var restoring := RestoreBegun(0, 0).Apply(launched);
      && Published(0).Possible(restoring) && Published(0).Apply(restoring) == Serving(inst, map[])
      && Deliver(Serving(inst, map[]), 0, inst) == Serving(inst, map[inst.Key() := PluginConfig(inst.config)])
    ensures var configured, rec := Serving(inst, map[inst.Key() := PluginConfig(inst.config)]), Record(inst, true, 0, Some(0), 1, 0);
      configured.Closed() && var (next, detached) := SwitchBinding(configured, rec, 0); next == BoundAlone(inst) && detached == {}
  {
    hide PluginConfig;
    var launched := Launch(Installed(inst.Needs()), 0, inst);
    assert RestoreTargets(launched, 0) == map[];
    var restoring := BeginRestore(launched, 0, 0);
    assert restoring == launched.(sessions := map[0 := Session(0, false, map[])], restores := map[0 := Ticket(0, map[])]);
    assert Publish(restoring, 0) == Serving(inst, map[]);
    FirstSwitch(inst);
  }

  lemma FirstSwitch(inst: Instance)
    ensures var configured, rec := Serving(inst, map[inst.Key() := PluginConfig(inst.config)]), Record(inst, true, 0, Some(0), 1, 0);
      configured.Closed() && var (next, detached) := SwitchBinding(configured, rec, 0); next == BoundAlone(inst) && detached == {}
  {
    hide PluginConfig;
    var configured, rec := Serving(inst, map[inst.Key() := PluginConfig(inst.config)]), Record(inst, true, 0, Some(0), 1, 0);
    var published := Put(configured, rec).(procs := configured.procs[inst.ProcKey() := 0]);
    assert published == BoundAlone(inst);
    assert ResolveInstance(configured, inst.Key()) == None && Resolve(configured, inst.ProcKey()) == None;
    assert Detach(published, None) == (published, {});
    hide InUse, BoundAlone;
  }

  /** Both ends keep the invariant, and exactly this instance is new. */
  lemma BoundAloneKeeps(inst: Instance)
    ensures Installed(inst.Needs()).Inv({}, NOBODY, None)
    ensures BoundAlone(inst).Inv({}, NOBODY, None) && Applied(Installed(inst.Needs()), BoundAlone(inst), inst, true)
    ensures BoundAlone(inst).NothingRetiring(inst.Key())
  {
    BoundAloneOwns(inst);
    BoundAloneAgrees(inst);
    hide BoundAlone, State.Closed, State.BoundBut, State.Tracked, State.Restoring, State.Numbered, State.Agreement;
  }

  lemma BoundAloneOwns(inst: Instance)
    ensures var b := BoundAlone(inst); b.Closed() && b.Bound() && b.Tracked({}) && b.groups == map[0 := b.groups[0]]
  {
    hide PluginConfig;
  }

  lemma BoundAloneAgrees(inst: Instance)
    ensures var b := BoundAlone(inst); b.Restoring() && b.Numbered() && b.Agreement(NOBODY, None)
    ensures Installed(inst.Needs()).Inv({}, NOBODY, None)
    ensures Applied(Installed(inst.Needs()), BoundAlone(inst), inst, true) && BoundAlone(inst).NothingRetiring(inst.Key())
  {
    hide PluginConfig;
  }
}
