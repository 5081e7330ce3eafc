/** From what an application asks for to effects of the core: the tenant is that of the instance, a command
    goes to the device the binding of its entity chose, and every effect has a key of its own. */
module EffectRouting {
  import opened Wrappers
  import opened Text
  import opened Application

  const MAX_KEY: nat := 512
  const MAX_RECORD_TYPE: nat := 128
  const MAX_RECORD_ID: nat := 256
  const MAX_DATA: nat := 65536
  const MAX_RECORD_VERSION: nat := 64
  const MAX_ACTION: nat := 128
  const MAX_ARGS: nat := 65536
  const MAX_DEVICE: nat := 256
  const MAX_DEADLINE: nat := 64
  const MAX_SCHEDULE_ID: nat := 256
  const MAX_CRON: nat := 256
  const MAX_PAYLOAD: nat := 65536
  const MAX_TITLE: nat := 256
  const MAX_BODY: nat := 16384
  const MAX_SEVERITY: nat := 32

  /** The instance an effect comes from; the tenant is never taken from the plugin. */
  datatype Source = Source(instance: string, tenant: string, bindings: seq<Binding>, candidates: seq<Candidate>)

  /** What a plugin may ask for. */
  datatype Wish =
    | Upsert(recordType: string, recordId: string, data: string, version: string)
    | Request(entity: string, action: string, args: string, key: string, deadline: string)
    | Schedule(scheduleId: string, cron: string, payload: string)
    | CancelSchedule(scheduleId: string)
    | Notify(title: string, body: string, severity: string)
    | Unknown

  datatype Raw = Raw(instance: string, wish: Wish)

  /** What the core is to do. */
  datatype Payload =
    | Record(recordType: string, recordId: string, data: string, version: string)
    | Command(entity: string, device: string, action: string, args: string, key: string, deadline: string)
    | ScheduleJob(scheduleId: string, cron: string, payload: string)
    | CancelJob(scheduleId: string)
    | Notification(title: string, body: string, severity: string)
  {
    predicate Bounded() {
      match this
      case Record(recordType, recordId, data, version) =>
        TrimSpace(recordType) != "" && |recordType| <= MAX_RECORD_TYPE && TrimSpace(recordId) != ""
        && |recordId| <= MAX_RECORD_ID && |data| <= MAX_DATA && |version| <= MAX_RECORD_VERSION
      case Command(entity, device, action, args, key, deadline) =>
        TrimSpace(entity) != "" && |device| <= MAX_DEVICE && TrimSpace(action) != "" && |action| <= MAX_ACTION
        && |args| <= MAX_ARGS && key != "" && |key| <= MAX_KEY && |deadline| <= MAX_DEADLINE
      case ScheduleJob(scheduleId, cron, payload) =>
        TrimSpace(scheduleId) != "" && |scheduleId| <= MAX_SCHEDULE_ID && |cron| <= MAX_CRON && |payload| <= MAX_PAYLOAD
      case CancelJob(scheduleId) => TrimSpace(scheduleId) != "" && |scheduleId| <= MAX_SCHEDULE_ID
      case Notification(title, body, severity) => |title| <= MAX_TITLE && |body| <= MAX_BODY && |severity| <= MAX_SEVERITY
    }
  }

  /** Digests of contents, in hexadecimal; the one of a record is cut to eight bytes. */
  datatype Digests = Digests(record: string -> string, notification: (string, string, string) -> string) {
    ghost predicate Valid() {
      (forall data :: |record(data)| == 16) && forall title, body, severity :: |notification(title, body, severity)| == 64
    }
  }

  /** The key under which the executor knows an effect. */
  function KeyOf(digests: Digests, p: Payload): string {
    match p
    case Record(recordType, recordId, data, _) => "domain:" + recordType + "/" + recordId + ":" + digests.record(data)
    case Command(_, _, _, _, key, _) => "command:" + key
    case ScheduleJob(scheduleId, _, _) => "schedule:" + scheduleId
    case CancelJob(scheduleId) => "cancel-schedule:" + scheduleId
    case Notification(title, body, severity) => "notification:" + digests.notification(title, body, severity)
  }

  datatype Effect = Effect(key: string, tenant: string, instance: string, payload: Payload)

  datatype Routed = Routed(effect: Effect) | Invalid | UnknownEffect | CrossTenantEffect

  /** The binding of an entity, or None if it is unbound or bound on two devices. */
  method CommandBinding(bindings: seq<Binding>, entity: string) returns (r: Option<Binding>)
    ensures r.Some? <==>
      (exists b <- bindings :: b.entity == entity)
      && (forall a, b :: a in bindings && b in bindings && a.entity == entity && b.entity == entity ==> a.device == b.device)
    ensures r.Some? ==> r.value in bindings && r.value.entity == entity
  {
    r := None;
    var i := 0;
    while i < |bindings|
      invariant 0 <= i <= |bindings|
      invariant r.None? ==> forall b <- bindings[..i] :: b.entity != entity
      invariant r.Some? ==> r.value in bindings[..i] && r.value.entity == entity
      invariant r.Some? ==> forall b <- bindings[..i] :: b.entity == entity ==> b.device == r.value.device
    {
      var b := bindings[i];
      if b.entity == entity {
        if r.None? {
          r := Some(b);
        } else if b.device != r.value.device {
          assert r.value in bindings && b in bindings;
          return None;
        }
      }
      i := i + 1;
    }
  }

  predicate InTenant(src: Source, b: Binding) {
    exists c <- src.candidates :: c.entity == b.entity && c.tenant == src.tenant && (b.device == "" || c.device == b.device)
  }

  method BindingInTenant(src: Source, b: Binding) returns (r: bool)
    ensures r <==> InTenant(src, b)
  {
    r := false;
    var i := 0;
    while i < |src.candidates|
      invariant 0 <= i <= |src.candidates|
      invariant forall c <- src.candidates[..i] ::
        !(c.entity == b.entity && c.tenant == src.tenant && (b.device == "" || c.device == b.device))
    {
      var c := src.candidates[i];
      if c.entity == b.entity && c.tenant == src.tenant && (b.device == "" || c.device == b.device) {
        return true;
      }
      i := i + 1;
    }
  }

  /** The device of an entity, by its first binding. */
  function BoundDevice(bindings: seq<Binding>, entity: string): Option<string> {
    if bindings == [] then None
    else if bindings[0].entity == entity then Some(bindings[0].device)
    else BoundDevice(bindings[1..], entity)
  }

  /** Whether exactly one device is bound under the entity's name. */
  ghost predicate Routable(src: Source, entity: string) {
    && (exists b <- src.bindings :: b.entity == entity)
    && (forall a, b :: a in src.bindings && b in src.bindings && a.entity == entity && b.entity == entity ==> a.device == b.device)
    && (forall b <- src.bindings :: b.entity == entity ==> InTenant(src, b))
  }

  /** The payload of a wish; a command goes to the device its entity is bound to. */
  function PayloadFor(src: Source, wish: Wish): Payload
    requires !wish.Unknown?
  {
    match wish
    case Upsert(recordType, recordId, data, version) => Record(recordType, recordId, data, version)
    case Request(entity, action, args, key, deadline) =>
      Command(entity, BoundDevice(src.bindings, entity).GetOr(""), action, args, key, deadline)
    case Schedule(scheduleId, cron, payload) => ScheduleJob(scheduleId, cron, payload)
    case CancelSchedule(scheduleId) => CancelJob(scheduleId)
    case Notify(title, body, severity) => Notification(title, body, severity)
  }

  /** A payload asks for what the wish asks for, a command on a device the entity is bound to. */
  predicate Carries(src: Source, wish: Wish, p: Payload) {
    match wish
    case Upsert(recordType, recordId, data, version) =>
      p.Record? && p.recordType == recordType && p.recordId == recordId && p.data == data && p.version == version
    case Request(entity, action, args, key, deadline) =>
      && p.Command? && p.entity == entity && p.action == action && p.args == args && p.key == key && p.deadline == deadline
      && exists b <- src.bindings :: b.entity == entity && b.device == p.device
    case Schedule(scheduleId, cron, payload) =>
      p.ScheduleJob? && p.scheduleId == scheduleId && p.cron == cron && p.payload == payload
    case CancelSchedule(scheduleId) => p.CancelJob? && p.scheduleId == scheduleId
    case Notify(title, body, severity) => p.Notification? && p.title == title && p.body == body && p.severity == severity
    case Unknown => false
  }

  /** Validation of an effect under a key. */
  predicate Validates(tenant: string, key: string, p: Payload) {
    tenant != "" && key != "" && |key| <= MAX_KEY && p.Bounded()
  }

  /** What becomes of a wish: it may not pretend to come from another instance, and the entity of a command
      has to be bound, unambiguously and within the tenant. */
  ghost function Authorized(digests: Digests, raw: Raw, src: Source): Routed {
    if raw.instance != "" && raw.instance != src.instance then Invalid
    else if raw.wish.Unknown? then UnknownEffect
    else if raw.wish.Request? && !Routable(src, raw.wish.entity) then CrossTenantEffect
    else
      var payload := PayloadFor(src, raw.wish);
      var key := KeyOf(digests, payload);
      if Validates(src.tenant, key, payload) then Routed(Effect(key, src.tenant, src.instance, payload)) else Invalid
  }

  method EffectFromSDK(digests: Digests, raw: Raw, src: Source) returns (r: Routed)
    ensures r == Authorized(digests, raw, src)
    // An effect is stamped with tenant and instance of its source, carries what was asked for, and was not
    // asked for in the name of another instance.
    ensures r.Routed? ==>
      && r.effect.tenant == src.tenant != "" && r.effect.instance == src.instance
      && (raw.instance == "" || raw.instance == src.instance)
      && Carries(src, raw.wish, r.effect.payload)
    // A command is turned away exactly if its entity is not bound, on two devices, or not within the tenant.
    ensures r.CrossTenantEffect? <==>
      (raw.instance == "" || raw.instance == src.instance) && raw.wish.Request?
      && ((forall b <- src.bindings :: b.entity != raw.wish.entity)
          || (exists a, b :: a in src.bindings && b in src.bindings && a.entity == raw.wish.entity == b.entity
                && (a.device != b.device || !InTenant(src, b))))
  {
    hide TrimSpace, Payload.Bounded, KeyOf;
    if raw.instance != "" && raw.instance != src.instance {
      return Invalid;
    }
    match raw.wish {
      case Unknown => return UnknownEffect;
      case Request(entity, action, args, key, deadline) =>
        var binding := CommandBinding(src.bindings, entity);
        if binding.None? {
          return CrossTenantEffect;
        }
        BoundDeviceOf(src.bindings, entity, binding.value);
        var within := BindingInTenant(src, binding.value);
        SameTenant(src, entity, binding.value);
        if !within {
          return CrossTenantEffect;
        }
        r := NewEffect(digests, src, Command(entity, binding.value.device, action, args, key, deadline));
      case _ => r := NewEffect(digests, src, PayloadFor(src, raw.wish));
    }
  }

  /** Stamp a payload with key and tenant, and validate it. */
  method NewEffect(digests: Digests, src: Source, payload: Payload) returns (r: Routed)
    ensures var key := KeyOf(digests, payload);
      r == if Validates(src.tenant, key, payload) then Routed(Effect(key, src.tenant, src.instance, payload)) else Invalid
  {
    var key := KeyOf(digests, payload);
    if src.tenant == "" || key == "" || |key| > MAX_KEY || !payload.Bounded() {
      return Invalid;
    }
    r := Routed(Effect(key, src.tenant, src.instance, payload));
  }

  /** A wish of the instance itself whose payload is within its bounds becomes an effect, except for exactly
      those commands whose key is within its bound and too long for the effect, whose key is longer. */
  lemma BoundedUnlessLongKey(digests: Digests, raw: Raw, src: Source)
    requires digests.Valid() && src.tenant != ""
    requires (raw.instance == "" || raw.instance == src.instance) && !raw.wish.Unknown?
    requires raw.wish.Request? ==> Routable(src, raw.wish.entity)
    requires PayloadFor(src, raw.wish).Bounded()
    ensures var payload := PayloadFor(src, raw.wish);
      Authorized(digests, raw, src) ==
        if raw.wish.Request? && MAX_KEY - 8 < |raw.wish.key| <= MAX_KEY then Invalid
        else Routed(Effect(KeyOf(digests, payload), src.tenant, src.instance, payload))
  {
    hide TrimSpace, Routable;
    KeyLengths(digests, PayloadFor(src, raw.wish));
  }

  /** Keys of bounded payloads are within the bound, except perhaps those of commands. */
  lemma KeyLengths(digests: Digests, p: Payload)
    requires digests.Valid() && p.Bounded()
    ensures KeyOf(digests, p) != ""
    ensures |KeyOf(digests, p)| <= MAX_KEY <==> !p.Command? || |p.key| <= MAX_KEY - 8
  {
    hide TrimSpace;
  }

  /** Such a command, for every instance that may send commands at all. */
  lemma LongKeyRefused(digests: Digests, src: Source, entity: string, key: string)
    requires digests.Valid() && src.tenant != "" && Routable(src, entity) && TrimSpace(entity) != ""
    requires |BoundDevice(src.bindings, entity).GetOr("")| <= MAX_DEVICE && 505 <= |key| <= 512
    ensures var wish := Request(entity, "x", "", key, "");
      PayloadFor(src, wish).Bounded() && Authorized(digests, Raw(src.instance, wish), src) == Invalid
  {
    hide Routable, BoundDevice;
    var wish := Request(entity, "x", "", key, "");
    assert TrimSpace("x") != "" by {
      assert "x" == "" || (!IsSpace("x"[0]) && !IsSpace("x"[|"x"| - 1]));
    }
    hide TrimSpace;
    BoundedUnlessLongKey(digests, Raw(src.instance, wish), src);
  }

  lemma SameTenant(src: Source, entity: string, b: Binding)
    requires b in src.bindings && b.entity == entity
    requires forall x, y :: x in src.bindings && y in src.bindings && x.entity == entity && y.entity == entity ==> x.device == y.device
    ensures Routable(src, entity) <==> InTenant(src, b)
  {
    forall x | x in src.bindings && x.entity == entity
      ensures InTenant(src, x) <==> InTenant(src, b)
    {
      assert x.device == b.device;
    }
  }

  lemma {:induction false} BoundDeviceOf(bindings: seq<Binding>, entity: string, b: Binding)
    requires b in bindings && b.entity == entity
    requires forall x, y :: x in bindings && y in bindings && x.entity == entity && y.entity == entity ==> x.device == y.device
    ensures BoundDevice(bindings, entity) == Some(b.device)
  {
    if bindings[0].entity == entity {
      assert bindings[0] in bindings;
    } else {
      assert bindings == [bindings[0]] + bindings[1..];
      BoundDeviceOf(bindings[1..], entity, b);
    }
  }

  // ---------------------------------------------------------------- which effects have a key of their own

  lemma SameTail(a: string, x: string, b: string, y: string)
    requires |x| == |y|
    ensures a + x == b + y <==> a == b && x == y
  {
    if a + x == b + y {
      assert |a| == |b|;
      assert a == (a + x)[..|a|] && x == (a + x)[|a|..];
      assert b == (b + y)[..|a|] && y == (b + y)[|a|..];
    }
  }

  lemma SameHead(a: string, x: string, y: string)
    ensures a + x == a + y <==> x == y
  {
    assert (a + x)[|a|..] == x && (a + y)[|a|..] == y;
  }

  /** What the key of an effect tells of it: the identity written with a slash and the digest of a record,
      the key of a command, the schedule, or the digest of a notification. */
  predicate SameMatter(digests: Digests, p: Payload, q: Payload) {
    match p
    case Record(recordType, recordId, data, _) =>
      q.Record? && recordType + "/" + recordId == q.recordType + "/" + q.recordId && digests.record(data) == digests.record(q.data)
    case Command(_, _, _, _, key, _) => q.Command? && key == q.key
    case ScheduleJob(scheduleId, _, _) => q.ScheduleJob? && scheduleId == q.scheduleId
    case CancelJob(scheduleId) => q.CancelJob? && scheduleId == q.scheduleId
    case Notification(title, body, severity) =>
      q.Notification? && digests.notification(title, body, severity) == digests.notification(q.title, q.body, q.severity)
  }

  lemma KindsApart(digests: Digests, p: Payload, q: Payload)
    requires KeyOf(digests, p) == KeyOf(digests, q)
    ensures (p.Record? <==> q.Record?) && (p.Command? <==> q.Command?) && (p.ScheduleJob? <==> q.ScheduleJob?)
    ensures (p.CancelJob? <==> q.CancelJob?) && (p.Notification? <==> q.Notification?)
  {
    var a, b := KeyOf(digests, p), KeyOf(digests, q);
    assert a[0] == b[0] && a[1] == b[1];
  }

  lemma RecordKeys(digests: Digests, p: Payload, q: Payload)
    requires digests.Valid() && p.Record? && q.Record?
    ensures KeyOf(digests, p) == KeyOf(digests, q) <==> SameMatter(digests, p, q)
  {
    var a, b := p.recordType + "/" + p.recordId, q.recordType + "/" + q.recordId;
    assert KeyOf(digests, p) == "domain:" + a + ":" + digests.record(p.data);
    assert KeyOf(digests, q) == "domain:" + b + ":" + digests.record(q.data);
    SameTail("domain:" + a + ":", digests.record(p.data), "domain:" + b + ":", digests.record(q.data));
    SameTail("domain:" + a, ":", "domain:" + b, ":");
    SameHead("domain:", a, b);
  }

  /** Two effects have the same key exactly if they are the same matter; no two kinds share one. */
  lemma SameKeyIff(digests: Digests, p: Payload, q: Payload)
    requires digests.Valid()
    ensures KeyOf(digests, p) == KeyOf(digests, q) <==> SameMatter(digests, p, q)
  {
    if KeyOf(digests, p) == KeyOf(digests, q) {
      KindsApart(digests, p, q);
    }
    match p
    case Record(_, _, _, _) => if q.Record? { RecordKeys(digests, p, q); }
    case Command(_, _, _, _, _, _) => if q.Command? { SameHead("command:", p.key, q.key); }
    case ScheduleJob(_, _, _) => if q.ScheduleJob? { SameHead("schedule:", p.scheduleId, q.scheduleId); }
    case CancelJob(_) => if q.CancelJob? { SameHead("cancel-schedule:", p.scheduleId, q.scheduleId); }
    case Notification(_, _, _) =>
      if q.Notification? {
        SameHead("notification:", digests.notification(p.title, p.body, p.severity),
                 digests.notification(q.title, q.body, q.severity));
      }
  }

  /** Two contents of one record are two effects unless their digests agree; with types that hold no slash,
      so are two records. */
  lemma RecordsApart(digests: Digests, p: Payload, q: Payload)
    requires digests.Valid() && p.Record? && q.Record?
    requires (p.recordType == q.recordType && p.recordId == q.recordId) || ('/' !in p.recordType && '/' !in q.recordType)
    ensures KeyOf(digests, p) == KeyOf(digests, q) <==>
      p.recordType == q.recordType && p.recordId == q.recordId && digests.record(p.data) == digests.record(q.data)
  {
    hide KeyOf;
    SameKeyIff(digests, p, q);
    var a, b := p.recordType + "/" + p.recordId, q.recordType + "/" + q.recordId;
    if a == b && '/' !in p.recordType && '/' !in q.recordType {
      assert a[|p.recordType|] == '/' && b[|q.recordType|] == '/';
      assert forall k :: 0 <= k < |p.recordType| ==> a[k] == p.recordType[k];
      assert forall k :: 0 <= k < |q.recordType| ==> b[k] == q.recordType[k];
      assert a[..|p.recordType|] == p.recordType && a[|p.recordType| + 1..] == p.recordId;
      assert b[..|q.recordType|] == q.recordType && b[|q.recordType| + 1..] == q.recordId;
    }
  }

  /** With a slash in the type, two records of the same content can share their key, so that the second is
      taken for a repetition of the first. */
  lemma RecordsConfused(digests: Digests, a: string, b: string, c: string, data: string, version: string)
    ensures Record(a + "/" + b, c, data, version) != Record(a, b + "/" + c, data, version)
    ensures KeyOf(digests, Record(a + "/" + b, c, data, version)) == KeyOf(digests, Record(a, b + "/" + c, data, version))
  {
    assert |a + "/" + b| > |a|;
    assert a + "/" + b + "/" + c == a + "/" + (b + "/" + c);
    assert "domain:" + (a + "/" + b) + "/" + c == "domain:" + (a + "/" + b + "/" + c);
    assert "domain:" + a + "/" + (b + "/" + c) == "domain:" + (a + "/" + (b + "/" + c));
  }

  // ---------------------------------------------------------------- routing follows the binding

  /** Without reuse, as the runtime declares its requirements, accepted bindings name each entity once. */
  lemma BoundOnce(requirements: seq<Requirement>, candidates: seq<Candidate>, tenant: string, bindings: seq<Binding>,
                  i: nat, j: nat)
    requires Acceptable(requirements, candidates, tenant, bindings) && forall r <- requirements :: !r.allowReuse
    requires i < j < |bindings|
    ensures bindings[i].entity != bindings[j].entity
  {
    hide Declared, Provides, Matching, Requirement.Valid, Requirement.Accepts, Candidate.Key, Count, Devices, Occupants, MayShare;
    var a, b := bindings[i], bindings[j];
    assert Fulfils(requirements, candidates, tenant, a) && Fulfils(requirements, candidates, tenant, b);
    var c, d := Matching(candidates, a)[0], Matching(candidates, b)[0];
    assert c in Matching(candidates, a) && d in Matching(candidates, b);
    if a.entity == b.entity {
      SameDeviceBound(candidates, bindings, a, b);
      if c == d {
        TwoOccupants(candidates, bindings, i, j, c.Key());
        assert MayShare(requirements, Occupants(candidates, bindings, c.Key()));
        NobodyShares(requirements, Occupants(candidates, bindings, c.Key()));
      } else {
        MatchesBoth(candidates, a, b, c, d);
      }
    }
  }

  lemma NobodyShares(requirements: seq<Requirement>, occupants: seq<string>)
    requires forall r <- requirements :: !r.allowReuse
    ensures MayShare(requirements, occupants) <==> |occupants| <= 1
  {
    hide Declared;
  }

  /** Two providers of one name cannot both be bound. */
  lemma SameDeviceBound(candidates: seq<Candidate>, bindings: seq<Binding>, a: Binding, b: Binding)
    requires a in bindings && b in bindings && a.entity == b.entity
    requires |Matching(candidates, a)| == 1 && |Matching(candidates, b)| == 1
    requires forall entity :: AtMostOne(Devices(candidates, bindings, entity))
    ensures var c, d := Matching(candidates, a)[0], Matching(candidates, b)[0];
      c.device != "" && d.device != "" ==> c.device == d.device
  {
    hide Matching;
    var c, d := Matching(candidates, a)[0], Matching(candidates, b)[0];
    assert c in Matching(candidates, a) && d in Matching(candidates, b);
    if c.device != "" && d.device != "" {
      assert c.device in Devices(candidates, bindings, a.entity) && d.device in Devices(candidates, bindings, a.entity);
    }
  }

  /** A binding without a device answers to every provider of the name, so to both. */
  lemma MatchesBoth(candidates: seq<Candidate>, a: Binding, b: Binding, c: Candidate, d: Candidate)
    requires a.entity == b.entity && Matching(candidates, a) == [c] && Matching(candidates, b) == [d]
    requires c.device != "" && d.device != "" ==> c.device == d.device
    ensures c == d
  {
    hide Matching;
    assert c in Matching(candidates, a) && d in Matching(candidates, b);
    if Matches(d, a) {
      FoundInMatching(candidates, a, d);
    } else {
      FoundInMatching(candidates, b, c);
    }
  }

  lemma {:induction false} TwoOccupants(candidates: seq<Candidate>, bindings: seq<Binding>, i: nat, j: nat, key: string)
    requires i < j < |bindings|
    requires Matching(candidates, bindings[i]) != [] && Matching(candidates, bindings[i])[0].Key() == key
    requires Matching(candidates, bindings[j]) != [] && Matching(candidates, bindings[j])[0].Key() == key
    ensures |Occupants(candidates, bindings, key)| >= 2
  {
    hide Matching, Candidate.Key;
    var n := |bindings| - 1;
    if j == n {
      OneOccupant(candidates, bindings[..n], i, key);
    } else {
      TwoOccupants(candidates, bindings[..n], i, j, key);
    }
  }

  lemma {:induction false} OneOccupant(candidates: seq<Candidate>, bindings: seq<Binding>, i: nat, key: string)
    requires i < |bindings|
    requires Matching(candidates, bindings[i]) != [] && Matching(candidates, bindings[i])[0].Key() == key
    ensures |Occupants(candidates, bindings, key)| >= 1
  {
    hide Matching, Candidate.Key;
    var n := |bindings| - 1;
    if i < n {
      OneOccupant(candidates, bindings[..n], i, key);
    }
  }

  /** A command to a bound entity is routed to the very provider the validator matched; a command to any
      other entity is turned away. */
  lemma RoutingFollowsBinding(requirements: seq<Requirement>, src: Source, entity: string)
    requires Acceptable(requirements, src.candidates, src.tenant, src.bindings) && src.tenant != ""
    requires forall r <- requirements :: !r.allowReuse
    ensures Routable(src, entity) <==> exists b <- src.bindings :: b.entity == entity
    ensures forall i :: 0 <= i < |src.bindings| && src.bindings[i].entity == entity ==>
      && |Matching(src.candidates, src.bindings[i])| == 1
      && Matching(src.candidates, src.bindings[i])[0].tenant == src.tenant
      && BoundDevice(src.bindings, entity) == Some(src.bindings[i].device)
      && RoutedTo(src, entity, BoundDevice(src.bindings, entity).value) == Matching(src.candidates, src.bindings[i])
  {
    hide Declared, Provides, Matching, Requirement.Valid, Requirement.Accepts, Candidate.Key, Count, Devices, Occupants, MayShare,
         BoundDevice;
    forall i, j | 0 <= i < |src.bindings| && 0 <= j < |src.bindings|
                  && src.bindings[i].entity == entity && src.bindings[j].entity == entity
      ensures i == j
    {
      if i < j {
        BoundOnce(requirements, src.candidates, src.tenant, src.bindings, i, j);
      } else if j < i {
        BoundOnce(requirements, src.candidates, src.tenant, src.bindings, j, i);
      }
    }
    forall i | 0 <= i < |src.bindings| && src.bindings[i].entity == entity
      ensures |Matching(src.candidates, src.bindings[i])| == 1
      ensures Matching(src.candidates, src.bindings[i])[0].tenant == src.tenant
      ensures InTenant(src, src.bindings[i])
      ensures BoundDevice(src.bindings, entity) == Some(src.bindings[i].device)
      ensures RoutedTo(src, entity, BoundDevice(src.bindings, entity).value) == Matching(src.candidates, src.bindings[i])
    {
      var b := src.bindings[i];
      assert Fulfils(requirements, src.candidates, src.tenant, b);
      var found := Matching(src.candidates, b);
      assert found[0] in found;
      BoundDeviceOf(src.bindings, entity, b);
      AnyRequirement(src.candidates, b, Binding("", entity, b.device));
    }
  }

  /** The candidates a routed command can reach. */
  function RoutedTo(src: Source, entity: string, device: string): seq<Candidate> {
    Matching(src.candidates, Binding("", entity, device))
  }

  lemma {:induction false} AnyRequirement(candidates: seq<Candidate>, a: Binding, b: Binding)
    requires a.entity == b.entity && a.device == b.device
    ensures Matching(candidates, a) == Matching(candidates, b)
  {
    if candidates != [] {
      AnyRequirement(candidates[..|candidates| - 1], a, b);
    }
  }
}
