/** Binding an application's capability requirements to entities: a greedy matcher and an independent
    validator. */
module Application {
  import opened Wrappers
  import opened Text

  datatype Cardinality = One | ZeroOrOne | OneOrMore | UnknownCardinality(name: string)

  datatype Requirement = Requirement(id: string, capability: string, cardinality: Cardinality, minItems: int, allowReuse: bool)
  {
    predicate Valid() {
      id != "" && capability != "" && ParseRef(capability).Some? && !cardinality.UnknownCardinality?
      && minItems >= 0 && (cardinality == One || cardinality == ZeroOrOne ==> minItems <= 1)
    }

    /** How few entities will do. */
    function AtLeast(): int {
      match cardinality
      case One => 1
      case OneOrMore => if minItems < 1 then 1 else minItems
      case _ => 0
    }

    predicate Accepts(n: int) {
      match cardinality
      case One => n == 1
      case ZeroOrOne => n <= 1
      case OneOrMore => n >= AtLeast()
      case UnknownCardinality(_) => true
    }
  }

  datatype Candidate = Candidate(entity: string, device: string, tenant: string, capabilities: seq<string>) {
    function Key(): string { if device == "" then entity else device + [NUL] + entity }
  }

  const NUL := '\0'

  datatype Binding = Binding(requirement: string, entity: string, device: string)

  datatype Code =
    | MissingRequired | CapabilityMismatch | VersionIncompatible | CardinalityViolation | BelowMinItems
    | DuplicateOccupation | CrossTenant | UnknownRequirement | UnknownEntity | AmbiguousEntity
    | EmptyRequirementId | EmptyEntityId | InvalidCapability | InvalidRequirement

  datatype Issue = Issue(code: Code, requirement: string, entity: string)

  // ---------------------------------------------------------------- capabilities

  datatype Ref = Ref(base: string, version: int)

  /** "base@version", or a bare base for any version. */
  function ParseRef(id: string): Option<Ref> {
    var s := TrimSpace(id);
    var at := LastIndex(s, '@');
    if s == "" then None
    else if at.None? then Some(Ref(s, 0))
    else
      var version := Atoi(s[at.value + 1..]);
      if version.None? || at.value == 0 then None else Some(Ref(s[..at.value], version.value))
  }

  /** None when the candidate will do. */
  function Compatible(required: string, candidate: string): Option<Code> {
    var req, cand := ParseRef(required), ParseRef(candidate);
    if req.None? || cand.None? then Some(InvalidCapability)
    else if req.value.base != cand.value.base then Some(CapabilityMismatch)
    else if req.value.version != 0 && cand.value.version < req.value.version then Some(VersionIncompatible)
    else None
  }

  predicate Provides(c: Candidate, required: string) {
    exists cap <- c.capabilities :: Compatible(required, cap) == None
  }

  /** Both are capabilities, and of the same base. */
  predicate SameBase(required: string, candidate: string) {
    var req, cand := ParseRef(required), ParseRef(candidate);
    req.Some? && cand.Some? && req.value.base == cand.value.base
  }

  /** A compatible capability anywhere on the entity wins; else the version is to blame if the base was
      ever right. */
  method CandidateProvides(c: Candidate, required: string) returns (r: Option<Code>)
    ensures r.None? <==> Provides(c, required)
    ensures r.Some? ==>
      r.value == if exists cap <- c.capabilities :: SameBase(required, cap) then VersionIncompatible else CapabilityMismatch
  {
    hide ParseRef;
    var versionConflict := false;
    var i := 0;
    while i < |c.capabilities|
      invariant 0 <= i <= |c.capabilities|
      invariant forall cap <- c.capabilities[..i] :: Compatible(required, cap) != None
      invariant versionConflict <==> exists cap <- c.capabilities[..i] :: SameBase(required, cap)
    {
      var code := Compatible(required, c.capabilities[i]);
      if code.None? {
        return None;
      }
      assert code == Some(VersionIncompatible) <==> SameBase(required, c.capabilities[i]);
      assert c.capabilities[..i + 1] == c.capabilities[..i] + [c.capabilities[i]];
      if code == Some(VersionIncompatible) {
        versionConflict := true;
      }
      i := i + 1;
    }
    r := Some(if versionConflict then VersionIncompatible else CapabilityMismatch);
  }

  /** What satisfies a requirement satisfies every lower version of it. */
  lemma OlderVersionsAreProvided(c: Candidate, required: string, older: string)
    requires Provides(c, required) && ParseRef(older).Some? && ParseRef(required).Some?
    requires ParseRef(older).value.base == ParseRef(required).value.base
    requires 0 <= ParseRef(older).value.version <= ParseRef(required).value.version
    ensures Provides(c, older)
  {
    hide ParseRef;
    var cap :| cap in c.capabilities && Compatible(required, cap) == None;
    assert Compatible(older, cap) == None;
  }

  /** The text of a capability at a version. */
  function Versioned(base: string, version: int): string { base + ['@'] + Signed(version) }

  predicate Fits(n: int) { -MAX_INT64 - 1 <= n <= MAX_INT64 }

  /** A base as it is written before a version. */
  predicate Named(base: string) { base != "" && !IsSpace(base[0]) }

  /** A base that can stand alone, for any version. */
  predicate Bare(base: string) { Named(base) && !IsSpace(base[|base| - 1]) && '@' !in base }

  lemma VersionedParses(base: string, version: int)
    requires Named(base) && Fits(version)
    ensures ParseRef(Versioned(base, version)) == Some(Ref(base, version))
  {
    hide TrimSpace, Atoi, Signed, LastIndex;
    var s, digits := Versioned(base, version), Signed(version);
    SignedReads(version);
    assert s[|s| - 1] == digits[|digits| - 1] && digits[|digits| - 1] in digits;
    assert TrimSpace(s) == s;
    LastIndexAt(base, '@', digits);
    assert s[|base| + 1..] == digits && s[..|base|] == base;
  }

  lemma BareParses(base: string)
    requires Bare(base)
    ensures ParseRef(base) == Some(Ref(base, 0))
  {
    hide TrimSpace, LastIndex;
  }

  /** A candidate of one capability at version `m` provides exactly the versions of that base that are not
      newer, and any version when none is asked for; of another base it provides nothing. */
  lemma VersionDecides(c: Candidate, base: string, m: int, other: string, n: int)
    requires c.capabilities == [Versioned(base, m)] && Named(base) && Fits(m) && Named(other) && Fits(n)
    ensures Provides(c, Versioned(other, n)) <==> other == base && (n == 0 || n <= m)
    ensures Bare(other) ==> (Provides(c, other) <==> other == base)
  {
    hide Versioned, ParseRef;
    VersionedParses(base, m);
    VersionedParses(other, n);
    assert Provides(c, Versioned(other, n)) <==> Compatible(Versioned(other, n), c.capabilities[0]) == None;
    if Bare(other) {
      BareParses(other);
      assert Provides(c, other) <==> Compatible(other, c.capabilities[0]) == None;
    }
  }

  /** A capability without a version is at version 0. */
  lemma BareDecides(c: Candidate, base: string, other: string, n: int)
    requires c.capabilities == [base] && Bare(base) && Named(other) && Fits(n)
    ensures Provides(c, Versioned(other, n)) <==> other == base && n <= 0
    ensures Bare(other) ==> (Provides(c, other) <==> other == base)
  {
    hide Versioned, ParseRef;
    BareParses(base);
    VersionedParses(other, n);
    assert Provides(c, Versioned(other, n)) <==> Compatible(Versioned(other, n), base) == None;
    if Bare(other) {
      BareParses(other);
      assert Provides(c, other) <==> Compatible(other, base) == None;
    }
  }

  /** A candidate provides what one of its capabilities provides by itself, and nothing else. */
  lemma CapabilitiesByThemselves(c: Candidate, required: string)
    ensures Provides(c, required) <==> exists cap <- c.capabilities :: Provides(c.(capabilities := [cap]), required)
  {
    hide Compatible;
    forall cap | cap in c.capabilities
      ensures Provides(c.(capabilities := [cap]), required) <==> Compatible(required, cap) == None
    {
      assert cap in c.(capabilities := [cap]).capabilities;
    }
  }

  /** A capability satisfies itself exactly if it is one: a requirement is met by the very capability it names. */
  lemma ProvidesItself(c: Candidate, capability: string)
    requires c.capabilities == [capability]
    ensures Provides(c, capability) <==> ParseRef(capability).Some?
  {
    hide ParseRef;
    assert Provides(c, capability) <==> Compatible(capability, capability) == None;
  }

  // ---------------------------------------------------------------- what a valid binding is

  /** The declaration an identity refers to: the last one. */
  function Declared(requirements: seq<Requirement>, id: string): (r: Option<Requirement>)
    ensures r.Some? <==> exists req <- requirements :: req.id == id
    ensures r.Some? ==> r.value in requirements && r.value.id == id
  {
    if requirements == [] then None
    else
      var last := requirements[|requirements| - 1];
      assert requirements == requirements[..|requirements| - 1] + [last];
      if last.id == id then Some(last) else Declared(requirements[..|requirements| - 1], id)
  }

  predicate Matches(c: Candidate, b: Binding) {
    c.entity == b.entity && (b.device != "" ==> c.device == b.device)
  }

  function Matching(candidates: seq<Candidate>, b: Binding): (r: seq<Candidate>)
    ensures forall c <- r :: c in candidates && Matches(c, b)
    ensures r == [] <==> forall c <- candidates :: !Matches(c, b)
  {
    if candidates == [] then []
    else
      var n := |candidates| - 1;
      assert candidates == candidates[..n] + [candidates[n]];
      Matching(candidates[..n], b) + if Matches(candidates[n], b) then [candidates[n]] else []
  }

  /** The first thing wrong with a binding taken by itself. */
  function Fault(requirements: seq<Requirement>, candidates: seq<Candidate>, tenant: string, b: Binding): Option<Code> {
    var found := Matching(candidates, b);
    if b.requirement == "" then Some(EmptyRequirementId)
    else if b.entity == "" then Some(EmptyEntityId)
    else if Declared(requirements, b.requirement).None? then Some(UnknownRequirement)
    else if found == [] then Some(UnknownEntity)
    else if |found| > 1 then Some(AmbiguousEntity)
    else if tenant != "" && found[0].tenant != tenant then Some(CrossTenant)
    else None
  }

  predicate Fulfils(requirements: seq<Requirement>, candidates: seq<Candidate>, tenant: string, b: Binding) {
    Fault(requirements, candidates, tenant, b).None?
    && Provides(Matching(candidates, b)[0], Declared(requirements, b.requirement).value.capability)
  }

  function Count(bindings: seq<Binding>, requirement: string): nat {
    if bindings == [] then 0
    else
      var n := |bindings| - 1;
      Count(bindings[..n], requirement) + if bindings[n].requirement == requirement then 1 else 0
  }

  /** The requirements that occupy a provider, in binding order. */
  function Occupants(candidates: seq<Candidate>, bindings: seq<Binding>, key: string): seq<string> {
    if bindings == [] then []
    else
      var n := |bindings| - 1;
      var found := Matching(candidates, bindings[n]);
      Occupants(candidates, bindings[..n], key)
      + if found != [] && found[0].Key() == key then [bindings[n].requirement] else []
  }

  /** The devices an entity identity is bound on. */
  function Devices(candidates: seq<Candidate>, bindings: seq<Binding>, entity: string): set<string> {
    set b <- bindings |
      Matching(candidates, b) != [] && Matching(candidates, b)[0].entity == entity && Matching(candidates, b)[0].device != ""
      :: Matching(candidates, b)[0].device
  }

  predicate MayShare(requirements: seq<Requirement>, occupants: seq<string>) {
    |occupants| <= 1
    || exists id <- occupants :: Declared(requirements, id).Some? && Declared(requirements, id).value.allowReuse
  }

  ghost predicate Acceptable(requirements: seq<Requirement>, candidates: seq<Candidate>, tenant: string, bindings: seq<Binding>) {
    && (forall r <- requirements :: r.Valid())
    && (forall b <- bindings :: Fulfils(requirements, candidates, tenant, b))
    && (forall r <- requirements :: r.Accepts(Count(bindings, r.id)))
    && (forall key :: MayShare(requirements, Occupants(candidates, bindings, key)))
    && (forall entity :: AtMostOne(Devices(candidates, bindings, entity)))
  }

  ghost predicate AtMostOne<T(!new)>(s: set<T>) {
    forall a, b :: a in s && b in s ==> a == b
  }

  lemma AtMostOneCounts<T(!new)>(s: set<T>)
    ensures AtMostOne(s) <==> |s| <= 1
  {
    if AtMostOne(s) && s != {} {
      var x :| x in s;
      assert s == {x};
    }
    if |s| <= 1 && s != {} {
      var x :| x in s;
      assert |s - {x}| == 0;
      assert forall y <- s :: y == x || y in s - {x};
    }
  }

  // ---------------------------------------------------------------- what acceptable comes to

  /** An identity refers to its last declaration. */
  lemma {:induction false} DeclaredIsLast(requirements: seq<Requirement>, i: nat)
    requires i < |requirements| && forall j :: i < j < |requirements| ==> requirements[j].id != requirements[i].id
    ensures Declared(requirements, requirements[i].id) == Some(requirements[i])
  {
    var n := |requirements| - 1;
    if i < n {
      DeclaredIsLast(requirements[..n], i);
    }
  }

  /** Providers are told apart by device and entity, as long as no entity identity holds the separator. */
  lemma KeysTellApart(c: Candidate, d: Candidate)
    requires NUL !in c.entity && NUL !in d.entity
    ensures c.Key() == d.Key() <==> c.device == d.device && c.entity == d.entity
  {
    hide LastIndex;
    if c.Key() == d.Key() {
      if c.device != "" {
        LastIndexAt(c.device, NUL, c.entity);
        assert NUL in c.Key();
      }
      if d.device != "" {
        LastIndexAt(d.device, NUL, d.entity);
        assert NUL in d.Key();
      }
      if c.device != "" && d.device != "" {
        assert c.device == c.Key()[..|c.device|] && d.device == d.Key()[..|d.device|];
        assert c.entity == c.Key()[|c.device| + 1..] && d.entity == d.Key()[|d.device| + 1..];
      }
    }
  }

  /** The bindings of a requirement, by place. */
  ghost function PlacesOf(bindings: seq<Binding>, requirement: string): set<int> {
    set i | 0 <= i < |bindings| && bindings[i].requirement == requirement
  }

  lemma {:induction false} CountIsPlaces(bindings: seq<Binding>, requirement: string)
    ensures Count(bindings, requirement) == |PlacesOf(bindings, requirement)|
  {
    if bindings == [] {
      assert PlacesOf(bindings, requirement) == {};
    } else {
      var n := |bindings| - 1;
      CountIsPlaces(bindings[..n], requirement);
      var before := PlacesOf(bindings[..n], requirement);
      assert n !in before;
      assert PlacesOf(bindings, requirement) == if bindings[n].requirement == requirement then before + {n} else before;
    }
  }

  /** The only candidate a binding can mean. */
  ghost predicate OnlyMatch(candidates: seq<Candidate>, b: Binding, i: int) {
    0 <= i < |candidates| && Matches(candidates[i], b) && forall j :: 0 <= j < |candidates| && j != i ==> !Matches(candidates[j], b)
  }

  lemma {:induction false} MatchingOnce(candidates: seq<Candidate>, b: Binding, i: int)
    requires OnlyMatch(candidates, b, i)
    ensures 0 <= i < |candidates| && Matching(candidates, b) == [candidates[i]]
  {
    var n := |candidates| - 1;
    if i < n {
      MatchingOnce(candidates[..n], b, i);
    } else {
      assert forall c <- candidates[..n] :: !Matches(c, b);
    }
  }

  lemma {:induction false} OnceMatching(candidates: seq<Candidate>, b: Binding) returns (i: nat)
    requires |Matching(candidates, b)| == 1
    ensures OnlyMatch(candidates, b, i)
  {
    var n := |candidates| - 1;
    if Matches(candidates[n], b) {
      assert Matching(candidates[..n], b) == [];
      i := n;
    } else {
      i := OnceMatching(candidates[..n], b);
    }
  }

  /** A binding fulfils its requirement exactly if it names a declared requirement and an entity, and a
      single candidate answers to it, which is of the tenant and provides what the requirement asks for. */
  lemma FulfilsMeans(requirements: seq<Requirement>, candidates: seq<Candidate>, tenant: string, b: Binding)
    ensures Fulfils(requirements, candidates, tenant, b) <==>
      && b.requirement != "" && b.entity != "" && Declared(requirements, b.requirement).Some?
      && exists i :: OnlyMatch(candidates, b, i)
           && (tenant == "" || candidates[i].tenant == tenant)
           && Provides(candidates[i], Declared(requirements, b.requirement).value.capability)
  {
    hide Declared, Provides, Matching, OnlyMatch;
    if |Matching(candidates, b)| == 1 {
      var i := OnceMatching(candidates, b);
      assert OnlyMatch(candidates, b, i);
    }
    forall i: int | OnlyMatch(candidates, b, i)
      ensures 0 <= i < |candidates| && Matching(candidates, b) == [candidates[i]]
    {
      MatchingOnce(candidates, b, i);
    }
  }

  /** A binding occupies a provider. */
  ghost predicate Occupies(candidates: seq<Candidate>, bindings: seq<Binding>, i: int, key: string) {
    0 <= i < |bindings| && Matching(candidates, bindings[i]) != [] && Matching(candidates, bindings[i])[0].Key() == key
  }

  /** The bindings that occupy a provider, by place. */
  ghost function OccupyingPlaces(candidates: seq<Candidate>, bindings: seq<Binding>, key: string): (r: set<int>)
    ensures forall i <- r :: 0 <= i < |bindings|
  {
    set i | 0 <= i < |bindings| && Occupies(candidates, bindings, i, key)
  }

  lemma OccupiesEarlier(candidates: seq<Candidate>, bindings: seq<Binding>, key: string)
    requires bindings != []
    ensures var n := |bindings| - 1;
      && Occupants(candidates, bindings, key) == Occupants(candidates, bindings[..n], key)
           + (if Occupies(candidates, bindings, n, key) then [bindings[n].requirement] else [])
      && OccupyingPlaces(candidates, bindings, key) == OccupyingPlaces(candidates, bindings[..n], key)
           + (if Occupies(candidates, bindings, n, key) then {n} else {})
  {
    hide Matching, Candidate.Key;
    var n := |bindings| - 1;
    assert forall i :: Occupies(candidates, bindings, i, key) <==>
      Occupies(candidates, bindings[..n], i, key) || (i == n && Occupies(candidates, bindings, n, key));
  }

  lemma {:induction false} OccupantsCounted(candidates: seq<Candidate>, bindings: seq<Binding>, key: string)
    ensures |Occupants(candidates, bindings, key)| == |OccupyingPlaces(candidates, bindings, key)|
  {
    if bindings != [] {
      hide Occupants, Occupies, OccupyingPlaces;
      OccupantsCounted(candidates, bindings[..|bindings| - 1], key);
      OccupiesEarlier(candidates, bindings, key);
    }
  }

  lemma {:induction false} OccupantsNamed(candidates: seq<Candidate>, bindings: seq<Binding>, key: string, id: string)
    ensures id in Occupants(candidates, bindings, key) <==>
      exists i <- OccupyingPlaces(candidates, bindings, key) :: bindings[i].requirement == id
  {
    if bindings != [] {
      hide Occupants, Occupies, OccupyingPlaces;
      OccupantsNamed(candidates, bindings[..|bindings| - 1], key, id);
      OccupiesEarlier(candidates, bindings, key);
    }
  }

  /** A provider may have what occupies it exactly if it is not occupied twice, or an occupant allows reuse. */
  lemma SharingMeans(requirements: seq<Requirement>, candidates: seq<Candidate>, bindings: seq<Binding>, key: string)
    ensures var places := OccupyingPlaces(candidates, bindings, key);
      MayShare(requirements, Occupants(candidates, bindings, key)) <==>
        || (forall i, j :: i in places && j in places ==> i == j)
        || (exists i <- places :: Declared(requirements, bindings[i].requirement).Some?
              && Declared(requirements, bindings[i].requirement).value.allowReuse)
  {
    hide Declared, Occupies, Occupants, OccupyingPlaces;
    var places := OccupyingPlaces(candidates, bindings, key);
    var occupants := Occupants(candidates, bindings, key);
    OccupantsCounted(candidates, bindings, key);
    AtMostOneCounts(places);
    forall id
      ensures id in occupants <==> exists i <- places :: bindings[i].requirement == id
    {
      OccupantsNamed(candidates, bindings, key, id);
    }
    forall i | i in places
      ensures bindings[i].requirement in occupants
    {
    }
    if id :| id in occupants && Declared(requirements, id).Some? && Declared(requirements, id).value.allowReuse {
      var i :| i in places && bindings[i].requirement == id;
    }
  }

  // ---------------------------------------------------------------- the validator

  function At<T>(m: map<string, T>, key: string, default: T): T {
    if key in m then m[key] else default
  }

  /** What the tables of the validator hold after the first bindings, as long as nothing was wrong. */
  ghost predicate Tabulated(candidates: seq<Candidate>, bindings: seq<Binding>, counts: map<string, nat>,
                            occupants: map<string, seq<string>>, devices: map<string, set<string>>) {
    && (forall id :: At(counts, id, 0) == Count(bindings, id))
    && (forall key :: At(occupants, key, []) == Occupants(candidates, bindings, key))
    && (forall entity :: At(devices, entity, {}) == Devices(candidates, bindings, entity))
  }

  lemma TabulatedStep(requirements: seq<Requirement>, candidates: seq<Candidate>, tenant: string, bindings: seq<Binding>, n: nat,
                      counts: map<string, nat>, occupants: map<string, seq<string>>, devices: map<string, set<string>>)
    requires n < |bindings| && Tabulated(candidates, bindings[..n], counts, occupants, devices)
    requires Fault(requirements, candidates, tenant, bindings[n]).None?
    ensures var b := bindings[n];
      var c := Matching(candidates, b)[0];
      Tabulated(candidates, bindings[..n + 1],
        counts[b.requirement := At(counts, b.requirement, 0) + 1],
        occupants[c.Key() := At(occupants, c.Key(), []) + [b.requirement]],
        if c.device != "" then devices[c.entity := At(devices, c.entity, {}) + {c.device}] else devices)
  {
    hide Declared, Candidate.Key, Count, Occupants, Devices, Matching;
    var b := bindings[n];
    var c := Matching(candidates, b)[0];
    var counts', occupants' := counts[b.requirement := At(counts, b.requirement, 0) + 1],
      occupants[c.Key() := At(occupants, c.Key(), []) + [b.requirement]];
    var devices' := if c.device != "" then devices[c.entity := At(devices, c.entity, {}) + {c.device}] else devices;
    forall id
      ensures At(counts', id, 0) == Count(bindings[..n + 1], id)
    {
      CountStep(bindings, n, id);
      assert At(counts, id, 0) == Count(bindings[..n], id);
    }
    forall key
      ensures At(occupants', key, []) == Occupants(candidates, bindings[..n + 1], key)
    {
      OccupantsStep(candidates, bindings, n, key);
      assert At(occupants, key, []) == Occupants(candidates, bindings[..n], key);
    }
    forall entity
      ensures At(devices', entity, {}) == Devices(candidates, bindings[..n + 1], entity)
    {
      DevicesStep(candidates, bindings, n, entity);
      assert At(devices, entity, {}) == Devices(candidates, bindings[..n], entity);
    }
  }

  lemma CountStep(bindings: seq<Binding>, n: nat, id: string)
    requires n < |bindings|
    ensures Count(bindings[..n + 1], id) == Count(bindings[..n], id) + if bindings[n].requirement == id then 1 else 0
  {
    assert bindings[..n + 1][..n] == bindings[..n];
  }

  lemma OccupantsStep(candidates: seq<Candidate>, bindings: seq<Binding>, n: nat, key: string)
    requires n < |bindings| && Matching(candidates, bindings[n]) != []
    ensures Occupants(candidates, bindings[..n + 1], key) ==
      if Matching(candidates, bindings[n])[0].Key() == key then Occupants(candidates, bindings[..n], key) + [bindings[n].requirement]
      else Occupants(candidates, bindings[..n], key)
  {
    hide Matching, Candidate.Key;
    assert bindings[..n + 1][..n] == bindings[..n];
  }

  lemma DevicesStep(candidates: seq<Candidate>, bindings: seq<Binding>, n: nat, entity: string)
    requires n < |bindings| && Matching(candidates, bindings[n]) != []
    ensures var c := Matching(candidates, bindings[n])[0];
      Devices(candidates, bindings[..n + 1], entity) ==
      if c.entity == entity && c.device != "" then Devices(candidates, bindings[..n], entity) + {c.device}
      else Devices(candidates, bindings[..n], entity)
  {
    hide Matching;
    assert bindings[..n + 1] == bindings[..n] + [bindings[n]];
  }

  /** One candidate list entry for a binding, and how many there are. */
  method CandidateForBinding(candidates: seq<Candidate>, b: Binding) returns (first: Option<Candidate>, matches: nat)
    ensures matches == |Matching(candidates, b)|
    ensures first == if matches == 0 then None else Some(Matching(candidates, b)[0])
  {
    hide Matching;
    first, matches := None, 0;
    MatchingStart(b);
    assert candidates[..0] == [];
    var i := 0;
    while i < |candidates|
      invariant 0 <= i <= |candidates|
      invariant matches == |Matching(candidates[..i], b)|
      invariant first == if matches == 0 then None else Some(Matching(candidates[..i], b)[0])
    {
      MatchingStep(candidates, b, i);
      if candidates[i].entity == b.entity && (b.device == "" || candidates[i].device == b.device) {
        if matches == 0 {
          first := Some(candidates[i]);
        }
        matches := matches + 1;
      }
      i := i + 1;
    }
    assert candidates[..i] == candidates;
  }

  lemma MatchingStart(b: Binding)
    ensures Matching([], b) == []
  {
  }

  lemma MatchingStep(candidates: seq<Candidate>, b: Binding, i: nat)
    requires i < |candidates|
    ensures Matching(candidates[..i + 1], b) ==
      Matching(candidates[..i], b) + if Matches(candidates[i], b) then [candidates[i]] else []
  {
    assert candidates[..i + 1][..i] == candidates[..i];
  }

  method DeclareAll(requirements: seq<Requirement>) returns (byId: map<string, Requirement>, issues: seq<Issue>)
    ensures forall id :: Declared(requirements, id) == if id in byId then Some(byId[id]) else None
    ensures issues == [] <==> forall r <- requirements :: r.Valid()
  {
    hide Requirement.Valid;
    byId, issues := map[], [];
    var i := 0;
    while i < |requirements|
      invariant 0 <= i <= |requirements|
      invariant forall id :: Declared(requirements[..i], id) == if id in byId then Some(byId[id]) else None
      invariant issues == [] <==> forall r <- requirements[..i] :: r.Valid()
    {
      var r := requirements[i];
      assert requirements[..i + 1][..i] == requirements[..i];
      assert requirements[..i + 1] == requirements[..i] + [r];
      if !r.Valid() {
        issues := issues + [Issue(InvalidRequirement, r.id, "")];
      }
      byId := byId[r.id := r];
      i := i + 1;
    }
    assert requirements[..i] == requirements;
  }

  /** Check every binding by itself, and tabulate the sound ones. */
  method CheckBindings(requirements: seq<Requirement>, candidates: seq<Candidate>, tenant: string, bindings: seq<Binding>,
                       byId: map<string, Requirement>)
    returns (issues: seq<Issue>, counts: map<string, nat>, occupants: map<string, seq<string>>,
             devices: map<string, set<string>>)
    requires forall id :: Declared(requirements, id) == if id in byId then Some(byId[id]) else None
    ensures issues == [] <==> forall b <- bindings :: Fulfils(requirements, candidates, tenant, b)
    ensures issues == [] ==> Tabulated(candidates, bindings, counts, occupants, devices)
    ensures forall b <- bindings :: Fault(requirements, candidates, tenant, b).Some? ==>
      Issue(Fault(requirements, candidates, tenant, b).value, b.requirement, b.entity) in issues
  {
    hide Declared, Matching, Tabulated, Provides, Candidate.Key;
    issues, counts, occupants, devices := [], map[], map[], map[];
    NothingTabulated(candidates);
    var i := 0;
    while i < |bindings|
      invariant 0 <= i <= |bindings|
      invariant issues == [] <==> forall b <- bindings[..i] :: Fulfils(requirements, candidates, tenant, b)
      invariant issues == [] ==> Tabulated(candidates, bindings[..i], counts, occupants, devices)
      invariant forall b <- bindings[..i] :: Fault(requirements, candidates, tenant, b).Some? ==>
        Issue(Fault(requirements, candidates, tenant, b).value, b.requirement, b.entity) in issues
    {
      var b := bindings[i];
      var cand, matches := CandidateForBinding(candidates, b);
      assert bindings[..i + 1] == bindings[..i] + [b];
      ghost var fault := Fault(requirements, candidates, tenant, b);
      assert b in bindings[..i + 1];
      if b.requirement == "" {
        issues := issues + [Issue(EmptyRequirementId, b.requirement, b.entity)];
      } else if b.entity == "" {
        issues := issues + [Issue(EmptyEntityId, b.requirement, b.entity)];
      } else if b.requirement !in byId {
        issues := issues + [Issue(UnknownRequirement, b.requirement, b.entity)];
      } else if matches == 0 {
        issues := issues + [Issue(UnknownEntity, b.requirement, b.entity)];
      } else if matches > 1 {
        issues := issues + [Issue(AmbiguousEntity, b.requirement, b.entity)];
      } else if tenant != "" && cand.value.tenant != tenant {
        issues := issues + [Issue(CrossTenant, b.requirement, b.entity)];
      } else {
        assert fault.None?;
        var c := cand.value;
        var bad := CandidateProvides(c, byId[b.requirement].capability);
        if bad.Some? {
          issues := issues + [Issue(bad.value, b.requirement, b.entity)];
        }
        if issues == [] {
          TabulatedStep(requirements, candidates, tenant, bindings, i, counts, occupants, devices);
        }
        counts := counts[b.requirement := At(counts, b.requirement, 0) + 1];
        occupants := occupants[c.Key() := At(occupants, c.Key(), []) + [b.requirement]];
        if c.device != "" {
          devices := devices[c.entity := At(devices, c.entity, {}) + {c.device}];
        }
      }
      i := i + 1;
    }
    assert bindings[..i] == bindings;
  }

  lemma NothingTabulated(candidates: seq<Candidate>)
    ensures Tabulated(candidates, [], map[], map[], map[])
  {
  }

  /** Cardinalities. */
  method CheckCounts(requirements: seq<Requirement>, counts: map<string, nat>) returns (issues: seq<Issue>)
    ensures issues == [] <==> forall r <- requirements :: r.Accepts(At(counts, r.id, 0))
  {
    issues := [];
    var i := 0;
    while i < |requirements|
      invariant 0 <= i <= |requirements|
      invariant issues == [] <==> forall r <- requirements[..i] :: r.Accepts(At(counts, r.id, 0))
    {
      var r := requirements[i];
      var n := At(counts, r.id, 0);
      assert requirements[..i + 1] == requirements[..i] + [r];
      match r.cardinality {
        case One =>
          if n == 0 {
            issues := issues + [Issue(MissingRequired, r.id, "")];
          } else if n > 1 {
            issues := issues + [Issue(CardinalityViolation, r.id, "")];
          }
        case ZeroOrOne =>
          if n > 1 {
            issues := issues + [Issue(CardinalityViolation, r.id, "")];
          }
        case OneOrMore =>
          if n == 0 {
            issues := issues + [Issue(MissingRequired, r.id, "")];
          } else if n < r.AtLeast() {
            issues := issues + [Issue(BelowMinItems, r.id, "")];
          }
        case UnknownCardinality(_) =>
      }
      i := i + 1;
    }
    assert requirements[..i] == requirements;
  }

  /** No provider is occupied twice unless one of its occupants allows that. */
  method CheckOccupants(requirements: seq<Requirement>, occupants: map<string, seq<string>>, byId: map<string, Requirement>)
    returns (issues: seq<Issue>)
    requires forall id :: Declared(requirements, id) == if id in byId then Some(byId[id]) else None
    ensures issues == [] <==> forall key :: MayShare(requirements, At(occupants, key, []))
  {
    hide Declared;
    issues := [];
    var left := occupants.Keys;
    while left != {}
      invariant left <= occupants.Keys
      invariant issues == [] <==> forall key <- occupants.Keys - left :: MayShare(requirements, occupants[key])
    {
      var key :| key in left;
      var allowed := |occupants[key]| <= 1;
      var i := 0;
      while i < |occupants[key]| && !allowed
        invariant 0 <= i <= |occupants[key]|
        invariant allowed ==> MayShare(requirements, occupants[key])
        invariant !allowed ==> |occupants[key]| > 1 && forall id <- occupants[key][..i] :: id in byId ==> !byId[id].allowReuse
      {
        var id := occupants[key][i];
        allowed := id in byId && byId[id].allowReuse;
        i := i + 1;
      }
      assert allowed <==> MayShare(requirements, occupants[key]);
      if !allowed {
        issues := issues + [Issue(DuplicateOccupation, "", key)];
      }
      left := left - {key};
    }
    assert forall key <- occupants :: At(occupants, key, []) == occupants[key];
  }

  /** No entity identity stands for two devices. */
  method CheckDevices(devices: map<string, set<string>>) returns (issues: seq<Issue>)
    ensures issues == [] <==> forall entity :: AtMostOne(At(devices, entity, {}))
  {
    issues := [];
    var left := devices.Keys;
    while left != {}
      invariant left <= devices.Keys
      invariant issues == [] <==> forall entity <- devices.Keys - left :: AtMostOne(devices[entity])
    {
      var entity :| entity in left;
      AtMostOneCounts(devices[entity]);
      if |devices[entity]| > 1 {
        issues := issues + [Issue(AmbiguousEntity, "", entity)];
      }
      left := left - {entity};
    }
    assert forall entity <- devices :: At(devices, entity, {}) == devices[entity];
  }

  /** The validator finds nothing wrong exactly with acceptable bindings. */
  method Validate(requirements: seq<Requirement>, candidates: seq<Candidate>, tenant: string, bindings: seq<Binding>)
    returns (issues: seq<Issue>)
    ensures issues == [] <==> Acceptable(requirements, candidates, tenant, bindings)
    ensures forall b <- bindings :: Fault(requirements, candidates, tenant, b).Some? ==>
      Issue(Fault(requirements, candidates, tenant, b).value, b.requirement, b.entity) in issues
  {
    hide Declared, Fulfils, Fault, MayShare, Requirement.Valid, Requirement.Accepts, AtMostOne;
    var byId, first := DeclareAll(requirements);
    var second, counts, occupants, devices := CheckBindings(requirements, candidates, tenant, bindings, byId);
    issues := first + second;
    var third := CheckCounts(requirements, counts);
    var fourth := CheckOccupants(requirements, occupants, byId);
    var fifth := CheckDevices(devices);
    issues := issues + third + fourth + fifth;
  }

  // ---------------------------------------------------------------- the matcher

  function Scope(candidates: seq<Candidate>, tenant: string): (r: seq<Candidate>)
    ensures forall c :: c in r <==> c in candidates && (tenant == "" || c.tenant == tenant)
  {
    if candidates == [] then []
    else
      var n := |candidates| - 1;
      assert candidates == candidates[..n] + [candidates[n]];
      Scope(candidates[..n], tenant) + if tenant == "" || candidates[n].tenant == tenant then [candidates[n]] else []
  }

  function Available(candidates: seq<Candidate>, capability: string): (r: seq<Candidate>)
    ensures forall c :: c in r <==> c in candidates && Provides(c, capability)
  {
    if candidates == [] then []
    else
      var n := |candidates| - 1;
      assert candidates == candidates[..n] + [candidates[n]];
      Available(candidates[..n], capability) + if Provides(candidates[n], capability) then [candidates[n]] else []
  }

  function KeysOf(picked: seq<Candidate>): set<string> {
    set c <- picked :: c.Key()
  }

  ghost predicate DistinctKeys(picked: seq<Candidate>) {
    forall i, j :: 0 <= i < j < |picked| ==> picked[i].Key() != picked[j].Key()
  }

  /** The candidates that are occupied (or not), each provider once, in order. */
  function Distinct(avail: seq<Candidate>, used: set<string>, occupied: bool): (r: seq<Candidate>)
    ensures DistinctKeys(r)
    ensures forall c <- r :: c in avail && (c.Key() in used <==> occupied)
    ensures forall c <- avail :: (c.Key() in used <==> occupied) ==> c.Key() in KeysOf(r)
  {
    if avail == [] then []
    else
      var n := |avail| - 1;
      var rest := Distinct(avail[..n], used, occupied);
      assert avail == avail[..n] + [avail[n]];
      if (avail[n].Key() in used <==> occupied) && avail[n].Key() !in KeysOf(rest) then rest + [avail[n]] else rest
  }

  function Take(s: seq<Candidate>, n: int): seq<Candidate> {
    if n <= 0 then [] else if |s| <= n then s else s[..n]
  }

  /** Unused providers first, then used ones if that is allowed. */
  function PickN(avail: seq<Candidate>, used: set<string>, allowReuse: bool, n: int): seq<Candidate> {
    Take(Distinct(avail, used, false) + if allowReuse then Distinct(avail, used, true) else [], n)
  }

  datatype Outcome = Picked(candidates: seq<Candidate>) | NoMatch(code: Code)

  function MatchOne(req: Requirement, candidates: seq<Candidate>, used: set<string>): Outcome {
    var avail := Available(candidates, req.capability);
    var free := Distinct(avail, used, false);
    match req.cardinality
    case OneOrMore =>
      var picked := PickN(avail, used, req.allowReuse, req.AtLeast());
      if avail == [] then NoMatch(MissingRequired)
      else if |picked| < req.AtLeast() then NoMatch(BelowMinItems)
      else Picked(picked)
    case UnknownCardinality(_) => NoMatch(InvalidRequirement)
    case _ =>
      if avail == [] then (if req.cardinality == One then NoMatch(MissingRequired) else Picked([]))
      else if free != [] then Picked([free[0]])
      else if req.allowReuse then Picked([avail[0]])
      else NoMatch(DuplicateOccupation)
  }

  datatype Pick = Pick(req: Requirement, candidate: Candidate)

  function PicksOf(req: Requirement, candidates: seq<Candidate>): (r: seq<Pick>)
    ensures |r| == |candidates|
  {
    seq(|candidates|, i requires 0 <= i < |candidates| => Pick(req, candidates[i]))
  }

  function UsedBy(picks: seq<Pick>): set<string> {
    set p <- picks :: p.candidate.Key()
  }

  datatype Picks = Matched(picks: seq<Pick>) | Failed(code: Code, requirement: string)

  /** Requirement by requirement, each occupying what it picked. */
  function MatchAll(requirements: seq<Requirement>, candidates: seq<Candidate>): Picks {
    if requirements == [] then Matched([])
    else
      var n := |requirements| - 1;
      match MatchAll(requirements[..n], candidates)
      case Failed(code, id) => Failed(code, id)
      case Matched(picks) =>
        match MatchOne(requirements[n], candidates, UsedBy(picks))
        case NoMatch(code) => Failed(code, requirements[n].id)
        case Picked(picked) => Matched(picks + PicksOf(requirements[n], picked))
  }

  function BindingOf(p: Pick): Binding {
    Binding(p.req.id, p.candidate.entity, p.candidate.device)
  }

  function BindingsOf(picks: seq<Pick>): (r: seq<Binding>)
    ensures |r| == |picks|
  {
    seq(|picks|, i requires 0 <= i < |picks| => BindingOf(picks[i]))
  }

  ghost predicate DistinctIds(requirements: seq<Requirement>) {
    forall i, j :: 0 <= i < j < |requirements| ==> requirements[i].id != requirements[j].id
  }

  ghost predicate ValidList(requirements: seq<Requirement>) {
    (forall r <- requirements :: r.Valid()) && DistinctIds(requirements)
  }

  /** Every pick provides what its requirement asks for, within the tenant; a provider picked again was
      picked by a requirement that allows reuse. */
  ghost predicate Sound(picks: seq<Pick>, requirements: seq<Requirement>, candidates: seq<Candidate>) {
    && (forall p <- picks :: p.req in requirements && p.candidate in candidates && Provides(p.candidate, p.req.capability))
    && (forall i, j :: 0 <= i < j < |picks| && picks[i].candidate.Key() == picks[j].candidate.Key() ==> picks[j].req.allowReuse)
  }

  ghost predicate Counted(picks: seq<Pick>, requirements: seq<Requirement>) {
    forall r <- requirements :: r.Accepts(Count(BindingsOf(picks), r.id))
  }

  /** What one requirement picks: as many as it accepts, all providing, no provider twice, and occupied
      ones only with reuse. */
  lemma MatchOneSound(req: Requirement, candidates: seq<Candidate>, used: set<string>)
    requires req.Valid() && MatchOne(req, candidates, used).Picked?
    ensures var picked := MatchOne(req, candidates, used).candidates;
      && req.Accepts(|picked|)
      && DistinctKeys(picked)
      && (forall c <- picked :: c in candidates && Provides(c, req.capability) && (c.Key() in used ==> req.allowReuse))
  {
    hide ParseRef, Provides, Candidate.Key;
    var avail := Available(candidates, req.capability);
    var free, occupied := Distinct(avail, used, false), Distinct(avail, used, true);
    if req.cardinality == OneOrMore {
      PickNSound(avail, used, req.allowReuse, req.AtLeast());
      hide Distinct;
    } else {
      hide Distinct;
      if avail != [] && free == [] {
        assert avail[0] in avail;
      }
    }
  }

  lemma PickNSound(avail: seq<Candidate>, used: set<string>, allowReuse: bool, n: int)
    requires n >= 1
    ensures var picked := PickN(avail, used, allowReuse, n);
      && |picked| <= n && DistinctKeys(picked)
      && (forall c <- picked :: c in avail && (c.Key() in used ==> allowReuse))
  {
    hide Distinct, Candidate.Key;
    var free, occupied := Distinct(avail, used, false), Distinct(avail, used, true);
    var all := free + if allowReuse then occupied else [];
    assert forall c <- free :: c.Key() !in used;
    assert forall c <- occupied :: c.Key() in used;
    assert DistinctKeys(all);
  }

  lemma {:induction false} MatchAllSound(requirements: seq<Requirement>, candidates: seq<Candidate>)
    requires ValidList(requirements) && MatchAll(requirements, candidates).Matched?
    ensures var picks := MatchAll(requirements, candidates).picks;
      Sound(picks, requirements, candidates) && Counted(picks, requirements)
  {
    hide Provides, Requirement.Valid, Candidate.Key, MatchOne, Sound, Counted, Requirement.Accepts;
    if requirements == [] {
      NothingPicked(candidates);
    } else {
      var n := |requirements| - 1;
      var req := requirements[n];
      assert requirements == requirements[..n] + [req];
      MatchAllSound(requirements[..n], candidates);
      var before := MatchAll(requirements[..n], candidates).picks;
      MatchOneSound(req, candidates, UsedBy(before));
      var picked := MatchOne(req, candidates, UsedBy(before)).candidates;
      SoundStep(before, requirements, candidates, picked);
      SoundRequirements(before, requirements[..n], candidates);
      CountedStep(before, requirements, picked);
    }
  }

  lemma NothingPicked(candidates: seq<Candidate>)
    ensures Sound([], [], candidates) && Counted([], [])
  {
  }

  lemma SoundRequirements(picks: seq<Pick>, requirements: seq<Requirement>, candidates: seq<Candidate>)
    requires Sound(picks, requirements, candidates)
    ensures forall p <- picks :: p.req in requirements
  {
  }

  lemma SoundStep(picks: seq<Pick>, requirements: seq<Requirement>, candidates: seq<Candidate>, picked: seq<Candidate>)
    requires requirements != [] && Sound(picks, requirements[..|requirements| - 1], candidates) && DistinctKeys(picked)
    requires var req := requirements[|requirements| - 1];
      forall c <- picked :: c in candidates && Provides(c, req.capability) && (c.Key() in UsedBy(picks) ==> req.allowReuse)
    ensures Sound(picks + PicksOf(requirements[|requirements| - 1], picked), requirements, candidates)
  {
    hide Provides, Candidate.Key;
    var req := requirements[|requirements| - 1];
    var all := picks + PicksOf(req, picked);
    forall i, j | 0 <= i < j < |all| && all[i].candidate.Key() == all[j].candidate.Key()
      ensures all[j].req.allowReuse
    {
      if j >= |picks| {
        assert all[j].candidate == picked[j - |picks|];
        assert i < |picks|;
        assert all[i] in picks;
      }
    }
  }

  lemma {:induction false} CountNone(bindings: seq<Binding>, id: string)
    requires forall b <- bindings :: b.requirement != id
    ensures Count(bindings, id) == 0
  {
    if bindings != [] {
      CountNone(bindings[..|bindings| - 1], id);
    }
  }

  lemma {:induction false} CountMore(a: seq<Binding>, b: seq<Binding>, id: string)
    ensures Count(a + b, id) == Count(a, id) + Count(b, id)
  {
    if b == [] {
      assert a + b == a;
    } else {
      var n := |b| - 1;
      assert (a + b)[..|a| + n] == a + b[..n];
      CountMore(a, b[..n], id);
    }
  }

  lemma {:induction false} CountAll(req: Requirement, picked: seq<Candidate>)
    ensures Count(BindingsOf(PicksOf(req, picked)), req.id) == |picked|
  {
    if picked != [] {
      var n := |picked| - 1;
      CountAll(req, picked[..n]);
      assert BindingsOf(PicksOf(req, picked))[..n] == BindingsOf(PicksOf(req, picked[..n]));
    }
  }

  /** A requirement's picks count for itself and for no other. */
  lemma CountedStep(picks: seq<Pick>, requirements: seq<Requirement>, picked: seq<Candidate>)
    requires requirements != [] && DistinctIds(requirements)
    requires Counted(picks, requirements[..|requirements| - 1])
    requires forall p <- picks :: p.req in requirements[..|requirements| - 1]
    requires requirements[|requirements| - 1].Accepts(|picked|)
    ensures Counted(picks + PicksOf(requirements[|requirements| - 1], picked), requirements)
  {
    hide Requirement.Accepts;
    var n := |requirements| - 1;
    var req := requirements[n];
    var first, second := BindingsOf(picks), BindingsOf(PicksOf(req, picked));
    assert BindingsOf(picks + PicksOf(req, picked)) == first + second;
    forall r | r in requirements
      ensures r.Accepts(Count(first + second, r.id))
    {
      CountMore(first, second, r.id);
      if r == req {
        CountNone(first, r.id);
        CountAll(req, picked);
      } else {
        assert r in requirements[..n];
        CountNone(second, r.id);
      }
    }
  }

  // ---------------------------------------------------------------- the matcher meets the validator

  /** The only things that can still be wrong with what the matcher picked: an empty entity identity, a
      binding that more than one candidate answers to, or one identity picked on two devices. */
  ghost predicate Unambiguous(picks: seq<Pick>, candidates: seq<Candidate>) {
    && (forall p <- picks :: p.candidate.entity != "" && |Matching(candidates, BindingOf(p))| == 1)
    && (forall p, q :: p in picks && q in picks ==> SameDevice(p.candidate, q.candidate))
  }

  predicate SameDevice(c: Candidate, d: Candidate) {
    c.entity == d.entity && c.device != "" && d.device != "" ==> c.device == d.device
  }

  lemma {:induction false} FoundInMatching(candidates: seq<Candidate>, b: Binding, c: Candidate)
    requires c in candidates && Matches(c, b)
    ensures c in Matching(candidates, b)
  {
    var n := |candidates| - 1;
    assert candidates == candidates[..n] + [candidates[n]];
    if c != candidates[n] {
      FoundInMatching(candidates[..n], b, c);
    }
  }

  /** A pick is what its binding resolves to, if that is one candidate. */
  lemma PickResolves(candidates: seq<Candidate>, p: Pick)
    requires p.candidate in candidates && |Matching(candidates, BindingOf(p))| == 1
    ensures Matching(candidates, BindingOf(p)) == [p.candidate]
  {
    hide Matching;
    FoundInMatching(candidates, BindingOf(p), p.candidate);
  }

  lemma DeclaredUniquely(requirements: seq<Requirement>, req: Requirement)
    requires DistinctIds(requirements) && req in requirements
    ensures Declared(requirements, req.id) == Some(req)
  {
    hide Declared;
    assert Declared(requirements, req.id).value.id == req.id;
  }

  lemma PickFulfils(requirements: seq<Requirement>, candidates: seq<Candidate>, tenant: string, p: Pick)
    requires ValidList(requirements) && p.req in requirements && p.candidate in candidates
    requires Provides(p.candidate, p.req.capability) && (tenant == "" || p.candidate.tenant == tenant)
    ensures Fulfils(requirements, candidates, tenant, BindingOf(p)) <==>
      p.candidate.entity != "" && |Matching(candidates, BindingOf(p))| == 1
  {
    hide Declared, Matching, Provides, ParseRef;
    DeclaredUniquely(requirements, p.req);
    FoundInMatching(candidates, BindingOf(p), p.candidate);
    if |Matching(candidates, BindingOf(p))| == 1 {
      PickResolves(candidates, p);
    }
  }

  /** Who occupies a provider: somebody before, or the last binding. */
  lemma {:induction false} OccupantsAmong(picks: seq<Pick>, candidates: seq<Candidate>, key: string)
    requires forall p <- picks :: p.candidate in candidates && |Matching(candidates, BindingOf(p))| == 1
    ensures Occupants(candidates, BindingsOf(picks), key) != [] ==> exists i :: 0 <= i < |picks| && picks[i].candidate.Key() == key
  {
    hide Matching, Candidate.Key;
    if picks != [] {
      var n := |picks| - 1;
      assert BindingsOf(picks)[..n] == BindingsOf(picks[..n]);
      PickResolves(candidates, picks[n]);
      OccupantsAmong(picks[..n], candidates, key);
      if Occupants(candidates, BindingsOf(picks[..n]), key) != [] {
        var i :| 0 <= i < n && picks[..n][i].candidate.Key() == key;
        assert picks[i].candidate.Key() == key;
      }
    }
  }

  lemma {:induction false} OccupantsMayShare(picks: seq<Pick>, requirements: seq<Requirement>, candidates: seq<Candidate>, key: string)
    requires DistinctIds(requirements) && Sound(picks, requirements, candidates)
    requires forall p <- picks :: |Matching(candidates, BindingOf(p))| == 1
    ensures MayShare(requirements, Occupants(candidates, BindingsOf(picks), key))
  {
    hide Matching, Candidate.Key, Declared, Provides;
    if picks != [] {
      var n := |picks| - 1;
      var last := picks[n];
      assert BindingsOf(picks)[..n] == BindingsOf(picks[..n]);
      assert Sound(picks[..n], requirements, candidates);
      OccupantsMayShare(picks[..n], requirements, candidates, key);
      var before := Occupants(candidates, BindingsOf(picks[..n]), key);
      PickResolves(candidates, last);
      if last.candidate.Key() == key {
        assert Occupants(candidates, BindingsOf(picks), key) == before + [last.req.id];
        if before != [] {
          OccupantsAmong(picks[..n], candidates, key);
          var i :| 0 <= i < n && picks[..n][i].candidate.Key() == key;
          assert picks[i].candidate.Key() == picks[n].candidate.Key();
          DeclaredUniquely(requirements, last.req);
          assert last.req.id in before + [last.req.id];
        }
      } else {
        assert Occupants(candidates, BindingsOf(picks), key) == before;
      }
    }
  }

  lemma DevicesOfPicks(picks: seq<Pick>, candidates: seq<Candidate>, entity: string, device: string)
    requires forall p <- picks :: p.candidate in candidates && |Matching(candidates, BindingOf(p))| == 1
    ensures device in Devices(candidates, BindingsOf(picks), entity) <==>
      device != "" && exists p <- picks :: p.candidate.entity == entity && p.candidate.device == device
  {
    hide Matching;
    forall i | 0 <= i < |picks|
      ensures Matching(candidates, BindingsOf(picks)[i]) == [picks[i].candidate]
    {
      PickResolves(candidates, picks[i]);
    }
    if device != "" && exists p <- picks :: p.candidate.entity == entity && p.candidate.device == device {
      var p :| p in picks && p.candidate.entity == entity && p.candidate.device == device;
      var i :| 0 <= i < |picks| && picks[i] == p;
      assert BindingsOf(picks)[i] in BindingsOf(picks);
    }
  }

  /** Counts, minimum numbers, reuse, tenants and capability versions never fail the final validation:
      what was picked is acceptable if and only if it is unambiguous. */
  lemma MatchedIsAcceptable(requirements: seq<Requirement>, candidates: seq<Candidate>, tenant: string)
    requires ValidList(requirements) && MatchAll(requirements, Scope(candidates, tenant)).Matched?
    ensures var picks := MatchAll(requirements, Scope(candidates, tenant)).picks;
      Acceptable(requirements, candidates, tenant, BindingsOf(picks)) <==> Unambiguous(picks, candidates)
  {
    hide MatchAll, Matching, Declared, Requirement.Valid, Requirement.Accepts, Provides, Fulfils, MayShare, Occupants,
         Devices, Scope, Count, Candidate.Key;
    MatchAllSound(requirements, Scope(candidates, tenant));
    var picks := MatchAll(requirements, Scope(candidates, tenant)).picks;
    var bindings := BindingsOf(picks);
    forall i | 0 <= i < |picks|
      ensures Fulfils(requirements, candidates, tenant, bindings[i]) <==>
        picks[i].candidate.entity != "" && |Matching(candidates, BindingOf(picks[i]))| == 1
    {
      assert picks[i] in picks;
      PickFulfils(requirements, candidates, tenant, picks[i]);
    }
    if Acceptable(requirements, candidates, tenant, bindings) {
      AcceptableUnambiguous(picks, requirements, candidates, tenant);
    }
    if Unambiguous(picks, candidates) {
      assert Sound(picks, requirements, candidates);
      forall key
        ensures MayShare(requirements, Occupants(candidates, bindings, key))
      {
        OccupantsMayShare(picks, requirements, candidates, key);
      }
      forall entity
        ensures AtMostOne(Devices(candidates, bindings, entity))
      {
        UnambiguousDevices(picks, candidates, entity);
      }
    }
  }

  lemma UnambiguousDevices(picks: seq<Pick>, candidates: seq<Candidate>, entity: string)
    requires Unambiguous(picks, candidates) && forall p <- picks :: p.candidate in candidates
    ensures AtMostOne(Devices(candidates, BindingsOf(picks), entity))
  {
    hide Matching, Devices;
    forall a, b | a in Devices(candidates, BindingsOf(picks), entity) && b in Devices(candidates, BindingsOf(picks), entity)
      ensures a == b
    {
      DevicesOfPicks(picks, candidates, entity, a);
      DevicesOfPicks(picks, candidates, entity, b);
    }
  }

  lemma AcceptableUnambiguous(picks: seq<Pick>, requirements: seq<Requirement>, candidates: seq<Candidate>, tenant: string)
    requires Acceptable(requirements, candidates, tenant, BindingsOf(picks))
    requires forall p <- picks :: p.candidate in candidates
    requires forall i :: 0 <= i < |picks| ==>
      (Fulfils(requirements, candidates, tenant, BindingsOf(picks)[i]) <==>
         picks[i].candidate.entity != "" && |Matching(candidates, BindingOf(picks[i]))| == 1)
    ensures Unambiguous(picks, candidates)
  {
    hide Matching, Devices, Fulfils, MayShare, Occupants, Requirement.Valid, Requirement.Accepts, Count;
    assert forall i :: 0 <= i < |picks| ==> BindingsOf(picks)[i] in BindingsOf(picks);
    forall p, q | p in picks && q in picks
      ensures SameDevice(p.candidate, q.candidate)
    {
      DevicesOfPicks(picks, candidates, p.candidate.entity, p.candidate.device);
      DevicesOfPicks(picks, candidates, p.candidate.entity, q.candidate.device);
    }
  }

  /** Candidates that cannot be confused. */
  ghost predicate Identified(candidates: seq<Candidate>) {
    && (forall c <- candidates :: c.entity != "")
    && (forall i, j :: 0 <= i < j < |candidates| ==> candidates[i].entity != candidates[j].entity)
  }

  lemma {:induction false} IdentifiedOnce(candidates: seq<Candidate>, c: Candidate, b: Binding)
    requires Identified(candidates) && c in candidates && Matches(c, b)
    ensures |Matching(candidates, b)| == 1
  {
    var n := |candidates| - 1;
    assert candidates == candidates[..n] + [candidates[n]];
    if c == candidates[n] {
      assert forall d <- candidates[..n] :: !Matches(d, b);
    } else {
      IdentifiedOnce(candidates[..n], c, b);
    }
  }

  /** So with distinct, non-empty entity identities a match can only fail requirement by requirement. */
  lemma GreedyMeetsValidator(requirements: seq<Requirement>, candidates: seq<Candidate>, tenant: string)
    requires ValidList(requirements) && Identified(candidates) && MatchAll(requirements, Scope(candidates, tenant)).Matched?
    ensures var picks := MatchAll(requirements, Scope(candidates, tenant)).picks;
      Acceptable(requirements, candidates, tenant, BindingsOf(picks))
  {
    hide MatchAll, Matching, Scope, Acceptable, Provides, Candidate.Key, Counted;
    MatchAllSound(requirements, Scope(candidates, tenant));
    var picks := MatchAll(requirements, Scope(candidates, tenant)).picks;
    forall p | p in picks
      ensures |Matching(candidates, BindingOf(p))| == 1
    {
      IdentifiedOnce(candidates, p.candidate, BindingOf(p));
    }
    MatchedIsAcceptable(requirements, candidates, tenant);
  }

  // ---------------------------------------------------------------- what one requirement picks

  /** A candidate, by place, that provides what is required, its provider being occupied or not. */
  ghost predicate Offers(req: Requirement, candidates: seq<Candidate>, used: set<string>, occupied: bool, i: int) {
    0 <= i < |candidates| && Provides(candidates[i], req.capability) && (candidates[i].Key() in used <==> occupied)
  }

  ghost predicate FirstOffer(req: Requirement, candidates: seq<Candidate>, used: set<string>, occupied: bool, i: int) {
    Offers(req, candidates, used, occupied, i) && forall j :: j < i ==> !Offers(req, candidates, used, occupied, j)
  }

  /** The providers on offer. */
  ghost function OfferedKeys(req: Requirement, candidates: seq<Candidate>, used: set<string>, occupied: bool): set<string> {
    set i | 0 <= i < |candidates| && Offers(req, candidates, used, occupied, i) :: candidates[i].Key()
  }

  /** The providers on offer that the requirement may pick. */
  ghost function UsableKeys(req: Requirement, candidates: seq<Candidate>, used: set<string>): set<string> {
    OfferedKeys(req, candidates, used, false) + if req.allowReuse then OfferedKeys(req, candidates, used, true) else {}
  }

  lemma OfferedAreDistinct(req: Requirement, candidates: seq<Candidate>, used: set<string>, occupied: bool)
    ensures KeysOf(Distinct(Available(candidates, req.capability), used, occupied)) == OfferedKeys(req, candidates, used, occupied)
  {
    hide Distinct, Available, Provides, Candidate.Key;
    var avail := Available(candidates, req.capability);
    var distinct := Distinct(avail, used, occupied);
    forall key
      ensures key in KeysOf(distinct) <==> key in OfferedKeys(req, candidates, used, occupied)
    {
      if key in KeysOf(distinct) {
        var c :| c in distinct && c.Key() == key;
        var i :| 0 <= i < |candidates| && candidates[i] == c;
        assert Offers(req, candidates, used, occupied, i);
      }
      if key in OfferedKeys(req, candidates, used, occupied) {
        var i :| 0 <= i < |candidates| && Offers(req, candidates, used, occupied, i) && candidates[i].Key() == key;
        assert candidates[i] in avail;
      }
    }
  }

  lemma {:induction false} DistinctCounts(picked: seq<Candidate>)
    requires DistinctKeys(picked)
    ensures |KeysOf(picked)| == |picked|
  {
    hide Candidate.Key;
    if picked != [] {
      var n := |picked| - 1;
      DistinctCounts(picked[..n]);
      KeysMore(picked[..n], picked[n]);
      assert picked == picked[..n] + [picked[n]];
      assert forall c <- picked[..n] :: c.Key() != picked[n].Key();
    }
  }

  /** Nobody is on offer exactly when there are no distinct providers. */
  lemma NobodyOffers(req: Requirement, candidates: seq<Candidate>, used: set<string>, occupied: bool)
    ensures Distinct(Available(candidates, req.capability), used, occupied) == [] <==>
      forall i :: !Offers(req, candidates, used, occupied, i)
  {
    hide Distinct, Available, Provides, Candidate.Key;
    var avail := Available(candidates, req.capability);
    var distinct := Distinct(avail, used, occupied);
    if distinct != [] {
      assert distinct[0] in distinct;
      var i :| 0 <= i < |candidates| && candidates[i] == distinct[0];
      assert Offers(req, candidates, used, occupied, i);
    }
    if i :| Offers(req, candidates, used, occupied, i) {
      assert candidates[i] in avail && candidates[i].Key() in KeysOf(distinct);
    }
  }

  lemma AvailableStep(candidates: seq<Candidate>, capability: string)
    requires candidates != []
    ensures var n := |candidates| - 1;
      Available(candidates, capability) ==
        Available(candidates[..n], capability) + if Provides(candidates[n], capability) then [candidates[n]] else []
  {
  }

  lemma OffersEarlier(req: Requirement, candidates: seq<Candidate>, used: set<string>, occupied: bool)
    requires candidates != []
    ensures var n := |candidates| - 1;
      forall j :: j < n ==> (Offers(req, candidates[..n], used, occupied, j) <==> Offers(req, candidates, used, occupied, j))
  {
    hide Provides, Candidate.Key;
  }

  lemma FirstAtLast(req: Requirement, candidates: seq<Candidate>, used: set<string>, occupied: bool)
    requires candidates != [] && FirstOffer(req, candidates, used, occupied, |candidates| - 1)
    ensures var distinct := Distinct(Available(candidates, req.capability), used, occupied);
      distinct == [candidates[|candidates| - 1]]
  {
    hide Distinct, Provides, Candidate.Key, Available, KeysOf, DistinctKeys;
    var n := |candidates| - 1;
    var before, avail := Available(candidates[..n], req.capability), Available(candidates, req.capability);
    AvailableStep(candidates, req.capability);
    OffersEarlier(req, candidates, used, occupied);
    NobodyOffers(req, candidates[..n], used, occupied);
    DistinctStep(avail, used, occupied, |before|);
    KeysMore([], candidates[n]);
    assert avail[..|before|] == before && avail[..|before| + 1] == avail;
  }

  lemma EarlierFirst(req: Requirement, candidates: seq<Candidate>, used: set<string>, occupied: bool, i: int)
    requires FirstOffer(req, candidates, used, occupied, i) && i != |candidates| - 1
    ensures 0 <= i < |candidates| - 1 && FirstOffer(req, candidates[..|candidates| - 1], used, occupied, i)
  {
    hide Provides, Candidate.Key;
    assert Offers(req, candidates, used, occupied, i);
    OffersEarlier(req, candidates, used, occupied);
  }

  /** The first candidate on offer comes first among the distinct providers. */
  lemma {:induction false} FirstIsFirst(req: Requirement, candidates: seq<Candidate>, used: set<string>, occupied: bool, i: int)
    requires FirstOffer(req, candidates, used, occupied, i)
    ensures 0 <= i < |candidates|
    ensures var distinct := Distinct(Available(candidates, req.capability), used, occupied);
      distinct != [] && distinct[0] == candidates[i]
    decreases |candidates|
  {
    if i == |candidates| - 1 {
      FirstAtLast(req, candidates, used, occupied);
    } else {
      EarlierFirst(req, candidates, used, occupied, i);
      hide Distinct, Provides, Available, FirstOffer;
      FirstIsFirst(req, candidates[..|candidates| - 1], used, occupied, i);
      var before, avail := Available(candidates[..|candidates| - 1], req.capability), Available(candidates, req.capability);
      AvailableStep(candidates, req.capability);
      assert avail[..|before|] == before;
      DistinctGrows(avail, used, occupied, |before|);
    }
  }

  /** One candidate is picked: the first whose provider is free, or with reuse the first of all.  That
      nobody provides what is required is told from that everybody who does is taken. */
  lemma MatchesTheFirst(req: Requirement, candidates: seq<Candidate>, used: set<string>, i: int)
    requires req.cardinality == One || req.cardinality == ZeroOrOne
    ensures var outcome := MatchOne(req, candidates, used);
      var free, taken := exists k :: Offers(req, candidates, used, false, k), exists k :: Offers(req, candidates, used, true, k);
      && (!free && !taken ==> outcome == if req.cardinality == One then NoMatch(MissingRequired) else Picked([]))
      && (FirstOffer(req, candidates, used, false, i) ==> outcome == Picked([candidates[i]]))
      && (!free && req.allowReuse && FirstOffer(req, candidates, used, true, i) ==> outcome == Picked([candidates[i]]))
      && (!free && taken && !req.allowReuse ==> outcome == NoMatch(DuplicateOccupation))
  {
    hide Distinct, Provides, Candidate.Key, Available, KeysOf, DistinctKeys, Offers;
    NobodyOffers(req, candidates, used, false);
    NobodyOffers(req, candidates, used, true);
    SplitAvailable(Available(candidates, req.capability), used);
    if FirstOffer(req, candidates, used, false, i) {
      FirstIsFirst(req, candidates, used, false, i);
    }
    if FirstOffer(req, candidates, used, true, i) {
      FirstIsFirst(req, candidates, used, true, i);
    }
  }

  lemma SplitAvailable(avail: seq<Candidate>, used: set<string>)
    ensures var free, taken := Distinct(avail, used, false), Distinct(avail, used, true);
      (avail == [] <==> free == [] && taken == []) && (avail != [] && free == [] ==> taken[0] == avail[0])
  {
    hide Distinct, Candidate.Key;
    var free, taken := Distinct(avail, used, false), Distinct(avail, used, true);
    if avail != [] {
      assert avail[0] in avail;
      DistinctStep(avail, used, true, 0);
      KeysMore([], avail[0]);
      DistinctGrows(avail, used, true, 1);
      assert free == [] ==> avail[0].Key() in used;
    }
    assert free != [] ==> free[0] in free;
    assert taken != [] ==> taken[0] in taken;
  }

  /** Several are picked: exactly as many as are needed, free providers before taken ones; it fails exactly
      if there are fewer providers than that. */
  lemma MatchesEnough(req: Requirement, candidates: seq<Candidate>, used: set<string>)
    requires req.cardinality == OneOrMore
    ensures var outcome, usable := MatchOne(req, candidates, used), UsableKeys(req, candidates, used);
      var free, taken := OfferedKeys(req, candidates, used, false), OfferedKeys(req, candidates, used, true);
      if free == {} == taken then outcome == NoMatch(MissingRequired)
      else if |usable| < req.AtLeast() then outcome == NoMatch(BelowMinItems)
      else
        && outcome.Picked? && |outcome.candidates| == req.AtLeast()
        && KeysOf(outcome.candidates) <= usable
        && (KeysOf(outcome.candidates) <= free || free <= KeysOf(outcome.candidates))
  {
    hide Distinct, Provides, Candidate.Key, Available, KeysOf, DistinctKeys, OfferedKeys;
    var avail := Available(candidates, req.capability);
    var free, taken := Distinct(avail, used, false), Distinct(avail, used, true);
    OfferedAreDistinct(req, candidates, used, false);
    OfferedAreDistinct(req, candidates, used, true);
    SplitAvailable(avail, used);
    KeyCounts(avail, used);
    TakenKeys(free, if req.allowReuse then taken else [], req.AtLeast());
    TakenKeys(free, [], 0);
  }

  lemma KeyCounts(avail: seq<Candidate>, used: set<string>)
    ensures var free, taken := Distinct(avail, used, false), Distinct(avail, used, true);
      && |KeysOf(free)| == |free| && |KeysOf(taken)| == |taken| && |KeysOf(free) + KeysOf(taken)| == |free| + |taken|
  {
    hide Distinct, Candidate.Key;
    var free, taken := Distinct(avail, used, false), Distinct(avail, used, true);
    DistinctCounts(free);
    DistinctCounts(taken);
    assert KeysOf(free) !! KeysOf(taken);
  }

  lemma TakenKeys(free: seq<Candidate>, more: seq<Candidate>, n: int)
    ensures var keys := KeysOf(Take(free + more, n));
      && keys <= KeysOf(free) + KeysOf(more)
      && (if n <= |free| then keys <= KeysOf(free) else KeysOf(free) <= keys)
    ensures KeysOf([]) == {} && free + [] == free
  {
    hide Candidate.Key;
    if n > |free| {
      assert forall c <- free :: c in Take(free + more, n) by {
        assert forall k :: 0 <= k < |free| ==> Take(free + more, n)[k] == free[k];
      }
    } else {
      assert forall c <- Take(free + more, n) :: c in free;
    }
  }

  // ---------------------------------------------------------------- the matcher's loops

  /** The first provider that is not occupied, or with reuse the first one. */
  method FirstUnused(avail: seq<Candidate>, used: set<string>, allowReuse: bool) returns (r: Option<Candidate>)
    ensures var free := Distinct(avail, used, false);
      r == if free != [] then Some(free[0]) else if allowReuse && avail != [] then Some(avail[0]) else None
  {
    hide Candidate.Key;
    var i := 0;
    while i < |avail|
      invariant 0 <= i <= |avail| && Distinct(avail[..i], used, false) == []
    {
      assert avail[..i + 1][..i] == avail[..i];
      if avail[i].Key() !in used {
        assert Distinct(avail[..i + 1], used, false) == [avail[i]];
        DistinctGrows(avail, used, false, i + 1);
        return Some(avail[i]);
      }
      i := i + 1;
    }
    assert avail[..i] == avail;
    r := if allowReuse && avail != [] then Some(avail[0]) else None;
  }

  lemma DistinctStep(avail: seq<Candidate>, used: set<string>, occupied: bool, i: nat)
    requires i < |avail|
    ensures Distinct(avail[..0], used, occupied) == []
    ensures var rest, key := Distinct(avail[..i], used, occupied), avail[i].Key();
      Distinct(avail[..i + 1], used, occupied) ==
        if (key in used <==> occupied) && key !in KeysOf(rest) then rest + [avail[i]] else rest
  {
    assert avail[..i + 1][..i] == avail[..i];
  }

  lemma KeysMore(picked: seq<Candidate>, c: Candidate)
    ensures KeysOf([]) == {} && KeysOf(picked + [c]) == KeysOf(picked) + {c.Key()}
  {
    hide Candidate.Key;
  }

  /** Later candidates only add to the distinct ones. */
  lemma {:induction false} DistinctGrows(avail: seq<Candidate>, used: set<string>, occupied: bool, n: nat)
    requires n <= |avail|
    ensures Distinct(avail[..n], used, occupied) <= Distinct(avail, used, occupied)
    decreases |avail| - n
  {
    hide Distinct, Candidate.Key, KeysOf;
    if n == |avail| {
      assert avail[..n] == avail;
    } else {
      DistinctStep(avail, used, occupied, n);
      DistinctGrows(avail, used, occupied, n + 1);
    }
  }

  lemma DistinctSplit(avail: seq<Candidate>, used: set<string>, occupied: bool)
    ensures forall c <- Distinct(avail, used, occupied) :: c.Key() in used <==> occupied
  {
  }

  /** Up to `n` distinct providers, unused ones first. */
  method PickUpTo(avail: seq<Candidate>, used: set<string>, allowReuse: bool, n: nat) returns (picked: seq<Candidate>)
    requires n >= 1
    ensures picked == PickN(avail, used, allowReuse, n)
  {
    hide Candidate.Key, Distinct, KeysOf, DistinctKeys;
    ghost var free, occupied := Distinct(avail, used, false), Distinct(avail, used, true);
    ghost var first := Take(free, n);
    var seen: set<string>;
    picked, seen := PickFree(avail, used, n);
    FreeKeysUnused(avail, used, n);
    if allowReuse {
      ghost var second: seq<Candidate> := [];
      assert first + second == first;
      var i := 0;
      NothingDistinct(used);
      assert avail[..i] == [];
      while i < |avail| && |picked| < n
        invariant 0 <= i <= |avail| && |picked| <= n && picked == first + second
        invariant second == Distinct(avail[..i], used, true) && seen == KeysOf(first) + KeysOf(second)
        invariant |first| == n ==> second == []
        decreases |avail| - i
      {
        DistinctStep(avail, used, true, i);
        var key := avail[i].Key();
        if key in used && key !in seen {
          KeysMore(second, avail[i]);
          picked, seen := picked + [avail[i]], seen + {key};
          second := second + [avail[i]];
        }
        i := i + 1;
      }
      TakeBoth(avail, used, n, i, second);
    } else {
      assert free + [] == free;
    }
  }

  /** The first loop: providers that are not occupied. */
  method PickFree(avail: seq<Candidate>, used: set<string>, n: nat) returns (picked: seq<Candidate>, seen: set<string>)
    requires n >= 1
    ensures picked == Take(Distinct(avail, used, false), n) && seen == KeysOf(picked)
  {
    hide Candidate.Key, Distinct, KeysOf, DistinctKeys, Take;
    picked, seen := [], {};
    NothingDistinct(used);
    assert avail[..0] == [];
    var i := 0;
    while i < |avail| && |picked| < n
      invariant 0 <= i <= |avail| && |picked| <= n && picked == Distinct(avail[..i], used, false) && seen == KeysOf(picked)
    {
      DistinctStep(avail, used, false, i);
      var key := avail[i].Key();
      if key !in used && key !in seen {
        KeysMore(picked, avail[i]);
        picked, seen := picked + [avail[i]], seen + {key};
      }
      i := i + 1;
    }
    TakeFree(avail, used, n, i);
  }

  lemma TakeFree(avail: seq<Candidate>, used: set<string>, n: nat, i: nat)
    requires n >= 1 && i <= |avail|
    requires |Distinct(avail[..i], used, false)| <= n && (|Distinct(avail[..i], used, false)| < n ==> i == |avail|)
    ensures Distinct(avail[..i], used, false) == Take(Distinct(avail, used, false), n)
  {
    hide Distinct;
    DistinctGrows(avail, used, false, i);
    assert i == |avail| ==> avail[..i] == avail;
  }

  lemma NothingDistinct(used: set<string>)
    ensures Distinct([], used, false) == [] && Distinct([], used, true) == [] && KeysOf([]) == {}
  {
  }

  lemma FreeKeysUnused(avail: seq<Candidate>, used: set<string>, n: nat)
    ensures forall key <- KeysOf(Take(Distinct(avail, used, false), n)) :: key !in used
  {
    hide Distinct, Candidate.Key;
    DistinctSplit(avail, used, false);
  }

  lemma TakeBoth(avail: seq<Candidate>, used: set<string>, n: nat, i: nat, second: seq<Candidate>)
    requires n >= 1 && i <= |avail| && second == Distinct(avail[..i], used, true)
    requires var first := Take(Distinct(avail, used, false), n);
      |first + second| <= n && (|first + second| < n ==> i == |avail|) && (|first| == n ==> second == [])
    ensures Take(Distinct(avail, used, false), n) + second == Take(Distinct(avail, used, false) + Distinct(avail, used, true), n)
  {
    hide Distinct;
    DistinctGrows(avail, used, true, i);
    assert i == |avail| ==> avail[..i] == avail;
  }

  method MatchRequirement(req: Requirement, candidates: seq<Candidate>, used: set<string>) returns (r: Outcome)
    ensures r == MatchOne(req, candidates, used)
  {
    hide Distinct, Provides;
    var avail: seq<Candidate> := [];
    var i := 0;
    while i < |candidates|
      invariant 0 <= i <= |candidates| && avail == Available(candidates[..i], req.capability)
    {
      assert candidates[..i + 1][..i] == candidates[..i];
      var bad := CandidateProvides(candidates[i], req.capability);
      if bad.None? {
        avail := avail + [candidates[i]];
      }
      i := i + 1;
    }
    assert candidates[..i] == candidates;
    match req.cardinality {
      case OneOrMore =>
        if avail == [] {
          return NoMatch(MissingRequired);
        }
        var picked := PickUpTo(avail, used, req.allowReuse, req.AtLeast());
        r := if |picked| < req.AtLeast() then NoMatch(BelowMinItems) else Picked(picked);
      case UnknownCardinality(_) => r := NoMatch(InvalidRequirement);
      case _ =>
        if avail == [] {
          return if req.cardinality == One then NoMatch(MissingRequired) else Picked([]);
        }
        var c := FirstUnused(avail, used, req.allowReuse);
        r := if c.None? then NoMatch(DuplicateOccupation) else Picked([c.value]);
    }
  }

  method ValidateRequirementList(requirements: seq<Requirement>) returns (ok: bool)
    ensures ok <==> ValidList(requirements)
  {
    hide Requirement.Valid;
    ok := true;
    var seen: set<string> := {};
    var i := 0;
    while i < |requirements|
      invariant 0 <= i <= |requirements|
      invariant forall id :: id in seen <==> exists j :: 0 <= j < i && requirements[j].id == id
      invariant ok <==> ValidList(requirements[..i])
    {
      var r := requirements[i];
      assert requirements[..i + 1] == requirements[..i] + [r];
      NamedWhenValid(r);
      if r.id != "" && r.id in seen {
        assert !DistinctIds(requirements[..i + 1]);
        ok := false;
      }
      seen := seen + {r.id};
      if !r.Valid() {
        ok := false;
      }
      assert DistinctIds(requirements[..i + 1]) ==> DistinctIds(requirements[..i]);
      i := i + 1;
    }
    assert requirements[..i] == requirements;
  }

  lemma NamedWhenValid(r: Requirement)
    ensures r.Valid() ==> r.id != ""
  {
  }

  datatype MatchResult =
    | Bound(bindings: seq<Binding>)
    | BadRequirements
    | Unmatched(code: Code, requirement: string)
    | Unacceptable(issues: seq<Issue>)

  /** Pick a candidate for every requirement, then have the result validated. */
  method Match(requirements: seq<Requirement>, candidates: seq<Candidate>, tenant: string) returns (r: MatchResult)
    ensures r.BadRequirements? <==> !ValidList(requirements)
    ensures ValidList(requirements) ==>
      match MatchAll(requirements, Scope(candidates, tenant))
      case Failed(code, id) => r == Unmatched(code, id)
      case Matched(picks) =>
        if Unambiguous(picks, candidates) then r == Bound(BindingsOf(picks)) else r.Unacceptable? && r.issues != []
    // A result that is returned is acceptable to the independent validator.
    ensures r.Bound? ==> Acceptable(requirements, candidates, tenant, r.bindings)
    ensures Identified(candidates) ==> !r.Unacceptable?
  {
    hide MatchOne, Acceptable, Unambiguous, ValidList;
    var ok := ValidateRequirementList(requirements);
    if !ok {
      return BadRequirements;
    }
    var scope := Scope(candidates, tenant);
    ghost var picks: seq<Pick> := [];
    var bindings: seq<Binding> := [];
    var used: set<string> := {};
    var i := 0;
    while i < |requirements|
      invariant 0 <= i <= |requirements|
      invariant MatchAll(requirements[..i], scope) == Matched(picks)
      invariant bindings == BindingsOf(picks) && used == UsedBy(picks)
    {
      assert requirements[..i + 1][..i] == requirements[..i];
      var outcome := MatchRequirement(requirements[i], scope, used);
      if outcome.NoMatch? {
        FailureStays(requirements, scope, i + 1);
        return Unmatched(outcome.code, requirements[i].id);
      }
      var picked := outcome.candidates;
      var k := 0;
      while k < |picked|
        invariant 0 <= k <= |picked|
        invariant bindings == BindingsOf(picks + PicksOf(requirements[i], picked[..k]))
        invariant used == UsedBy(picks + PicksOf(requirements[i], picked[..k]))
      {
        var c := picked[k];
        assert PicksOf(requirements[i], picked[..k + 1]) == PicksOf(requirements[i], picked[..k]) + [Pick(requirements[i], c)];
        MorePicks(picks + PicksOf(requirements[i], picked[..k]), Pick(requirements[i], c));
        assert picks + PicksOf(requirements[i], picked[..k + 1]) ==
          picks + PicksOf(requirements[i], picked[..k]) + [Pick(requirements[i], c)];
        bindings := bindings + [Binding(requirements[i].id, c.entity, c.device)];
        used := used + {c.Key()};
        k := k + 1;
      }
      assert picked[..k] == picked;
      picks := picks + PicksOf(requirements[i], picked);
      i := i + 1;
    }
    assert requirements[..i] == requirements;
    MatchedIsAcceptable(requirements, candidates, tenant);
    if Identified(candidates) {
      GreedyMeetsValidator(requirements, candidates, tenant);
    }
    var issues := Validate(requirements, candidates, tenant, bindings);
    r := if issues == [] then Bound(bindings) else Unacceptable(issues);
  }

  lemma MorePicks(picks: seq<Pick>, p: Pick)
    ensures BindingsOf(picks + [p]) == BindingsOf(picks) + [BindingOf(p)]
    ensures UsedBy(picks + [p]) == UsedBy(picks) + {p.candidate.Key()}
  {
    hide Candidate.Key;
  }

  lemma {:induction false} FailureStays(requirements: seq<Requirement>, candidates: seq<Candidate>, n: nat)
    requires n <= |requirements| && MatchAll(requirements[..n], candidates).Failed?
    ensures MatchAll(requirements, candidates) == MatchAll(requirements[..n], candidates)
  {
    hide MatchOne;
    if n == |requirements| {
      assert requirements[..n] == requirements;
    } else {
      var m := |requirements| - 1;
      assert requirements[..m][..n] == requirements[..n];
      FailureStays(requirements[..m], candidates, n);
    }
  }
}
