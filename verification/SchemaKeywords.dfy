/** What a schema means, keyword by keyword: where references lead, what a keyword decides by itself, and
    that a schema accepts exactly what each of its keywords accepts. */
module SchemaKeywords {
  import opened Wrappers
  import opened Text
  import opened Schema

  // ---------------------------------------------------------------- where references lead

  /** The escape of RFC 6901, section 3. */
  function Escape(name: string): (r: string)
    ensures '/' !in r
  {
    if name == "" then ""
    else (if name[0] == '~' then "~0" else if name[0] == '/' then "~1" else [name[0]]) + Escape(name[1..])
  }

  /** Half way back: only tildes are escaped. */
  function Tildes(name: string): string {
    if name == "" then "" else (if name[0] == '~' then "~0" else [name[0]]) + Tildes(name[1..])
  }

  lemma UnescapeOther(c: char, rest: string, code: char, plain: char)
    requires c != '~' || (rest != "" && rest[0] != code)
    ensures Unescape([c] + rest, code, plain) == [c] + Unescape(rest, code, plain)
  {
    assert ([c] + rest)[1..] == rest;
    if rest == "" {
      assert [c] + rest == [c];
    }
  }

  lemma UnescapeCode(rest: string, code: char, plain: char)
    ensures Unescape(['~', code] + rest, code, plain) == [plain] + Unescape(rest, code, plain)
  {
    assert (['~', code] + rest)[2..] == rest;
  }

  lemma {:induction false} EscapeUnescapes(name: string)
    ensures Unescape(Escape(name), '1', '/') == Tildes(name)
    ensures Unescape(Tildes(name), '0', '~') == name
  {
    hide Unescape;
    if name == "" {
      EmptyUnescapes();
    } else {
      var c, rest := name[0], name[1..];
      EscapeUnescapes(rest);
      if c == '~' {
        assert Escape(name) == ['~'] + (['0'] + Escape(rest));
        UnescapeOther('~', ['0'] + Escape(rest), '1', '/');
        UnescapeOther('0', Escape(rest), '1', '/');
        assert ['~'] + (['0'] + Tildes(rest)) == "~0" + Tildes(rest) == ['~', '0'] + Tildes(rest);
        UnescapeCode(Tildes(rest), '0', '~');
      } else {
        if c == '/' {
          assert Escape(name) == ['~', '1'] + Escape(rest);
          UnescapeCode(Escape(rest), '1', '/');
        } else {
          UnescapeOther(c, Escape(rest), '1', '/');
        }
        UnescapeOther(c, Tildes(rest), '0', '~');
      }
      assert name == [c] + rest;
    }
  }

  lemma EmptyUnescapes()
    ensures Unescape("", '1', '/') == "" && Unescape("", '0', '~') == ""
  {
  }

  /** What is found by going from object to object by name. */
  function Follow(v: Json, names: seq<string>): Option<Json> {
    if names == [] then Some(v)
    else if v.Obj? && names[0] in v.fields then Follow(v.fields[names[0]], names[1..])
    else None
  }

  function Escapes(names: seq<string>): (r: seq<string>)
    ensures |r| == |names| && forall part <- r :: '/' !in part
  {
    if names == [] then [] else [Escape(names[0])] + Escapes(names[1..])
  }

  function Pointer(names: seq<string>): string { "#/" + Join(Escapes(names), '/') }

  lemma {:induction false} WalkFollows(v: Json, names: seq<string>)
    ensures Walk(v, Escapes(names)) == Follow(v, names)
    decreases |names|
  {
    hide Escape, Unescape;
    if names != [] {
      EscapeUnescapes(names[0]);
      assert Escapes(names)[0] == Escape(names[0]) && Escapes(names)[1..] == Escapes(names[1..]);
      if v.Obj? && names[0] in v.fields {
        WalkFollows(v.fields[names[0]], names[1..]);
      }
    }
  }

  /** A reference leads where its names lead, and has to lead to an object there; every other reference but
      that to the root leads nowhere. */
  lemma ReferencesLead(root: Fields, names: seq<string>, ref: string)
    requires names != []
    ensures Resolve(root, Pointer(names)) ==
      match Follow(Obj(root), names)
      case Some(Obj(fields)) => Some(fields)
      case _ => None
    ensures Resolve(root, "#") == Some(root)
    ensures ref != "#" && !("#/" <= ref) ==> Resolve(root, ref) == None
  {
    hide Escapes, Walk, Join, Split, Follow;
    var parts := Escapes(names);
    var text := Pointer(names);
    assert text[..2] == "#/" && text[2..] == Join(parts, '/');
    assert text != "#";
    SplitJoin(parts, '/');
    WalkFollows(Obj(root), names);
  }

  // ---------------------------------------------------------------- deep enough for all

  /** What holds from some depth on for each of finitely many things holds for all of them from some depth on. */
  lemma {:induction false} DeepForAll<K(!new)>(keys: set<K>, f: (K, nat) -> bool) returns (n: nat)
    requires forall k <- keys :: exists m: nat :: f(k, m)
    requires forall k, a: nat, b: nat :: k in keys && a <= b && f(k, a) ==> f(k, b)
    ensures forall k <- keys :: f(k, n)
  {
    if keys == {} {
      n := 0;
    } else {
      var k :| k in keys;
      var m: nat :| f(k, m);
      var rest := DeepForAll(keys - {k}, f);
      n := if m < rest then rest else m;
      forall j | j in keys
        ensures f(j, n)
      {
        assert j == k || j in keys - {k};
      }
    }
  }

  /** The matter is settled: the schema accepts the value if and only if `ok`, and rejects it otherwise. */
  ghost predicate Decided(re: Regex, root: Fields, s: Fields, v: Json, ok: bool) {
    (Accepts(re, root, s, v) <==> ok) && (Rejects(re, root, s, v) <==> !ok)
  }

  lemma RulesDecide(re: Regex, root: Fields, s: Fields, v: Json, ok: bool)
    requires forall yes: Sub, may: Sub :: Rules(re, root, s, v, yes, may) <==> ok
    ensures Decided(re, root, s, v, ok)
  {
    hide Rules;
    assert Sure(re, root, s, v, 1) <==> ok;
    assert May(re, root, s, v, 1) <==> ok;
    forall n: nat
      ensures (Sure(re, root, s, v, n) ==> ok) && (ok ==> May(re, root, s, v, n))
    {
    }
  }

  // ---------------------------------------------------------------- keywords that look at nothing else

  /** A schema none of whose keywords asks for another evaluation. */
  predicate Leaf(s: Fields) {
    "$ref" !in s && "properties" !in s && "items" !in s && "allOf" !in s && "anyOf" !in s && "oneOf" !in s && "not" !in s
  }

  lemma LeafDecides(re: Regex, root: Fields, s: Fields, v: Json)
    requires Leaf(s)
    ensures Decided(re, root, s, v, Local(re, root, s, v))
  {
    hide Local, Resolve, Decided;
    forall yes: Sub, may: Sub
      ensures Rules(re, root, s, v, yes, may) <==> Local(re, root, s, v)
    {
    }
    RulesDecide(re, root, s, v, Local(re, root, s, v));
  }

  /** `type` names the kind of value; a name that is not known allows everything. */
  lemma TypeDecides(re: Regex, root: Fields, name: string, v: Json)
    ensures Decided(re, root, map["type" := Str(name)], v,
      && (name == "object" ==> v.Obj?) && (name == "array" ==> v.Arr?) && (name == "string" ==> v.Str?)
      && (name == "integer" ==> v.Num? && v.n.integral) && (name == "number" ==> v.Num? && v.n.finite)
      && (name == "boolean" ==> v.Bool?) && (name == "null" ==> v == Null))
  {
    var s: Fields := map["type" := Str(name)];
    assert forall k <- s :: k == "type";
    hide Decided, Resolve;
    LeafDecides(re, root, s, v);
  }

  /** `required` demands an object with all of the properties. */
  lemma RequiredDecides(re: Regex, root: Fields, names: seq<Json>, v: Json)
    ensures Decided(re, root, map["required" := Arr(names)], v,
      v.Obj? && forall name <- names :: name.Str? ==> name.s in v.fields)
  {
    var s: Fields := map["required" := Arr(names)];
    assert forall k <- s :: k == "required";
    hide Decided, Resolve;
    LeafDecides(re, root, s, v);
  }

  /** Numbers are the same if their integers are, or without those their floats. */
  predicate SameNumber(m: Number, n: Number) {
    if m.asInt.Some? && n.asInt.Some? then m.asInt == n.asInt
    else if m.asFloat.Some? && n.asFloat.Some? then m.asFloat == n.asFloat
    else m == n
  }

  predicate SameValue(v: Json, w: Json) { if v.Num? && w.Num? then SameNumber(v.n, w.n) else v == w }

  lemma ConstDecides(re: Regex, root: Fields, c: Json, v: Json)
    ensures Decided(re, root, map["const" := c], v, SameValue(v, c))
  {
    var s: Fields := map["const" := c];
    assert forall k <- s :: k == "const";
    hide Decided, Resolve;
    LeafDecides(re, root, s, v);
  }

  lemma EnumDecides(re: Regex, root: Fields, choices: seq<Json>, v: Json)
    ensures Decided(re, root, map["enum" := Arr(choices)], v, exists c <- choices :: SameValue(v, c))
  {
    var s: Fields := map["enum" := Arr(choices)];
    assert forall k <- s :: k == "enum";
    hide Decided, Resolve;
    LeafDecides(re, root, s, v);
    assert forall c <- choices :: ValueEqual(v, c) <==> SameValue(v, c);
  }

  /** How many items an array may have; other values may be anything. */
  lemma ItemCountDecides(re: Regex, root: Fields, bound: Number, n: int, v: Json)
    requires bound.asInt == Some(n)
    ensures Decided(re, root, map["minItems" := Num(bound)], v, v.Arr? ==> n <= |v.items|)
    ensures Decided(re, root, map["maxItems" := Num(bound)], v, v.Arr? ==> |v.items| <= n)
  {
    var low: Fields, high: Fields := map["minItems" := Num(bound)], map["maxItems" := Num(bound)];
    assert forall k <- low :: k == "minItems";
    assert forall k <- high :: k == "maxItems";
    hide Decided, Resolve;
    LeafDecides(re, root, low, v);
    LeafDecides(re, root, high, v);
  }

  lemma UniqueDecides(re: Regex, root: Fields, v: Json)
    ensures Decided(re, root, map["uniqueItems" := Bool(true)], v,
      v.Arr? ==> forall i, j :: 0 <= i < j < |v.items| ==> v.items[i] != v.items[j])
  {
    var s: Fields := map["uniqueItems" := Bool(true)];
    assert forall k <- s :: k == "uniqueItems";
    hide Decided, Resolve;
    LeafDecides(re, root, s, v);
  }

  /** How many characters a string may have; other values may be anything. */
  lemma LengthDecides(re: Regex, root: Fields, bound: Number, n: int, v: Json)
    requires bound.asInt == Some(n)
    ensures Decided(re, root, map["minLength" := Num(bound)], v, v.Str? ==> n <= |v.s|)
    ensures Decided(re, root, map["maxLength" := Num(bound)], v, v.Str? ==> |v.s| <= n)
  {
    var low: Fields, high: Fields := map["minLength" := Num(bound)], map["maxLength" := Num(bound)];
    assert forall k <- low :: k == "minLength";
    assert forall k <- high :: k == "maxLength";
    hide Decided, Resolve;
    LeafDecides(re, root, low, v);
    LeafDecides(re, root, high, v);
  }

  /** A malformed pattern matches nothing. */
  lemma PatternDecides(re: Regex, root: Fields, pattern: string, v: Json)
    ensures Decided(re, root, map["pattern" := Str(pattern)], v, v.Str? ==> re(pattern, v.s) == Some(true))
  {
    var s: Fields := map["pattern" := Str(pattern)];
    assert forall k <- s :: k == "pattern";
    hide Decided, Resolve;
    LeafDecides(re, root, s, v);
  }

  /** Between which numbers a number may be, both included; other values may be anything. */
  lemma RangeDecides(re: Regex, root: Fields, bound: Number, x: real, v: Json)
    requires bound.asFloat == Some(x)
    ensures Decided(re, root, map["minimum" := Num(bound)], v, v.Num? && v.n.asFloat.Some? ==> x <= v.n.asFloat.value)
    ensures Decided(re, root, map["maximum" := Num(bound)], v, v.Num? && v.n.asFloat.Some? ==> v.n.asFloat.value <= x)
  {
    var low: Fields, high: Fields := map["minimum" := Num(bound)], map["maximum" := Num(bound)];
    assert forall k <- low :: k == "minimum";
    assert forall k <- high :: k == "maximum";
    hide Decided, Resolve;
    LeafDecides(re, root, low, v);
    LeafDecides(re, root, high, v);
  }

  // ---------------------------------------------------------------- keywords that hold schemas

  /** What is sure, or ruled out, one level further down, for some depth. */
  lemma Shifted(re: Regex, root: Fields, s: Fields, v: Json, yes: nat -> bool, no: nat -> bool)
    requires forall n: nat :: yes(n) <==> Sure(re, root, s, v, n + 1)
    requires forall n: nat :: no(n) <==> !May(re, root, s, v, n + 1)
    ensures Accepts(re, root, s, v) <==> exists n: nat :: yes(n)
    ensures Rejects(re, root, s, v) <==> exists n: nat :: no(n)
  {
    assert !Sure(re, root, s, v, 0) && May(re, root, s, v, 0);
    hide Sure, May;
    if n: nat :| Sure(re, root, s, v, n) {
      assert yes(n - 1);
    }
    if n: nat :| !May(re, root, s, v, n) {
      assert no(n - 1);
    }
  }

  lemma AcceptedSomewhere(re: Regex, root: Fields, s: Fields, v: Json, yes: nat -> bool)
    requires forall n: nat :: yes(n) <==> Sure(re, root, s, v, n)
    ensures Accepts(re, root, s, v) <==> exists n: nat :: yes(n)
  {
    hide Sure;
    if n: nat :| Sure(re, root, s, v, n) {
      assert yes(n);
    }
  }

  lemma RejectedSomewhere(re: Regex, root: Fields, s: Fields, v: Json, no: nat -> bool)
    requires forall n: nat :: no(n) <==> !May(re, root, s, v, n)
    ensures Rejects(re, root, s, v) <==> exists n: nat :: no(n)
  {
    hide May;
    if n: nat :| !May(re, root, s, v, n) {
      assert no(n);
    }
  }

  /** What is accepted, each by itself, is accepted within one depth. */
  lemma AllAccepted(re: Regex, root: Fields, pairs: set<(Fields, Json)>) returns (n: nat)
    requires forall p <- pairs :: Accepts(re, root, p.0, p.1)
    ensures forall p <- pairs :: Sure(re, root, p.0, p.1, n)
  {
    hide Sure, May;
    var f := (p: (Fields, Json), n: nat) => Sure(re, root, p.0, p.1, n);
    forall p, a: nat, b: nat | p in pairs && a <= b && f(p, a)
      ensures f(p, b)
    {
      DeepEnough(re, root, p.0, p.1, a, b);
    }
    forall p | p in pairs
      ensures exists m: nat :: f(p, m)
    {
      var m: nat :| Sure(re, root, p.0, p.1, m);
      assert f(p, m);
    }
    n := DeepForAll(pairs, f);
    assert forall p <- pairs :: f(p, n);
  }

  /** What is rejected, each by itself, is rejected within one depth. */
  lemma AllRejected(re: Regex, root: Fields, pairs: set<(Fields, Json)>) returns (n: nat)
    requires forall p <- pairs :: Rejects(re, root, p.0, p.1)
    ensures forall p <- pairs :: !May(re, root, p.0, p.1, n)
  {
    hide Sure, May;
    var f := (p: (Fields, Json), n: nat) => !May(re, root, p.0, p.1, n);
    forall p, a: nat, b: nat | p in pairs && a <= b && f(p, a)
      ensures f(p, b)
    {
      DeepEnough(re, root, p.0, p.1, a, b);
    }
    forall p | p in pairs
      ensures exists m: nat :: f(p, m)
    {
      var m: nat :| !May(re, root, p.0, p.1, m);
      assert f(p, m);
    }
    n := DeepForAll(pairs, f);
    assert forall p <- pairs :: f(p, n);
  }

  /** One level of an evaluation. */
  lemma OneLevel(re: Regex, root: Fields, s: Fields, v: Json, n: nat)
    ensures Sure(re, root, s, v, n + 1) <==> Rules(re, root, s, v, SureAt(re, root, n), MayAt(re, root, n))
    ensures May(re, root, s, v, n + 1) <==> Rules(re, root, s, v, MayAt(re, root, n), SureAt(re, root, n))
    ensures forall s', v' :: SureAt(re, root, n)(s', v') <==> Sure(re, root, s', v', n)
    ensures forall s', v' :: MayAt(re, root, n)(s', v') <==> May(re, root, s', v', n)
  {
    hide Rules;
  }

  /** Evaluations: a schema and a value each. */
  type Pairs = set<(Fields, Json)>

  predicate AllSure(re: Regex, root: Fields, pairs: Pairs, n: nat) {
    forall p <- pairs :: Sure(re, root, p.0, p.1, n)
  }

  predicate AllRuledOut(re: Regex, root: Fields, pairs: Pairs, n: nat) {
    forall p <- pairs :: !May(re, root, p.0, p.1, n)
  }

  predicate SomeSure(re: Regex, root: Fields, pairs: Pairs, n: nat) {
    exists p <- pairs :: Sure(re, root, p.0, p.1, n)
  }

  predicate SomeRuledOut(re: Regex, root: Fields, pairs: Pairs, n: nat) {
    exists p <- pairs :: !May(re, root, p.0, p.1, n)
  }

  lemma AllMean(re: Regex, root: Fields, pairs: Pairs)
    ensures (exists n: nat :: AllSure(re, root, pairs, n)) <==> forall p <- pairs :: Accepts(re, root, p.0, p.1)
    ensures (exists n: nat :: AllRuledOut(re, root, pairs, n)) <==> forall p <- pairs :: Rejects(re, root, p.0, p.1)
  {
    hide Sure, May;
    if forall p <- pairs :: Accepts(re, root, p.0, p.1) {
      var n := AllAccepted(re, root, pairs);
      assert AllSure(re, root, pairs, n);
    }
    if forall p <- pairs :: Rejects(re, root, p.0, p.1) {
      var n := AllRejected(re, root, pairs);
      assert AllRuledOut(re, root, pairs, n);
    }
  }

  lemma SomeMean(re: Regex, root: Fields, pairs: Pairs)
    ensures (exists n: nat :: SomeSure(re, root, pairs, n)) <==> exists p <- pairs :: Accepts(re, root, p.0, p.1)
    ensures (exists n: nat :: SomeRuledOut(re, root, pairs, n)) <==> exists p <- pairs :: Rejects(re, root, p.0, p.1)
  {
    hide Sure, May;
    if p :| p in pairs && Accepts(re, root, p.0, p.1) {
      var n: nat :| Sure(re, root, p.0, p.1, n);
      assert SomeSure(re, root, pairs, n);
    }
    if p :| p in pairs && Rejects(re, root, p.0, p.1) {
      var n: nat :| !May(re, root, p.0, p.1, n);
      assert SomeRuledOut(re, root, pairs, n);
    }
  }

  /** A schema that asks, one level down, for all of some evaluations. */
  lemma ConjunctionMeans(re: Regex, root: Fields, s: Fields, v: Json, pairs: Pairs)
    requires forall n: nat :: Sure(re, root, s, v, n + 1) <==> AllSure(re, root, pairs, n)
    requires forall n: nat :: May(re, root, s, v, n + 1) <==> !SomeRuledOut(re, root, pairs, n)
    ensures Accepts(re, root, s, v) <==> forall p <- pairs :: Accepts(re, root, p.0, p.1)
    ensures Rejects(re, root, s, v) <==> exists p <- pairs :: Rejects(re, root, p.0, p.1)
  {
    hide Sure, May, Accepts, Rejects, AllSure, SomeRuledOut;
    var yes, no := (n: nat) => AllSure(re, root, pairs, n), (n: nat) => SomeRuledOut(re, root, pairs, n);
    Shifted(re, root, s, v, yes, no);
    AllMean(re, root, pairs);
    SomeMean(re, root, pairs);
    if n: nat :| AllSure(re, root, pairs, n) {
      assert yes(n);
    }
    if n: nat :| SomeRuledOut(re, root, pairs, n) {
      assert no(n);
    }
  }

  /** A schema that asks, one level down, for one of some evaluations. */
  lemma DisjunctionMeans(re: Regex, root: Fields, s: Fields, v: Json, pairs: Pairs)
    requires forall n: nat :: Sure(re, root, s, v, n + 1) <==> SomeSure(re, root, pairs, n)
    requires forall n: nat :: May(re, root, s, v, n + 1) <==> !AllRuledOut(re, root, pairs, n)
    ensures Accepts(re, root, s, v) <==> exists p <- pairs :: Accepts(re, root, p.0, p.1)
    ensures Rejects(re, root, s, v) <==> forall p <- pairs :: Rejects(re, root, p.0, p.1)
  {
    hide Sure, May, Accepts, Rejects, SomeSure, AllRuledOut;
    var yes, no := (n: nat) => SomeSure(re, root, pairs, n), (n: nat) => AllRuledOut(re, root, pairs, n);
    Shifted(re, root, s, v, yes, no);
    AllMean(re, root, pairs);
    SomeMean(re, root, pairs);
    if n: nat :| SomeSure(re, root, pairs, n) {
      assert yes(n);
    }
    if n: nat :| AllRuledOut(re, root, pairs, n) {
      assert no(n);
    }
  }

  /** `not` accepts what its schema rejects, and rejects what it accepts; what has no meaning keeps none. */
  lemma NotDecides(re: Regex, root: Fields, inner: Fields, v: Json)
    ensures Accepts(re, root, map["not" := Obj(inner)], v) <==> Rejects(re, root, inner, v)
    ensures Rejects(re, root, map["not" := Obj(inner)], v) <==> Accepts(re, root, inner, v)
  {
    hide Rules, Sure, May;
    var s: Fields := map["not" := Obj(inner)];
    var yes, no := (n: nat) => !May(re, root, inner, v, n), (n: nat) => Sure(re, root, inner, v, n);
    forall n: nat
      ensures yes(n) <==> Sure(re, root, s, v, n + 1)
      ensures no(n) <==> !May(re, root, s, v, n + 1)
    {
      OneLevel(re, root, s, v, n);
      OnlyNot(re, root, inner, v, SureAt(re, root, n), MayAt(re, root, n));
      OnlyNot(re, root, inner, v, MayAt(re, root, n), SureAt(re, root, n));
    }
    Shifted(re, root, s, v, yes, no);
    AcceptedSomewhere(re, root, inner, v, no);
    RejectedSomewhere(re, root, inner, v, yes);
  }

  lemma ReferredRules(re: Regex, root: Fields, ref: string, v: Json, yes: Sub, may: Sub)
    ensures Rules(re, root, map["$ref" := Str(ref)], v, yes, may) <==>
      Resolve(root, ref).Some? && yes(Resolve(root, ref).value, v)
  {
    var s: Fields := map["$ref" := Str(ref)];
    assert forall k <- s :: k == "$ref";
    hide Resolve, AtLeast, AtMost, ValueEqual, MatchesType;
  }

  /** A reference means what its target means, and rejects everything if there is none. */
  lemma ReferenceDecides(re: Regex, root: Fields, ref: string, v: Json)
    ensures var target, s := Resolve(root, ref), map["$ref" := Str(ref)];
      && (Accepts(re, root, s, v) <==> target.Some? && Accepts(re, root, target.value, v))
      && (Rejects(re, root, s, v) <==> target.Some? ==> Rejects(re, root, target.value, v))
  {
    hide Rules, Sure, May, Resolve;
    var s: Fields := map["$ref" := Str(ref)];
    var target := Resolve(root, ref);
    var yes := (n: nat) => target.Some? && Sure(re, root, target.value, v, n);
    var no := (n: nat) => target.Some? ==> !May(re, root, target.value, v, n);
    forall n: nat
      ensures yes(n) <==> Sure(re, root, s, v, n + 1)
      ensures no(n) <==> !May(re, root, s, v, n + 1)
    {
      OneLevel(re, root, s, v, n);
      ReferredRules(re, root, ref, v, SureAt(re, root, n), MayAt(re, root, n));
      ReferredRules(re, root, ref, v, MayAt(re, root, n), SureAt(re, root, n));
    }
    Shifted(re, root, s, v, yes, no);
    assert target.None? ==> no(0);
    if target.Some? {
      AcceptedSomewhere(re, root, target.value, v, yes);
      RejectedSomewhere(re, root, target.value, v, no);
    }
  }

  lemma ItemsRules(re: Regex, root: Fields, inner: Fields, v: Json, yes: Sub, may: Sub)
    ensures Rules(re, root, map["items" := Obj(inner)], v, yes, may) <==> v.Arr? && forall item <- v.items :: yes(inner, item)
  {
    var s: Fields := map["items" := Obj(inner)];
    assert forall k <- s :: k == "items";
    hide Resolve, AtLeast, AtMost, ValueEqual, MatchesType;
  }

  /** `items` demands an array whose items are accepted. */
  lemma ItemsDecide(re: Regex, root: Fields, inner: Fields, v: Json)
    ensures var s := map["items" := Obj(inner)];
      && (Accepts(re, root, s, v) <==> v.Arr? && forall item <- v.items :: Accepts(re, root, inner, item))
      && (Rejects(re, root, s, v) <==> v.Arr? ==> exists item <- v.items :: Rejects(re, root, inner, item))
  {
    hide Rules, Sure, May, Accepts, Rejects;
    var s: Fields := map["items" := Obj(inner)];
    var pairs := if v.Arr? then set item <- v.items :: (inner, item) else {};
    assert v.Arr? ==> forall item <- v.items :: (inner, item) in pairs;
    if v.Arr? {
      forall n: nat
        ensures Sure(re, root, s, v, n + 1) <==> AllSure(re, root, pairs, n)
        ensures May(re, root, s, v, n + 1) <==> !SomeRuledOut(re, root, pairs, n)
      {
        OneLevel(re, root, s, v, n);
        ItemsRules(re, root, inner, v, SureAt(re, root, n), MayAt(re, root, n));
        ItemsRules(re, root, inner, v, MayAt(re, root, n), SureAt(re, root, n));
      }
      ConjunctionMeans(re, root, s, v, pairs);
    } else {
      forall yes: Sub, may: Sub
        ensures !Rules(re, root, s, v, yes, may)
      {
        ItemsRules(re, root, inner, v, yes, may);
      }
      RulesDecide(re, root, s, v, false);
    }
  }

  /** Objects whose declared properties are accepted; what else they have is left to `additional`, if given. */
  function Closed(props: Fields, additional: Option<Json>): Fields {
    if additional.Some? then map["properties" := Obj(props), "additionalProperties" := additional.value]
    else map["properties" := Obj(props)]
  }

  /** What `additionalProperties` has to be, and what `false` demands. */
  predicate Allows(props: Fields, additional: Option<Json>, v: Json) {
    v.Obj? && additional.Some? ==>
      (additional.value.Bool? || additional.value.Obj?) && (additional.value == Bool(false) ==> v.fields.Keys <= props.Keys)
  }

  /** What has to be evaluated: declared properties that are there, and with a schema for them, all others. */
  function Asked(props: Fields, additional: Option<Json>, v: Json): Pairs {
    if !v.Obj? then {}
    else
      (set name | name in props && props[name].Obj? && name in v.fields :: (props[name].fields, v.fields[name]))
      + (if additional.Some? && additional.value.Obj?
         then set name | name in v.fields && name !in props :: (additional.value.fields, v.fields[name]) else {})
  }

  lemma PropertiesLocal(re: Regex, root: Fields, props: Fields, additional: Option<Json>, v: Json)
    ensures Local(re, root, Closed(props, additional), v) <==> Allows(props, additional, v)
    ensures var s := Closed(props, additional);
      && "$ref" !in s && "items" !in s && "allOf" !in s && "anyOf" !in s && "oneOf" !in s && "not" !in s
      && "properties" in s && s["properties"] == Obj(props)
      && ("additionalProperties" in s <==> additional.Some?)
      && (additional.Some? ==> s["additionalProperties"] == additional.value)
  {
    var s := Closed(props, additional);
    assert forall k <- s :: k == "properties" || k == "additionalProperties";
    hide Resolve, AtLeast, AtMost, ValueEqual, MatchesType;
  }

  lemma PropertiesRules(re: Regex, root: Fields, props: Fields, additional: Option<Json>, v: Json, yes: Sub, may: Sub)
    ensures Rules(re, root, Closed(props, additional), v, yes, may) <==>
      Allows(props, additional, v) && forall p <- Asked(props, additional, v) :: yes(p.0, p.1)
  {
    hide Local, Allows, Closed, Resolve;
    PropertiesLocal(re, root, props, additional, v);
    if v.Obj? {
      assert forall name | name in props && props[name].Obj? && name in v.fields ::
        (props[name].fields, v.fields[name]) in Asked(props, additional, v);
      assert additional.Some? && additional.value.Obj? ==>
        forall name | name in v.fields && name !in props :: (additional.value.fields, v.fields[name]) in Asked(props, additional, v);
    }
  }

  /** `properties` and `additionalProperties`, which belong together. */
  lemma PropertiesDecide(re: Regex, root: Fields, props: Fields, additional: Option<Json>, v: Json)
    ensures Accepts(re, root, Closed(props, additional), v) <==>
      Allows(props, additional, v) && forall p <- Asked(props, additional, v) :: Accepts(re, root, p.0, p.1)
    ensures Rejects(re, root, Closed(props, additional), v) <==>
      Allows(props, additional, v) ==> exists p <- Asked(props, additional, v) :: Rejects(re, root, p.0, p.1)
  {
    hide Rules, Sure, May, Accepts, Rejects, Closed, Allows, Asked;
    var s, pairs := Closed(props, additional), Asked(props, additional, v);
    if Allows(props, additional, v) {
      forall n: nat
        ensures Sure(re, root, s, v, n + 1) <==> AllSure(re, root, pairs, n)
        ensures May(re, root, s, v, n + 1) <==> !SomeRuledOut(re, root, pairs, n)
      {
        OneLevel(re, root, s, v, n);
        PropertiesRules(re, root, props, additional, v, SureAt(re, root, n), MayAt(re, root, n));
        PropertiesRules(re, root, props, additional, v, MayAt(re, root, n), SureAt(re, root, n));
      }
      ConjunctionMeans(re, root, s, v, pairs);
    } else {
      forall yes: Sub, may: Sub
        ensures !Rules(re, root, s, v, yes, may)
      {
        PropertiesRules(re, root, props, additional, v, yes, may);
      }
      RulesDecide(re, root, s, v, false);
    }
  }

  // ---------------------------------------------------------------- combinations

  function Objs(schemas: seq<Fields>): (r: seq<Json>)
    ensures |r| == |schemas| && forall i :: 0 <= i < |r| ==> r[i] == Obj(schemas[i])
  {
    seq(|schemas|, i requires 0 <= i < |schemas| => Obj(schemas[i]))
  }

  function Combined(keyword: string, schemas: seq<Fields>): Fields { map[keyword := Arr(Objs(schemas))] }

  lemma CombinationLocal(re: Regex, root: Fields, keyword: string, schemas: seq<Fields>, v: Json)
    requires keyword == "allOf" || keyword == "anyOf" || keyword == "oneOf"
    ensures Local(re, root, Combined(keyword, schemas), v)
    ensures Children(Combined(keyword, schemas), keyword) == Objs(schemas)
    ensures var s := Combined(keyword, schemas);
      && keyword in s && "$ref" !in s && "properties" !in s && "items" !in s && "not" !in s
      && (keyword != "allOf" ==> "allOf" !in s) && (keyword != "anyOf" ==> "anyOf" !in s) && (keyword != "oneOf" ==> "oneOf" !in s)
  {
    var s := Combined(keyword, schemas);
    assert forall k <- s :: k == keyword;
    hide Resolve, AtLeast, AtMost, ValueEqual, MatchesType;
  }

  lemma ObjsAre(schemas: seq<Fields>)
    ensures forall c <- schemas :: Obj(c) in Objs(schemas)
    ensures forall child <- Objs(schemas) :: child.Obj? && child.fields in schemas
  {
    forall c | c in schemas
      ensures Obj(c) in Objs(schemas)
    {
      var i :| 0 <= i < |schemas| && schemas[i] == c;
      assert Objs(schemas)[i] == Obj(c);
    }
  }

  lemma AllOfRules(re: Regex, root: Fields, schemas: seq<Fields>, v: Json, yes: Sub, may: Sub)
    ensures Rules(re, root, Combined("allOf", schemas), v, yes, may) <==> forall c <- schemas :: yes(c, v)
  {
    hide Local, Resolve, Combined, Objs;
    CombinationLocal(re, root, "allOf", schemas, v);
    ObjsAre(schemas);
    if forall child <- Objs(schemas) :: Holds(child, v, yes) {
      forall c | c in schemas
        ensures yes(c, v)
      {
        assert Holds(Obj(c), v, yes);
      }
    }
  }

  lemma AnyOfRules(re: Regex, root: Fields, schemas: seq<Fields>, v: Json, yes: Sub, may: Sub)
    ensures Rules(re, root, Combined("anyOf", schemas), v, yes, may) <==> exists c <- schemas :: yes(c, v)
  {
    hide Local, Resolve, Combined, Objs;
    CombinationLocal(re, root, "anyOf", schemas, v);
    ObjsAre(schemas);
    if c :| c in schemas && yes(c, v) {
      assert Holds(Obj(c), v, yes);
    }
  }

  lemma OneOfRules(re: Regex, root: Fields, schemas: seq<Fields>, v: Json, yes: Sub, may: Sub)
    ensures Rules(re, root, Combined("oneOf", schemas), v, yes, may) <==>
      exists i :: 0 <= i < |schemas| && yes(schemas[i], v) && forall j :: 0 <= j < |schemas| && j != i ==> !may(schemas[j], v)
  {
    hide Local, Resolve, Combined;
    CombinationLocal(re, root, "oneOf", schemas, v);
    var children := Objs(schemas);
    forall i | 0 <= i < |schemas|
      ensures OnlyAt(children, v, yes, may, i) <==>
        yes(schemas[i], v) && forall j :: 0 <= j < |schemas| && j != i ==> !may(schemas[j], v)
    {
      assert forall j :: 0 <= j < |schemas| ==> (Holds(children[j], v, may) <==> may(schemas[j], v));
    }
  }

  /** `allOf` accepts what all of its schemas accept, and rejects what one of them rejects. */
  lemma AllOfDecides(re: Regex, root: Fields, schemas: seq<Fields>, v: Json)
    ensures Accepts(re, root, Combined("allOf", schemas), v) <==> forall c <- schemas :: Accepts(re, root, c, v)
    ensures Rejects(re, root, Combined("allOf", schemas), v) <==> exists c <- schemas :: Rejects(re, root, c, v)
  {
    hide Rules, Sure, May, Combined, Accepts, Rejects;
    var s := Combined("allOf", schemas);
    var pairs := set c <- schemas :: (c, v);
    assert forall c <- schemas :: (c, v) in pairs;
    forall n: nat
      ensures Sure(re, root, s, v, n + 1) <==> AllSure(re, root, pairs, n)
      ensures May(re, root, s, v, n + 1) <==> !SomeRuledOut(re, root, pairs, n)
    {
      OneLevel(re, root, s, v, n);
      AllOfRules(re, root, schemas, v, SureAt(re, root, n), MayAt(re, root, n));
      AllOfRules(re, root, schemas, v, MayAt(re, root, n), SureAt(re, root, n));
    }
    ConjunctionMeans(re, root, s, v, pairs);
  }

  /** `anyOf` accepts what one of its schemas accepts, and rejects what all of them reject. */
  lemma AnyOfDecides(re: Regex, root: Fields, schemas: seq<Fields>, v: Json)
    ensures Accepts(re, root, Combined("anyOf", schemas), v) <==> exists c <- schemas :: Accepts(re, root, c, v)
    ensures Rejects(re, root, Combined("anyOf", schemas), v) <==> forall c <- schemas :: Rejects(re, root, c, v)
  {
    hide Rules, Sure, May, Combined, Accepts, Rejects;
    var s := Combined("anyOf", schemas);
    var pairs := set c <- schemas :: (c, v);
    assert forall c <- schemas :: (c, v) in pairs;
    forall n: nat
      ensures Sure(re, root, s, v, n + 1) <==> SomeSure(re, root, pairs, n)
      ensures May(re, root, s, v, n + 1) <==> !AllRuledOut(re, root, pairs, n)
    {
      OneLevel(re, root, s, v, n);
      AnyOfRules(re, root, schemas, v, SureAt(re, root, n), MayAt(re, root, n));
      AnyOfRules(re, root, schemas, v, MayAt(re, root, n), SureAt(re, root, n));
    }
    DisjunctionMeans(re, root, s, v, pairs);
  }

  /** One schema at a place accepts, and those at all other places reject. */
  ghost predicate OneAccepts(re: Regex, root: Fields, schemas: seq<Fields>, v: Json, i: int) {
    0 <= i < |schemas| && Accepts(re, root, schemas[i], v)
    && forall j :: 0 <= j < |schemas| && j != i ==> Rejects(re, root, schemas[j], v)
  }

  /** `oneOf` accepts what one of its schemas accepts while all others reject it, and rejects what all of them
      reject or two of them accept. */
  lemma OneOfDecides(re: Regex, root: Fields, schemas: seq<Fields>, v: Json)
    ensures Accepts(re, root, Combined("oneOf", schemas), v) <==> exists i :: OneAccepts(re, root, schemas, v, i)
    ensures Rejects(re, root, Combined("oneOf", schemas), v) <==>
      || (forall c <- schemas :: Rejects(re, root, c, v))
      || (exists i, j :: 0 <= i < j < |schemas| && Accepts(re, root, schemas[i], v) && Accepts(re, root, schemas[j], v))
  {
    hide Rules, Sure, May, Combined;
    var s := Combined("oneOf", schemas);
    var yes := (n: nat) => SureOfOne(re, root, schemas, v, n);
    var no := (n: nat) => !MayBeOne(re, root, schemas, v, n);
    forall n: nat
      ensures yes(n) <==> Sure(re, root, s, v, n + 1)
      ensures no(n) <==> !May(re, root, s, v, n + 1)
    {
      OneLevel(re, root, s, v, n);
      OneOfRules(re, root, schemas, v, SureAt(re, root, n), MayAt(re, root, n));
      OneOfRules(re, root, schemas, v, MayAt(re, root, n), SureAt(re, root, n));
    }
    Shifted(re, root, s, v, yes, no);
    OneOfAccepts(re, root, schemas, v);
    OneOfRejects(re, root, schemas, v);
    if n: nat :| SureOfOne(re, root, schemas, v, n) {
      assert yes(n);
    }
    if n: nat :| !MayBeOne(re, root, schemas, v, n) {
      assert no(n);
    }
  }

  predicate SureOfOne(re: Regex, root: Fields, schemas: seq<Fields>, v: Json, n: nat) {
    exists i :: 0 <= i < |schemas| && Sure(re, root, schemas[i], v, n)
      && forall j :: 0 <= j < |schemas| && j != i ==> !May(re, root, schemas[j], v, n)
  }

  predicate MayBeOne(re: Regex, root: Fields, schemas: seq<Fields>, v: Json, n: nat) {
    exists i :: 0 <= i < |schemas| && May(re, root, schemas[i], v, n)
      && forall j :: 0 <= j < |schemas| && j != i ==> !Sure(re, root, schemas[j], v, n)
  }

  lemma OneOfAccepts(re: Regex, root: Fields, schemas: seq<Fields>, v: Json)
    ensures (exists n: nat :: SureOfOne(re, root, schemas, v, n)) <==> exists i :: OneAccepts(re, root, schemas, v, i)
  {
    hide Sure, May;
    if n: nat :| SureOfOne(re, root, schemas, v, n) {
      var i :| 0 <= i < |schemas| && Sure(re, root, schemas[i], v, n)
        && forall j :: 0 <= j < |schemas| && j != i ==> !May(re, root, schemas[j], v, n);
      assert OneAccepts(re, root, schemas, v, i);
    }
    if i :| OneAccepts(re, root, schemas, v, i) {
      var others := set j | 0 <= j < |schemas| && j != i :: (schemas[j], v);
      var m := AllRejected(re, root, others);
      var k: nat :| Sure(re, root, schemas[i], v, k);
      var n := if m < k then k else m;
      DeepEnough(re, root, schemas[i], v, k, n);
      forall j | 0 <= j < |schemas| && j != i
        ensures !May(re, root, schemas[j], v, n)
      {
        assert (schemas[j], v) in others;
        DeepEnough(re, root, schemas[j], v, m, n);
      }
      assert SureOfOne(re, root, schemas, v, n);
    }
  }

  lemma OneOfRejects(re: Regex, root: Fields, schemas: seq<Fields>, v: Json)
    ensures (exists n: nat :: !MayBeOne(re, root, schemas, v, n)) <==>
      || (forall c <- schemas :: Rejects(re, root, c, v))
      || (exists i, j :: 0 <= i < j < |schemas| && Accepts(re, root, schemas[i], v) && Accepts(re, root, schemas[j], v))
  {
    hide Sure, May;
    if n: nat :| !MayBeOne(re, root, schemas, v, n) {
      NotOne(re, root, schemas, v, n);
    }
    if forall c <- schemas :: Rejects(re, root, c, v) {
      var pairs := set c <- schemas :: (c, v);
      var n := AllRejected(re, root, pairs);
      assert forall i :: 0 <= i < |schemas| ==> (schemas[i], v) in pairs;
      assert !MayBeOne(re, root, schemas, v, n);
    }
    if i, j :| 0 <= i < j < |schemas| && Accepts(re, root, schemas[i], v) && Accepts(re, root, schemas[j], v) {
      var pairs := {(schemas[i], v), (schemas[j], v)};
      var n := AllAccepted(re, root, pairs);
      assert (schemas[i], v) in pairs && (schemas[j], v) in pairs;
      assert !MayBeOne(re, root, schemas, v, n);
    }
  }

  /** If no schema can be the only one, all are ruled out or two are sure. */
  lemma NotOne(re: Regex, root: Fields, schemas: seq<Fields>, v: Json, n: nat)
    requires !MayBeOne(re, root, schemas, v, n)
    ensures (forall c <- schemas :: Rejects(re, root, c, v))
      || exists i, j :: 0 <= i < j < |schemas| && Accepts(re, root, schemas[i], v) && Accepts(re, root, schemas[j], v)
  {
    hide Sure, May;
    if i :| 0 <= i < |schemas| && Sure(re, root, schemas[i], v, n) {
      LookingDeeper(re, root, schemas[i], v, n);
      var j :| 0 <= j < |schemas| && j != i && Sure(re, root, schemas[j], v, n);
      assert Accepts(re, root, schemas[i], v) && Accepts(re, root, schemas[j], v);
      if i < j {
      } else {
        assert j < i;
      }
    } else {
      forall i | 0 <= i < |schemas|
        ensures Rejects(re, root, schemas[i], v)
      {
        assert !May(re, root, schemas[i], v, n);
      }
    }
  }

  // ---------------------------------------------------------------- a schema is its keywords

  /** The two keywords that belong together. */
  predicate Paired(keyword: string) { keyword == "properties" || keyword == "additionalProperties" }

  /** One keyword of a schema, with the one it belongs to. */
  function Only(s: Fields, keyword: string): Fields {
    map k | k in s && (k == keyword || (Paired(k) && Paired(keyword))) :: s[k]
  }

  ghost predicate PartOf(part: Fields, s: Fields) {
    (forall k <- part :: k in s && part[k] == s[k])
    && ("properties" in part && "additionalProperties" in s ==> "additionalProperties" in part)
  }

  lemma OnlyIsPart(s: Fields, keyword: string)
    requires keyword in s
    ensures PartOf(Only(s, keyword), s) && keyword in Only(s, keyword)
  {
  }

  lemma PartLocal(re: Regex, root: Fields, part: Fields, s: Fields, v: Json)
    requires PartOf(part, s) && Local(re, root, s, v)
    ensures Local(re, root, part, v)
  {
    hide Resolve, ValueEqual, MatchesType;
  }

  lemma PartChildren(part: Fields, s: Fields, keyword: string)
    requires PartOf(part, s)
    ensures Children(part, keyword) == if keyword in part then Children(s, keyword) else []
  {
  }

  /** Whatever a schema accepts, each part of it accepts. */
  lemma PartRules(re: Regex, root: Fields, part: Fields, s: Fields, v: Json, yes: Sub, may: Sub)
    requires PartOf(part, s) && Rules(re, root, s, v, yes, may)
    ensures Rules(re, root, part, v, yes, may)
  {
    PartLocal(re, root, part, s, v);
    PartChildren(part, s, "allOf");
    PartChildren(part, s, "anyOf");
    PartChildren(part, s, "oneOf");
    hide Local, Resolve, Holds, OnlyAt, Children;
  }

  /** A keyword that is there is in the part it makes. */
  lemma Made(s: Fields, keyword: string)
    ensures keyword in s ==> keyword in Only(s, keyword) && Only(s, keyword)[keyword] == s[keyword]
    ensures Paired(keyword) && keyword in s ==>
      ("additionalProperties" in Only(s, keyword) <==> "additionalProperties" in s)
      && ("additionalProperties" in s ==> Only(s, keyword)["additionalProperties"] == s["additionalProperties"])
  {
  }

  lemma MadeChildren(s: Fields, keyword: string)
    ensures if keyword in s then keyword in Only(s, keyword) && Children(Only(s, keyword), keyword) == Children(s, keyword)
      else Children(s, keyword) == []
  {
    hide Only;
    Made(s, keyword);
  }

  lemma WholeRequirements(re: Regex, root: Fields, s: Fields, v: Json)
    requires forall k <- s :: Local(re, root, Only(s, k), v)
    ensures ("type" in s ==> MatchesType(s["type"], v)) && RequiredOk(s, v) && ConstOk(s, v)
  {
    hide Resolve, ValueEqual, MatchesType, Only, ArrayOk, StringOk, NumberOk, ShapeOk, NothingAdditional;
    Made(s, "type");
    Made(s, "required");
    Made(s, "const");
    Made(s, "enum");
  }

  lemma WholeArray(re: Regex, root: Fields, s: Fields, v: Json)
    requires forall k <- s :: Local(re, root, Only(s, k), v)
    ensures ArrayOk(s, v)
  {
    hide MatchesType, RequiredOk, ConstOk, Only, StringOk, NumberOk, ShapeOk, NothingAdditional;
    Made(s, "minItems");
    Made(s, "maxItems");
    Made(s, "uniqueItems");
  }

  lemma WholeString(re: Regex, root: Fields, s: Fields, v: Json)
    requires forall k <- s :: Local(re, root, Only(s, k), v)
    ensures StringOk(re, s, v)
  {
    hide MatchesType, RequiredOk, ConstOk, Only, ArrayOk, NumberOk, ShapeOk, NothingAdditional;
    Made(s, "minLength");
    Made(s, "maxLength");
    Made(s, "pattern");
  }

  lemma WholeNumber(re: Regex, root: Fields, s: Fields, v: Json)
    requires forall k <- s :: Local(re, root, Only(s, k), v)
    ensures NumberOk(s, v)
  {
    hide MatchesType, RequiredOk, ConstOk, Only, ArrayOk, StringOk, ShapeOk, NothingAdditional;
    Made(s, "minimum");
    Made(s, "maximum");
  }

  lemma WholeShape(re: Regex, root: Fields, s: Fields, v: Json)
    requires forall k <- s :: Local(re, root, Only(s, k), v)
    ensures ShapeOk(root, s, v) && NothingAdditional(s, v)
  {
    hide Resolve, MatchesType, RequiredOk, ConstOk, Only, ArrayOk, StringOk, NumberOk;
    Made(s, "$ref");
    Made(s, "properties");
    Made(s, "items");
    forall k | k in ["allOf", "anyOf", "oneOf"] && k in s
      ensures s[k].Arr? && forall c <- s[k].items :: c.Obj?
    {
      Made(s, k);
      assert ShapeOk(root, Only(s, k), v);
    }
  }

  lemma WholeLocal(re: Regex, root: Fields, s: Fields, v: Json)
    requires forall k <- s :: Local(re, root, Only(s, k), v)
    ensures Local(re, root, s, v)
  {
    WholeRequirements(re, root, s, v);
    WholeArray(re, root, s, v);
    WholeString(re, root, s, v);
    WholeNumber(re, root, s, v);
    WholeShape(re, root, s, v);
    hide MatchesType, RequiredOk, ConstOk, Only, ArrayOk, StringOk, NumberOk, ShapeOk, NothingAdditional;
  }

  lemma WholeReferred(re: Regex, root: Fields, s: Fields, v: Json, yes: Sub, may: Sub)
    requires forall k <- s :: Rules(re, root, Only(s, k), v, yes, may)
    ensures Referred(root, s, v, yes) && Items(s, v, yes) && Not(s, v, may) && Properties(s, v, yes)
  {
    hide Local, Resolve, Only, AllOf, AnyOf, OneOf;
    Made(s, "$ref");
    Made(s, "items");
    Made(s, "not");
    Made(s, "properties");
  }

  lemma WholeCombinations(re: Regex, root: Fields, s: Fields, v: Json, yes: Sub, may: Sub)
    requires forall k <- s :: Rules(re, root, Only(s, k), v, yes, may)
    ensures AllOf(s, v, yes) && AnyOf(s, v, yes) && OneOf(s, v, yes, may)
  {
    hide Local, Resolve, Only, Referred, Properties, Items, Not, Holds, OnlyAt, Children;
    MadeChildren(s, "allOf");
    MadeChildren(s, "anyOf");
    MadeChildren(s, "oneOf");
  }

  lemma WholeRules(re: Regex, root: Fields, s: Fields, v: Json, yes: Sub, may: Sub)
    requires forall k <- s :: Rules(re, root, Only(s, k), v, yes, may)
    ensures Rules(re, root, s, v, yes, may)
  {
    WholeReferred(re, root, s, v, yes, may);
    WholeCombinations(re, root, s, v, yes, may);
    hide Only, Referred, Properties, Items, AllOf, AnyOf, OneOf, Not;
    assert forall k <- s :: Local(re, root, Only(s, k), v);
    WholeLocal(re, root, s, v);
  }

  /** The rules hold of a schema exactly if they hold of each of its keywords. */
  lemma PartsRule(re: Regex, root: Fields, s: Fields, v: Json, yes: Sub, may: Sub)
    ensures Rules(re, root, s, v, yes, may) <==> forall k <- s :: Rules(re, root, Only(s, k), v, yes, may)
  {
    hide Rules, Only;
    if Rules(re, root, s, v, yes, may) {
      forall k | k in s
        ensures Rules(re, root, Only(s, k), v, yes, may)
      {
        OnlyIsPart(s, k);
        PartRules(re, root, Only(s, k), s, v, yes, may);
      }
    }
    if forall k <- s :: Rules(re, root, Only(s, k), v, yes, may) {
      WholeRules(re, root, s, v, yes, may);
    }
  }

  lemma PartsSettle(re: Regex, root: Fields, s: Fields, v: Json, n: nat)
    ensures Sure(re, root, s, v, n + 1) <==> forall k <- s :: Sure(re, root, Only(s, k), v, n + 1)
    ensures May(re, root, s, v, n + 1) <==> forall k <- s :: May(re, root, Only(s, k), v, n + 1)
  {
    hide Rules, Only, Sure, May;
    PartsRule(re, root, s, v, SureAt(re, root, n), MayAt(re, root, n));
    PartsRule(re, root, s, v, MayAt(re, root, n), SureAt(re, root, n));
    OneLevel(re, root, s, v, n);
    forall k | k in s
      ensures Sure(re, root, Only(s, k), v, n + 1) <==> Rules(re, root, Only(s, k), v, SureAt(re, root, n), MayAt(re, root, n))
      ensures May(re, root, Only(s, k), v, n + 1) <==> Rules(re, root, Only(s, k), v, MayAt(re, root, n), SureAt(re, root, n))
    {
      OneLevel(re, root, Only(s, k), v, n);
    }
  }

  function Parts(s: Fields, v: Json): Pairs { set k <- s :: (Only(s, k), v) }

  lemma PartsAre(re: Regex, root: Fields, s: Fields, v: Json, n: nat)
    ensures AllSure(re, root, Parts(s, v), n) <==> forall k <- s :: Sure(re, root, Only(s, k), v, n)
    ensures SomeRuledOut(re, root, Parts(s, v), n) <==> exists k <- s :: !May(re, root, Only(s, k), v, n)
  {
    hide Sure, May, Only;
    assert forall k <- s :: (Only(s, k), v) in Parts(s, v);
  }

  lemma PartsMean(re: Regex, root: Fields, s: Fields, v: Json)
    ensures (forall p <- Parts(s, v) :: Accepts(re, root, p.0, p.1)) <==> forall k <- s :: Accepts(re, root, Only(s, k), v)
    ensures (exists p <- Parts(s, v) :: Rejects(re, root, p.0, p.1)) <==> exists k <- s :: Rejects(re, root, Only(s, k), v)
  {
    hide Accepts, Rejects, Only;
    assert forall k <- s :: (Only(s, k), v) in Parts(s, v);
  }

  /** A schema accepts exactly what each of its keywords accepts by itself, and rejects exactly what one of
      them rejects. */
  lemma KeywordsDecideAlone(re: Regex, root: Fields, s: Fields, v: Json)
    ensures Accepts(re, root, s, v) <==> forall k <- s :: Accepts(re, root, Only(s, k), v)
    ensures Rejects(re, root, s, v) <==> exists k <- s :: Rejects(re, root, Only(s, k), v)
  {
    hide Sure, May, Only, Accepts, Rejects, AllSure, SomeRuledOut, Parts;
    var pairs := Parts(s, v);
    var yes, no := (n: nat) => AllSure(re, root, pairs, n + 1), (n: nat) => SomeRuledOut(re, root, pairs, n + 1);
    forall n: nat
      ensures yes(n) <==> Sure(re, root, s, v, n + 1)
      ensures no(n) <==> !May(re, root, s, v, n + 1)
    {
      PartsSettle(re, root, s, v, n);
      PartsAre(re, root, s, v, n + 1);
    }
    Shifted(re, root, s, v, yes, no);
    AllMean(re, root, pairs);
    SomeMean(re, root, pairs);
    PartsMean(re, root, s, v);
    if n: nat :| AllSure(re, root, pairs, n) {
      DeeperStill(re, root, pairs, n);
      assert yes(n);
    }
    if n: nat :| SomeRuledOut(re, root, pairs, n) {
      DeeperStill(re, root, pairs, n);
      assert no(n);
    }
  }

  lemma DeeperStill(re: Regex, root: Fields, pairs: Pairs, n: nat)
    ensures AllSure(re, root, pairs, n) ==> AllSure(re, root, pairs, n + 1)
    ensures SomeRuledOut(re, root, pairs, n) ==> SomeRuledOut(re, root, pairs, n + 1)
  {
    hide Sure, May;
    forall p | p in pairs
      ensures Sure(re, root, p.0, p.1, n) ==> Sure(re, root, p.0, p.1, n + 1)
      ensures !May(re, root, p.0, p.1, n) ==> !May(re, root, p.0, p.1, n + 1)
    {
      DeepEnough(re, root, p.0, p.1, n, n + 1);
    }
  }
}
