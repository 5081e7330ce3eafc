/** The JSON Schema subset of the plugin registry, and what its depth limit does to it.

    The evaluator gives up below 64 nested evaluations, counting every reference, and treats giving up
    as a rejection.  It is measured here against a meaning without a limit: what is surely accepted, and
    what may be accepted, when only so many levels are looked at.  Regular expressions and the parsing of
    numbers are parameters. */
module Schema {
  import opened Wrappers
  import opened Text

  /** A number as Go sees it: its text and dynamic type, and the values it converts to. */
  datatype Number = Number(text: string, asInt: Option<int>, asFloat: Option<real>, integral: bool, finite: bool)

  datatype Json =
    | Null
    | Bool(b: bool)
    | Num(n: Number)
    | Str(s: string)
    | Arr(items: seq<Json>)
    | Obj(fields: map<string, Json>)

  type Fields = map<string, Json>

  /** Does a pattern match a string; None if the pattern is malformed. */
  type Regex = (string, string) -> Option<bool>

  const MAX_DEPTH: nat := 64

  // ---------------------------------------------------------------- checks without recursion

  function AsInt(v: Json): Option<int> { if v.Num? then v.n.asInt else None }

  function AsFloat(v: Json): Option<real> { if v.Num? then v.n.asFloat else None }

  predicate TypeMatches(name: string, v: Json) {
    if name == "object" then v.Obj?
    else if name == "array" then v.Arr?
    else if name == "string" then v.Str?
    else if name == "integer" then v.Num? && v.n.integral
    else if name == "number" then v.Num? && v.n.finite
    else if name == "boolean" then v.Bool?
    else if name == "null" then v.Null?
    else true
  }

  predicate MatchesType(raw: Json, v: Json) {
    match raw
    case Str(name) => TypeMatches(name, v)
    case Arr(names) => exists t <- names :: t.Str? && TypeMatches(t.s, v)
    case _ => true
  }

  predicate ValueEqual(a: Json, b: Json) {
    if AsInt(a).Some? && AsInt(b).Some? then AsInt(a) == AsInt(b)
    else if AsFloat(a).Some? && AsFloat(b).Some? then AsFloat(a) == AsFloat(b)
    else a == b
  }

  predicate AtLeast(s: Fields, keyword: string, n: int) {
    keyword in s && AsInt(s[keyword]).Some? ==> AsInt(s[keyword]).value <= n
  }

  predicate AtMost(s: Fields, keyword: string, n: int) {
    keyword in s && AsInt(s[keyword]).Some? ==> n <= AsInt(s[keyword]).value
  }

  /** Required properties demand an object even when none is listed. */
  predicate RequiredOk(s: Fields, v: Json) {
    "required" in s ==>
      v.Obj? && (s["required"].Arr? ==> forall name <- s["required"].items :: name.Str? ==> name.s in v.fields)
  }

  predicate ConstOk(s: Fields, v: Json) {
    && ("const" in s ==> ValueEqual(v, s["const"]))
    && ("enum" in s ==> s["enum"].Arr? && exists c <- s["enum"].items :: ValueEqual(v, c))
  }

  predicate ArrayOk(s: Fields, v: Json) {
    v.Arr? ==>
      && AtLeast(s, "minItems", |v.items|) && AtMost(s, "maxItems", |v.items|)
      && ("uniqueItems" in s && s["uniqueItems"] == Bool(true) ==>
            forall i, j :: 0 <= i < j < |v.items| ==> v.items[i] != v.items[j])
  }

  predicate StringOk(re: Regex, s: Fields, v: Json) {
    v.Str? ==>
      && AtLeast(s, "minLength", |v.s|) && AtMost(s, "maxLength", |v.s|)
      && ("pattern" in s ==> s["pattern"].Str? && re(s["pattern"].s, v.s) == Some(true))
  }

  predicate NumberOk(s: Fields, v: Json) {
    AsFloat(v).Some? ==>
      && ("minimum" in s && AsFloat(s["minimum"]).Some? ==> AsFloat(s["minimum"]).value <= AsFloat(v).value)
      && ("maximum" in s && AsFloat(s["maximum"]).Some? ==> AsFloat(v).value <= AsFloat(s["maximum"]).value)
  }

  /** The shapes of keywords that hold schemas. */
  predicate ShapeOk(root: Fields, s: Fields, v: Json) {
    && ("$ref" in s ==> s["$ref"].Str? && Resolve(root, s["$ref"].s).Some?)
    && ("properties" in s ==> s["properties"].Obj?)
    && ("properties" in s && v.Obj? && "additionalProperties" in s ==>
          s["additionalProperties"].Bool? || s["additionalProperties"].Obj?)
    && ("items" in s ==> s["items"].Obj? && v.Arr?)
    && (forall k <- ["allOf", "anyOf", "oneOf"] :: k in s ==> s[k].Arr? && forall c <- s[k].items :: c.Obj?)
  }

  /** Everything about a schema and a value that needs no other evaluation. */
  predicate Local(re: Regex, root: Fields, s: Fields, v: Json) {
    && ("type" in s ==> MatchesType(s["type"], v))
    && RequiredOk(s, v) && ConstOk(s, v) && ArrayOk(s, v) && StringOk(re, s, v) && NumberOk(s, v)
    && ShapeOk(root, s, v)
    && NothingAdditional(s, v)
  }

  predicate NothingAdditional(s: Fields, v: Json) {
    "properties" in s && s["properties"].Obj? && v.Obj?
    && "additionalProperties" in s && s["additionalProperties"] == Bool(false) ==>
      v.fields.Keys <= s["properties"].fields.Keys
  }

  // ---------------------------------------------------------------- references

  function Unescape(part: string, code: char, plain: char): string {
    if |part| < 2 then part
    else if part[0] == '~' && part[1] == code then [plain] + Unescape(part[2..], code, plain)
    else [part[0]] + Unescape(part[1..], code, plain)
  }

  function Walk(current: Json, parts: seq<string>): Option<Json> {
    if parts == [] then Some(current)
    else
      var part := Unescape(Unescape(parts[0], '1', '/'), '0', '~');
      if current.Obj? && part in current.fields then Walk(current.fields[part], parts[1..]) else None
  }

  /** Local references only. */
  function Resolve(root: Fields, ref: string): Option<Fields> {
    if ref == "#" then Some(root)
    else if |ref| < 2 || ref[..2] != "#/" then None
    else
      var target := Walk(Obj(root), Split(ref[2..], '/'));
      if target.Some? && target.value.Obj? then Some(target.value.fields) else None
  }

  // ---------------------------------------------------------------- the rules

  /** An evaluation of a schema against a value. */
  type Sub = (Fields, Json) -> bool

  predicate Referred(root: Fields, s: Fields, v: Json, yes: Sub) {
    "$ref" in s && s["$ref"].Str? && Resolve(root, s["$ref"].s).Some? ==> yes(Resolve(root, s["$ref"].s).value, v)
  }

  predicate Properties(s: Fields, v: Json, yes: Sub) {
    "properties" in s && s["properties"].Obj? && v.Obj? ==>
      var props := s["properties"].fields;
      && (forall name <- props :: props[name].Obj? && name in v.fields ==> yes(props[name].fields, v.fields[name]))
      && ("additionalProperties" in s && s["additionalProperties"].Obj? ==>
            forall name <- v.fields :: name !in props ==> yes(s["additionalProperties"].fields, v.fields[name]))
  }

  predicate Items(s: Fields, v: Json, yes: Sub) {
    "items" in s && s["items"].Obj? && v.Arr? ==> forall item <- v.items :: yes(s["items"].fields, item)
  }

  function Children(s: Fields, keyword: string): seq<Json> {
    if keyword in s && s[keyword].Arr? then s[keyword].items else []
  }

  predicate Holds(child: Json, v: Json, f: Sub) { child.Obj? && f(child.fields, v) }

  predicate AllOf(s: Fields, v: Json, yes: Sub) {
    forall c <- Children(s, "allOf") :: Holds(c, v, yes)
  }

  predicate AnyOf(s: Fields, v: Json, yes: Sub) {
    "anyOf" in s ==> exists c <- Children(s, "anyOf") :: Holds(c, v, yes)
  }

  /** One alternative holds, and no other may. */
  predicate OnlyAt(children: seq<Json>, v: Json, yes: Sub, may: Sub, i: int) {
    0 <= i < |children| && Holds(children[i], v, yes)
    && forall j :: 0 <= j < |children| && j != i ==> !Holds(children[j], v, may)
  }

  predicate OneOf(s: Fields, v: Json, yes: Sub, may: Sub) {
    "oneOf" in s ==> exists i :: 0 <= i < |Children(s, "oneOf")| && OnlyAt(Children(s, "oneOf"), v, yes, may, i)
  }

  predicate Not(s: Fields, v: Json, may: Sub) {
    "not" in s && s["not"].Obj? ==> !may(s["not"].fields, v)
  }

  /** One evaluation, given what holds and what may hold one level down. */
  predicate Rules(re: Regex, root: Fields, s: Fields, v: Json, yes: Sub, may: Sub) {
    && Local(re, root, s, v)
    && Referred(root, s, v, yes) && Properties(s, v, yes) && Items(s, v, yes)
    && AllOf(s, v, yes) && AnyOf(s, v, yes) && OneOf(s, v, yes, may) && Not(s, v, may)
  }

  /** The verdict of the evaluator at a depth: too deep is a rejection. */
  predicate Verdict(re: Regex, root: Fields, s: Fields, v: Json, depth: nat)
    decreases MAX_DEPTH + 1 - depth
  {
    depth <= MAX_DEPTH && Rules(re, root, s, v, Deeper(re, root, depth), Deeper(re, root, depth))
  }

  function Deeper(re: Regex, root: Fields, depth: nat): Sub
    requires depth <= MAX_DEPTH
    decreases MAX_DEPTH + 1 - depth, 0
  {
    (s, v) => Verdict(re, root, s, v, depth + 1)
  }

  /** Looking `n` levels deep is enough to see that the schema accepts the value. */
  predicate Sure(re: Regex, root: Fields, s: Fields, v: Json, n: nat)
    decreases n, 0
  {
    n > 0 && Rules(re, root, s, v, SureAt(re, root, n - 1), MayAt(re, root, n - 1))
  }

  /** Looking `n` levels deep is not enough to see that the schema rejects the value. */
  predicate May(re: Regex, root: Fields, s: Fields, v: Json, n: nat)
    decreases n, 0
  {
    n > 0 ==> Rules(re, root, s, v, MayAt(re, root, n - 1), SureAt(re, root, n - 1))
  }

  function SureAt(re: Regex, root: Fields, n: nat): Sub
    decreases n, 1
  {
    (s, v) => Sure(re, root, s, v, n)
  }

  function MayAt(re: Regex, root: Fields, n: nat): Sub
    decreases n, 1
  {
    (s, v) => May(re, root, s, v, n)
  }

  // ---------------------------------------------------------------- the limit and the meaning

  /** Evaluating `s` against `v` may ask for `s'` against `v'`. */
  ghost predicate Calls(root: Fields, s: Fields, v: Json, s': Fields, v': Json) {
    || ("$ref" in s && s["$ref"].Str? && Resolve(root, s["$ref"].s) == Some(s') && v' == v)
    || ("properties" in s && s["properties"].Obj? && v.Obj?
        && exists name <- v.fields :: v' == v.fields[name]
             && ((name in s["properties"].fields && s["properties"].fields[name] == Obj(s'))
                 || ("additionalProperties" in s && s["additionalProperties"] == Obj(s') && name !in s["properties"].fields)))
    || ("items" in s && s["items"] == Obj(s') && v.Arr? && v' in v.items)
    || (v' == v && (Obj(s') in Children(s, "allOf") || Obj(s') in Children(s, "anyOf") || Obj(s') in Children(s, "oneOf")))
    || (v' == v && "not" in s && s["not"] == Obj(s'))
  }

  /** On everything the evaluation may ask for, more holds and less may hold. */
  ghost predicate Refines(root: Fields, s: Fields, v: Json, yes: Sub, may: Sub, yes': Sub, may': Sub) {
    forall s': Fields, v': Json :: Calls(root, s, v, s', v') ==>
      (yes(s', v') ==> yes'(s', v')) && (may'(s', v') ==> may(s', v'))
  }

  lemma ReferredMonotone(root: Fields, s: Fields, v: Json, yes: Sub, may: Sub, yes': Sub, may': Sub)
    requires Refines(root, s, v, yes, may, yes', may')
    ensures Referred(root, s, v, yes) ==> Referred(root, s, v, yes')
    ensures Not(s, v, may) ==> Not(s, v, may')
    ensures Items(s, v, yes) ==> Items(s, v, yes')
  {
    hide Resolve, Children;
    if "$ref" in s && s["$ref"].Str? && Resolve(root, s["$ref"].s).Some? {
      assert Calls(root, s, v, Resolve(root, s["$ref"].s).value, v);
    }
    if "not" in s && s["not"].Obj? {
      assert Calls(root, s, v, s["not"].fields, v);
    }
  }

  lemma PropertiesMonotone(root: Fields, s: Fields, v: Json, yes: Sub, may: Sub, yes': Sub, may': Sub)
    requires Refines(root, s, v, yes, may, yes', may') && Properties(s, v, yes)
    ensures Properties(s, v, yes')
  {
    hide Resolve, Children;
    if "properties" in s && s["properties"].Obj? && v.Obj? {
      var props := s["properties"].fields;
      forall name | name in props && props[name].Obj? && name in v.fields
        ensures yes'(props[name].fields, v.fields[name])
      {
        assert Calls(root, s, v, props[name].fields, v.fields[name]);
      }
      forall name | "additionalProperties" in s && s["additionalProperties"].Obj? && name in v.fields && name !in props
        ensures yes'(s["additionalProperties"].fields, v.fields[name])
      {
        assert Calls(root, s, v, s["additionalProperties"].fields, v.fields[name]);
      }
    }
  }

  lemma ChildrenMonotone(root: Fields, s: Fields, v: Json, yes: Sub, may: Sub, yes': Sub, may': Sub, keyword: string)
    requires keyword == "allOf" || keyword == "anyOf" || keyword == "oneOf"
    requires Refines(root, s, v, yes, may, yes', may')
    ensures forall c <- Children(s, keyword) :: Holds(c, v, yes) ==> Holds(c, v, yes')
    ensures forall c <- Children(s, keyword) :: Holds(c, v, may') ==> Holds(c, v, may)
  {
    hide Resolve, Children;
    forall c | c in Children(s, keyword) && c.Obj?
      ensures yes(c.fields, v) ==> yes'(c.fields, v)
      ensures may'(c.fields, v) ==> may(c.fields, v)
    {
      assert Calls(root, s, v, c.fields, v);
    }
  }

  lemma OneOfMonotone(s: Fields, v: Json, yes: Sub, may: Sub, yes': Sub, may': Sub)
    requires forall c <- Children(s, "oneOf") :: Holds(c, v, yes) ==> Holds(c, v, yes')
    requires forall c <- Children(s, "oneOf") :: Holds(c, v, may') ==> Holds(c, v, may)
    requires OneOf(s, v, yes, may)
    ensures OneOf(s, v, yes', may')
  {
    hide Holds, Children;
    if "oneOf" in s {
      var children := Children(s, "oneOf");
      var i :| 0 <= i < |children| && OnlyAt(children, v, yes, may, i);
      assert OnlyAt(children, v, yes', may', i);
    }
  }

  /** The rules look at nothing but the calls, and accept more when more of them hold, and when fewer may
      hold under `not` and beside a match of `oneOf`. */
  lemma RulesMonotone(re: Regex, root: Fields, s: Fields, v: Json, yes: Sub, may: Sub, yes': Sub, may': Sub)
    requires Refines(root, s, v, yes, may, yes', may') && Rules(re, root, s, v, yes, may)
    ensures Rules(re, root, s, v, yes', may')
  {
    hide Local, Referred, Properties, Items, OneOf, Not, Holds, Children, Refines;
    ReferredMonotone(root, s, v, yes, may, yes', may');
    PropertiesMonotone(root, s, v, yes, may, yes', may');
    ChildrenMonotone(root, s, v, yes, may, yes', may', "allOf");
    ChildrenMonotone(root, s, v, yes, may, yes', may', "anyOf");
    ChildrenMonotone(root, s, v, yes, may, yes', may', "oneOf");
    OneOfMonotone(s, v, yes, may, yes', may');
  }

  /** What is sure may be; and looking deeper can only settle more. */
  lemma {:induction false} LookingDeeper(re: Regex, root: Fields, s: Fields, v: Json, n: nat)
    ensures Sure(re, root, s, v, n) ==> May(re, root, s, v, n)
    ensures Sure(re, root, s, v, n) ==> Sure(re, root, s, v, n + 1)
    ensures May(re, root, s, v, n + 1) ==> May(re, root, s, v, n)
    decreases n
  {
    hide Rules, Calls;
    if n > 0 {
      var sure, may, sure', may' := SureAt(re, root, n - 1), MayAt(re, root, n - 1), SureAt(re, root, n), MayAt(re, root, n);
      forall s', v'
        ensures (sure(s', v') ==> may(s', v')) && (sure(s', v') ==> sure'(s', v')) && (may'(s', v') ==> may(s', v'))
      {
        LookingDeeper(re, root, s', v', n - 1);
      }
      if Sure(re, root, s, v, n) {
        RulesMonotone(re, root, s, v, sure, may, may, sure);
        RulesMonotone(re, root, s, v, sure, may, sure', may');
      }
      if May(re, root, s, v, n + 1) {
        RulesMonotone(re, root, s, v, may', sure', may, sure);
      }
    }
  }

  /** The limited evaluator stays between what is sure and what may be within its levels. */
  lemma {:induction false} VerdictBetween(re: Regex, root: Fields, s: Fields, v: Json, depth: nat)
    requires depth <= MAX_DEPTH + 1
    ensures Sure(re, root, s, v, MAX_DEPTH + 1 - depth) ==> Verdict(re, root, s, v, depth)
    ensures Verdict(re, root, s, v, depth) ==> May(re, root, s, v, MAX_DEPTH + 1 - depth)
    decreases MAX_DEPTH + 1 - depth
  {
    hide Rules, Calls;
    if depth <= MAX_DEPTH {
      var n: nat := MAX_DEPTH - depth;
      var sure, may, f := SureAt(re, root, n), MayAt(re, root, n), Deeper(re, root, depth);
      forall s', v'
        ensures (sure(s', v') ==> f(s', v')) && (f(s', v') ==> may(s', v'))
      {
        VerdictBetween(re, root, s', v', depth + 1);
      }
      if Sure(re, root, s, v, n + 1) {
        RulesMonotone(re, root, s, v, sure, may, f, f);
      }
      if Verdict(re, root, s, v, depth) {
        RulesMonotone(re, root, s, v, f, f, may, sure);
      }
    }
  }

  /** The meaning of a schema, without any limit. */
  ghost predicate Accepts(re: Regex, root: Fields, s: Fields, v: Json) {
    exists n: nat :: Sure(re, root, s, v, n)
  }

  ghost predicate Rejects(re: Regex, root: Fields, s: Fields, v: Json) {
    exists n: nat :: !May(re, root, s, v, n)
  }

  lemma {:induction false} DeepEnough(re: Regex, root: Fields, s: Fields, v: Json, n: nat, m: nat)
    requires n <= m
    ensures Sure(re, root, s, v, n) ==> Sure(re, root, s, v, m)
    ensures May(re, root, s, v, m) ==> May(re, root, s, v, n)
    decreases m
  {
    hide Sure, May;
    if n < m {
      DeepEnough(re, root, s, v, n, m - 1);
      LookingDeeper(re, root, s, v, m - 1);
    }
  }

  /** No schema both accepts and rejects a value. */
  lemma MeaningConsistent(re: Regex, root: Fields, s: Fields, v: Json)
    ensures !(Accepts(re, root, s, v) && Rejects(re, root, s, v))
  {
    hide Sure, May;
    if Accepts(re, root, s, v) && Rejects(re, root, s, v) {
      var n: nat :| Sure(re, root, s, v, n);
      var m: nat :| !May(re, root, s, v, m);
      var k := if n < m then m else n;
      DeepEnough(re, root, s, v, n, k);
      DeepEnough(re, root, s, v, m, k);
      LookingDeeper(re, root, s, v, k);
    }
  }

  /** Whenever the levels within the limit settle the matter, the evaluator gives the meaning. */
  lemma LimitedEvaluatorIsRight(re: Regex, root: Fields, s: Fields, v: Json)
    requires Sure(re, root, s, v, MAX_DEPTH + 1) || !May(re, root, s, v, MAX_DEPTH + 1)
    ensures Verdict(re, root, s, v, 0) <==> Accepts(re, root, s, v)
    ensures !Verdict(re, root, s, v, 0) <==> Rejects(re, root, s, v)
  {
    hide Sure, May, Verdict;
    VerdictBetween(re, root, s, v, 0);
    MeaningConsistent(re, root, s, v);
  }

  // ---------------------------------------------------------------- evaluations that stay within the limit

  /** All evaluations below `s` and `v` end within `n` levels. */
  ghost predicate Shallow(root: Fields, s: Fields, v: Json, n: nat)
    decreases n
  {
    n > 0 && forall s': Fields, v': Json :: Calls(root, s, v, s', v') ==> Shallow(root, s', v', n - 1)
  }

  lemma {:induction false} ShallowIsSettled(re: Regex, root: Fields, s: Fields, v: Json, n: nat)
    requires Shallow(root, s, v, n)
    ensures Sure(re, root, s, v, n) <==> May(re, root, s, v, n)
    decreases n
  {
    hide Rules, Calls;
    var sure, may := SureAt(re, root, n - 1), MayAt(re, root, n - 1);
    forall s', v' | Calls(root, s, v, s', v')
      ensures sure(s', v') <==> may(s', v')
    {
      ShallowIsSettled(re, root, s', v', n - 1);
    }
    if Sure(re, root, s, v, n) {
      RulesMonotone(re, root, s, v, sure, may, may, sure);
    }
    if May(re, root, s, v, n) {
      RulesMonotone(re, root, s, v, may, sure, sure, may);
    }
  }

  /** If no branch runs into the limit, the evaluator gives the meaning. */
  lemma WithinTheLimit(re: Regex, root: Fields, s: Fields, v: Json)
    requires Shallow(root, s, v, MAX_DEPTH + 1)
    ensures Verdict(re, root, s, v, 0) <==> Accepts(re, root, s, v)
    ensures !Verdict(re, root, s, v, 0) <==> Rejects(re, root, s, v)
  {
    hide Sure, May, Verdict, Shallow;
    ShallowIsSettled(re, root, s, v, MAX_DEPTH + 1);
    LimitedEvaluatorIsRight(re, root, s, v);
  }

  // ---------------------------------------------------------------- schemas without negation

  predicate Plain(s: Fields) { ("not" in s ==> !s["not"].Obj?) && "oneOf" !in s }

  /** A family of schemas that is plain and refers only to itself. */
  ghost predicate Positive(root: Fields, family: iset<Fields>) {
    forall s <- family ::
      Plain(s) && forall v: Json, s': Fields, v': Json :: Calls(root, s, v, s', v') ==> s' in family
  }

  lemma PlainRules(re: Regex, root: Fields, s: Fields, v: Json, yes: Sub, may: Sub, may': Sub)
    requires Plain(s) && Rules(re, root, s, v, yes, may)
    ensures Rules(re, root, s, v, yes, may')
  {
    hide Local, Referred, Properties, Items, AllOf, AnyOf;
  }

  /** Without negation, what is accepted at one depth is accepted at every smaller one: the limit only
      ever makes such a schema stricter. */
  lemma {:induction false} AcceptedAbove(re: Regex, root: Fields, family: iset<Fields>, s: Fields, v: Json, depth: nat)
    requires Positive(root, family) && s in family && Verdict(re, root, s, v, depth + 1)
    ensures Verdict(re, root, s, v, depth)
    decreases MAX_DEPTH + 1 - depth
  {
    hide Rules, Calls;
    var f, g := Deeper(re, root, depth + 1), Deeper(re, root, depth);
    forall s', v' | Calls(root, s, v, s', v') && f(s', v')
      ensures g(s', v')
    {
      AcceptedAbove(re, root, family, s', v', depth + 1);
    }
    PlainRules(re, root, s, v, f, f, g);
    RulesMonotone(re, root, s, v, f, g, g, g);
  }

  lemma {:induction false} AcceptedEverywhereAbove(re: Regex, root: Fields, family: iset<Fields>, s: Fields, v: Json, low: nat, high: nat)
    requires Positive(root, family) && s in family && low <= high && Verdict(re, root, s, v, high)
    ensures Verdict(re, root, s, v, low)
    decreases high
  {
    hide Verdict, Positive;
    if low < high {
      AcceptedAbove(re, root, family, s, v, high - 1);
      AcceptedEverywhereAbove(re, root, family, s, v, low, high - 1);
    }
  }

  // ---------------------------------------------------------------- what the limit decides

  /** A schema that is nothing but a reference to itself has no meaning, and is always rejected. */
  lemma {:induction false} PureCycle(re: Regex, v: Json, n: nat, depth: nat)
    requires depth <= MAX_DEPTH + 1
    ensures var s: Fields := map["$ref" := Str("#")];
      && !Sure(re, s, s, v, n) && May(re, s, s, v, n)
      && !Verdict(re, s, s, v, depth)
    decreases n, MAX_DEPTH + 1 - depth
  {
    hide Rules;
    var s: Fields := map["$ref" := Str("#")];
    if depth <= MAX_DEPTH {
      PureCycle(re, v, n, depth + 1);
      OnlyRef(re, s, v, Deeper(re, s, depth), Deeper(re, s, depth));
    }
    if n > 0 {
      PureCycle(re, v, n - 1, depth);
      OnlyRef(re, s, v, SureAt(re, s, n - 1), MayAt(re, s, n - 1));
      OnlyRef(re, s, v, MayAt(re, s, n - 1), SureAt(re, s, n - 1));
    }
  }

  /** A schema that forbids itself has no meaning either, but it is accepted or rejected by nothing but its
      distance from the limit. */
  lemma {:induction false} SelfNegation(re: Regex, v: Json, n: nat, depth: nat)
    requires depth <= MAX_DEPTH + 1
    ensures var inner: Fields := map["$ref" := Str("#")];
      var s: Fields := map["not" := Obj(inner)];
      && !Sure(re, s, s, v, n) && May(re, s, s, v, n)
      && (Verdict(re, s, s, v, depth) <==> depth % 4 == 0 || depth % 4 == 3)
    decreases n, MAX_DEPTH + 1 - depth
  {
    var inner: Fields := map["$ref" := Str("#")];
    var s: Fields := map["not" := Obj(inner)];
    NegationUnfolds(re, s, inner, v, n, depth);
    hide Rules;
    if n >= 2 {
      SelfNegation(re, v, n - 2, depth);
    }
    if depth + 2 <= MAX_DEPTH + 1 {
      SelfNegation(re, v, n, depth + 2);
    }
  }

  lemma OnlyNot(re: Regex, root: Fields, inner: Fields, v: Json, yes: Sub, may: Sub)
    ensures Rules(re, root, map["not" := Obj(inner)], v, yes, may) <==> !may(inner, v)
  {
    var s: Fields := map["not" := Obj(inner)];
    assert forall k <- s :: k == "not";
    LocalUnlessKeyword(re, root, s, v);
    hide Local, Resolve;
  }

  /** Without any keyword that is checked locally every value passes. */
  lemma LocalUnlessKeyword(re: Regex, root: Fields, s: Fields, v: Json)
    requires forall k <- s :: k == "not"
    ensures Local(re, root, s, v)
    ensures "$ref" !in s && "properties" !in s && "items" !in s && "anyOf" !in s && "oneOf" !in s && Children(s, "allOf") == []
  {
    hide Resolve, ValueEqual, MatchesType;
  }

  lemma OnlyRef(re: Regex, root: Fields, v: Json, yes: Sub, may: Sub)
    ensures Rules(re, root, map["$ref" := Str("#")], v, yes, may) <==> yes(root, v)
  {
    assert Resolve(root, "#") == Some(root);
    hide Resolve, AtLeast, AtMost, ValueEqual, MatchesType;
  }

  lemma NegationUnfolds(re: Regex, s: Fields, inner: Fields, v: Json, n: nat, depth: nat)
    requires s == map["not" := Obj(inner)] && inner == map["$ref" := Str("#")]
    ensures n >= 2 ==> (Sure(re, s, s, v, n) <==> !May(re, s, s, v, n - 2)) && (May(re, s, s, v, n) <==> !Sure(re, s, s, v, n - 2))
    ensures n == 1 ==> !Sure(re, s, s, v, n) && May(re, s, s, v, n)
    ensures depth + 2 <= MAX_DEPTH + 1 ==> (Verdict(re, s, s, v, depth) <==> !Verdict(re, s, s, v, depth + 2))
    ensures depth == MAX_DEPTH ==> Verdict(re, s, s, v, depth)
    ensures depth == MAX_DEPTH + 1 ==> !Verdict(re, s, s, v, depth)
  {
    hide Rules;
    if n >= 1 {
      OnlyNot(re, s, inner, v, SureAt(re, s, n - 1), MayAt(re, s, n - 1));
      OnlyNot(re, s, inner, v, MayAt(re, s, n - 1), SureAt(re, s, n - 1));
      if n >= 2 {
        OnlyRef(re, s, v, SureAt(re, s, n - 2), MayAt(re, s, n - 2));
        OnlyRef(re, s, v, MayAt(re, s, n - 2), SureAt(re, s, n - 2));
        assert Sure(re, s, inner, v, n - 1) <==> Sure(re, s, s, v, n - 2);
        assert May(re, s, inner, v, n - 1) <==> May(re, s, s, v, n - 2);
      }
      assert Sure(re, s, s, v, n) <==> !May(re, s, inner, v, n - 1);
      assert May(re, s, s, v, n) <==> !Sure(re, s, inner, v, n - 1);
    }
    if depth <= MAX_DEPTH {
      OnlyNot(re, s, inner, v, Deeper(re, s, depth), Deeper(re, s, depth));
      assert Verdict(re, s, s, v, depth) <==> !Verdict(re, s, inner, v, depth + 1);
      if depth + 1 <= MAX_DEPTH {
        OnlyRef(re, s, v, Deeper(re, s, depth + 1), Deeper(re, s, depth + 1));
        assert Verdict(re, s, inner, v, depth + 1) <==> Verdict(re, s, s, v, depth + 2);
      }
    }
  }

  // ---------------------------------------------------------------- the evaluator

  function CountHolds(children: seq<Json>, v: Json, f: Sub): nat {
    if children == [] then 0
    else
      var n := |children| - 1;
      CountHolds(children[..n], v, f) + if Holds(children[n], v, f) then 1 else 0
  }

  lemma CountStep(children: seq<Json>, v: Json, f: Sub)
    ensures CountHolds([], v, f) == 0
    ensures children != [] ==>
      var n := |children| - 1;
      CountHolds(children, v, f) == CountHolds(children[..n], v, f) + if Holds(children[n], v, f) then 1 else 0
  {
    hide Holds;
  }

  lemma {:induction false} CountBounds(children: seq<Json>, v: Json, f: Sub)
    ensures CountHolds(children, v, f) <= |children|
    ensures CountHolds(children, v, f) == |children| <==> forall c <- children :: Holds(c, v, f)
    ensures CountHolds(children, v, f) == 0 <==> forall c <- children :: !Holds(c, v, f)
  {
    hide Holds, CountHolds;
    CountStep(children, v, f);
    if children != [] {
      var n := |children| - 1;
      var rest := children[..n];
      CountBounds(rest, v, f);
      assert children == rest + [children[n]];
      assert forall c :: c in children <==> c in rest || c == children[n];
    }
  }

  /** Counting one match is finding a match and no other. */
  lemma {:induction false} CountOne(children: seq<Json>, v: Json, f: Sub)
    ensures CountHolds(children, v, f) == 1 <==> exists i :: 0 <= i < |children| && OnlyAt(children, v, f, f, i)
  {
    hide Holds, CountHolds;
    CountStep(children, v, f);
    if children != [] {
      var n := |children| - 1;
      var rest := children[..n];
      CountOne(rest, v, f);
      CountBounds(rest, v, f);
      if CountHolds(children, v, f) == 1 {
        if Holds(children[n], v, f) {
          assert forall j :: 0 <= j < n ==> children[j] == rest[j] && rest[j] in rest;
          assert OnlyAt(children, v, f, f, n);
        } else {
          var i :| 0 <= i < n && OnlyAt(rest, v, f, f, i);
          assert OnlyAt(children, v, f, f, i);
        }
      }
      if exists i :: 0 <= i < |children| && OnlyAt(children, v, f, f, i) {
        var i :| 0 <= i < |children| && OnlyAt(children, v, f, f, i);
        if i == n {
          assert forall c <- rest :: !Holds(c, v, f);
        } else {
          assert OnlyAt(rest, v, f, f, i);
        }
      }
    }
  }

  /** The verdict of a combination of schemas, shapes included. */
  predicate CombinationOk(s: Fields, v: Json, keyword: string, f: Sub) {
    keyword in s ==>
      && s[keyword].Arr? && (forall c <- s[keyword].items :: c.Obj?)
      && var n := CountHolds(s[keyword].items, v, f);
      if keyword == "allOf" then n == |s[keyword].items| else if keyword == "anyOf" then n != 0 else n == 1
  }

  lemma CombinationsAre(s: Fields, v: Json, f: Sub)
    ensures CombinationOk(s, v, "allOf", f) && CombinationOk(s, v, "anyOf", f) && CombinationOk(s, v, "oneOf", f) <==>
      (forall k <- ["allOf", "anyOf", "oneOf"] :: k in s ==> s[k].Arr? && forall c <- s[k].items :: c.Obj?)
      && AllOf(s, v, f) && AnyOf(s, v, f) && OneOf(s, v, f, f)
  {
    hide Holds, OnlyAt;
    CountBounds(Children(s, "allOf"), v, f);
    CountBounds(Children(s, "anyOf"), v, f);
    CountOne(Children(s, "oneOf"), v, f);
    assert forall k <- ["allOf", "anyOf", "oneOf"] :: k == "allOf" || k == "anyOf" || k == "oneOf";
    assert ["allOf", "anyOf", "oneOf"][0] == "allOf" && ["allOf", "anyOf", "oneOf"][1] == "anyOf"
      && ["allOf", "anyOf", "oneOf"][2] == "oneOf";
  }

  method ValidateCombination(re: Regex, root: Fields, s: Fields, v: Json, keyword: string, depth: nat) returns (ok: bool)
    requires depth <= MAX_DEPTH
    ensures ok <==> CombinationOk(s, v, keyword, Deeper(re, root, depth))
    decreases MAX_DEPTH + 1 - depth, 0
  {
    hide Verdict, CountHolds;
    ghost var f := Deeper(re, root, depth);
    CountStep([], v, f);
    if keyword !in s {
      return true;
    }
    if !s[keyword].Arr? {
      return false;
    }
    var children := s[keyword].items;
    var matches, i := 0, 0;
    while i < |children|
      invariant 0 <= i <= |children| && (forall c <- children[..i] :: c.Obj?)
      invariant matches == CountHolds(children[..i], v, f)
    {
      assert children[..i + 1][..i] == children[..i];
      CountStep(children[..i + 1], v, f);
      if !children[i].Obj? {
        return false;
      }
      var held := ValidateValue(re, root, children[i].fields, v, depth + 1);
      assert held <==> Holds(children[i], v, f);
      if held {
        matches := matches + 1;
      }
      i := i + 1;
    }
    assert children[..i] == children;
    ok := if keyword == "allOf" then matches == |children| else if keyword == "anyOf" then matches != 0 else matches == 1;
  }

  method ValidateItems(re: Regex, root: Fields, s: Fields, v: Json, depth: nat) returns (ok: bool)
    requires depth <= MAX_DEPTH && ("items" in s ==> s["items"].Obj?)
    ensures ok <==> Items(s, v, Deeper(re, root, depth))
    decreases MAX_DEPTH + 1 - depth, 0
  {
    hide Verdict;
    ok := true;
    if "items" in s && v.Arr? {
      var i := 0;
      while i < |v.items|
        invariant 0 <= i <= |v.items| && forall item <- v.items[..i] :: Deeper(re, root, depth)(s["items"].fields, item)
      {
        ok := ValidateValue(re, root, s["items"].fields, v.items[i], depth + 1);
        assert ok <==> Deeper(re, root, depth)(s["items"].fields, v.items[i]);
        if !ok {
          return;
        }
        i := i + 1;
      }
      assert v.items[..i] == v.items;
    }
  }

  method ValidateProperties(re: Regex, root: Fields, s: Fields, v: Json, depth: nat) returns (ok: bool)
    requires depth <= MAX_DEPTH && ("properties" in s ==> s["properties"].Obj?)
    ensures ok <==> Properties(s, v, Deeper(re, root, depth))
    decreases MAX_DEPTH + 1 - depth, 0
  {
    hide Verdict;
    ok := true;
    if "properties" in s && v.Obj? {
      ghost var f := Deeper(re, root, depth);
      var props := s["properties"].fields;
      var left := props.Keys;
      while left != {}
        invariant left <= props.Keys
        invariant forall name <- props.Keys - left :: props[name].Obj? && name in v.fields ==> f(props[name].fields, v.fields[name])
      {
        var name :| name in left;
        if props[name].Obj? && name in v.fields {
          ok := ValidateValue(re, root, props[name].fields, v.fields[name], depth + 1);
          assert ok <==> f(props[name].fields, v.fields[name]);
          if !ok {
            return;
          }
        }
        left := left - {name};
      }
      if "additionalProperties" in s && s["additionalProperties"].Obj? {
        var additional := s["additionalProperties"].fields;
        var others := v.fields.Keys;
        while others != {}
          invariant others <= v.fields.Keys
          invariant forall name <- v.fields.Keys - others :: name !in props ==> f(additional, v.fields[name])
        {
          var name :| name in others;
          if name !in props {
            ok := ValidateValue(re, root, additional, v.fields[name], depth + 1);
            assert ok <==> f(additional, v.fields[name]);
            if !ok {
              return;
            }
          }
          others := others - {name};
        }
      }
    }
  }

  /** The recursive evaluator. */
  method ValidateValue(re: Regex, root: Fields, s: Fields, v: Json, depth: nat) returns (ok: bool)
    ensures ok <==> Verdict(re, root, s, v, depth)
    decreases MAX_DEPTH + 1 - depth, 1
  {
    hide Local, Referred, Properties, Items, CombinationOk, Resolve, AllOf, AnyOf, OneOf;
    if depth > MAX_DEPTH {
      return false;
    }
    ghost var f := Deeper(re, root, depth);
    CombinationsAre(s, v, f);
    ok := Local(re, root, s, v);
    if !ok {
      return;
    }
    LocalShapes(re, root, s, v);
    if "$ref" in s {
      ok := ValidateValue(re, root, Resolve(root, s["$ref"].s).value, v, depth + 1);
      ReferredIs(root, s, v, f);
      if !ok {
        return;
      }
    } else {
      ReferredIs(root, s, v, f);
    }
    ok := ValidateProperties(re, root, s, v, depth);
    if !ok {
      return;
    }
    ok := ValidateItems(re, root, s, v, depth);
    if !ok {
      return;
    }
    var keywords := ["allOf", "anyOf", "oneOf"];
    var k := 0;
    while k < |keywords|
      invariant 0 <= k <= |keywords| && forall j :: 0 <= j < k ==> CombinationOk(s, v, keywords[j], f)
    {
      ok := ValidateCombination(re, root, s, v, keywords[k], depth);
      if !ok {
        assert !CombinationOk(s, v, "allOf", f) || !CombinationOk(s, v, "anyOf", f) || !CombinationOk(s, v, "oneOf", f);
        return;
      }
      k := k + 1;
    }
    assert keywords[0] == "allOf" && keywords[1] == "anyOf" && keywords[2] == "oneOf";
    if "not" in s && s["not"].Obj? {
      var held := ValidateValue(re, root, s["not"].fields, v, depth + 1);
      assert held <==> f(s["not"].fields, v);
      ok := !held;
    }
  }

  lemma LocalShapes(re: Regex, root: Fields, s: Fields, v: Json)
    requires Local(re, root, s, v)
    ensures "$ref" in s ==> s["$ref"].Str? && Resolve(root, s["$ref"].s).Some?
    ensures "properties" in s ==> s["properties"].Obj?
    ensures "items" in s ==> s["items"].Obj? && v.Arr?
    ensures forall k <- ["allOf", "anyOf", "oneOf"] :: k in s ==> s[k].Arr? && forall c <- s[k].items :: c.Obj?
  {
    hide Resolve, MatchesType, RequiredOk, ConstOk, ArrayOk, StringOk, NumberOk, NothingAdditional;
  }

  lemma ReferredIs(root: Fields, s: Fields, v: Json, f: Sub)
    requires "$ref" in s ==> s["$ref"].Str? && Resolve(root, s["$ref"].s).Some?
    ensures Referred(root, s, v, f) <==> ("$ref" in s ==> f(Resolve(root, s["$ref"].s).value, v))
  {
    hide Resolve;
  }

  method Validate(re: Regex, schema: Fields, v: Json) returns (ok: bool)
    ensures ok <==> Verdict(re, schema, schema, v, 0)
    ensures Shallow(schema, schema, v, MAX_DEPTH + 1) ==> (ok <==> Accepts(re, schema, schema, v))
  {
    hide Verdict, Shallow;
    ok := ValidateValue(re, schema, schema, v, 0);
    if Shallow(schema, schema, v, MAX_DEPTH + 1) {
      WithinTheLimit(re, schema, schema, v);
    }
  }
}
