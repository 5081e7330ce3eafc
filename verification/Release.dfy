/** Choosing a release by version: parsing of tags, precedence, and the newest release under a prefix. */
module Release {
  import opened Wrappers
  import opened Text

  datatype Version = Version(major: nat, minor: nat, patch: nat, pre: Option<seq<string>>) {
    /** A pre-release has at least one identifier. */
    predicate Valid() { pre.Some? ==> pre.value != [] && forall id <- pre.value :: ValidIdentifier(id) }
  }

  predicate ValidIdentifier(id: string) {
    id != "" && forall c <- id :: '0' <= c <= '9' || 'A' <= c <= 'Z' || 'a' <= c <= 'z' || c == '-'
  }

  // ---------------------------------------------------------------- parsing

  /** Everything before the first `c`, and what follows it. */
  function Cut(s: string, c: char): (r: (string, Option<string>))
    ensures r.1.None? <==> c !in s
    ensures r.1.None? ==> r.0 == s
    ensures r.1.Some? ==> s == r.0 + [c] + r.1.value
    ensures c !in r.0
  {
    if s == "" then (s, None)
    else if s[0] == c then ("", Some(s[1..]))
    else
      var rest := Cut(s[1..], c);
      ([s[0]] + rest.0, rest.1)
  }

  function Component(part: string): Option<nat> {
    var n := if part == "" then None else Atoi(part);
    if n.None? || n.value < 0 then None else Some(n.value)
  }

  function ParseText(value: string): (r: Option<Version>)
    ensures r.Some? ==> r.value.Valid()
  {
    var withoutBuild := Cut(value, '+').0;
    var (core, pre) := Cut(withoutBuild, '-');
    var parts := Split(core, '.');
    if |parts| != 3 then None
    else
      var major, minor, patch := Component(parts[0]), Component(parts[1]), Component(parts[2]);
      if major.None? || minor.None? || patch.None? then None
      else if pre.None? || pre.value == "" then Some(Version(major.value, minor.value, patch.value, None))
      else
        var ids := Split(pre.value, '.');
        if forall id <- ids :: ValidIdentifier(id) then Some(Version(major.value, minor.value, patch.value, Some(ids)))
        else None
  }

  function WithoutV(text: string): string { if text != "" && text[0] == 'v' then text[1..] else text }

  function Parse(raw: string): (r: Option<Version>)
    ensures r.Some? ==> r.value.Valid()
  {
    ParseText(WithoutV(TrimSpace(raw)))
  }

  lemma {:induction false} CutFirst(s: string, c: char, rest: string)
    requires c !in s
    ensures Cut(s + [c] + rest, c) == (s, Some(rest))
  {
    if s == "" {
      assert s + [c] + rest == [c] + rest;
    } else {
      assert (s + [c] + rest)[0] == s[0] && s == [s[0]] + s[1..];
      assert (s + [c] + rest)[1..] == s[1..] + [c] + rest;
      CutFirst(s[1..], c, rest);
    }
  }

  /** Trimming stops at a visible character. */
  lemma {:induction false} TrimLeftStops(s: string, c: char, rest: string)
    requires !IsSpace(c)
    ensures TrimLeft(s + [c] + rest) == TrimLeft(s) + [c] + rest
  {
    hide IsSpace;
    var all := s + [c] + rest;
    if s == "" {
      assert all[0] == c && all == [c] + rest;
    } else if IsSpace(s[0]) {
      assert all[0] == s[0] && all[1..] == s[1..] + [c] + rest;
      TrimLeftStops(s[1..], c, rest);
    } else {
      assert all[0] == s[0];
    }
  }

  lemma {:induction false} TrimRightStops(s: string, c: char, rest: string) returns (kept: string)
    requires !IsSpace(c)
    ensures TrimRight(s + [c] + rest) == s + [c] + kept
  {
    hide IsSpace;
    var all := s + [c] + rest;
    kept := rest;
    if rest == "" {
      assert all[|all| - 1] == c;
    } else {
      var n := |rest| - 1;
      assert all[|all| - 1] == rest[n] && all[..|all| - 1] == s + [c] + rest[..n];
      if IsSpace(rest[n]) {
        kept := TrimRightStops(s, c, rest[..n]);
      }
    }
  }

  /** Everything after the first plus sign is ignored, which is why trailing space before an added one is not
      trimmed any more: it then spoils the version. */
  lemma BuildMetadataIgnored(s: string, build: string)
    ensures Parse(s + "+" + build) == if s != "" && IsSpace(s[|s| - 1]) && '+' !in s then None else Parse(s)
  {
    hide IsSpace, ParseText, TrimRight, TrimLeft, WithoutV;
    PlusIsVisible();
    var left := TrimLeft(s);
    TrimLeftStops(s, '+', build);
    var kept := TrimRightStops(left, '+', build);
    assert s + "+" + build == s + ['+'] + build;
    LeftKeeps(s);
    if '+' in s {
      FirstPlusCounts(left, kept);
    } else {
      AddedPlusCounts(left, kept);
      if s != "" && IsSpace(s[|s| - 1]) {
        LeftIsVisible(s);
        SpaceSpoils(left);
      } else {
        EndsVisibly(s);
      }
    }
  }

  lemma LeftIsVisible(s: string)
    ensures TrimLeft(s) == "" || !IsSpace(TrimLeft(s)[0])
  {
  }

  lemma FirstPlusCounts(text: string, more: string)
    requires '+' in text
    ensures ParseText(WithoutV(text + ['+'] + more)) == ParseText(WithoutV(TrimRight(text)))
  {
    hide IsSpace, ParseText, TrimRight, WithoutV;
    PlusIsVisible();
    var (a, rest) := Cut(text, '+');
    assert text == a + ['+'] + rest.value;
    var kept := TrimRightStops(a, '+', rest.value);
    Shared(a, rest.value + ['+'] + more, kept);
    assert text + ['+'] + more == a + ['+'] + (rest.value + ['+'] + more);
  }

  lemma AddedPlusCounts(text: string, more: string)
    requires '+' !in text
    ensures ParseText(WithoutV(text + ['+'] + more)) == ParseText(WithoutV(text))
  {
    CutPlain(text);
    hide ParseText, WithoutV;
    Prefixed(text, ['+'] + more);
    assert text + ['+'] + more == text + (['+'] + more);
    assert WithoutV(text) + (['+'] + more) == WithoutV(text) + ['+'] + more;
    WithoutBuild(WithoutV(text), more);
  }

  lemma Prefixed(text: string, rest: string)
    requires rest != "" && rest[0] == '+'
    ensures WithoutV(text + rest) == WithoutV(text) + rest
  {
    if text == "" {
      assert text + rest == rest;
    } else {
      assert (text + rest)[0] == text[0] && (text + rest)[1..] == text[1..] + rest;
    }
  }

  /** What follows a plus sign does not matter. */
  lemma Shared(text: string, one: string, other: string)
    requires '+' !in text
    ensures ParseText(WithoutV(text + ['+'] + one)) == ParseText(WithoutV(text + ['+'] + other))
  {
    hide ParseText;
    Prefixed(text, ['+'] + one);
    Prefixed(text, ['+'] + other);
    assert text + ['+'] + one == text + (['+'] + one) && text + ['+'] + other == text + (['+'] + other);
    assert WithoutV(text) + (['+'] + one) == WithoutV(text) + ['+'] + one;
    assert WithoutV(text) + (['+'] + other) == WithoutV(text) + ['+'] + other;
    WithoutBuild(WithoutV(text), one);
    WithoutBuild(WithoutV(text), other);
  }

  /** Leading space takes no plus sign away, and keeps the end. */
  lemma {:induction false} LeftKeeps(s: string)
    ensures '+' in TrimLeft(s) <==> '+' in s
    ensures TrimLeft(s) != "" ==> s != "" && TrimLeft(s)[|TrimLeft(s)| - 1] == s[|s| - 1]
    ensures s != "" && !IsSpace(s[|s| - 1]) ==> TrimLeft(s) != ""
  {
    if s != "" && IsSpace(s[0]) {
      assert s == [s[0]] + s[1..];
      LeftKeeps(s[1..]);
    }
  }

  lemma CutPlain(text: string)
    requires '+' !in text
    ensures '+' !in WithoutV(text)
  {
  }

  lemma EndsVisibly(s: string)
    requires s == "" || !IsSpace(s[|s| - 1])
    ensures TrimRight(TrimLeft(s)) == TrimLeft(s)
  {
    LeftKeeps(s);
    hide IsSpace;
  }

  /** A text that is empty or ends in space is no version. */
  lemma SpaceSpoils(text: string)
    requires text == "" || (!IsSpace(text[0]) && IsSpace(text[|text| - 1]))
    requires '+' !in text
    ensures ParseText(WithoutV(text)) == None
  {
    var t := WithoutV(text);
    CutPlain(text);
    if t == "" {
      assert Split("", '.') == [""];
    } else {
      assert t[|t| - 1] == text[|text| - 1];
      SpaceEnds(t);
    }
  }

  lemma SpaceEnds(t: string)
    requires t != "" && IsSpace(t[|t| - 1]) && '+' !in t
    ensures ParseText(t) == None
  {
    assert Cut(t, '+').0 == t;
    var (core, pre) := Cut(t, '-');
    var last := t[|t| - 1];
    SpaceIsNoMark(last);
    hide IsSpace;
    if pre.Some? {
      assert pre.value != "" && pre.value[|pre.value| - 1] == last;
      LastPart(pre.value, '.');
      var ids := Split(pre.value, '.');
      var id := ids[|ids| - 1];
      assert id in ids && id[|id| - 1] in id;
      assert !ValidIdentifier(id);
      hide Component, Split, Cut;
    } else {
      LastPart(core, '.');
      var parts := Split(core, '.');
      NoComponent(parts[|parts| - 1]);
      hide Component, Split, Cut, ValidIdentifier;
    }
  }

  lemma SpaceIsNoMark(c: char)
    requires IsSpace(c)
    ensures !IsDigit(c) && c != '.' && c != '-' && c != '+'
    ensures !('0' <= c <= '9' || 'A' <= c <= 'Z' || 'a' <= c <= 'z' || c == '-')
  {
  }

  lemma NoComponent(part: string)
    requires part != "" && !IsDigit(part[|part| - 1]) && part[|part| - 1] != '-' && part[|part| - 1] != '+'
    ensures Component(part) == None
  {
    var digits := if part[0] == '+' || part[0] == '-' then part[1..] else part;
    assert digits != "" && digits[|digits| - 1] == part[|part| - 1] && digits[|digits| - 1] in digits;
    hide DigitsValue;
  }

  /** The last part ends where the text ends. */
  lemma {:induction false} LastPart(s: string, sep: char)
    requires s != "" && s[|s| - 1] != sep
    ensures var parts := Split(s, sep);
      var last := parts[|parts| - 1];
      last != "" && last[|last| - 1] == s[|s| - 1]
  {
    if |s| > 1 {
      LastPart(s[1..], sep);
    } else {
      assert s[1..] == "" && Split("", sep) == [""];
    }
  }

  lemma PlusIsVisible()
    ensures !IsSpace('+')
  {
  }

  lemma WithoutBuild(text: string, build: string)
    requires '+' !in text
    ensures ParseText(text + ['+'] + build) == ParseText(text)
  {
    hide Atoi, Split, ValidIdentifier, Cut;
    CutFirst(text, '+', build);
    assert Cut(text, '+').0 == text;
  }

  // ---------------------------------------------------------------- printing and parsing

  /** The numbers fit 64 bits. */
  predicate Printable(v: Version) {
    v.Valid() && v.major <= MAX_INT64 && v.minor <= MAX_INT64 && v.patch <= MAX_INT64
  }

  function Core(v: Version): string { Join([Decimal(v.major), Decimal(v.minor), Decimal(v.patch)], '.') }

  /** A version as it is written. */
  function Print(v: Version): string {
    if v.pre.None? then Core(v) else Core(v) + ['-'] + Join(v.pre.value, '.')
  }

  lemma {:induction false} JoinHas(parts: seq<string>, sep: char, c: char)
    requires c in Join(parts, sep)
    ensures c == sep || exists part <- parts :: c in part
  {
    if |parts| > 1 {
      if c in parts[0] {
      } else if c != sep {
        JoinHas(parts[1..], sep, c);
        var part :| part in parts[1..] && c in part;
        assert part in parts;
      }
    } else if |parts| == 1 {
      assert parts[0] in parts;
    }
  }

  lemma {:induction false} JoinEnds(parts: seq<string>, sep: char)
    requires parts != [] && forall i :: 0 <= i < |parts| ==> parts[i] != ""
    ensures var text, first, last := Join(parts, sep), parts[0], parts[|parts| - 1];
      text != "" && text[0] == first[0] && text[|text| - 1] == last[|last| - 1]
  {
    if |parts| > 1 {
      JoinEnds(parts[1..], sep);
    }
  }

  lemma DecimalReads(n: nat)
    requires n <= MAX_INT64
    ensures Component(Decimal(n)) == Some(n)
    ensures forall c <- Decimal(n) :: IsDigit(c)
  {
    hide Decimal, Atoi;
    SignedReads(n);
  }

  lemma CoreIs(v: Version)
    requires Printable(v)
    ensures Split(Core(v), '.') == [Decimal(v.major), Decimal(v.minor), Decimal(v.patch)]
    ensures forall c <- Core(v) :: c == '.' || IsDigit(c)
    ensures Core(v) != "" && IsDigit(Core(v)[0]) && IsDigit(Core(v)[|Core(v)| - 1])
  {
    hide Decimal, Atoi, Join, Split;
    var parts := [Decimal(v.major), Decimal(v.minor), Decimal(v.patch)];
    DecimalReads(v.major);
    DecimalReads(v.minor);
    DecimalReads(v.patch);
    SplitJoin(parts, '.');
    JoinEnds(parts, '.');
    forall c | c in Core(v)
      ensures c == '.' || IsDigit(c)
    {
      JoinHas(parts, '.', c);
    }
    assert parts[0][0] in parts[0] && parts[2][|parts[2]| - 1] in parts[2];
  }

  lemma PreIs(ids: seq<string>)
    requires ids != [] && forall id <- ids :: ValidIdentifier(id)
    ensures Split(Join(ids, '.'), '.') == ids
    ensures '+' !in Join(ids, '.')
    ensures Join(ids, '.') != "" && !IsSpace(Join(ids, '.')[|Join(ids, '.')| - 1])
  {
    hide Join, Split;
    SplitJoin(ids, '.');
    assert forall i :: 0 <= i < |ids| ==> ids[i] in ids;
    JoinEnds(ids, '.');
    if '+' in Join(ids, '.') {
      JoinHas(ids, '.', '+');
    }
    var last := ids[|ids| - 1];
    assert last in ids && last[|last| - 1] in last;
  }

  lemma CutNone(s: string, c: char)
    requires c !in s
    ensures Cut(s, c) == (s, None)
  {
  }

  lemma PrintedText(v: Version)
    requires Printable(v)
    ensures ParseText(Print(v)) == Some(v)
  {
    hide Decimal, Atoi, Join, Split, Core, Cut, ValidIdentifier, Component;
    CoreIs(v);
    DecimalReads(v.major);
    DecimalReads(v.minor);
    DecimalReads(v.patch);
    if v.pre.Some? {
      PreIs(v.pre.value);
      CutFirst(Core(v), '-', Join(v.pre.value, '.'));
    } else {
      CutNone(Core(v), '-');
    }
    CutNone(Print(v), '+');
  }

  lemma PrintedEnds(v: Version)
    requires Printable(v)
    ensures var text := Print(v);
      text != "" && IsDigit(text[0]) && !IsSpace(text[|text| - 1])
  {
    hide Decimal, Atoi, Join, Split, Core;
    CoreIs(v);
    if v.pre.Some? {
      PreIs(v.pre.value);
      var text := Print(v);
      assert text[|text| - 1] == Join(v.pre.value, '.')[|Join(v.pre.value, '.')| - 1];
    }
  }

  /** A version is read back as it is written, with or without a leading "v": its three numbers, and its
      identifiers in order. */
  lemma RoundTrip(v: Version)
    requires Printable(v)
    ensures Parse(Print(v)) == Some(v)
    ensures Parse(['v'] + Print(v)) == Some(v)
  {
    hide Print, ParseText, TrimSpace;
    var text := Print(v);
    PrintedText(v);
    PrintedEnds(v);
    assert (['v'] + text)[1..] == text && (['v'] + text)[|text|] == text[|text| - 1];
    assert TrimSpace(text) == text && TrimSpace(['v'] + text) == ['v'] + text;
  }

  // ---------------------------------------------------------------- precedence

  /** Identifiers: numbers by value and below everything else, the rest by byte order. */
  predicate IdLower(a: string, b: string) {
    var m, n := Atoi(a), Atoi(b);
    if m.Some? && n.Some? then m.value < n.value
    else if m.Some? || n.Some? then m.Some?
    else LexLess(a, b)
  }

  predicate IdSame(a: string, b: string) { !IdLower(a, b) && !IdLower(b, a) }

  /** Identifiers as section 11 of Semantic Versioning 2.0.0 orders them: those of digits only by value and
      below all others, the others by byte order. */
  predicate SemverLower(a: string, b: string) {
    if AllDigits(a) && AllDigits(b) then DigitsValue(a) < DigitsValue(b)
    else if AllDigits(a) || AllDigits(b) then AllDigits(a)
    else LexLess(a, b)
  }

  /** Which identifiers are read as numbers: digits that fit 64 bits, but also a dash before such digits. */
  lemma ReadAsNumber(id: string)
    requires ValidIdentifier(id)
    ensures Atoi(id).Some? <==>
      || (AllDigits(id) && DigitsValue(id) <= MAX_INT64)
      || (id[0] == '-' && id[1..] != "" && AllDigits(id[1..]) && DigitsValue(id[1..]) <= MAX_INT64 + 1)
  {
    hide DigitsValue;
    assert id[0] in id;
  }

  /** Between identifiers that are read as numbers exactly if they are digits, the order is that of Semantic
      Versioning. */
  lemma SemverOrder(a: string, b: string)
    requires ValidIdentifier(a) && ValidIdentifier(b)
    requires (Atoi(a).Some? <==> AllDigits(a)) && (Atoi(b).Some? <==> AllDigits(b))
    ensures IdLower(a, b) <==> SemverLower(a, b)
  {
    hide DigitsValue, LexLess;
    assert a[0] in a && b[0] in b;
  }

  /** With a dash before its digits an identifier is lower than every number, where Semantic Versioning has
      it above all of them; and digits beyond 64 bits count as text, above every number that fits. */
  lemma SemverDiffers(n: int, m: nat, big: string)
    requires 0 < n <= MAX_INT64 + 1 && m <= MAX_INT64
    requires big != "" && AllDigits(big) && DigitsValue(big) > MAX_INT64
    ensures IdLower(Signed(-n), Decimal(m)) && SemverLower(Decimal(m), Signed(-n))
    ensures IdLower(Decimal(m), big) && !IdLower(big, Decimal(m))
    ensures IdLower(Signed(-n), big)
  {
    hide Decimal, DigitsValue, LexLess;
    SignedReads(-n);
    SignedReads(m);
    assert Signed(-n)[0] == '-' && Signed(-n)[0] in Signed(-n) && !IsDigit('-');
    assert big[0] in big;
  }

  /** The numeric part of a version comes first. */
  predicate CoreLower(a: Version, b: Version) {
    a.major < b.major || (a.major == b.major && (a.minor < b.minor || (a.minor == b.minor && a.patch < b.patch)))
  }

  predicate CoreSame(a: Version, b: Version) { a.major == b.major && a.minor == b.minor && a.patch == b.patch }

  /** The identifiers agree up to `i`, where the first list ends, or has the lower one. */
  predicate LowerAt(a: seq<string>, b: seq<string>, i: int) {
    && 0 <= i <= |a| && i <= |b| && (forall j :: 0 <= j < i ==> IdSame(a[j], b[j]))
    && i < |b| && (i < |a| ==> IdLower(a[i], b[i]))
  }

  ghost predicate PreLower(a: seq<string>, b: seq<string>) {
    exists i :: LowerAt(a, b, i)
  }

  /** Precedence in the shape of section 11 of Semantic Versioning 2.0.0. */
  ghost predicate Lower(a: Version, b: Version) {
    || CoreLower(a, b)
    || (CoreSame(a, b) && a.pre.Some? && (b.pre.None? || PreLower(a.pre.value, b.pre.value)))
  }

  function CompareIds(a: string, b: string): int {
    if IdLower(a, b) then -1 else if IdLower(b, a) then 1 else 0
  }

  function ComparePre(a: seq<string>, b: seq<string>): int {
    if a == [] || b == [] then (if |a| < |b| then -1 else if |a| > |b| then 1 else 0)
    else
      var c := CompareIds(a[0], b[0]);
      if c != 0 then c else ComparePre(a[1..], b[1..])
  }

  function Compare(a: Version, b: Version): int {
    if CoreLower(a, b) then -1
    else if CoreLower(b, a) then 1
    else if a.pre.Some? != b.pre.Some? then (if a.pre.Some? then -1 else 1)
    else if a.pre.None? then 0
    else ComparePre(a.pre.value, b.pre.value)
  }

  method CompareVersions(a: Version, b: Version) returns (r: int)
    ensures r == Compare(a, b)
  {
    if a.major != b.major {
      return if a.major < b.major then -1 else 1;
    }
    if a.minor != b.minor {
      return if a.minor < b.minor then -1 else 1;
    }
    if a.patch != b.patch {
      return if a.patch < b.patch then -1 else 1;
    }
    if a.pre.Some? != b.pre.Some? {
      return if a.pre.Some? then -1 else 1;
    }
    if a.pre.None? {
      return 0;
    }
    hide Atoi, LexLess;
    var x, y := a.pre.value, b.pre.value;
    var i := 0;
    while i < |x| && i < |y|
      invariant 0 <= i <= |x| && i <= |y| && ComparePre(x, y) == ComparePre(x[i..], y[i..])
    {
      var m, n := Atoi(x[i]), Atoi(y[i]);
      assert x[i..][0] == x[i] && y[i..][0] == y[i] && x[i..][1..] == x[i + 1..] && y[i..][1..] == y[i + 1..];
      LexTotal(x[i], y[i]);
      if m.Some? && n.Some? {
        if m.value != n.value {
          return if m.value < n.value then -1 else 1;
        }
      } else if m.Some? {
        return -1;
      } else if n.Some? {
        return 1;
      } else if x[i] != y[i] {
        return if LexLess(x[i], y[i]) then -1 else 1;
      }
      i := i + 1;
    }
    r := if |x| != |y| then (if |x| < |y| then -1 else 1) else 0;
  }

  lemma IdTrichotomy(a: string, b: string)
    ensures !(IdLower(a, b) && IdLower(b, a))
  {
    hide Atoi;
    LexTotal(a, b);
    hide LexLess;
  }

  lemma IdTransitive(a: string, b: string, c: string)
    requires !IdLower(b, a) && !IdLower(c, b)
    ensures !IdLower(c, a) && (IdSame(a, b) && IdSame(b, c) ==> IdSame(a, c))
    ensures IdLower(a, b) || IdLower(b, c) ==> IdLower(a, c)
  {
    hide Atoi, LexLess;
    LexTotal(a, b);
    LexTotal(b, c);
    LexTotal(a, c);
    if LexLess(a, b) && LexLess(b, c) {
      LexTransitive(a, b, c);
    }
  }

  lemma {:induction false} ComparePreIsPrecedence(a: seq<string>, b: seq<string>)
    ensures ComparePre(a, b) == -1 <==> PreLower(a, b)
    ensures ComparePre(a, b) == 1 <==> PreLower(b, a)
    ensures -1 <= ComparePre(a, b) <= 1
    decreases |a|
  {
    hide IdLower;
    if a == [] || b == [] {
      if |a| < |b| {
        assert LowerAt(a, b, 0);
      }
      if |b| < |a| {
        assert LowerAt(b, a, 0);
      }
    } else {
      IdTrichotomy(a[0], b[0]);
      if IdLower(a[0], b[0]) {
        assert LowerAt(a, b, 0);
      } else if IdLower(b[0], a[0]) {
        assert LowerAt(b, a, 0);
      } else {
        ComparePreIsPrecedence(a[1..], b[1..]);
        TailLower(a, b);
        TailLower(b, a);
      }
    }
  }

  lemma TailLower(a: seq<string>, b: seq<string>)
    requires a != [] && b != [] && IdSame(a[0], b[0])
    ensures PreLower(a, b) <==> PreLower(a[1..], b[1..])
  {
    hide IdLower;
    if PreLower(a, b) {
      var i :| LowerAt(a, b, i);
      assert i > 0;
      forall j | 0 <= j < i - 1
        ensures IdSame(a[1..][j], b[1..][j])
      {
        assert IdSame(a[j + 1], b[j + 1]);
      }
      assert LowerAt(a[1..], b[1..], i - 1);
    }
    if PreLower(a[1..], b[1..]) {
      var i :| LowerAt(a[1..], b[1..], i);
      forall j | 0 <= j < i + 1
        ensures IdSame(a[j], b[j])
      {
        if j > 0 {
          assert IdSame(a[1..][j - 1], b[1..][j - 1]);
        }
      }
      assert LowerAt(a, b, i + 1);
    }
  }

  /** The comparison is exactly the precedence, in both directions. */
  lemma CompareIsPrecedence(a: Version, b: Version)
    ensures Compare(a, b) == -1 <==> Lower(a, b)
    ensures Compare(a, b) == 1 <==> Lower(b, a)
    ensures -1 <= Compare(a, b) <= 1 && Compare(b, a) == -Compare(a, b)
  {
    hide PreLower, ComparePre;
    if a.pre.Some? && b.pre.Some? {
      ComparePreIsPrecedence(a.pre.value, b.pre.value);
      ComparePreIsPrecedence(b.pre.value, a.pre.value);
    }
  }

  lemma {:induction false} ComparePreTransitive(a: seq<string>, b: seq<string>, c: seq<string>)
    requires ComparePre(a, b) <= 0 && ComparePre(b, c) <= 0
    ensures ComparePre(a, c) <= 0
    ensures ComparePre(a, b) < 0 || ComparePre(b, c) < 0 ==> ComparePre(a, c) < 0
    decreases |a|
  {
    hide IdLower;
    if a != [] && b != [] && c != [] {
      IdTrichotomy(a[0], b[0]);
      IdTrichotomy(b[0], c[0]);
      IdTransitive(a[0], b[0], c[0]);
      IdTrichotomy(a[0], c[0]);
      if CompareIds(a[0], b[0]) == 0 && CompareIds(b[0], c[0]) == 0 {
        ComparePreTransitive(a[1..], b[1..], c[1..]);
      }
    }
  }

  lemma {:induction false} ComparePreReflexive(a: seq<string>)
    ensures ComparePre(a, a) == 0
  {
    hide IdLower;
    if a != [] {
      IdTrichotomy(a[0], a[0]);
      ComparePreReflexive(a[1..]);
    }
  }

  /** A total preorder: reflexive, transitive, and antisymmetric in sign. */
  lemma CompareIsPreorder(a: Version, b: Version, c: Version)
    ensures Compare(a, a) == 0 && Compare(b, a) == -Compare(a, b)
    ensures Compare(a, b) <= 0 && Compare(b, c) <= 0 ==> Compare(a, c) <= 0
    ensures Compare(a, b) <= 0 && Compare(b, c) < 0 ==> Compare(a, c) < 0
    ensures Compare(a, b) < 0 && Compare(b, c) <= 0 ==> Compare(a, c) < 0
  {
    CompareIsPrecedence(a, b);
    hide ComparePre, Lower;
    if a.pre.Some? {
      ComparePreReflexive(a.pre.value);
    }
    if a.pre.Some? && b.pre.Some? && c.pre.Some?
       && ComparePre(a.pre.value, b.pre.value) <= 0 && ComparePre(b.pre.value, c.pre.value) <= 0 {
      ComparePreTransitive(a.pre.value, b.pre.value, c.pre.value);
    }
  }

  /** Identifiers compare equal exactly if they are the same text or numbers of the same value. */
  lemma SameIdentifiers(a: string, b: string)
    ensures IdSame(a, b) <==> a == b || (Atoi(a).Some? && Atoi(a) == Atoi(b))
  {
    hide Atoi, LexLess;
    LexTotal(a, b);
  }

  lemma {:induction false} EqualPre(a: seq<string>, b: seq<string>)
    ensures ComparePre(a, b) == 0 <==> |a| == |b| && forall i :: 0 <= i < |a| ==> IdSame(a[i], b[i])
    decreases |a|
  {
    hide IdLower;
    if a != [] && b != [] {
      EqualPre(a[1..], b[1..]);
      if IdSame(a[0], b[0]) && |a| == |b| && forall i :: 0 <= i < |a[1..]| ==> IdSame(a[1..][i], b[1..][i]) {
        forall i | 0 <= i < |a|
          ensures IdSame(a[i], b[i])
        {
          assert i > 0 ==> IdSame(a[1..][i - 1], b[1..][i - 1]);
        }
      }
      if |a| == |b| && forall i :: 0 <= i < |a| ==> IdSame(a[i], b[i]) {
        forall i | 0 <= i < |a[1..]|
          ensures IdSame(a[1..][i], b[1..][i])
        {
          assert IdSame(a[i + 1], b[i + 1]);
        }
      }
    }
  }

  /** When versions compare equal: same numbers, and either no pre-release on both sides, or identifiers that
      are pairwise the same text or numbers of the same value. */
  lemma EqualIff(a: Version, b: Version)
    ensures Compare(a, b) == 0 <==>
      && CoreSame(a, b) && (a.pre.Some? <==> b.pre.Some?)
      && (a.pre.Some? ==>
            && |a.pre.value| == |b.pre.value|
            && forall i :: 0 <= i < |a.pre.value| ==>
                 var x, y := a.pre.value[i], b.pre.value[i]; x == y || (Atoi(x).Some? && Atoi(x) == Atoi(y)))
  {
    hide Atoi, IdSame, ComparePre;
    if a.pre.Some? && b.pre.Some? {
      EqualPre(a.pre.value, b.pre.value);
      forall i | 0 <= i < |a.pre.value| && i < |b.pre.value|
        ensures var x, y := a.pre.value[i], b.pre.value[i];
          IdSame(x, y) <==> x == y || (Atoi(x).Some? && Atoi(x) == Atoi(y))
      {
        SameIdentifiers(a.pre.value[i], b.pre.value[i]);
      }
    }
  }

  // ---------------------------------------------------------------- selection

  datatype Tagged = Tagged(tag: string, draft: bool)

  /** The version of a release that may be chosen. */
  function Candidate(r: Tagged, prefix: string): Option<Version> {
    if r.draft || |r.tag| < |prefix| || r.tag[..|prefix|] != prefix then None
    else Parse(r.tag[|prefix|..])
  }

  /** The earliest release with a maximal version, or none if no tag parses. */
  method SelectPrefixedRelease(releases: seq<Tagged>, tagPrefix: string) returns (best: Option<nat>)
    ensures var prefix := tagPrefix + "/v";
      && (best.None? <==> forall r <- releases :: Candidate(r, prefix).None?)
      && (best.Some? ==>
            && best.value < |releases| && Candidate(releases[best.value], prefix).Some?
            && forall j :: 0 <= j < |releases| && Candidate(releases[j], prefix).Some? ==>
                 var c := Compare(Candidate(releases[j], prefix).value, Candidate(releases[best.value], prefix).value);
                 c <= 0 && (j < best.value ==> c < 0))
  {
    hide Compare, Parse;
    var prefix := tagPrefix + "/v";
    best := None;
    var bestVersion := Version(0, 0, 0, None);
    var i := 0;
    while i < |releases|
      invariant 0 <= i <= |releases|
      invariant best.None? <==> forall r <- releases[..i] :: Candidate(r, prefix).None?
      invariant best.Some? ==> best.value < i && Candidate(releases[best.value], prefix) == Some(bestVersion)
      invariant best.Some? ==> forall j :: 0 <= j < i && Candidate(releases[j], prefix).Some? ==>
        Compare(Candidate(releases[j], prefix).value, bestVersion) <= 0
        && (j < best.value ==> Compare(Candidate(releases[j], prefix).value, bestVersion) < 0)
    {
      var r := releases[i];
      assert releases[..i + 1] == releases[..i] + [r];
      if !r.draft && |r.tag| >= |prefix| && r.tag[..|prefix|] == prefix {
        var version := Parse(r.tag[|prefix|..]);
        if version.Some? {
          var higher := true;
          if best.Some? {
            var c := CompareVersions(version.value, bestVersion);
            higher := c > 0;
          }
          Newer(releases, prefix, best, bestVersion, i, version.value, higher);
          if higher {
            best, bestVersion := Some(i), version.value;
          }
        }
      }
      i := i + 1;
    }
    assert releases[..i] == releases;
  }

  lemma Newer(releases: seq<Tagged>, prefix: string, best: Option<nat>, bestVersion: Version, i: nat, version: Version, higher: bool)
    requires i < |releases| && Candidate(releases[i], prefix) == Some(version)
    requires best.Some? ==> forall j :: 0 <= j < i && Candidate(releases[j], prefix).Some? ==>
      Compare(Candidate(releases[j], prefix).value, bestVersion) <= 0
    requires best.None? ==> forall j :: 0 <= j < i ==> Candidate(releases[j], prefix).None?
    requires higher <==> best.None? || Compare(version, bestVersion) > 0
    ensures Compare(version, version) == 0
    ensures higher ==> forall j :: 0 <= j < i && Candidate(releases[j], prefix).Some? ==>
      Compare(Candidate(releases[j], prefix).value, version) < 0
  {
    hide Compare, Candidate;
    CompareIsPreorder(version, bestVersion, version);
    forall j | higher && 0 <= j < i && Candidate(releases[j], prefix).Some?
      ensures Compare(Candidate(releases[j], prefix).value, version) < 0
    {
      CompareIsPreorder(Candidate(releases[j], prefix).value, bestVersion, version);
    }
  }
}
