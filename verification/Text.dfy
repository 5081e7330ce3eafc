/** Strings as the Go standard library treats them, as far as the other modules need it. */
module Text {
  import opened Wrappers

  /** White space of Unicode, the set that TrimSpace removes. */
  predicate IsSpace(c: char) {
    var n := c as int;
    9 <= n <= 13 || n == 0x20 || n == 0x85 || n == 0xA0 || n == 0x1680 || 0x2000 <= n <= 0x200A
    || n == 0x2028 || n == 0x2029 || n == 0x202F || n == 0x205F || n == 0x3000
  }

  function TrimLeft(s: string): (r: string)
    ensures |r| <= |s| && (r == "" || !IsSpace(r[0]))
    ensures s == "" || !IsSpace(s[0]) ==> r == s
  {
    if s != "" && IsSpace(s[0]) then TrimLeft(s[1..]) else s
  }

  function TrimRight(s: string): (r: string)
    ensures |r| <= |s| && (r == "" || (r[0] == s[0] && !IsSpace(r[|r| - 1])))
    ensures s == "" || !IsSpace(s[|s| - 1]) ==> r == s
  {
    if s != "" && IsSpace(s[|s| - 1]) then TrimRight(s[..|s| - 1]) else s
  }

  function TrimSpace(s: string): (r: string)
    ensures r == "" || (!IsSpace(r[0]) && !IsSpace(r[|r| - 1]))
    ensures s == "" || (!IsSpace(s[0]) && !IsSpace(s[|s| - 1])) ==> r == s
  {
    TrimRight(TrimLeft(s))
  }

  /** Nothing is left to trim after trimming. */
  lemma TrimTwice(s: string)
    ensures TrimSpace(TrimSpace(s)) == TrimSpace(s)
  {
  }

  predicate HasControl(s: string) { '\r' in s || '\n' in s || '\t' in s }

  predicate IsDigit(c: char) { '0' <= c <= '9' }

  predicate AllDigits(s: string) { forall c <- s :: IsDigit(c) }

  /** The number a string of digits stands for. */
  function DigitsValue(s: string): nat
    requires AllDigits(s)
  {
    if s == "" then 0
    else
      assert IsDigit(s[|s| - 1]);
      10 * DigitsValue(s[..|s| - 1]) + (s[|s| - 1] as int - '0' as int)
  }

  const MAX_INT64: int := 0x7FFF_FFFF_FFFF_FFFF

  /** Base ten, with an optional sign, within 64 bits. */
  function Atoi(s: string): (r: Option<int>)
    ensures r.Some? ==> -MAX_INT64 - 1 <= r.value <= MAX_INT64
  {
    var signed := s != "" && (s[0] == '+' || s[0] == '-');
    var digits := if signed then s[1..] else s;
    if digits == "" || !AllDigits(digits) then None
    else
      var value: int := DigitsValue(digits);
      var n := if signed && s[0] == '-' then -value else value;
      if -MAX_INT64 - 1 <= n <= MAX_INT64 then Some(n) else None
  }

  /** Where `c` occurs last. */
  function LastIndex(s: string, c: char): (r: Option<nat>)
    ensures r.None? <==> c !in s
    ensures r.Some? ==> r.value < |s| && s[r.value] == c && c !in s[r.value + 1..]
  {
    if s == "" then None
    else if s[|s| - 1] == c then Some(|s| - 1)
    else
      var r := LastIndex(s[..|s| - 1], c);
      assert r.Some? ==> s[r.value + 1..] == s[..|s| - 1][r.value + 1..] + [s[|s| - 1]];
      assert s == s[..|s| - 1] + [s[|s| - 1]];
      r
  }

  /** Cut at every `sep`; there is always at least one part. */
  function Split(s: string, sep: char): (r: seq<string>)
    ensures r != []
    ensures forall part <- r :: sep !in part
  {
    if s == "" then [""]
    else if s[0] == sep then [""] + Split(s[1..], sep)
    else
      var rest := Split(s[1..], sep);
      [[s[0]] + rest[0]] + rest[1..]
  }

  function Join(parts: seq<string>, sep: char): string {
    if parts == [] then ""
    else if |parts| == 1 then parts[0]
    else parts[0] + [sep] + Join(parts[1..], sep)
  }

  lemma {:induction false} JoinSplit(s: string, sep: char)
    ensures Join(Split(s, sep), sep) == s
  {
    if s != "" {
      var rest := Split(s[1..], sep);
      JoinSplit(s[1..], sep);
      if s[0] == sep {
        assert ([""] + rest)[1..] == rest;
        assert s == "" + [sep] + s[1..];
      } else {
        var parts := [[s[0]] + rest[0]] + rest[1..];
        assert s == [s[0]] + s[1..];
        if |rest| > 1 {
          assert parts[1..] == rest[1..];
          assert Join(parts, sep) == [s[0]] + rest[0] + [sep] + Join(rest[1..], sep);
          assert [s[0]] + (rest[0] + [sep] + Join(rest[1..], sep)) == [s[0]] + rest[0] + [sep] + Join(rest[1..], sep);
        }
      }
    }
  }

  lemma {:induction false} SplitPlain(s: string, sep: char)
    requires sep !in s
    ensures Split(s, sep) == [s]
  {
    if s != "" {
      SplitPlain(s[1..], sep);
      assert s == [s[0]] + s[1..];
    }
  }

  lemma {:induction false} SplitFirst(s: string, sep: char, rest: string)
    requires sep !in s
    ensures Split(s + [sep] + rest, sep) == [s] + Split(rest, sep)
  {
    var all := s + [sep] + rest;
    if s == "" {
      assert all[0] == sep && all[1..] == rest;
    } else {
      assert all[0] == s[0] && all[1..] == s[1..] + [sep] + rest && s == [s[0]] + s[1..];
      SplitFirst(s[1..], sep, rest);
    }
  }

  lemma {:induction false} SplitJoin(parts: seq<string>, sep: char)
    requires parts != [] && forall part <- parts :: sep !in part
    ensures Split(Join(parts, sep), sep) == parts
  {
    if |parts| == 1 {
      SplitPlain(parts[0], sep);
    } else {
      SplitFirst(parts[0], sep, Join(parts[1..], sep));
      SplitJoin(parts[1..], sep);
    }
  }

  function Decimal(n: nat): (r: string)
    ensures r != "" && AllDigits(r)
  {
    var digit := ['0' + (n % 10) as char];
    if n < 10 then digit else Decimal(n / 10) + digit
  }

  lemma {:induction false} DecimalValue(n: nat)
    ensures DigitsValue(Decimal(n)) == n
  {
    if n >= 10 {
      DecimalValue(n / 10);
      var s := Decimal(n);
      assert s[..|s| - 1] == Decimal(n / 10);
    }
  }

  /** The last digit. */
  lemma DigitsStep(s: string)
    requires s != "" && AllDigits(s)
    ensures var n := |s| - 1;
      && IsDigit(s[n]) && AllDigits(s[..n])
      && DigitsValue(s) == 10 * DigitsValue(s[..n]) + (s[n] as int - '0' as int)
      && '0' + (s[n] as int - '0' as int) as char == s[n]
    ensures DigitsValue("") == 0
  {
    assert s[|s| - 1] in s;
  }

  lemma DecimalSplits(v: nat, d: nat)
    requires d < 10
    ensures v > 0 ==> Decimal(10 * v + d) == Decimal(v) + ['0' + d as char]
    ensures v == 0 ==> Decimal(10 * v + d) == ['0' + d as char]
  {
    assert (10 * v + d) / 10 == v && (10 * v + d) % 10 == d;
  }

  /** Printing a number gives back its digits unless they start with a superfluous zero. */
  lemma {:induction false} DecimalOfValue(s: string)
    requires s != "" && AllDigits(s)
    ensures Decimal(DigitsValue(s)) == s <==> s[0] != '0' || s == "0"
    ensures s[0] != '0' ==> DigitsValue(s) > 0
    decreases |s|
  {
    hide Decimal, DigitsValue, AllDigits;
    var n := |s| - 1;
    DigitsStep(s);
    var p := s[..n];
    var d: nat, v := s[n] as int - '0' as int, DigitsValue(p);
    DecimalSplits(v, d);
    assert s == p + [s[n]];
    if n == 0 {
      assert p == "" && s == [s[0]];
    } else {
      DecimalOfValue(p);
      DigitsStep(p);
      assert p[0] == s[0] && (|p| == 1 ==> p[..0] == "" && p == [p[0]]);
      if v > 0 {
        assert (Decimal(v) + [s[n]])[..|Decimal(v)|] == Decimal(v);
        assert Decimal(v) + [s[n]] == s ==> Decimal(v) == p;
      }
    }
  }

  /** A number in base ten, with a sign if it is negative. */
  function Signed(n: int): (r: string)
    ensures r != ""
  {
    if n < 0 then "-" + Decimal(-n) else Decimal(n)
  }

  /** What is printed within 64 bits is read back, and what is not is refused. */
  lemma SignedReads(n: int)
    ensures Atoi(Signed(n)) == if -MAX_INT64 - 1 <= n <= MAX_INT64 then Some(n) else None
    ensures forall c <- Signed(n) :: c == '-' || IsDigit(c)
  {
    hide Decimal, DigitsValue;
    var digits := Decimal(if n < 0 then -n else n);
    DecimalValue(if n < 0 then -n else n);
    assert IsDigit(digits[0]);
    if n < 0 {
      assert Signed(n)[0] == '-' && Signed(n)[1..] == digits;
    }
  }

  /** A separator that does not occur after some place occurs there last. */
  lemma {:induction false} LastIndexAt(head: string, c: char, tail: string)
    requires c !in tail
    ensures LastIndex(head + [c] + tail, c) == Some(|head|)
    decreases |tail|
  {
    var s := head + [c] + tail;
    if tail == "" {
      assert s[|s| - 1] == c;
    } else {
      var n := |tail| - 1;
      assert s[|s| - 1] == tail[n] && tail[n] in tail;
      LastIndexAt(head, c, tail[..n]);
      assert s[..|s| - 1] == head + [c] + tail[..n];
    }
  }

  // ---------------------------------------------------------------- order

  /** Byte order of strings. */
  predicate LexLess(a: string, b: string) {
    b != "" && (a == "" || a[0] < b[0] || (a[0] == b[0] && LexLess(a[1..], b[1..])))
  }

  /** The texts agree up to `k`, where the first ends or has the smaller character. */
  ghost predicate LessAt(a: string, b: string, k: nat) {
    k <= |a| && k < |b| && (forall j :: 0 <= j < k ==> a[j] == b[j]) && (k < |a| ==> a[k] < b[k])
  }

  lemma {:induction false} LexMeans(a: string, b: string)
    ensures LexLess(a, b) <==> exists k: nat :: LessAt(a, b, k)
  {
    if a == "" || b == "" || a[0] != b[0] {
      assert LessAt(a, b, 0) <==> b != "" && (a == "" || a[0] < b[0]);
    } else {
      LexMeans(a[1..], b[1..]);
      if k: nat :| LessAt(a[1..], b[1..], k) {
        assert forall j :: 0 < j < k + 1 ==> a[j] == a[1..][j - 1] && b[j] == b[1..][j - 1];
        assert LessAt(a, b, k + 1);
      }
      if k: nat :| LessAt(a, b, k) {
        assert LessAt(a[1..], b[1..], k - 1);
      }
    }
  }

  lemma {:induction false} LexTotal(a: string, b: string)
    ensures a == b || LexLess(a, b) || LexLess(b, a)
    ensures !(LexLess(a, b) && LexLess(b, a)) && !LexLess(a, a)
  {
    if a != "" && b != "" {
      LexTotal(a[1..], b[1..]);
      assert a == [a[0]] + a[1..] && b == [b[0]] + b[1..];
    }
    if a != "" {
      LexTotal(a[1..], a[1..]);
    }
  }

  lemma {:induction false} LexTransitive(a: string, b: string, c: string)
    requires LexLess(a, b) && LexLess(b, c)
    ensures LexLess(a, c)
  {
    if a != "" && a[0] == b[0] == c[0] {
      LexTransitive(a[1..], b[1..], c[1..]);
    }
  }

  ghost predicate Ascending(s: seq<string>) {
    forall i, j :: 0 <= i < j < |s| ==> !LexLess(s[j], s[i])
  }

  function Inserted(x: string, s: seq<string>): seq<string> {
    if s == [] then [x] else if LexLess(s[0], x) then [s[0]] + Inserted(x, s[1..]) else [x] + s
  }

  /** The strings in order. */
  function Sorted(s: seq<string>): seq<string> {
    if s == [] then [] else Inserted(s[0], Sorted(s[1..]))
  }

  lemma {:induction false} InsertedAscends(x: string, s: seq<string>)
    requires Ascending(s)
    ensures Ascending(Inserted(x, s)) && multiset(Inserted(x, s)) == multiset(s) + multiset{x}
  {
    hide LexLess;
    if s != [] {
      assert s == [s[0]] + s[1..];
      var r := Inserted(x, s);
      if LexLess(s[0], x) {
        InsertedAscends(x, s[1..]);
        assert r[1..] == Inserted(x, s[1..]);
        forall j | 0 < j < |r|
          ensures !LexLess(r[j], r[0])
        {
          assert r[j] in multiset(r[1..]);
          LexTotal(s[0], x);
        }
      } else {
        forall j | 0 < j < |r|
          ensures !LexLess(r[j], r[0])
        {
          NotBelow(s[0], s[j - 1], x);
          assert j > 1 ==> !LexLess(s[j - 1], s[0]);
        }
      }
    }
  }

  lemma NotBelow(least: string, c: string, x: string)
    requires !LexLess(least, x) && (c == least || !LexLess(c, least))
    ensures !LexLess(c, x)
  {
    LexTotal(least, x);
    LexTotal(c, least);
    if LexLess(c, x) {
      LexTotal(c, x);
      if x == least {
      } else {
        LexTransitive(c, x, least);
      }
    }
  }

  lemma {:induction false} SortedAscends(s: seq<string>)
    ensures Ascending(Sorted(s)) && multiset(Sorted(s)) == multiset(s)
  {
    if s != [] {
      assert s == [s[0]] + s[1..];
      SortedAscends(s[1..]);
      InsertedAscends(s[0], Sorted(s[1..]));
    }
  }
}
