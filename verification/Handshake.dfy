/** The line a plugin prints to identify itself, and its parser. */
module Handshake {
  import opened Wrappers
  import opened Text

  const MARKER := "CP1"
  const BAR := '|'

  datatype Handshake = Handshake(
    marker: string, plugin: string, protocol: string, version: nat, transport: string, endpoint: string,
    rpc: string, launch: string, proof: string)
  {
    /** The fields as printed; an empty marker stands for the fixed one. */
    function Fields(): seq<string> {
      [if marker == "" then MARKER else marker, plugin, protocol + "=" + Decimal(version), transport, endpoint, rpc,
       launch, proof]
    }

    function Print(): string { Join(Fields(), BAR) }
  }

  predicate KnownProtocol(s: string) { s in ["driver", "application", "connector", "transform"] }

  predicate KnownTransport(s: string) { s in ["tcp", "unix", "bufconn"] }

  /** Is this "host:port"?  Addresses are not modelled. */
  type AddressCheck = string -> bool

  const MAX_VERSION: nat := 0xFFFF_FFFF

  function ParseVersion(v: string): Option<nat> {
    if v == "" || !AllDigits(v) || DigitsValue(v) == 0 || DigitsValue(v) > MAX_VERSION then None else Some(DigitsValue(v))
  }

  /** "protocol=version", cut at the first equals sign. */
  function ParseProtocol(field: string): Option<(string, nat)> {
    var parts := Split(field, '=');
    if |parts| < 2 || !KnownProtocol(parts[0]) then None
    else
      SplitCutsFirst(field, '=');
      var version := ParseVersion(field[|parts[0]| + 1..]);
      if version.None? then None else Some((parts[0], version.value))
  }

  function ParseFields(isAddress: AddressCheck, f: seq<string>): Option<Handshake> {
    if |f| != 8 || f[0] != MARKER then None
    else
      var protocol := ParseProtocol(f[2]);
      if protocol.None? || !KnownTransport(f[3]) || f[4] == "" || (f[3] == "tcp" && !isAddress(f[4])) || f[5] != "grpc"
         || f[6] == "" || f[7] == "" then None
      else Some(Handshake(f[0], f[1], protocol.value.0, protocol.value.1, f[3], f[4], f[5], f[6], f[7]))
  }

  function Parse(isAddress: AddressCheck, line: string): Option<Handshake> {
    ParseFields(isAddress, Split(TrimSpace(line), BAR))
  }

  /** What the parser demands of the fields of a handshake. */
  predicate WellFormed(isAddress: AddressCheck, h: Handshake) {
    && (h.marker == "" || h.marker == MARKER) && KnownProtocol(h.protocol) && 1 <= h.version <= MAX_VERSION
    && KnownTransport(h.transport) && h.endpoint != "" && (h.transport == "tcp" ==> isAddress(h.endpoint))
    && h.rpc == "grpc" && h.launch != "" && h.proof != ""
  }

  /** No field can be mistaken for two, and nothing is trimmed off the end. */
  predicate Printable(h: Handshake) {
    BAR !in h.plugin && BAR !in h.endpoint && BAR !in h.launch && BAR !in h.proof
    && (h.proof != "" ==> !IsSpace(h.proof[|h.proof| - 1]))
  }

  lemma {:induction false} SplitCutsFirst(s: string, sep: char)
    ensures var parts := Split(s, sep);
      && |parts[0]| <= |s| && parts[0] == s[..|parts[0]|]
      && (|parts| >= 2 ==> |parts[0]| < |s| && s[|parts[0]|] == sep)
      && (|parts| == 1 ==> parts[0] == s && sep !in s)
  {
    if s != "" && s[0] != sep {
      SplitCutsFirst(s[1..], sep);
      assert s == [s[0]] + s[1..];
    }
  }

  lemma {:induction false} SplitMany(s: string, sep: char, rest: string)
    ensures |Split(s + [sep] + rest, sep)| >= 2
  {
    var all := s + [sep] + rest;
    if s == "" {
      assert all[0] == sep && all[1..] == rest;
    } else {
      assert all[0] == s[0] && all[1..] == s[1..] + [sep] + rest;
      SplitMany(s[1..], sep, rest);
    }
  }

  lemma ProtocolsHaveNoBar(s: string)
    ensures KnownProtocol(s) ==> BAR !in s && '=' !in s
    ensures KnownTransport(s) ==> BAR !in s
  {
  }

  lemma DigitsAreVisible(s: string)
    requires AllDigits(s)
    ensures BAR !in s && '=' !in s
  {
    forall c | c in s
      ensures IsDigit(c)
    {
    }
  }

  lemma ProtocolRoundTrip(protocol: string, version: nat)
    requires KnownProtocol(protocol) && 1 <= version <= MAX_VERSION
    ensures ParseProtocol(protocol + "=" + Decimal(version)) == Some((protocol, version))
    ensures BAR !in protocol + "=" + Decimal(version)
  {
    hide Decimal, DigitsValue;
    ProtocolsHaveNoBar(protocol);
    DigitsAreVisible(Decimal(version));
    DecimalValue(version);
    var field := protocol + "=" + Decimal(version);
    assert field == protocol + ['='] + Decimal(version);
    SplitFirst(protocol, '=', Decimal(version));
    SplitMany(protocol, '=', Decimal(version));
    assert field[|protocol| + 1..] == Decimal(version);
    hide KnownProtocol;
  }

  /** A printed line keeps its first and its last character when trimmed. */
  lemma PrintIsTrimmed(isAddress: AddressCheck, h: Handshake)
    requires WellFormed(isAddress, h) && Printable(h)
    ensures TrimSpace(h.Print()) == h.Print()
  {
    hide Decimal, KnownProtocol, KnownTransport;
    var f := h.Fields();
    JoinFirst(f);
    JoinLast(f);
    var line := h.Print();
    assert line[0] == 'C';
    assert f[|f| - 1] == h.proof && line[|line| - 1] == h.proof[|h.proof| - 1];
    assert !IsSpace(line[0]);
    hide IsSpace;
  }

  lemma JoinFirst(parts: seq<string>)
    requires |parts| >= 2 && parts[0] != ""
    ensures Join(parts, BAR) != "" && Join(parts, BAR)[0] == parts[0][0]
  {
  }

  lemma {:induction false} JoinLast(parts: seq<string>)
    requires parts != [] && parts[|parts| - 1] != ""
    ensures var s, last := Join(parts, BAR), parts[|parts| - 1]; s != "" && s[|s| - 1] == last[|last| - 1]
  {
    if |parts| > 1 {
      JoinLast(parts[1..]);
    }
  }

  /** Printing and parsing a handshake gives it back, with the marker filled in. */
  lemma RoundTrip(isAddress: AddressCheck, h: Handshake)
    requires WellFormed(isAddress, h) && Printable(h)
    ensures Parse(isAddress, h.Print()) == Some(h.(marker := MARKER))
  {
    PrintIsTrimmed(isAddress, h);
    ProtocolRoundTrip(h.protocol, h.version);
    ProtocolsHaveNoBar(h.transport);
    hide TrimSpace, Decimal, Split, Join, ParseProtocol, KnownProtocol, KnownTransport;
    var f := h.Fields();
    forall part | part in f
      ensures BAR !in part
    {
      var i :| 0 <= i < 8 && f[i] == part;
    }
    SplitJoin(f, BAR);
  }

  /** A line that parses is well formed, and reprints to its trimmed self exactly if its version was
      written without leading zeros. */
  lemma ReprintsUnlessZeros(isAddress: AddressCheck, line: string)
    requires Parse(isAddress, line).Some?
    ensures var h := Parse(isAddress, line).value;
      var field := Split(TrimSpace(line), BAR)[2];
      && WellFormed(isAddress, h) && h.marker == MARKER
      && |Split(TrimSpace(line), BAR)| == 8 && |h.protocol| + 1 < |field|
      && (h.Print() == TrimSpace(line) <==> field[|h.protocol| + 1] != '0')
  {
    hide TrimSpace, Split, Join, ParseProtocol, Decimal;
    var s := TrimSpace(line);
    var f := Split(s, BAR);
    JoinSplit(s, BAR);
    var h := Parse(isAddress, line).value;
    ReprintsProtocol(f[2], h.protocol, h.version);
    var g := h.Fields();
    assert g == f[2 := h.protocol + "=" + Decimal(h.version)];
    if g[2] == f[2] {
      assert g == f;
    } else {
      if Join(g, BAR) == s {
        BarsStay(h, f, line);
      }
    }
  }

  lemma BarsStay(h: Handshake, f: seq<string>, line: string)
    requires f == Split(TrimSpace(line), BAR) && |f| == 8 && KnownProtocol(h.protocol)
    requires h.Fields() == f[2 := h.protocol + "=" + Decimal(h.version)] && Join(h.Fields(), BAR) == TrimSpace(line)
    ensures h.Fields() == f
  {
    hide TrimSpace, Split, Join, Decimal;
    ProtocolsHaveNoBar(h.protocol);
    DigitsAreVisible(Decimal(h.version));
    var g := h.Fields();
    forall part | part in g
      ensures BAR !in part
    {
      var i :| 0 <= i < 8 && g[i] == part;
      if i != 2 {
        assert part == f[i];
      }
    }
    SplitJoin(g, BAR);
  }

  lemma ReprintsProtocol(field: string, protocol: string, version: nat)
    requires ParseProtocol(field) == Some((protocol, version))
    ensures KnownProtocol(protocol) && 1 <= version <= MAX_VERSION && |protocol| + 1 < |field|
    ensures protocol + "=" + Decimal(version) == field <==> field[|protocol| + 1] != '0'
  {
    SplitCutsFirst(field, '=');
    ZeroValue();
    var digits := field[|protocol| + 1..];
    DecimalOfValue(digits);
    assert field == protocol + "=" + digits;
    hide Split, DigitsValue, Decimal, KnownProtocol;
    if protocol + "=" + Decimal(version) == field {
      assert (protocol + "=" + Decimal(version))[|protocol| + 1..] == Decimal(version);
    }
    assert digits[0] == field[|protocol| + 1];
  }

  lemma ZeroValue()
    ensures DigitsValue("0") == 0
  {
    assert "0"[..0] == "";
  }
}
