/** Endpoint strings (src/address.c) and the peer key built from an address
    (src/server_endpoint.c), with C strings ending at the first NUL. */
module Address {
  import opened Common

  const LONG_MAX: int := 0x7fff_ffff_ffff_ffff
  const LONG_MIN: int := -0x8000_0000_0000_0000

  // ----- decimal numbers -----

  predicate IsDigit(c: char) {
    '0' <= c <= '9'
  }

  function Digit(d: nat): (c: char)
    requires d < 10
    ensures IsDigit(c)
  {
    '0' + d as char
  }

  function DigitValue(c: char): nat
    requires IsDigit(c)
  {
    (c - '0') as nat
  }

  ghost predicate AllDigits(s: string) {
    forall i :: 0 <= i < |s| ==> IsDigit(s[i])
  }

  function Digits(n: nat): string {
    if n < 10 then [Digit(n)] else Digits(n / 10) + [Digit(n % 10)]
  }

  /** printf's %ld */
  function ToDecimal(n: int): string {
    if n < 0 then "-" + Digits(-n) else Digits(n)
  }

  function CountDigits(s: string): (n: nat)
    ensures n <= |s|
    ensures forall i :: 0 <= i < n ==> IsDigit(s[i])
    ensures n < |s| ==> !IsDigit(s[n])
  {
    if s == [] || !IsDigit(s[0]) then 0 else 1 + CountDigits(s[1..])
  }

  function ValueOf(s: string): nat
    requires forall i :: 0 <= i < |s| ==> IsDigit(s[i])
  {
    if s == [] then 0 else 10 * ValueOf(s[..|s| - 1]) + DigitValue(s[|s| - 1])
  }

  lemma {:induction false} DigitsRoundTrip(n: nat)
    ensures AllDigits(Digits(n)) && Digits(n) != [] && ValueOf(Digits(n)) == n
  {
    if n < 10 {
      assert Digits(n)[..0] == [];
    } else {
      DigitsRoundTrip(n / 10);
      var s := Digits(n);
      assert s[..|s| - 1] == Digits(n / 10);
    }
  }

  predicate IsSpace(c: char) {
    c == ' ' || '\t' <= c <= '\r'
  }

  function CountSpaces(s: string): (n: nat)
    ensures n <= |s|
    ensures forall i :: 0 <= i < n ==> IsSpace(s[i])
    ensures n < |s| ==> !IsSpace(s[n])
  {
    if s == [] || !IsSpace(s[0]) then 0 else 1 + CountSpaces(s[1..])
  }

  function Clamp(v: int): int {
    if v > LONG_MAX then LONG_MAX else if v < LONG_MIN then LONG_MIN else v
  }

  /** strtol in base 10: the value and how many characters it used; 0 if there is no number. */
  function Strtol(s: string): (r: (int, nat))
    ensures r.1 <= |s|
    ensures r.1 > 0 ==> IsDigit(s[r.1 - 1])
  {
    var blanks := CountSpaces(s);
    var signed := blanks < |s| && (s[blanks] == '-' || s[blanks] == '+');
    var start := if signed then blanks + 1 else blanks;
    var digits := CountDigits(s[start..]);
    if digits == 0 then (0, 0)
    else
      var v: int := ValueOf(s[start..][..digits]);
      (Clamp(if signed && s[blanks] == '-' then -v else v), start + digits)
  }

  lemma StrtolReadsDecimal(n: nat)
    requires n <= LONG_MAX
    ensures Strtol(Digits(n)) == (n, |Digits(n)|)
  {
    DigitsRoundTrip(n);
    var s := Digits(n);
    assert s[0..] == s;
    AllCounted(s);
    assert s[0..][..|s|] == s;
  }

  lemma {:induction false} AllCounted(s: string)
    requires AllDigits(s)
    ensures CountDigits(s) == |s|
  {
    if s != [] {
      AllCounted(s[1..]);
    }
  }

  // ----- endpoint strings -----

  /** strchr: the first occurrence. */
  function First(s: string, c: char): (r: Option<nat>)
    ensures r.Some? ==> r.value < |s| && s[r.value] == c && forall j :: 0 <= j < r.value ==> s[j] != c
    ensures r.None? ==> c !in s
  {
    if s == [] then None
    else if s[0] == c then Some(0)
    else
      var rest := First(s[1..], c);
      if rest.None? then None else Some(rest.value + 1)
  }

  /** strrchr: the last occurrence. */
  function Last(s: string, c: char): (r: Option<nat>)
    ensures r.Some? ==> r.value < |s| && s[r.value] == c && forall j :: r.value < j < |s| ==> s[j] != c
    ensures r.None? ==> c !in s
  {
    if s == [] then None
    else if s[|s| - 1] == c then Some(|s| - 1)
    else Last(s[..|s| - 1], c)
  }

  /** The end of php_quic_address_parse_endpoint: the port, if the text is one. */
  function ParsePort(s: string): (r: Option<nat>)
    ensures r.Some? ==> r.value <= 65535
  {
    var text := CString(s);
    if text == [] then None
    else
      var (v, used) := Strtol(text);
      if used != |text| || v < 0 || v > 65535 then None else Some(v)
  }

  function ParseEndpoint(s: string): Option<(string, nat)> {
    if s == [] then None
    else if s[0] == '[' then ParseBracketed(s)
    else ParseBare(s)
  }

  function ParseBracketed(s: string): Option<(string, nat)>
    requires s != [] && s[0] == '['
  {
    var closing := First(CString(s[1..]), ']');
    if closing.None? || closing.value == 0 then None
    else
      var after := closing.value + 2;
      if after >= |s| || s[after] != ':' then None
      else
        var port := ParsePort(s[after + 1..]);
        if port.None? then None else Some((s[1..closing.value + 1], port.value))
  }

  function ParseBare(s: string): Option<(string, nat)> {
    var c := CString(s);
    var sep := Last(c, ':');
    if sep.None? || sep.value == 0 || First(c, ':') != sep then None
    else
      var port := ParsePort(s[sep.value + 1..]);
      if port.None? then None else Some((s[..sep.value], port.value))
  }

  /** Whatever parses has a non-empty host without NUL and a port in range. */
  lemma ParsedIsAddress(s: string)
    ensures ParseEndpoint(s).Some? ==>
      var (host, port) := ParseEndpoint(s).value;
      host != "" && '\0' !in host && port <= 65535
  {
    if s != [] && s[0] == '[' {
      var c := CString(s[1..]);
      if First(c, ']').Some? {
        assert s[1..][..First(c, ']').value] == c[..First(c, ']').value];
        assert s[1..First(c, ']').value + 1] == s[1..][..First(c, ']').value];
      }
    } else if s != [] {
      var c := CString(s);
      if Last(c, ':').Some? {
        assert s[..Last(c, ':').value] == c[..Last(c, ':').value];
      }
    }
  }

  lemma PrintedPortParses(port: nat)
    requires port <= 65535
    ensures ParsePort(ToDecimal(port)) == Some(port)
    ensures AllDigits(ToDecimal(port)) && '\0' !in ToDecimal(port)
  {
    DigitsRoundTrip(port);
    CStringIdentity(ToDecimal(port));
    StrtolReadsDecimal(port);
  }

  function PrintBare(host: string, port: nat): string {
    host + ":" + ToDecimal(port)
  }

  function PrintBracketed(host: string, port: nat): string {
    "[" + host + "]:" + ToDecimal(port)
  }

  lemma FirstIs(s: string, c: char, k: nat)
    requires k < |s| && s[k] == c && forall j :: 0 <= j < k ==> s[j] != c
    ensures First(s, c) == Some(k)
  {
    assert c in s;
  }

  lemma LastIs(s: string, c: char, k: nat)
    requires k < |s| && s[k] == c && forall j :: k < j < |s| ==> s[j] != c
    ensures Last(s, c) == Some(k)
  {
    assert c in s;
  }

  lemma BareParses(host: string, port: nat)
    requires '\0' !in host && port <= 65535 && (host == "" || host[0] != '[')
    ensures ParseEndpoint(PrintBare(host, port)) ==
      if host != "" && ':' !in host then Some((host, port)) else None
  {
    PrintedPortParses(port);
    var s := PrintBare(host, port);
    CStringIdentity(s);
    LastColon(host, ToDecimal(port));
    FirstColon(host, ToDecimal(port));
    BareSplits(s, host, ToDecimal(port));
  }

  lemma FirstColon(host: string, text: string)
    ensures First(host + ":" + text, ':') == Some(|host|) <==> ':' !in host
  {
    var s := host + ":" + text;
    if ':' !in host {
      forall j | 0 <= j < |host| ensures s[j] != ':' {
        assert s[j] == host[j];
      }
      FirstIs(s, ':', |host|);
    } else {
      assert s[..|host|] == host;
      FoundEarly(s, ':', |host|);
    }
  }

  lemma BareSplits(s: string, host: string, text: string)
    requires s == host + ":" + text && CString(s) == s && s[0] != '['
    requires Last(s, ':') == Some(|host|) && (First(s, ':') == Some(|host|) <==> ':' !in host)
    ensures ParseEndpoint(s) == if host == "" || ':' in host || ParsePort(text).None? then None
      else Some((host, ParsePort(text).value))
  {
    assert s[|host| + 1..] == text && s[..|host|] == host;
  }

  lemma {:induction false} LastColon(host: string, text: string)
    requires ':' !in text
    ensures Last(host + ":" + text, ':') == Some(|host|)
  {
    var s, n := host + ":" + text, |text|;
    if n > 0 {
      assert s[|s| - 1] == text[n - 1] && s[..|s| - 1] == host + ":" + text[..n - 1];
      LastColon(host, text[..n - 1]);
    }
  }

  /** An occurrence within the first `n` characters is found there. */
  lemma FoundEarly(s: string, c: char, n: nat)
    requires n <= |s| && c in s[..n]
    ensures First(s, c).Some? && First(s, c).value < n
  {
    var k :| 0 <= k < n && s[..n][k] == c;
    assert s[k] == c;
  }

  lemma BracketedFormParses(host: string, port: nat)
    requires '\0' !in host && port <= 65535
    ensures ParseEndpoint(PrintBracketed(host, port)) ==
      if host != "" && ']' !in host then Some((host, port)) else None
  {
    PrintedPortParses(port);
    if ']' !in host {
      BracketedParses(host, ToDecimal(port), port);
    } else {
      InnerBracketRefused(PrintBracketed(host, port), host, ToDecimal(port));
    }
  }

  lemma BracketedParses(host: string, text: string, port: nat)
    requires '\0' !in host && ']' !in host && '\0' !in text && ParsePort(text) == Some(port)
    ensures ParseEndpoint("[" + host + "]:" + text) == if host != "" then Some((host, port)) else None
  {
    var s := "[" + host + "]:" + text;
    var tail := host + "]" + (":" + text);
    assert s == "[" + tail;
    CStringIdentity(tail);
    FirstBracket(host, ":" + text);
    BracketedSplits(tail, host, text);
  }

  lemma BracketedSplits(tail: string, host: string, text: string)
    requires tail == host + "]" + (":" + text) && CString(tail) == tail && First(tail, ']') == Some(|host|)
    ensures ParseEndpoint("[" + tail) == if host == "" || ParsePort(text).None? then None
      else Some((host, ParsePort(text).value))
  {
    hide Strtol, CString;
    var s := "[" + tail;
    assert s[1..] == tail;
    var after := |host| + 2;
    assert s[after] == ':' && s[after + 1..] == text;
    assert tail[..|host|] == host && s[1..|host| + 1] == tail[..|host|];
  }

  lemma InnerBracketRefused(s: string, host: string, text: string)
    requires '\0' !in s && s == "[" + host + "]:" + text && ']' in host
    ensures ParseEndpoint(s).None?
  {
    CStringIdentity(s[1..]);
    assert s[1..][..|host|] == host;
    FoundEarly(s[1..], ']', |host|);
    InnerBracketFails(s, First(s[1..], ']').value + 3, |host| + 1);
  }

  lemma FirstBracket(host: string, rest: string)
    requires ']' !in host
    ensures First(host + "]" + rest, ']') == Some(|host|)
  {
    var s := host + "]" + rest;
    forall j | 0 <= j < |host| ensures s[j] != ']' {
      assert s[j] == host[j];
    }
    FirstIs(s, ']', |host|);
  }

  lemma PortHasNoBracket(text: string, blanks: nat, signed: bool, v: int, k: nat)
    requires PortText(text, blanks, signed, v) && k < |text|
    ensures text[k] != ']'
  {
    var start := if signed then blanks + 1 else blanks;
    if k >= start {
      assert text[start..][k - start] == text[k];
    }
  }

  /** A port text in which a bracket still follows is no port. */
  lemma InnerBracketFails(s: string, from: nat, bracket: nat)
    requires bracket < |s| && s[bracket] == ']' && '\0' !in s
    ensures from <= bracket ==> ParsePort(s[from..]).None?
  {
    hide Strtol, PortText;
    if from <= bracket {
      var text := s[from..];
      CStringIdentity(text);
      if Strtol(text).1 == |text| {
        StrtolUsesAll(text);
        var blanks, signed, v :| PortText(text, blanks, signed, v);
        PortHasNoBracket(text, blanks, signed, v, bracket - from);
        assert false;
      }
    }
  }

  // ----- exactly what is accepted -----

  function Signed(negative: bool, n: int): int {
    if negative then -n else n
  }

  /** Blanks up to `blanks`, then at most one sign, then digits only; and the number. */
  ghost predicate PortText(text: string, blanks: nat, signed: bool, v: int) {
    var start := if signed then blanks + 1 else blanks;
    && start < |text|
    && (forall i :: 0 <= i < blanks ==> IsSpace(text[i]))
    && (signed ==> text[blanks] == '+' || text[blanks] == '-')
    && AllDigits(text[start..])
    && v == Signed(signed && text[blanks] == '-', ValueOf(text[start..]))
  }

  lemma {:induction false} SpacesCounted(text: string, blanks: nat)
    requires blanks < |text| && !IsSpace(text[blanks])
    requires forall i :: 0 <= i < blanks ==> IsSpace(text[i])
    ensures CountSpaces(text) == blanks
  {
    if blanks > 0 {
      SpacesCounted(text[1..], blanks - 1);
    }
  }

  lemma StrtolReads(text: string, blanks: nat, signed: bool, v: int)
    requires PortText(text, blanks, signed, v)
    ensures Strtol(text) == (Clamp(v), |text|)
  {
    var digits := text[if signed then blanks + 1 else blanks..];
    assert digits[0] == text[if signed then blanks + 1 else blanks];
    SpacesCounted(text, blanks);
    AllCounted(digits);
    assert digits[..|digits|] == digits;
  }

  lemma StrtolUsesAll(text: string)
    requires Strtol(text).1 == |text| > 0
    ensures exists blanks, signed, v :: PortText(text, blanks, signed, v) && Strtol(text).0 == Clamp(v)
  {
    var b := CountSpaces(text);
    var signed := b < |text| && (text[b] == '-' || text[b] == '+');
    var digits := text[if signed then b + 1 else b..];
    assert digits[..CountDigits(digits)] == digits;
    var v := Signed(signed && text[b] == '-', ValueOf(digits));
    assert PortText(text, b, signed, v);
  }

  lemma PortIsPortText(text: string, v: nat)
    requires ParsePort(text) == Some(v)
    ensures v <= 65535 && exists blanks, signed :: PortText(CString(text), blanks, signed, v)
  {
    hide Strtol, PortText;
    StrtolUsesAll(CString(text));
  }

  lemma PortTextIsPort(text: string, blanks: nat, signed: bool, v: nat)
    requires v <= 65535 && PortText(CString(text), blanks, signed, v)
    ensures ParsePort(text) == Some(v)
  {
    hide Strtol;
    StrtolReads(CString(text), blanks, signed, v);
  }

  /** A text is a port exactly if up to its first NUL it is blanks, at most one sign and
      digits, with a value in range. So the decimal form is not the only one. */
  lemma {:induction false} PortTextIff(text: string, v: nat)
    ensures ParsePort(text) == Some(v) <==>
      v <= 65535 && exists blanks, signed :: PortText(CString(text), blanks, signed, v)
  {
    hide ParsePort, PortText;
    if ParsePort(text) == Some(v) {
      PortIsPortText(text, v);
    }
    forall blanks, signed | v <= 65535 && PortText(CString(text), blanks, signed, v) ensures ParsePort(text) == Some(v) {
      PortTextIsPort(text, blanks, signed, v);
    }
  }

  /** The two accepted forms. */
  ghost predicate Endpoint(s: string, host: string, text: string) {
    || (s == "[" + host + "]:" + text && ']' !in host)
    || (s == host + ":" + text && ':' !in host && ':' !in text && (host == "" || host[0] != '['))
  }

  lemma CutAt(s: string, k: nat)
    requires k < |s|
    ensures s == s[..k] + [s[k]] + s[k + 1..]
  {
  }

  lemma CutBracketed(s: string, k: nat)
    requires k + 2 < |s| && s[0] == '[' && s[k + 1] == ']' && s[k + 2] == ':'
    ensures s == "[" + s[1..k + 1] + "]:" + s[k + 3..]
  {
    assert s == [s[0]] + s[1..k + 1] + [s[k + 1], s[k + 2]] + s[k + 3..];
  }

  lemma {:induction false} ParsedBracketed(s: string) returns (text: string)
    requires '\0' !in s && s != "" && s[0] == '[' && ParseBracketed(s).Some?
    ensures var (host, port) := ParseBracketed(s).value;
      host != "" && Endpoint(s, host, text) && ParsePort(text) == Some(port)
  {
    CStringIdentity(s[1..]);
    var k := First(s[1..], ']').value;
    var host := s[1..k + 1];
    text := s[k + 3..];
    assert ']' !in host by {
      assert host == s[1..][..k];
    }
    assert s[1..][k] == s[k + 1];
    CutBracketed(s, k);
  }

  lemma {:induction false} ParsedBare(s: string) returns (text: string)
    requires '\0' !in s && s != "" && s[0] != '[' && ParseBare(s).Some?
    ensures var (host, port) := ParseBare(s).value;
      host != "" && Endpoint(s, host, text) && ParsePort(text) == Some(port)
  {
    CStringIdentity(s);
    var k := Last(s, ':').value;
    var host := s[..k];
    text := s[k + 1..];
    assert forall j :: 0 <= j < |text| ==> text[j] == s[k + 1 + j];
    CutAt(s, k);
  }

  lemma FormParses(s: string, host: string, text: string, port: nat)
    requires '\0' !in s && host != "" && Endpoint(s, host, text) && ParsePort(text) == Some(port)
    ensures ParseEndpoint(s) == Some((host, port))
  {
    if s == "[" + host + "]:" + text && ']' !in host {
      assert '\0' !in host && '\0' !in text by {
        assert forall i :: 0 <= i < |host| ==> host[i] == s[i + 1];
        assert forall i :: 0 <= i < |text| ==> text[i] == s[i + |host| + 3];
      }
      BracketedParses(host, text, port);
    } else {
      CStringIdentity(s);
      LastColon(host, text);
      FirstColon(host, text);
      assert s[0] == host[0];
      BareSplits(s, host, text);
    }
  }

  lemma {:induction false} CleanAcceptedIff(s: string, host: string, port: nat)
    requires '\0' !in s
    ensures ParseEndpoint(s) == Some((host, port)) <==>
      host != "" && exists text :: Endpoint(s, host, text) && ParsePort(text) == Some(port)
  {
    if ParseEndpoint(s) == Some((host, port)) {
      if s[0] == '[' {
        var _ := ParsedBracketed(s);
      } else {
        var _ := ParsedBare(s);
      }
    }
    forall text | host != "" && Endpoint(s, host, text) && ParsePort(text) == Some(port)
      ensures ParseEndpoint(s) == Some((host, port))
    {
      FormParses(s, host, text, port);
    }
  }

  lemma {:induction false} TailOfC(s: string, k: nat)
    requires k <= |CString(s)|
    ensures CString(s[k..]) == CString(s)[k..]
  {
    if k == 0 {
      assert s[0..] == s;
    } else {
      TailOfC(s[1..], k - 1);
      assert s[1..][k - 1..] == s[k..] && CString(s)[1..] == CString(s[1..]);
    }
  }

  lemma PortSeesC(s: string, k: nat)
    requires k <= |CString(s)|
    ensures ParsePort(s[k..]) == ParsePort(CString(s)[k..])
  {
    hide Strtol;
    TailOfC(s, k);
    CStringIdentity(CString(s)[k..]);
  }

  lemma BareSeesC(s: string)
    ensures ParseBare(s) == ParseBare(CString(s))
  {
    hide ParsePort, CString;
    var c := CString(s);
    CStringIdentity(c);
    var sep := Last(c, ':');
    if sep.Some? {
      PortSeesC(s, sep.value + 1);
      assert s[..sep.value] == c[..sep.value];
    }
  }

  lemma BracketedSeesC(s: string)
    requires s != "" && s[0] == '[' && CString(s) != "" && CString(s)[0] == '['
    ensures ParseBracketed(s) == ParseBracketed(CString(s))
  {
    hide ParsePort, CString;
    var c := CString(s);
    TailOfC(s, 1);
    CStringIdentity(c[1..]);
    var closing := First(c[1..], ']');
    if closing.Some? && closing.value > 0 {
      var after := closing.value + 2;
      assert after <= |c| && s[1..closing.value + 1] == c[1..closing.value + 1];
      if after < |s| && s[after] == ':' {
        assert after < |c|;
        PortSeesC(s, after + 1);
      } else if after < |c| {
        assert s[after] == c[after];
      }
    }
  }

  /** As everywhere in C, the text ends at the first NUL. */
  lemma ParserSeesC(s: string)
    ensures ParseEndpoint(s) == ParseEndpoint(CString(s))
  {
    hide ParseBare, ParseBracketed;
    if s != "" && s[0] == '\0' {
      NothingParses(s);
    } else if s != "" && s[0] == '[' {
      BracketedSeesC(s);
    } else if s != "" {
      BareSeesC(s);
    }
  }

  lemma NothingParses(s: string)
    requires s != "" && s[0] == '\0'
    ensures ParseBare(s).None? && CString(s) == ""
  {
  }

  /** An endpoint is accepted exactly if up to its first NUL it has one of the two forms with
      a host that is not empty and a port; then these are the result. */
  lemma {:induction false} AcceptedIff(s: string, host: string, port: nat)
    ensures ParseEndpoint(s) == Some((host, port)) <==>
      host != "" && exists text :: Endpoint(CString(s), host, text) && ParsePort(text) == Some(port)
  {
    hide ParseEndpoint, ParsePort, Endpoint;
    ParserSeesC(s);
    CleanAcceptedIff(CString(s), host, port);
  }

  // ----- printed endpoints -----

  lemma BareWithBracket(host: string, port: nat)
    requires '\0' !in host && host != "" && host[0] == '[' && port <= 65535
    ensures ParseEndpoint(PrintBare(host, port)) != Some((host, port))
  {
    hide ParseEndpoint, ParsePort, ToDecimal;
    var s, dec := PrintBare(host, port), ToDecimal(port);
    PrintedPortParses(port);
    DecimalMeans(port);
    CStringIdentity(s);
    if ParseEndpoint(s) == Some((host, port)) {
      CleanAcceptedIff(s, host, port);
      var text :| Endpoint(s, host, text) && ParsePort(text) == Some(port);
      NoBracketBehind(host, text, dec);
    }
  }

  /** The two forms do not meet: a digit is no bracket. */
  lemma NoBracketBehind(host: string, text: string, dec: string)
    requires dec != "" && IsDigit(dec[0])
    ensures "[" + host + "]:" + text != host + ":" + dec
  {
    var s := host + ":" + dec;
    assert s[|host| + 1] == dec[0];
    assert ("[" + host + "]:" + text)[|host| + 1] == ']';
  }

  lemma RefusedWithNul(s: string, host: string, port: nat)
    requires '\0' in host
    ensures ParseEndpoint(s) != Some((host, port))
  {
    ParsedIsAddress(s);
  }

  /** The form host:port is read back exactly if the host is not empty, has neither a colon
      nor a NUL, and does not start with an opening bracket. */
  lemma {:induction false} BareRoundTrip(host: string, port: nat)
    requires port <= 65535
    ensures ParseEndpoint(PrintBare(host, port)) == Some((host, port)) <==>
      host != "" && ':' !in host && host[0] != '[' && '\0' !in host
  {
    hide ParseEndpoint, PrintBare;
    if '\0' in host {
      RefusedWithNul(PrintBare(host, port), host, port);
    } else if host == "" || host[0] != '[' {
      BareParses(host, port);
    } else {
      BareWithBracket(host, port);
    }
  }

  /** The form [host]:port is read back exactly if the host is not empty and has neither a
      closing bracket nor a NUL. */
  lemma {:induction false} BracketedRoundTrip(host: string, port: nat)
    requires port <= 65535
    ensures ParseEndpoint(PrintBracketed(host, port)) == Some((host, port)) <==>
      host != "" && ']' !in host && '\0' !in host
  {
    hide ParseEndpoint, PrintBracketed;
    if '\0' in host {
      RefusedWithNul(PrintBracketed(host, port), host, port);
    } else {
      BracketedFormParses(host, port);
    }
  }

  /** The exception occurs: a bare host in brackets is read back without them. */
  lemma BareBracketCounterexample()
    ensures ParseEndpoint(PrintBare("[a]", 80)) == Some(("a", 80)) && PrintBare("[a]", 80) == PrintBracketed("a", 80)
  {
    hide ParseEndpoint;
    assert PrintBare("[a]", 80) == PrintBracketed("a", 80);
    BracketedFormParses("a", 80);
  }

  // ----- the endpoint's peer key -----

  /** connection_key: nothing for an empty host; %s prints the host up to its first NUL. */
  function ConnectionKey(host: string, port: int): Option<string> {
    if host == "" then None else Some(CString(host) + "|" + ToDecimal(port))
  }

  lemma {:induction false} DecimalHasNoBar(n: nat)
    ensures '|' !in Digits(n)
  {
    if n >= 10 {
      DecimalHasNoBar(n / 10);
    }
  }

  lemma DecimalMeans(n: int)
    ensures var s := ToDecimal(n);
      if n < 0 then s != "" && s[0] == '-' && AllDigits(s[1..]) && ValueOf(s[1..]) == -n
      else s != "" && AllDigits(s) && ValueOf(s) == n
  {
    hide Digits, ValueOf;
    DigitsRoundTrip(if n < 0 then -n else n);
    if n < 0 {
      assert ToDecimal(n)[1..] == Digits(-n);
    }
  }

  lemma ToDecimalInjective(m: int, n: int)
    requires ToDecimal(m) == ToDecimal(n)
    ensures m == n
  {
    hide ToDecimal, ValueOf;
    DecimalMeans(m);
    DecimalMeans(n);
  }

  /** The text splits at its last bar. */
  lemma SplitAtBar(a: string, p: string, b: string, q: string)
    requires a + "|" + p == b + "|" + q && '|' !in p && '|' !in q
    ensures a == b && p == q
  {
    var s := a + "|" + p;
    assert s[|a| + 1..] == p && s[..|a|] == a;
    assert s[|b| + 1..] == q && s[..|b|] == b;
    assert forall j :: |a| < j < |s| ==> s[j] == p[j - |a| - 1];
    assert forall j :: |b| < j < |s| ==> s[j] == q[j - |b| - 1];
    LastIs(s, '|', |a|);
    LastIs(s, '|', |b|);
  }

  lemma BarFree(n: int)
    ensures '|' !in ToDecimal(n)
  {
    DecimalHasNoBar(if n < 0 then -n else n);
  }

  /** Two peers get the same key exactly if they agree on the port and on the host up to
      its first NUL; so for hosts without NUL the key identifies the peer. */
  lemma {:induction false} KeysEqualIff(host: string, port: int, host': string, port': int)
    requires host != "" && host' != ""
    ensures ConnectionKey(host, port) == ConnectionKey(host', port') <==>
      CString(host) == CString(host') && port == port'
    ensures '\0' !in host && '\0' !in host' && ConnectionKey(host, port) == ConnectionKey(host', port')
      ==> host == host' && port == port'
  {
    BarFree(port);
    BarFree(port');
    if ConnectionKey(host, port) == ConnectionKey(host', port') {
      SplitAtBar(CString(host), ToDecimal(port), CString(host'), ToDecimal(port'));
      ToDecimalInjective(port, port');
    }
    if '\0' !in host && '\0' !in host' {
      CStringIdentity(host);
      CStringIdentity(host');
    }
  }

  /** The exception occurs: two different peers that share a key. */
  lemma SharedKeyCounterexample()
    ensures var host, host' := "10.0.0.1", "10.0.0.1\0x";
      host != host' && ConnectionKey(host, 443) == ConnectionKey(host', 443)
  {
    var host := "10.0.0.1";
    CutAtNul(host, "x");
    CStringIdentity(host);
    assert host + "\0" + "x" == "10.0.0.1\0x";
  }

  lemma {:induction false} CutAtNul(host: string, rest: string)
    requires '\0' !in host
    ensures CString(host + "\0" + rest) == host
  {
    if host == "" {
      assert host + "\0" + rest == "\0" + rest;
    } else {
      assert (host + "\0" + rest)[1..] == host[1..] + "\0" + rest;
      CutAtNul(host[1..], rest);
    }
  }
}
