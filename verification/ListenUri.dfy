/** The listen URI of `datadog_serve`: parsing it and printing its canonical form. */
module ListenUri {
  import opened Prelude
  import opened Text
  import HexIds

  const DEFAULT_DATADOG_PORT: nat := 10518

  datatype Listener = Listener(host: string, ipv6: bool, port: nat)

  predicate IsAlnum(c: char) {
    IsDigit(c) || 'a' <= c <= 'z' || 'A' <= c <= 'Z'
  }

  predicate IsHostChar(c: char, ipv6: bool) {
    if ipv6 then HexIds.IsHexChar(c) || c == ':' || c == '.' || c == '%'
    else IsAlnum(c) || c == '-' || c == '.'
  }

  predicate IsHost(host: string, ipv6: bool) {
    forall i :: 0 <= i < |host| ==> IsHostChar(host[i], ipv6)
  }

  /** A port text must be read to its end; `std::stoi` allows blanks and a sign in front. */
  function PortOf(text: string): Option<nat> {
    match ScanInteger(text)
    case Some(scanned) =>
      if scanned.consumed == |text| && 1 <= scanned.value <= 65535 then Some(scanned.value) else None
    case None => None
  }

  function Bracketed(rest: string): Option<Listener>
    requires StartsWith(rest, "[")
  {
    var closing := Find(rest, ']', 0);
    if closing == |rest| || closing == 1 then None
    else
      var host, suffix := rest[1..closing], rest[closing + 1..];
      var port :=
        if suffix == "" then Some(DEFAULT_DATADOG_PORT)
        else if suffix[0] == ':' then PortOf(suffix[1..])
        else None;
      if port.Some? && IsHost(host, true) then Some(Listener(host, true, port.value)) else None
  }

  /** The port after the only colon, if there is a colon. */
  function PortAfter(rest: string, colon: nat): Option<nat>
    requires colon <= |rest|
  {
    if colon == |rest| then Some(DEFAULT_DATADOG_PORT)
    else if Find(rest, ':', colon + 1) < |rest| then None
    else PortOf(rest[colon + 1..])
  }

  function Named(rest: string): Option<Listener> {
    var colon := Find(rest, ':', 0);
    var host, port := rest[..colon], PortAfter(rest, colon);
    if port.Some? && host != "" && IsHost(host, false) then Some(Listener(host, false, port.value)) else None
  }

  /** What follows the scheme, "localhost" when nothing does. */
  function AfterScheme(text: string): Option<string> {
    var rest :=
      if StartsWith(text, "datadog://") then Some(text[10..])
      else if StartsWith(text, "datadog:") then Some(text[8..])
      else None;
    if rest == Some("") then Some("localhost") else rest
  }

  function Listen(input: string): Option<Listener> {
    match AfterScheme(Trim(input))
    case None => None
    case Some(rest) => if StartsWith(rest, "[") then Bracketed(rest) else Named(rest)
  }

  function HostText(l: Listener): string {
    if l.ipv6 then "[" + l.host + "]" else l.host
  }

  /** The registry key of a listener. */
  function Canonical(l: Listener): string {
    "datadog:" + HostText(l) + ":" + Decimal(l.port)
  }

  // ----- the parser -----

  method ParsePort(text: string) returns (port: Option<nat>)
    ensures port == PortOf(text)
  {
    var scanned := ScanInteger(text);
    if scanned.None? || scanned.value.value > 0x7FFF_FFFF || scanned.value.value < -0x8000_0000 {
      return None;
    }
    var value := scanned.value.value;
    if text == "" || scanned.value.consumed != |text| || value < 1 || value > 65535 {
      return None;
    }
    port := Some(value);
  }

  method CheckHost(host: string, ipv6: bool) returns (ok: bool)
    ensures ok <==> IsHost(host, ipv6)
  {
    for i := 0 to |host|
      invariant forall k :: 0 <= k < i ==> IsHostChar(host[k], ipv6)
    {
      if !IsHostChar(host[i], ipv6) {
        return false;
      }
    }
    ok := true;
  }

  method ParseBracketed(rest: string) returns (r: Option<Listener>)
    requires StartsWith(rest, "[")
    ensures r == Bracketed(rest)
  {
    var closing := Find(rest, ']', 0);
    if closing == |rest| || closing == 1 {
      return None;
    }
    var host, suffix := rest[1..closing], rest[closing + 1..];
    var port := Some(DEFAULT_DATADOG_PORT);
    if suffix != "" {
      if suffix[0] != ':' {
        return None;
      }
      port := ParsePort(suffix[1..]);
    }
    var ok := CheckHost(host, true);
    if port.None? || !ok {
      return None;
    }
    r := Some(Listener(host, true, port.value));
  }

  method ParsePortAfter(rest: string, colon: nat) returns (port: Option<nat>)
    requires colon <= |rest|
    ensures port == PortAfter(rest, colon)
  {
    port := Some(DEFAULT_DATADOG_PORT);
    if colon < |rest| {
      if Find(rest, ':', colon + 1) < |rest| {
        return None;
      }
      port := ParsePort(rest[colon + 1..]);
    }
  }

  method ParseNamed(rest: string) returns (r: Option<Listener>)
    ensures r == Named(rest)
  {
    var host := rest;
    var colon := Find(rest, ':', 0);
    var port := ParsePortAfter(rest, colon);
    if colon < |rest| {
      host := rest[..colon];
    }
    assert host == rest[..colon];
    var ok := CheckHost(host, false);
    if port.None? || host == "" || !ok {
      return None;
    }
    r := Some(Listener(host, false, port.value));
  }

  method DatadogListenUri(input: string) returns (r: Option<Listener>)
    ensures r == Listen(input)
  {
    var text := Trim(input);
    var rest: string;
    if StartsWith(text, "datadog://") {
      rest := text[10..];
    } else if StartsWith(text, "datadog:") {
      rest := text[8..];
    } else {
      return None;
    }
    if rest == "" {
      rest := "localhost";
    }
    if StartsWith(rest, "[") {
      r := ParseBracketed(rest);
    } else {
      r := ParseNamed(rest);
    }
  }

  // ----- identity of listeners -----

  predicate Valid(l: Listener) {
    1 <= l.port <= 65535 && l.host != "" && IsHost(l.host, l.ipv6)
  }

  lemma ListenTo(input: string, rest: string)
    requires AfterScheme(Trim(input)) == Some(rest)
    ensures StartsWith(rest, "[") ==> Listen(input) == Bracketed(rest)
    ensures !StartsWith(rest, "[") ==> Listen(input) == Named(rest)
  {
  }

  lemma BracketedIsValid(rest: string)
    requires StartsWith(rest, "[") && Bracketed(rest).Some?
    ensures Valid(Bracketed(rest).value)
  {
  }

  lemma NamedIsValid(rest: string)
    requires Named(rest).Some?
    ensures Valid(Named(rest).value)
  {
  }

  lemma ParsedIsValid(input: string)
    requires Listen(input).Some?
    ensures Valid(Listen(input).value)
  {
    var rest := AfterScheme(Trim(input)).value;
    ListenTo(input, rest);
    if StartsWith(rest, "[") {
      BracketedIsValid(rest);
    } else {
      NamedIsValid(rest);
    }
  }

  lemma PortRoundTrip(port: nat)
    requires 1 <= port <= 65535
    ensures PortOf(Decimal(port)) == Some(port)
    ensures Decimal(port) != "" && AllDigits(Decimal(port))
  {
    IntTextDenotes(port);
    StollOfIntegerText(IntText(port));
    DecimalDenotes(port);
  }

  lemma BracketPositions(host: string, tail: string)
    requires forall i :: 0 <= i < |host| ==> host[i] != ']'
    ensures var rest := "[" + host + "]" + tail;
            && StartsWith(rest, "[") && Find(rest, ']', 0) == |host| + 1
            && rest[1..|host| + 1] == host && rest[|host| + 2..] == tail
  {
    var rest := "[" + host + "]" + tail;
    assert rest[..1] == "[" && rest[|host| + 1] == ']';
    assert forall i :: 0 < i < |host| + 1 ==> rest[i] == host[i - 1];
  }

  lemma ColonPositions(host: string, tail: string)
    requires forall i :: 0 <= i < |host| ==> host[i] != ':'
    requires forall i :: 0 <= i < |tail| ==> tail[i] != ':'
    ensures var rest := host + ":" + tail;
            && Find(rest, ':', 0) == |host| && Find(rest, ':', |host| + 1) == |rest|
            && rest[..|host|] == host && rest[|host| + 1..] == tail
  {
    var rest := host + ":" + tail;
    assert rest[|host|] == ':';
    assert forall i :: 0 <= i < |host| ==> rest[i] == host[i];
    assert forall i :: |host| < i < |rest| ==> rest[i] == tail[i - |host| - 1];
  }

  lemma BracketedRoundTrip(host: string, port: nat, rest: string)
    requires Valid(Listener(host, true, port)) && rest == "[" + host + "]" + ":" + Decimal(port)
    ensures StartsWith(rest, "[") && Bracketed(rest) == Some(Listener(host, true, port))
  {
    var tail := ":" + Decimal(port);
    assert rest == "[" + host + "]" + tail;
    PortRoundTrip(port);
    BracketPositions(host, tail);
    assert tail[1..] == Decimal(port);
  }

  lemma NamedRoundTrip(host: string, port: nat, rest: string)
    requires Valid(Listener(host, false, port)) && rest == host + ":" + Decimal(port)
    ensures !StartsWith(rest, "[") && Named(rest) == Some(Listener(host, false, port))
  {
    PortRoundTrip(port);
    ColonPositions(host, Decimal(port));
    assert rest[..1][0] == host[0] && IsHostChar(host[0], false);
  }

  /** The canonical text keeps its shape through trimming and scheme removal. */
  lemma SchemeRoundTrip(rest: string)
    requires rest != "" && rest[0] != '/' && !IsSpace(rest[|rest| - 1])
    ensures AfterScheme(Trim("datadog:" + rest)) == Some(rest)
  {
    var text := "datadog:" + rest;
    assert text[0] == 'd' && text[|text| - 1] == rest[|rest| - 1];
    TrimIsIdentity(text);
    assert text[8] == rest[0] && "datadog://"[8] == '/';
    if |text| >= 10 {
      assert text[..10][8] == rest[0];
    }
    assert text[..8] == "datadog:" && text[8..] == rest;
  }

  lemma CanonicalShape(l: Listener)
    requires Valid(l)
    ensures var rest := HostText(l) + ":" + Decimal(l.port);
            rest != "" && rest[0] != '/' && !IsSpace(rest[|rest| - 1]) && Canonical(l) == "datadog:" + rest
            && rest[0] == (if l.ipv6 then '[' else l.host[0])
  {
    PortRoundTrip(l.port);
    var digits := Decimal(l.port);
    var rest := HostText(l) + ":" + digits;
    assert rest[|rest| - 1] == digits[|digits| - 1] && IsDigit(digits[|digits| - 1]);
    assert IsHostChar(l.host[0], l.ipv6);
    assert "datadog:" + (HostText(l) + ":" + digits) == "datadog:" + HostText(l) + ":" + digits;
  }

  lemma CanonicalRest(l: Listener)
    requires Valid(l)
    ensures AfterScheme(Trim(Canonical(l))) == Some(HostText(l) + ":" + Decimal(l.port))
  {
    CanonicalShape(l);
    SchemeRoundTrip(HostText(l) + ":" + Decimal(l.port));
  }

  /** Printing a listener and parsing the text gives the listener back. */
  lemma CanonicalRoundTrip(l: Listener)
    requires Valid(l)
    ensures Listen(Canonical(l)) == Some(l)
  {
    var rest := HostText(l) + ":" + Decimal(l.port);
    CanonicalRest(l);
    ListenTo(Canonical(l), rest);
    if l.ipv6 {
      BracketedRoundTrip(l.host, l.port, rest);
    } else {
      NamedRoundTrip(l.host, l.port, rest);
    }
  }

  lemma NamedDefault(host: string)
    requires host != "" && IsHost(host, false)
    ensures !StartsWith(host, "[") && Named(host) == Some(Listener(host, false, 10518))
  {
    assert IsHostChar(host[0], false) && forall i :: 0 <= i < |host| ==> host[i] != ':';
    assert host[..|host|] == host;
    assert host[..1][0] == host[0];
  }

  /** Without a port, or without anything, after the scheme, the intake's own port and host are meant. */
  lemma Defaults(host: string)
    requires host != "" && IsHost(host, false)
    ensures Listen("datadog:" + host) == Some(Listener(host, false, 10518))
    ensures Listen("datadog:") == Listen("datadog://") == Some(Listener("localhost", false, 10518))
  {
    NamedDefault(host);
    NamedDefault("localhost");
    assert IsHostChar(host[0], false) && IsHostChar(host[|host| - 1], false);
    SchemeRoundTrip(host);
    ListenTo("datadog:" + host, host);
    TrimIsIdentity("datadog:");
    TrimIsIdentity("datadog://");
    assert "datadog:"[8..] == "" == "datadog://"[10..];
    assert "datadog:"[..8] == "datadog:" && "datadog://"[..10] == "datadog://";
    ListenTo("datadog:", "localhost");
    ListenTo("datadog://", "localhost");
  }

  /** Two accepted URIs have the same registry key exactly when they name the same listener. */
  lemma KeyIdentifiesListener(a: string, b: string)
    requires Listen(a).Some? && Listen(b).Some?
    ensures Canonical(Listen(a).value) == Canonical(Listen(b).value) <==> Listen(a) == Listen(b)
    ensures Listen(Canonical(Listen(a).value)) == Listen(a)
  {
    ParsedIsValid(a);
    ParsedIsValid(b);
    CanonicalRoundTrip(Listen(a).value);
    CanonicalRoundTrip(Listen(b).value);
  }
}
