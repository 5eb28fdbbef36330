/** `parseBrokerUrl`, the URLs that the configuration loader prints, and how they fit together. */
module BrokerUrl {
  import opened Prelude

  datatype BrokerAddress = BrokerAddress(host: string, port: u16, useTls: bool)

  // ---- The library calls it makes ----

  predicate OccursAt(s: string, pattern: string, i: nat) {
    i + |pattern| <= |s| && s[i..i + |pattern|] == pattern
  }

  /** `s.find(pattern)`: the first occurrence, if any. */
  function Find(s: string, pattern: string): (r: Option<nat>)
    ensures r.Some? ==> OccursAt(s, pattern, r.value)
    ensures forall i: nat :: i < (if r.Some? then r.value else |s| + 1) ==> !OccursAt(s, pattern, i)
  {
    FindFrom(s, pattern, 0)
  }

  function FindFrom(s: string, pattern: string, from: nat): (r: Option<nat>)
    ensures r.Some? ==> from <= r.value && OccursAt(s, pattern, r.value)
    ensures forall i: nat :: from <= i < (if r.Some? then r.value else |s| + 1) ==> !OccursAt(s, pattern, i)
    decreases |s| - from
  {
    if from + |pattern| > |s| then None
    else if OccursAt(s, pattern, from) then Some(from)
    else FindFrom(s, pattern, from + 1)
  }

  /** `s.rfind(c)`. */
  function RFind(s: string, c: char): (r: Option<nat>)
    ensures r.Some? ==> r.value < |s| && s[r.value] == c && c !in s[r.value + 1..]
    ensures r.None? ==> c !in s
  {
    if s == "" then None
    else if s[|s| - 1] == c then Some(|s| - 1)
    else RFind(s[..|s| - 1], c)
  }

  predicate IsDigit(c: char) { '0' <= c <= '9' }

  function DigitOf(c: char): nat
    requires IsDigit(c)
  {
    c as int - '0' as int
  }

  /** The value of the longest run of digits at the head of `s`, after digits worth `acc`. */
  function DigitsValue(s: string, acc: nat): nat {
    if s != "" && IsDigit(s[0]) then DigitsValue(s[1..], 10 * acc + DigitOf(s[0])) else acc
  }

  function SkipSpace(s: string): string {
    if s != "" && s[0] in {' ', '\t', '\n', '\r', 11 as char, 12 as char} then SkipSpace(s[1..]) else s
  }

  /** `std::stoi`: None is its invalid_argument or out_of_range exception. */
  function StoI(s: string): Option<int> {
    var t := SkipSpace(s);
    var negative := t != "" && t[0] == '-';
    var digits := if t != "" && t[0] in {'-', '+'} then t[1..] else t;
    if digits == "" || !IsDigit(digits[0]) then None
    else
      var v: int := DigitsValue(digits, 0);
      var v := if negative then -v else v;
      if -0x8000_0000 <= v < 0x8000_0000 then Some(v) else None
  }

  /** `std::to_string`. */
  function PrintNat(n: nat): string {
    if n < 10 then [(n + '0' as int) as char] else PrintNat(n / 10) + PrintNat(n % 10)
  }

  function PrintInt(n: int): string { if n < 0 then "-" + PrintNat(-n) else PrintNat(n) }

  // ---- The parser and the printer ----

  /** What is left of the scheme, and whether it names TLS. */
  function SplitScheme(url: string): (bool, string) {
    match Find(url, "://")
    case None => (false, url)
    case Some(i) => (url[..i] == "ssl" || url[..i] == "tls", url[i + 3..])
  }

  function StripPath(rest: string): string {
    match Find(rest, "/")
    case None => rest
    case Some(i) => rest[..i]
  }

  function SplitHostPort(authority: string, useTls: bool): BrokerAddress {
    var defaultPort: u16 := if useTls then 8883 else 1883;
    match RFind(authority, ':')
    case None => BrokerAddress(authority, defaultPort, useTls)
    case Some(colon) =>
      var port := StoI(authority[colon + 1..]);
      BrokerAddress(authority[..colon], if port.Some? then port.value % 0x1_0000 else defaultPort, useTls)
  }

  function ParsedBrokerUrl(url: string): BrokerAddress {
    var (useTls, rest) := SplitScheme(url);
    SplitHostPort(StripPath(rest), useTls)
  }

  method ParseBrokerUrl(url: string) returns (addr: BrokerAddress)
    ensures addr == ParsedBrokerUrl(url)
  {
    hide Find;
    hide RFind;
    hide StoI;
    addr := BrokerAddress("", 1883, false);

    var rest := url;
    var schemeEnd := Find(url, "://");
    if schemeEnd.Some? {
      var scheme := url[..schemeEnd.value];
      if scheme == "ssl" || scheme == "tls" {
        addr := addr.(useTls := true, port := 8883);
      }
      rest := url[schemeEnd.value + 3..];
    }
    assert (addr.useTls, rest) == SplitScheme(url);

    var slashPos := Find(rest, "/");
    if slashPos.Some? { rest := rest[..slashPos.value]; }

    var colonPos := RFind(rest, ':');
    if colonPos.Some? {
      addr := addr.(host := rest[..colonPos.value]);
      var port := StoI(rest[colonPos.value + 1..]);
      if port.Some? { addr := addr.(port := port.value % 0x1_0000); }
    } else {
      addr := addr.(host := rest);
    }
  }

  /** The URL that the configuration loader pushes for a host and port. */
  function BrokerUrlOf(useTls: bool, host: string, port: int): string {
    (if useTls then "ssl" else "tcp") + "://" + host + ":" + PrintInt(port)
  }

  // ---- Decimal printing and parsing ----

  predicate AllDigits(s: string) { forall i :: 0 <= i < |s| ==> IsDigit(s[i]) }

  lemma {:induction false} DigitsValueAppend(s: string, c: char, acc: nat)
    requires AllDigits(s) && IsDigit(c)
    ensures DigitsValue(s + [c], acc) == 10 * DigitsValue(s, acc) + DigitOf(c)
  {
    if s == "" {
      assert s + [c] == [c] && [c][1..] == "";
    } else {
      DigitsValueAppend(s[1..], c, 10 * acc + DigitOf(s[0]));
      assert (s + [c])[1..] == s[1..] + [c];
    }
  }

  lemma {:induction false} PrintNatReadsBack(n: nat)
    ensures PrintNat(n) != "" && AllDigits(PrintNat(n)) && DigitsValue(PrintNat(n), 0) == n
  {
    if n < 10 {
      assert PrintNat(n)[1..] == "";
    } else {
      PrintNatReadsBack(n / 10);
      var c := (n % 10 + '0' as int) as char;
      assert PrintNat(n) == PrintNat(n / 10) + [c];
      DigitsValueAppend(PrintNat(n / 10), c, 0);
    }
  }

  lemma PrintIntReadsBack(n: int)
    requires -0x8000_0000 <= n < 0x8000_0000
    ensures StoI(PrintInt(n)) == Some(n)
    ensures ':' !in PrintInt(n) && '/' !in PrintInt(n)
  {
    PrintNatReadsBack(if n < 0 then -n else n);
    assert n < 0 ==> PrintInt(n)[1..] == PrintNat(-n);
  }

  // ---- The round trip ----

  lemma {:induction false} RFindLast(a: string, c: char, b: string)
    requires c !in b
    ensures RFind(a + [c] + b, c) == Some(|a|)
  {
    if b == "" {
      assert a + [c] + b == a + [c];
    } else {
      assert (a + [c] + b)[..|a + [c] + b| - 1] == a + [c] + b[..|b| - 1];
      RFindLast(a, c, b[..|b| - 1]);
    }
  }

  lemma OccursHead(s: string, pattern: string, i: nat)
    requires pattern != ""
    ensures OccursAt(s, pattern, i) ==> s[i] == pattern[0]
  {
    if OccursAt(s, pattern, i) {
      assert s[i..i + |pattern|][0] == s[i];
    }
  }

  lemma SchemeSplits(useTls: bool, rest: string)
    ensures SplitScheme((if useTls then "ssl" else "tcp") + "://" + rest) == (useTls, rest)
  {
    var scheme := if useTls then "ssl" else "tcp";
    var url := scheme + "://" + rest;
    assert url[3..6] == "://";
    assert OccursAt(url, "://", 3);
    forall i: nat | i < 3 ensures !OccursAt(url, "://", i) {
      assert url[i] != ':';
      OccursHead(url, "://", i);
    }
    assert Find(url, "://") == Some(3);
    assert url[..3] == scheme && url[6..] == rest;
  }

  lemma StripPathStopsAtSlash(s: string)
    ensures '/' !in StripPath(s)
    ensures '/' !in s ==> StripPath(s) == s
  {
    var slash := Find(s, "/");
    forall i | 0 <= i < |StripPath(s)| ensures s[i] != '/' {
      assert !OccursAt(s, "/", i);
      assert s[i..i + 1] == [s[i]];
    }
    if slash.Some? {
      assert s[slash.value] == s[slash.value..slash.value + 1][0];
    }
  }

  lemma HostPortSplits(host: string, port: int, useTls: bool)
    requires -0x8000_0000 <= port < 0x8000_0000
    ensures SplitHostPort(host + [':'] + PrintInt(port), useTls)
         == BrokerAddress(host, port % 0x1_0000, useTls)
  {
    var authority := host + [':'] + PrintInt(port);
    PrintIntReadsBack(port);
    RFindLast(host, ':', PrintInt(port));
    assert authority[..|host|] == host && authority[|host| + 1..] == PrintInt(port);
  }

  /** The parsed host never holds a slash, so a host with one cannot come back. */
  lemma HostHasNoSlash(url: string)
    ensures '/' !in ParsedBrokerUrl(url).host
  {
    StripPathStopsAtSlash(SplitScheme(url).1);
  }

  /** Parsing a printed URL gives back host and TLS choice, and the port modulo 2^16, whenever
      the host holds no slash; colons in it do no harm. */
  lemma PrintedUrlParses(url: string, useTls: bool, host: string, port: int)
    requires url == BrokerUrlOf(useTls, host, port)
    requires '/' !in host && -0x8000_0000 <= port < 0x8000_0000
    ensures ParsedBrokerUrl(url) == BrokerAddress(host, port % 0x1_0000, useTls)
  {
    var rest := host + [':'] + PrintInt(port);
    assert url == (if useTls then "ssl" else "tcp") + "://" + rest;
    SchemeSplits(useTls, rest);
    PrintIntReadsBack(port);
    assert '/' !in rest;
    StripPathStopsAtSlash(rest);
    HostPortSplits(host, port, useTls);
  }

  lemma NoSlashSurvives(addr: BrokerAddress, url: string)
    requires url == BrokerUrlOf(addr.useTls, addr.host, addr.port)
    requires '/' !in addr.host
    ensures ParsedBrokerUrl(url) == addr
  {
    hide ParsedBrokerUrl;
    hide BrokerUrlOf;
    PrintedUrlParses(url, addr.useTls, addr.host, addr.port);
  }

  /** The broker URL round trip holds for every port, if and only if the host holds no slash. */
  lemma BrokerUrlRoundTrip(addr: BrokerAddress, url: string)
    requires url == BrokerUrlOf(addr.useTls, addr.host, addr.port)
    ensures ParsedBrokerUrl(url) == addr <==> '/' !in addr.host
  {
    HostHasNoSlash(url);
    if '/' !in addr.host {
      NoSlashSurvives(addr, url);
    }
  }

  // ---- URLs that the loader does not print ----

  /** Everything before the first "://" is the scheme, when it has no colon itself. */
  lemma AnySchemeSplits(scheme: string, rest: string)
    requires ':' !in scheme
    ensures SplitScheme(scheme + "://" + rest) == (scheme == "ssl" || scheme == "tls", rest)
  {
    var url, n := scheme + "://" + rest, |scheme|;
    assert url[n..n + 3] == "://";
    assert OccursAt(url, "://", n);
    forall i: nat | i < n ensures !OccursAt(url, "://", i) {
      assert url[i] == scheme[i] && scheme[i] in scheme;
      OccursHead(url, "://", i);
    }
    assert Find(url, "://") == Some(n);
    assert url[..n] == scheme && url[n + 3..] == rest;
  }

  lemma NoScheme(url: string)
    requires ':' !in url
    ensures SplitScheme(url) == (false, url)
  {
    if Find(url, "://").Some? {
      OccursHead(url, "://", Find(url, "://").value);
    }
  }

  /** A path after the authority is dropped. */
  lemma PathIsStripped(authority: string, path: string)
    requires '/' !in authority
    ensures StripPath(authority + "/" + path) == authority
  {
    var rest, n := authority + "/" + path, |authority|;
    assert rest[n..n + 1] == "/";
    assert OccursAt(rest, "/", n);
    forall i: nat | i < n ensures !OccursAt(rest, "/", i) {
      assert rest[i] == authority[i] && authority[i] in authority;
      OccursHead(rest, "/", i);
    }
    assert Find(rest, "/") == Some(n) && rest[..n] == authority;
  }

  /** What follows the authority makes no difference. */
  lemma PathIsIgnored(scheme: string, authority: string, path: string)
    requires ':' !in scheme && '/' !in authority
    ensures ParsedBrokerUrl(scheme + "://" + authority + "/" + path) == ParsedBrokerUrl(scheme + "://" + authority)
  {
    hide SplitHostPort;
    AnySchemeSplits(scheme, authority + "/" + path);
    AnySchemeSplits(scheme, authority);
    assert scheme + "://" + authority + "/" + path == scheme + "://" + (authority + "/" + path);
    PathIsStripped(authority, path);
    StripPathStopsAtSlash(authority);
  }

  /** Without a port it is 8883 for "ssl" and "tls", and 1883 for any other scheme or none; with a port
      that is no number, likewise. */
  lemma DefaultPorts(scheme: string, host: string, path: string, junk: string)
    requires ':' !in scheme && ':' !in host && '/' !in host
    requires ':' !in junk && '/' !in junk && (junk == "" || 'a' <= junk[0] <= 'z')
    ensures var tls := scheme == "ssl" || scheme == "tls";
      var address := BrokerAddress(host, if tls then 8883 else 1883, tls);
      && ParsedBrokerUrl(scheme + "://" + host) == address
      && ParsedBrokerUrl(scheme + "://" + host + "/" + path) == address
      && ParsedBrokerUrl(scheme + "://" + (host + ":" + junk)) == address
    ensures ParsedBrokerUrl(host) == BrokerAddress(host, 1883, false)
  {
    hide SplitScheme;
    hide StripPath;
    AnySchemeSplits(scheme, host);
    NoScheme(host);
    StripPathStopsAtSlash(host);
    PathIsIgnored(scheme, host, path);
    AnySchemeSplits(scheme, host + ":" + junk);
    StripPathStopsAtSlash(host + ":" + junk);
    JunkPort(host, junk, scheme == "ssl" || scheme == "tls");
  }

  lemma JunkPort(host: string, junk: string, useTls: bool)
    requires ':' !in junk && (junk == "" || 'a' <= junk[0] <= 'z')
    ensures SplitHostPort(host + ":" + junk, useTls) == BrokerAddress(host, if useTls then 8883 else 1883, useTls)
  {
    var authority := host + ":" + junk;
    assert authority == host + [':'] + junk;
    RFindLast(host, ':', junk);
    assert authority[..|host|] == host && authority[|host| + 1..] == junk;
    assert SkipSpace(junk) == junk && StoI(junk) == None;
  }

  /** A port that no int holds is no number either. */
  lemma HugePort(host: string, port: nat, useTls: bool)
    requires port >= 0x8000_0000
    ensures SplitHostPort(host + [':'] + PrintInt(port), useTls)
         == BrokerAddress(host, if useTls then 8883 else 1883, useTls)
  {
    var text := PrintInt(port);
    var authority := host + [':'] + text;
    PrintNatReadsBack(port);
    assert ':' !in text;
    RFindLast(host, ':', text);
    assert authority[..|host|] == host && authority[|host| + 1..] == text;
    assert SkipSpace(text) == text;
  }

  /** What else `std::stoi` takes: white space before, a sign, and anything after the digits. */
  lemma StoIForms()
    ensures StoI(" 80") == Some(80) && StoI("+80") == Some(80) && StoI("-1") == Some(-1) && StoI("80x") == Some(80)
    ensures StoI("") == None && StoI("-") == None && StoI("x80") == None
  {
    assert " 80"[1..] == "80" && "+80"[1..] == "80" && "-1"[1..] == "1" && "-"[1..] == "";
    assert "80"[1..] == "0" && "0"[1..] == "" && "1"[1..] == "" && "80x"[1..] == "0x" && "0x"[1..] == "x";
    assert DigitsValue("0", 8) == 80 && DigitsValue("80", 0) == 80 && DigitsValue("1", 0) == 1;
    assert DigitsValue("x", 80) == 80 && DigitsValue("0x", 8) == 80 && DigitsValue("80x", 0) == 80;
    assert SkipSpace(" 80") == SkipSpace("80") == "80";
  }
}
