/** The `cli_url` option of the Python client: `[http://|https://][host:]port`,
    parsed into the host and port of an already-running server. */
module CliUrl {
  import opened Wrappers
  import opened Decimal

  const Localhost: string := "localhost"

  datatype Endpoint = Endpoint(host: string, port: int)

  function InvalidPort(url: string): string {
    "Invalid port in cli_url: " + url
  }

  function InvalidFormat(url: string): string {
    "Invalid cli_url format: " + url
  }

  /** Ports the client accepts: neither `port <= 0` nor `port > 65535`. */
  predicate ValidPort(port: int) {
    0 < port <= 65535
  }

  /** Removes one leading `http://` or `https://` (the regex `^https?://`). */
  function StripScheme(url: string): (clean: string)
    ensures |clean| <= |url| && clean == url[|url| - |clean|..]
    ensures clean == url || url == "http://" + clean || url == "https://" + clean
  {
    if |url| >= 8 && url[..8] == "https://" then url[8..]
    else if |url| >= 7 && url[..7] == "http://" then url[7..]
    else url
  }

  function CountChar(s: string, c: char): nat {
    if |s| == 0 then 0 else (if s[0] == c then 1 else 0) + CountChar(s[1..], c)
  }

  function JoinOn(parts: seq<string>, sep: char): string {
    if |parts| == 0 then ""
    else if |parts| == 1 then parts[0]
    else parts[0] + [sep] + JoinOn(parts[1..], sep)
  }

  /** Python's `s.split(sep)` for a one-character separator: one more piece than
      there are separators, no piece holds the separator, and joining the pieces
      back gives `s`. */
  function SplitOn(s: string, sep: char): (parts: seq<string>)
    ensures |parts| == CountChar(s, sep) + 1
    ensures forall i :: 0 <= i < |parts| ==> sep !in parts[i]
    ensures JoinOn(parts, sep) == s
    decreases |s|
  {
    if |s| == 0 then
      [""]
    else if s[0] == sep then
      var rest := SplitOn(s[1..], sep);
      var parts := [""] + rest;
      assert parts[1..] == rest;
      assert s == [sep] + s[1..];
      parts
    else
      var rest := SplitOn(s[1..], sep);
      var parts := [[s[0]] + rest[0]] + rest[1..];
      assert parts[1..] == rest[1..];
      assert s == [s[0]] + s[1..];
      assert forall i :: 1 <= i < |parts| ==> parts[i] == rest[i];
      parts
  }

  /** `_parse_cli_url`: a digits-only remainder is a port on localhost; otherwise
      the remainder must split at exactly one `:` into a host (empty means
      localhost) and a port. Error messages quote the url as given. */
  function ParseCliUrl(url: string): (r: Result<Endpoint, string>)
    ensures r.Success? ==> ValidPort(r.value.port)
    ensures r.Success? ==> r.value.host != "" && ':' !in r.value.host
    ensures r.Success? ==> IsDigits(StripScheme(url)) || CountChar(StripScheme(url), ':') == 1
    ensures r.Failure? ==> r.error == InvalidPort(url) || r.error == InvalidFormat(url)
    ensures r == Failure(InvalidFormat(url))
            <==> !IsDigits(StripScheme(url)) && CountChar(StripScheme(url), ':') != 1
  {
    ParseAddress(StripScheme(url), url)
  }

  /** The part of `_parse_cli_url` after the scheme is gone; `url` is only quoted. */
  function ParseAddress(clean: string, url: string): (r: Result<Endpoint, string>)
    ensures r.Success? ==> ValidPort(r.value.port)
    ensures r.Success? ==> r.value.host != "" && ':' !in r.value.host
    ensures r.Success? ==> IsDigits(clean) || CountChar(clean, ':') == 1
    ensures r.Failure? ==> r.error == InvalidPort(url) || r.error == InvalidFormat(url)
    ensures r == Failure(InvalidFormat(url)) <==> !IsDigits(clean) && CountChar(clean, ':') != 1
  {
    assert InvalidPort(url)[8] != InvalidFormat(url)[8];
    if IsDigits(clean) then
      var port := DigitsValue(clean);
      if !ValidPort(port) then Failure(InvalidPort(url)) else Success(Endpoint(Localhost, port))
    else
      var parts := SplitOn(clean, ':');
      if |parts| != 2 then
        Failure(InvalidFormat(url))
      else
        var host := if parts[0] != "" then parts[0] else Localhost;
        match ParseInt(parts[1])
        case None => Failure(InvalidPort(url))
        case Some(port) =>
          if !ValidPort(port) then Failure(InvalidPort(url)) else Success(Endpoint(host, port))
  }

  lemma {:induction false} SplitWithoutSep(s: string, sep: char)
    requires sep !in s
    ensures SplitOn(s, sep) == [s]
    decreases |s|
  {
    if |s| > 0 {
      SplitWithoutSep(s[1..], sep);
      assert [s[0]] + s[1..] == s;
    }
  }

  lemma {:induction false} SplitAtFirstSep(a: string, sep: char, b: string)
    requires sep !in a
    ensures SplitOn(a + [sep] + b, sep) == [a] + SplitOn(b, sep)
    decreases |a|
  {
    var s := a + [sep] + b;
    if |a| == 0 {
      assert s[1..] == b;
    } else {
      SplitAtFirstSep(a[1..], sep, b);
      assert s[1..] == a[1..] + [sep] + b;
      assert [a[0]] + a[1..] == a;
    }
  }

  /** No host without a `:` can make `host:port` look like it carries a scheme. */
  lemma StripSchemeOfHostPort(host: string, digits: string)
    requires ':' !in host && |digits| > 0 && digits[0] != '/'
    ensures StripScheme(host + ":" + digits) == host + ":" + digits
  {
    var url := host + ":" + digits;
    assert url[|host|] == ':' && url[|host| + 1] == digits[0];
    if |url| >= 7 {
      // "http://" has its only ':' at index 4, followed by '/'
      var k := if |host| == 4 then 5 else if |host| < 4 then |host| else 4;
      assert url[..7][k] != "http://"[k];
    }
    if |url| >= 8 {
      // "https://" has its only ':' at index 5, followed by '/'
      var k := if |host| == 5 then 6 else if |host| < 5 then |host| else 5;
      assert url[..8][k] != "https://"[k];
    }
  }

  /** `host:digits` parses back to its host (localhost when empty) and port. */
  lemma ParseAddressHostDigits(host: string, digits: string, url: string)
    requires ':' !in host && IsDigits(digits) && ValidPort(DigitsValue(digits))
    ensures ParseAddress(host + ":" + digits, url)
            == Success(Endpoint(if host == "" then Localhost else host, DigitsValue(digits)))
  {
    var clean := host + ":" + digits;
    assert clean[|host|] == ':';
    assert !IsDigits(clean);
    SplitAtFirstSep(host, ':', digits);
    SplitWithoutSep(digits, ':');
    assert SplitOn(clean, ':') == [host, digits];
  }

  lemma ParseAddressHostPort(host: string, port: nat, url: string)
    requires ':' !in host && ValidPort(port)
    ensures ParseAddress(host + ":" + NatToString(port), url)
            == Success(Endpoint(if host == "" then Localhost else host, port))
  {
    ParseAddressHostDigits(host, NatToString(port), url);
  }

  lemma StripHttp(rest: string)
    ensures StripScheme("http://" + rest) == rest
  {
    var url := "http://" + rest;
    assert url[..7] == "http://" && url[7..] == rest;
    if |url| >= 8 {
      assert url[..8][4] != "https://"[4];
    }
  }

  lemma StripHttps(rest: string)
    ensures StripScheme("https://" + rest) == rest
  {
    var url := "https://" + rest;
    assert url[..8] == "https://" && url[8..] == rest;
  }

  /** The parser reads back what a `host:port` target says, with or without an
      http(s) scheme in front. */
  lemma ParseHostPort(host: string, port: nat)
    requires ':' !in host && ValidPort(port)
    ensures var expected := Success(Endpoint(if host == "" then Localhost else host, port));
            && ParseCliUrl(host + ":" + NatToString(port)) == expected
            && ParseCliUrl("http://" + host + ":" + NatToString(port)) == expected
            && ParseCliUrl("https://" + host + ":" + NatToString(port)) == expected
  {
    ParseSchemeless(host, port);
    ParseWithScheme(host, port, "http://");
    ParseWithScheme(host, port, "https://");
  }

  lemma ParseWithScheme(host: string, port: nat, scheme: string)
    requires ':' !in host && ValidPort(port)
    requires scheme == "http://" || scheme == "https://"
    ensures ParseCliUrl(scheme + host + ":" + NatToString(port))
            == Success(Endpoint(if host == "" then Localhost else host, port))
  {
    var clean := host + ":" + NatToString(port);
    var url := scheme + host + ":" + NatToString(port);
    assert url == scheme + clean;
    if scheme == "http://" { StripHttp(clean); } else { StripHttps(clean); }
    ParseAddressHostPort(host, port, url);
  }

  lemma ParseSchemeless(host: string, port: nat)
    requires ':' !in host && ValidPort(port)
    ensures ParseCliUrl(host + ":" + NatToString(port))
            == Success(Endpoint(if host == "" then Localhost else host, port))
  {
    var digits := NatToString(port);
    assert IsDigit(digits[0]);
    StripSchemeOfHostPort(host, digits);
    ParseAddressHostPort(host, port, host + ":" + digits);
  }

  /** A bare port is a port on localhost, accepted exactly when it is in range. */
  lemma ParsePortOnly(port: nat)
    ensures ParseCliUrl(NatToString(port))
            == if ValidPort(port) then Success(Endpoint(Localhost, port))
               else Failure(InvalidPort(NatToString(port)))
  {
    var s := NatToString(port);
    assert IsDigit(s[0]);
    assert StripScheme(s) == s;
  }

  lemma CountCharZero(s: string, c: char)
    requires c !in s
    ensures CountChar(s, c) == 0
  {
    if |s| > 0 {
      CountCharZero(s[1..], c);
    }
  }

  /** Text that is not a bare port and has no `:` is a format error. */
  lemma ParseWithoutColon(url: string)
    requires ':' !in url && !IsDigits(url)
    ensures ParseCliUrl(url) == Failure(InvalidFormat(url))
  {
    StripSchemeCases(url);
    CountCharZero(StripScheme(url), ':');
  }

  lemma StripSchemeCases(url: string)
    requires ':' !in url
    ensures StripScheme(url) == url
  {
    if |url| >= 7 {
      assert url[..7][4] != "http://"[4];
    }
    if |url| >= 8 {
      assert url[..8][5] != "https://"[5];
    }
  }

  /** A well-formed `host:port` whose port is out of range is a port error. */
  lemma ParseHostBadPort(host: string, port: int)
    requires ':' !in host && !ValidPort(port)
    ensures ParseCliUrl(host + ":" + IntToString(port)) == Failure(InvalidPort(host + ":" + IntToString(port)))
  {
    var text := IntToString(port);
    var url := host + ":" + text;
    assert text[0] == '-' || IsDigit(text[0]);
    StripSchemeOfHostPort(host, text);
    assert url[|host|] == ':';
    assert !IsDigits(url);
    SplitAtFirstSep(host, ':', text);
    assert ':' !in text by {
      if port < 0 {
        assert forall i :: 1 <= i < |text| ==> text[i] == NatToString(-port)[i - 1];
      }
    }
    SplitWithoutSep(text, ':');
    ParseIntToString(port);
  }

  /** The cases the client's own unit tests exercise. */
  lemma ExamplePortOnly()
    ensures ParseCliUrl(NatToString(8080)) == Success(Endpoint("localhost", 8080))
  {
    ParsePortOnly(8080);
  }

  lemma ExampleHostPort()
    ensures ParseCliUrl("127.0.0.1" + ":" + NatToString(9000)) == Success(Endpoint("127.0.0.1", 9000))
  {
    ParseHostPort("127.0.0.1", 9000);
  }

  lemma ExampleSchemes()
    ensures ParseCliUrl("http://" + "localhost" + ":" + NatToString(7000)) == Success(Endpoint("localhost", 7000))
    ensures ParseCliUrl("https://" + "example.com" + ":" + NatToString(443)) == Success(Endpoint("example.com", 443))
  {
    ParseHostPort("localhost", 7000);
    ParseHostPort("example.com", 443);
  }

  lemma ExampleInvalidFormat()
    ensures ParseCliUrl("invalid-url") == Failure(InvalidFormat("invalid-url"))
  {
    assert !IsDigit("invalid-url"[0]);
    ParseWithoutColon("invalid-url");
  }

  lemma ExampleInvalidPort()
    ensures ParseCliUrl("localhost" + ":" + IntToString(99999)) == Failure(InvalidPort("localhost" + ":" + IntToString(99999)))
    ensures ParseCliUrl("localhost" + ":" + IntToString(0)) == Failure(InvalidPort("localhost" + ":" + IntToString(0)))
    ensures ParseCliUrl("localhost" + ":" + IntToString(-1)) == Failure(InvalidPort("localhost" + ":" + IntToString(-1)))
  {
    ParseHostBadPort("localhost", 99999);
    ParseHostBadPort("localhost", 0);
    ParseHostBadPort("localhost", -1);
  }
}
