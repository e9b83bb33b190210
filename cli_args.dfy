/**
 * The pieces of the Tauri CLI command lines the plugin assembles: the
 * optional flags forwarded from the plugin options, and the dev-server URL
 * handed to `tauri dev`.
 */
module CliArgs {
  import opened Wrappers

  /** What the trailing flags of a `tauri dev` / `tauri build` command line ask for. */
  datatype CliFlags = CliFlags(release: bool, debug: bool, target: Option<string>, verbose: bool)

  const NO_FLAGS := CliFlags(false, false, None, false)

  /** The flags for `f`, in the order the plugin pushes them: `--release`, `--debug`, `--target t`, `--verbose`. */
  function FlagArgs(f: CliFlags): seq<string> {
    (if f.release then ["--release"] else [])
    + (if f.debug then ["--debug"] else [])
    + (match f.target case Some(t) => ["--target", t] case None => [])
    + (if f.verbose then ["--verbose"] else [])
  }

  /**
   * A reference reading of trailing flags, as a command-line parser reads
   * them: each known switch sets its field, `--target` takes the next
   * argument as its value, anything else is rejected.
   */
  function ParseFlags(args: seq<string>, acc: CliFlags): Option<CliFlags>
    decreases |args|
  {
    if args == [] then Some(acc)
    else if args[0] == "--release" then ParseFlags(args[1..], acc.(release := true))
    else if args[0] == "--debug" then ParseFlags(args[1..], acc.(debug := true))
    else if args[0] == "--verbose" then ParseFlags(args[1..], acc.(verbose := true))
    else if args[0] == "--target" && |args| >= 2 then ParseFlags(args[2..], acc.(target := Some(args[1])))
    else None
  }

  /** The flags the plugin pushes are read back as exactly the requested flags. */
  lemma FlagsRoundTrip(f: CliFlags)
    ensures ParseFlags(FlagArgs(f), NO_FLAGS) == Some(f)
  {
    var a0 := NO_FLAGS.(release := f.release);
    var a1 := a0.(debug := f.debug);
    var a2 := a1.(target := f.target);
    var vs := if f.verbose then ["--verbose"] else [];
    var ts := match f.target case Some(t) => ["--target", t] case None => [];
    var ds := if f.debug then ["--debug"] else [];
    var rs := if f.release then ["--release"] else [];
    assert ParseFlags(vs, a2) == Some(f);
    assert ParseFlags(ts + vs, a1) == ParseFlags(vs, a2) by {
      if f.target.Some? {
        assert (ts + vs)[2..] == vs;
      } else {
        assert ts + vs == vs;
      }
    }
    assert ParseFlags(ds + ts + vs, a0) == ParseFlags(ts + vs, a1) by {
      if f.debug {
        assert (ds + ts + vs)[1..] == ts + vs;
      } else {
        assert ds + ts + vs == ts + vs;
      }
    }
    assert ParseFlags(rs + ds + ts + vs, NO_FLAGS) == ParseFlags(ds + ts + vs, a0) by {
      if f.release {
        assert (rs + ds + ts + vs)[1..] == ds + ts + vs;
      } else {
        assert rs + ds + ts + vs == ds + ts + vs;
      }
    }
    assert FlagArgs(f) == rs + ds + ts + vs;
  }

  /**
   * The conditional pushes both hooks make after `<command> --config <json>`:
   * each flag `flags` asks for, in the plugin's order.
   */
  method AppendFlags(args: seq<string>, flags: CliFlags) returns (r: seq<string>)
    ensures r == args + FlagArgs(flags)
    ensures |r| >= |args| && r[..|args|] == args
    ensures ParseFlags(r[|args|..], NO_FLAGS) == Some(flags)
  {
    r := args;
    if flags.release {
      r := r + ["--release"];
    }
    if flags.debug {
      r := r + ["--debug"];
    }
    if flags.target.Some? {
      r := r + ["--target", flags.target.value];
    }
    if flags.verbose {
      r := r + ["--verbose"];
    }
    FlagsRoundTrip(flags);
    assert r[|args|..] == FlagArgs(flags);
  }

  /** The loopback spellings the plugin rewrites to `localhost`. */
  const LOCALHOSTS: seq<string> := ["localhost", "127.0.0.1", "::1", "0000:0000:0000:0000:0000:0000:0000:0001"]

  /** The host written into the dev URL for the server's bound address. */
  function DevHost(address: string): string {
    if address in LOCALHOSTS then "localhost" else address
  }

  function Scheme(https: bool): string {
    if https then "https" else "http"
  }

  /** The decimal digits of `n`, as a template literal prints a port number. */
  function Decimal(n: nat): (s: string)
    ensures |s| > 0 && AllDigits(s)
  {
    if n < 10 then [DigitChar(n)] else Decimal(n / 10) + [DigitChar(n % 10)]
  }

  function DigitChar(d: nat): (c: char)
    requires d < 10
    ensures '0' <= c <= '9'
  {
    "0123456789"[d]
  }

  predicate AllDigits(s: string) {
    forall k :: 0 <= k < |s| ==> '0' <= s[k] <= '9'
  }

  /** The value of a string of decimal digits. */
  function DecimalValue(s: string): nat
    requires AllDigits(s)
    decreases |s|
  {
    if s == [] then 0 else DecimalValue(s[..|s| - 1]) * 10 + (s[|s| - 1] - '0') as nat
  }

  lemma {:induction false} DecimalRoundTrip(n: nat)
    ensures DecimalValue(Decimal(n)) == n
  {
    var s := Decimal(n);
    if n < 10 {
      assert DigitChar(n) as int - '0' as int == n;
    } else {
      DecimalRoundTrip(n / 10);
      assert s[..|s| - 1] == Decimal(n / 10);
      assert DigitChar(n % 10) as int - '0' as int == n % 10;
    }
  }

  /** The dev URL as the plugin writes it: `${scheme}://${host}:${port}`, the host unbracketed. */
  function AsWrittenDevUrl(https: bool, address: string, port: nat): string {
    Scheme(https) + "://" + DevHost(address) + ":" + Decimal(port)
  }

  /** The host as a URL spells it: an IPv6 address, which holds ':', goes in square brackets. */
  function UrlHost(address: string): string {
    var host := DevHost(address);
    if ':' in host then "[" + host + "]" else host
  }

  /** The dev URL with the host spelled as a URL requires. */
  function DevUrl(https: bool, address: string, port: nat): string {
    Scheme(https) + "://" + UrlHost(address) + ":" + Decimal(port)
  }

  /** What a reader of the dev URL takes from it. */
  datatype UrlParts = UrlParts(scheme: string, host: string, port: nat)

  /** Index of the first `c` in `s`, if any. */
  function FirstIndex(s: string, c: char): (r: Option<nat>)
    ensures r.Some? ==> r.value < |s| && s[r.value] == c && c !in s[..r.value]
    ensures r.None? ==> c !in s
  {
    if s == [] then None
    else if s[0] == c then Some(0)
    else match FirstIndex(s[1..], c)
      case None => None
      case Some(i) => assert s[..i + 1] == [s[0]] + s[1..][..i]; Some(i + 1)
  }

  /** Index of the last `c` in `s`, if any. */
  function LastIndex(s: string, c: char): (r: Option<nat>)
    ensures r.Some? ==> r.value < |s| && s[r.value] == c && c !in s[r.value + 1..]
    ensures r.None? ==> c !in s
    decreases |s|
  {
    if s == [] then None
    else if s[|s| - 1] == c then Some(|s| - 1)
    else match LastIndex(s[..|s| - 1], c)
      case None => None
      case Some(i) => assert s[i + 1..] == s[..|s| - 1][i + 1..] + [s[|s| - 1]]; Some(i)
  }

  /**
   * A reference reading of `scheme://host:port`: the scheme runs to the
   * first ':', which must begin "://"; the port is the digits after the
   * last ':'; the host is what lies between.
   */
  function ParseUrl(url: string): Option<UrlParts> {
    match FirstIndex(url, ':')
    case None => None
    case Some(i) =>
      if |url| < i + 3 || url[i..i + 3] != "://" then None
      else ParseAuthority(url[..i], url[i + 3..])
  }

  /** The `host:port` part of a URL whose scheme is `scheme`. */
  function ParseAuthority(scheme: string, rest: string): Option<UrlParts> {
    match LastIndex(rest, ':')
    case None => None
    case Some(j) =>
      var digits := rest[j + 1..];
      if digits != [] && AllDigits(digits) then WithHost(scheme, ParseHost(rest[..j]), DecimalValue(digits))
      else None
  }

  /**
   * The host of an authority: text without ':' is taken as it stands; an
   * IPv6 address must be enclosed in square brackets, which are dropped.
   */
  function ParseHost(h: string): Option<string> {
    if ':' !in h then Some(h)
    else if |h| >= 2 && h[0] == '[' && h[|h| - 1] == ']' then Some(h[1..|h| - 1])
    else None
  }

  function WithHost(scheme: string, host: Option<string>, port: nat): Option<UrlParts> {
    match host
    case None => None
    case Some(h) => Some(UrlParts(scheme, h, port))
  }

  /** The first `c` of `s` is at `k` when `s[k]` is `c` and no `c` comes before. */
  lemma FirstIndexAt(s: string, c: char, k: nat)
    requires k < |s| && s[k] == c && c !in s[..k]
    ensures FirstIndex(s, c) == Some(k)
  {
  }

  /** The last `c` of `s` is at `k` when `s[k]` is `c` and no `c` comes after. */
  lemma LastIndexAt(s: string, c: char, k: nat)
    requires k < |s| && s[k] == c && c !in s[k + 1..]
    ensures LastIndex(s, c) == Some(k)
  {
  }

  /** The scheme of `scheme://rest` ends at its first ':' when the scheme has none. */
  lemma SchemeSplit(scheme: string, rest: string)
    requires ':' !in scheme
    ensures ParseUrl(scheme + "://" + rest) == ParseAuthority(scheme, rest)
  {
    var url := scheme + "://" + rest;
    var i := |scheme|;
    assert url[..i] == scheme;
    FirstIndexAt(url, ':', i);
    assert url[i..i + 3] == "://";
    assert url[i + 3..] == rest;
  }

  /** The port of `host:digits` starts after its last ':' when the digits hold none. */
  lemma PortSplit(scheme: string, host: string, digits: string)
    requires digits != [] && AllDigits(digits)
    ensures ParseAuthority(scheme, host + ":" + digits) == WithHost(scheme, ParseHost(host), DecimalValue(digits))
  {
    var rest := host + ":" + digits;
    var j := |host|;
    assert rest[j + 1..] == digits;
    LastIndexAt(rest, ':', j);
    assert rest[..j] == host;
  }

  /** `ParseUrl` takes apart any `scheme://host:digits` whose scheme has no ':'. */
  lemma ParseUrlOf(scheme: string, host: string, digits: string)
    requires ':' !in scheme && digits != [] && AllDigits(digits)
    ensures ParseUrl(scheme + "://" + host + ":" + digits) == WithHost(scheme, ParseHost(host), DecimalValue(digits))
  {
    var rest := host + ":" + digits;
    assert scheme + "://" + host + ":" + digits == scheme + "://" + rest;
    SchemeSplit(scheme, rest);
    PortSplit(scheme, host, digits);
  }

  /** The bracketed host reads back as the normalised host, whatever the address. */
  lemma HostRoundTrip(address: string)
    ensures ParseHost(UrlHost(address)) == Some(DevHost(address))
  {
    var host := DevHost(address);
    if ':' in host {
      var h := "[" + host + "]";
      assert h[1..|h| - 1] == host;
      assert ':' in h by {
        var k :| 0 <= k < |host| && host[k] == ':';
        assert h[k + 1] == ':';
      }
    }
  }

  /**
   * The dev URL reads back as the chosen scheme (`https` exactly when the
   * server has `https` set), the normalised host, and the bound port.
   */
  lemma UrlRoundTrip(https: bool, address: string, port: nat)
    ensures ParseUrl(DevUrl(https, address, port)) == Some(UrlParts(Scheme(https), DevHost(address), port))
  {
    assert ':' !in Scheme(https);
    ParseUrlOf(Scheme(https), UrlHost(address), Decimal(port));
    DecimalRoundTrip(port);
    HostRoundTrip(address);
  }

  /** Without ':' in the host, the URL as written is already the bracketed one. */
  lemma AsWrittenUrlWithoutColon(https: bool, address: string, port: nat)
    requires ':' !in DevHost(address)
    ensures AsWrittenDevUrl(https, address, port) == DevUrl(https, address, port)
    ensures ParseUrl(AsWrittenDevUrl(https, address, port)) == Some(UrlParts(Scheme(https), DevHost(address), port))
  {
    UrlRoundTrip(https, address, port);
  }

  /**
   * As written, a non-loopback IPv6 address (a host with ':' and no
   * bracket) yields a URL that no URL reader accepts.
   */
  lemma AsWrittenIpv6UrlRejected(https: bool, address: string, port: nat)
    requires ':' in DevHost(address) && DevHost(address)[0] != '['
    ensures ParseUrl(AsWrittenDevUrl(https, address, port)) == None
  {
    assert ':' !in Scheme(https);
    ParseUrlOf(Scheme(https), DevHost(address), Decimal(port));
  }

  /** The port 5173 prints as "5173". */
  lemma DecimalOf5173()
    ensures Decimal(5173) == "5173"
  {
    assert Decimal(5) == "5";
    assert Decimal(51) == "51";
    assert Decimal(517) == "517";
  }

  /** The all-interfaces address `::` is no loopback spelling; as a URL host it is `[::]`. */
  lemma AllInterfacesHost()
    ensures DevHost("::") == "::" && UrlHost("::") == "[::]"
  {
    assert "::" != LOCALHOSTS[0] && "::" != LOCALHOSTS[1];
    assert "::" != LOCALHOSTS[2] && "::" != LOCALHOSTS[3];
    assert DevHost("::")[0] == ':';
  }

  /** Listening on all interfaces, the URL as written for `::` is `http://:::5173`, which is rejected. */
  lemma AllInterfacesUrlAsWritten()
    ensures AsWrittenDevUrl(false, "::", 5173) == "http://:::5173"
    ensures ParseUrl(AsWrittenDevUrl(false, "::", 5173)) == None
  {
    AllInterfacesHost();
    assert AsWrittenDevUrl(false, "::", 5173) == "http://:::5173" by {
      DecimalOf5173();
    }
    assert DevHost("::")[0] == ':';
    AsWrittenIpv6UrlRejected(false, "::", 5173);
  }

  /** The intended URL for `::` is `http://[::]:5173`, which reads back as host `::`. */
  lemma AllInterfacesUrlBracketed()
    ensures DevUrl(false, "::", 5173) == "http://[::]:5173"
    ensures ParseUrl(DevUrl(false, "::", 5173)) == Some(UrlParts("http", "::", 5173))
  {
    AllInterfacesHost();
    assert DevUrl(false, "::", 5173) == "http://[::]:5173" by {
      DecimalOf5173();
    }
    UrlRoundTrip(false, "::", 5173);
  }
}
