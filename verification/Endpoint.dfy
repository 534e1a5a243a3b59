/** utils/http.go: the normal form of RPC endpoints. */
module Endpoint {
  import opened Text

  const SCHEME_MARK := "://"

  function ReplaceAnySchemeWithHttp(endpoint: string): string {
    if !Contains(endpoint, SCHEME_MARK) then
      if "//" <= endpoint then "http:" + endpoint else "http://" + endpoint
    else if "tcp://" <= endpoint then "http" + endpoint[3..]
    else if "http://" <= endpoint then endpoint
    else if "https://" <= endpoint then endpoint
    else "http" + endpoint[Index(endpoint, SCHEME_MARK)..]
  }

  /** The regular expression `:\d+$`. */
  predicate EndsWithPort(host: string) {
    exists k :: 0 <= k < |host| - 1 && host[k] == ':' && forall i :: k < i < |host| ==> Digit(host[i])
  }

  function WithPort(protocol: string, host: string): string {
    if EndsWithPort(host) then host
    else if protocol == "http" || protocol == "ws" || protocol == "" then host + ":80"
    else if protocol == "https" || protocol == "wss" then host + ":443"
    else host
  }

  /** `strings.SplitN(s, sep, 2)`; the second part is empty when `sep` does not occur. */
  function SplitOnce(s: string, sep: string): (string, string) {
    var k := Index(s, sep);
    if k < 0 then (s, "") else (s[..k], s[k + |sep|..])
  }

  function NormalizeRpcEndpoint(endpoint: string): string {
    var trimmed := TrimSuffix(endpoint, "/");
    var (protocol, rest) :=
      if Contains(trimmed, SCHEME_MARK) then SplitOnce(trimmed, SCHEME_MARK) else ("", trimmed);
    var (host, subPath) := SplitOnce(rest, "/");
    (if protocol != "" then protocol + SCHEME_MARK else "")
    + WithPort(protocol, host)
    + (if subPath != "" then "/" + subPath else "")
  }

  /** What both the chain registry and the client cache compute from an endpoint. */
  function Key(endpoint: string): string {
    NormalizeRpcEndpoint(ReplaceAnySchemeWithHttp(endpoint))
  }

  function Scheme(endpoint: string): string {
    if "https://" <= ReplaceAnySchemeWithHttp(endpoint) then "https" else "http"
  }

  /** What follows the scheme. */
  function AfterScheme(endpoint: string): string {
    SplitOnce(ReplaceAnySchemeWithHttp(endpoint), SCHEME_MARK).1
  }

  predicate WebScheme(scheme: string) {
    scheme == "http" || scheme == "https"
  }

  lemma SchemeMarkFollows(scheme: string, rest: string)
    requires ':' !in scheme
    ensures Index(scheme + SCHEME_MARK + rest, SCHEME_MARK) == |scheme|
    ensures SplitOnce(scheme + SCHEME_MARK + rest, SCHEME_MARK) == (scheme, rest)
  {
    assert SCHEME_MARK[0] == ':';
    IndexAfter(scheme, SCHEME_MARK, rest);
    var s := scheme + SCHEME_MARK + rest;
    assert s[..|scheme|] == scheme;
    assert s[|scheme| + |SCHEME_MARK|..] == rest;
  }

  /** An endpoint with a web scheme is kept. */
  lemma ReschemeKeeps(scheme: string, rest: string)
    requires WebScheme(scheme)
    ensures var e := scheme + SCHEME_MARK + rest;
            ReplaceAnySchemeWithHttp(e) == e && Scheme(e) == scheme && AfterScheme(e) == rest
  {
    SchemeMarkFollows(scheme, rest);
    PrefixesFixScheme(scheme, rest);
  }

  /** Whatever the input, the re-schemed endpoint is a web scheme, the mark, and the rest. */
  lemma Rescheme(endpoint: string)
    ensures WebScheme(Scheme(endpoint))
    ensures ReplaceAnySchemeWithHttp(endpoint) == Scheme(endpoint) + SCHEME_MARK + AfterScheme(endpoint)
  {
    var r := ReplaceAnySchemeWithHttp(endpoint);
    var scheme := Scheme(endpoint);
    ReschemedPrefix(endpoint);
    var rest := r[|scheme| + 3..];
    assert r == scheme + SCHEME_MARK + rest;
    SchemeMarkFollows(scheme, rest);
  }

  lemma ReschemedPrefix(endpoint: string)
    ensures var r := ReplaceAnySchemeWithHttp(endpoint);
            "http" + SCHEME_MARK <= r || "https" + SCHEME_MARK <= r
  {
    if Contains(endpoint, SCHEME_MARK) {
      if "tcp://" <= endpoint {
        assert endpoint[3..] == SCHEME_MARK + endpoint[6..];
        HttpBefore(endpoint[6..]);
      } else if !("http://" <= endpoint) && !("https://" <= endpoint) {
        var k := Index(endpoint, SCHEME_MARK);
        assert endpoint[k..] == SCHEME_MARK + endpoint[k + 3..];
        HttpBefore(endpoint[k + 3..]);
      }
    }
  }

  lemma HttpBefore(rest: string)
    ensures "http" + SCHEME_MARK <= "http" + (SCHEME_MARK + rest)
  {
    assert "http" + (SCHEME_MARK + rest) == "http" + SCHEME_MARK + rest;
  }

  /** A web endpoint with something after its scheme, taken apart and put together again. */
  function Assemble(scheme: string, host: string, subPath: string): string {
    scheme + SCHEME_MARK + (WithPort(scheme, host) + Path(subPath))
  }

  function Path(subPath: string): string {
    if subPath != "" then "/" + subPath else ""
  }

  lemma TrimLast(a: string, b: string)
    requires b != ""
    ensures HasSuffix(a + b, "/") <==> HasSuffix(b, "/")
    ensures TrimSuffix(a + b, "/") == a + TrimSuffix(b, "/")
  {
    assert (a + b)[|a + b| - 1..] == b[|b| - 1..];
    assert HasSuffix(b, "/") ==> (a + b)[..|a + b| - 1] == a + b[..|b| - 1];
  }

  lemma NormalizeWeb(scheme: string, rest: string)
    requires ':' !in scheme && scheme != "" && rest != ""
    ensures var (host, subPath) := SplitOnce(TrimSuffix(rest, "/"), "/");
            NormalizeRpcEndpoint(scheme + SCHEME_MARK + rest) == Assemble(scheme, host, subPath)
  {
    TrimLast(scheme + SCHEME_MARK, rest);
    SchemeMarkFollows(scheme, TrimSuffix(rest, "/"));
  }

  lemma HostHasNoSlash(rest: string)
    ensures '/' !in SplitOnce(rest, "/").0
  {
    var host := SplitOnce(rest, "/").0;
    forall j | 0 <= j < |host| ensures host[j] != '/' {
      assert rest[j..j + 1] == [rest[j]];
      assert !OccursAt(rest, "/", j);
    }
  }

  lemma PortIsDecimal(scheme: string, host: string)
    requires WebScheme(scheme) || scheme == ""
    ensures EndsWithPort(WithPort(scheme, host))
    ensures '/' !in host ==> '/' !in WithPort(scheme, host)
    ensures WithPort(scheme, host) != "" && WithPort(scheme, host)[|WithPort(scheme, host)| - 1] != '/'
  {
    var w := WithPort(scheme, host);
    if !EndsWithPort(host) {
      assert w[|host|] == ':';
      assert forall i :: |host| < i < |w| ==> Digit(w[i]);
    }
  }

  /** Splitting what was assembled gives the parts back. */
  lemma SplitAssembled(host: string, subPath: string)
    requires '/' !in host
    ensures SplitOnce(host + "/" + subPath, "/") == (host, subPath)
    ensures SplitOnce(host, "/") == (host, "")
  {
    IndexNone(host, "/");
    IndexAfter(host, "/", subPath);
    var s := host + "/" + subPath;
    assert s[..|host|] == host && s[|host| + 1..] == subPath;
  }

  /** Trimming a host and a path only reaches into the path. */
  lemma TrimAssembled(host: string, subPath: string)
    requires host != "" && '/' !in host
    ensures SplitOnce(TrimSuffix(host + Path(subPath), "/"), "/") == (host, TrimSuffix(subPath, "/"))
    ensures HasSuffix(host + Path(subPath), "/") <==> HasSuffix(subPath, "/")
  {
    if subPath == "" {
      assert host + Path(subPath) == host;
      SplitAssembled(host, "");
    } else {
      assert host + Path(subPath) == (host + "/") + subPath;
      TrimLast(host + "/", subPath);
      SplitAssembled(host, TrimSuffix(subPath, "/"));
    }
  }

  /** Normalising an assembled endpoint only drops a final slash. */
  lemma KeyOfAssembled(scheme: string, host: string, subPath: string)
    requires WebScheme(scheme) && '/' !in host
    ensures Key(Assemble(scheme, host, subPath)) == Assemble(scheme, host, TrimSuffix(subPath, "/"))
    ensures HasSuffix(Assemble(scheme, host, subPath), "/") <==> HasSuffix(subPath, "/")
  {
    var h := WithPort(scheme, host);
    PortIsDecimal(scheme, host);
    ReschemeKeeps(scheme, h + Path(subPath));
    NormalizeWeb(scheme, h + Path(subPath));
    TrimAssembled(h, subPath);
    TrimLast(scheme + SCHEME_MARK, h + Path(subPath));
  }

  /** Without anything after the scheme, a slash of the mark is cut and the colon stays. */
  lemma KeyOfBareScheme(endpoint: string)
    ensures AfterScheme(endpoint) == "" ==>
              Key(endpoint) == Scheme(endpoint) + "::80" && Key(Key(endpoint)) == "http" + SCHEME_MARK + Key(endpoint)
  {
    if AfterScheme(endpoint) == "" {
      Rescheme(endpoint);
      BareNormal(Scheme(endpoint));
      BareKeyGrows(Scheme(endpoint));
    }
  }

  lemma BareNormal(scheme: string)
    requires WebScheme(scheme)
    ensures NormalizeRpcEndpoint(scheme + SCHEME_MARK + "") == scheme + "::80"
  {
    var e := scheme + SCHEME_MARK + "";
    var host := scheme + ":";
    var trimmed := host + "/" + "";
    BareHasNoMark(scheme);
    assert e == trimmed + "/";
    TrimOne(trimmed);
    SplitAssembled(host, "");
    assert host + ":80" == scheme + "::80";
  }

  lemma BareHasNoMark(scheme: string)
    requires WebScheme(scheme)
    ensures !Contains((scheme + ":") + "/" + "", SCHEME_MARK)
    ensures !EndsWithPort(scheme + ":")
    ensures '/' !in scheme + ":"
  {
    var trimmed := (scheme + ":") + "/" + "";
    if Contains(trimmed, SCHEME_MARK) {
      OccursAtByte(trimmed, SCHEME_MARK, Index(trimmed, SCHEME_MARK), 0);
    }
  }

  lemma BareKeyGrows(scheme: string)
    requires WebScheme(scheme)
    ensures Key(scheme + "::80") == "http" + SCHEME_MARK + (scheme + "::80")
  {
    var e := scheme + "::80";
    IndexNoMark(scheme);
    assert e[0] == 'h';
    assert ReplaceAnySchemeWithHttp(e) == "http" + SCHEME_MARK + e;
    PortedHostIsNormal(e);
  }

  /** A host that ends with its port is already in normal form. */
  lemma PortedHostIsNormal(host: string)
    requires host != "" && '/' !in host && EndsWithPort(host)
    ensures NormalizeRpcEndpoint("http" + SCHEME_MARK + host) == "http" + SCHEME_MARK + host
  {
    NormalizeWeb("http", host);
    assert host == host + Path("");
    TrimAssembled(host, "");
  }

  lemma IndexNoMark(scheme: string)
    requires WebScheme(scheme)
    ensures !Contains(scheme + "::80", SCHEME_MARK)
    ensures EndsWithPort(scheme + "::80") && '/' !in scheme + "::80"
  {
    var e := scheme + "::80";
    assert e[|scheme| + 1] == ':' && Digit(e[|scheme| + 2]) && Digit(e[|scheme| + 3]);
    if Contains(e, SCHEME_MARK) {
      OccursAtByte(e, SCHEME_MARK, Index(e, SCHEME_MARK), 1);
    }
  }

  /** What follows the scheme ends in two slashes, and there is a slash before those. */
  predicate EndsInEmptySegment(rest: string) {
    HasSuffix(rest, "//") && '/' in rest[..|rest| - 2]
  }

  lemma LastOfPath(rest: string, host: string, subPath: string)
    requires SplitOnce(TrimSuffix(rest, "/"), "/") == (host, subPath)
    ensures HasSuffix(subPath, "/") <==> EndsInEmptySegment(rest)
  {
    var trimmed := TrimSuffix(rest, "/");
    LastOfTrimmed(trimmed, host, subPath);
    if HasSuffix(rest, "/") {
      assert rest == trimmed + "/";
      LastTwo(trimmed);
    } else {
      LastOfTwo(rest);
    }
  }

  lemma LastOfTwo(s: string)
    ensures HasSuffix(s, "//") ==> HasSuffix(s, "/")
  {
    if HasSuffix(s, "//") {
      assert s[|s| - 1..] == s[|s| - 2..][1..];
    }
  }

  lemma LastOfTrimmed(trimmed: string, host: string, subPath: string)
    requires SplitOnce(trimmed, "/") == (host, subPath)
    ensures HasSuffix(subPath, "/") <==> HasSuffix(trimmed, "/") && '/' in trimmed[..|trimmed| - 1]
  {
    HostHasNoSlash(trimmed);
    if Contains(trimmed, "/") {
      OccursAtByte(trimmed, "/", |host|, 0);
      assert trimmed == (host + "/") + subPath;
      LastOfSplit(host, subPath);
    } else {
      NoSlash(trimmed);
      assert subPath == "";
    }
  }

  lemma LastTwo(s: string)
    ensures HasSuffix(s + "/", "//") <==> HasSuffix(s, "/")
    ensures s != "" ==> (s + "/")[..|s| - 1] == s[..|s| - 1]
  {
    if s != "" {
      assert (s + "/")[|s| - 1..] == [s[|s| - 1], '/'];
      assert s[|s| - 1..] == [s[|s| - 1]];
    }
  }

  lemma LastOfSplit(host: string, subPath: string)
    requires '/' !in host
    ensures var s := (host + "/") + subPath;
            HasSuffix(subPath, "/") <==> HasSuffix(s, "/") && '/' in s[..|s| - 1]
  {
    var s := (host + "/") + subPath;
    if subPath == "" {
      assert s[..|s| - 1] == host;
    } else {
      TrimLast(host + "/", subPath);
      assert s[..|s| - 1][|host|] == '/';
    }
  }

  lemma NoSlash(s: string)
    requires !Contains(s, "/")
    ensures '/' !in s
  {
    forall j | 0 <= j < |s| ensures s[j] != '/' {
      assert s[j..j + 1] == [s[j]];
      assert !OccursAt(s, "/", j);
    }
  }

  /** MAIN. The key is a fixed point exactly when something follows the scheme and the key
      does not end in a slash: then the client cache, which normalises once more, looks up
      the very string that the chain registry stores. On the endpoint itself: something
      follows its scheme, and its path does not end in an empty segment. */
  lemma KeyIdempotentIff(endpoint: string)
    ensures Key(Key(endpoint)) == Key(endpoint)
       <==> AfterScheme(endpoint) != "" && !HasSuffix(Key(endpoint), "/")
    ensures Key(Key(endpoint)) == Key(endpoint)
       <==> AfterScheme(endpoint) != "" && !EndsInEmptySegment(AfterScheme(endpoint))
  {
    if AfterScheme(endpoint) == "" {
      KeyOfBareScheme(endpoint);
    } else {
      var host, subPath := KeyIsAssembly(endpoint);
      FixedIff(Scheme(endpoint), host, subPath);
    }
  }

  lemma KeyIsAssembly(endpoint: string) returns (host: string, subPath: string)
    requires AfterScheme(endpoint) != ""
    ensures WebScheme(Scheme(endpoint)) && '/' !in host && Key(endpoint) == Assemble(Scheme(endpoint), host, subPath)
    ensures HasSuffix(subPath, "/") <==> EndsInEmptySegment(AfterScheme(endpoint))
  {
    Rescheme(endpoint);
    NormalizeWeb(Scheme(endpoint), AfterScheme(endpoint));
    var trimmed := TrimSuffix(AfterScheme(endpoint), "/");
    host, subPath := SplitOnce(trimmed, "/").0, SplitOnce(trimmed, "/").1;
    HostHasNoSlash(trimmed);
    LastOfPath(AfterScheme(endpoint), host, subPath);
  }

  lemma FixedIff(scheme: string, host: string, subPath: string)
    requires WebScheme(scheme) && '/' !in host
    ensures Key(Assemble(scheme, host, subPath)) == Assemble(scheme, host, subPath) <==> !HasSuffix(subPath, "/")
    ensures HasSuffix(Assemble(scheme, host, subPath), "/") <==> HasSuffix(subPath, "/")
  {
    KeyOfAssembled(scheme, host, subPath);
    if HasSuffix(subPath, "/") {
      assert |Path(TrimSuffix(subPath, "/"))| < |Path(subPath)|;
      assert |Assemble(scheme, host, TrimSuffix(subPath, "/"))| < |Assemble(scheme, host, subPath)|;
    }
  }

  /** A key is never empty, so the panic of the client cache on "" cannot come from one. */
  lemma KeyNonEmpty(endpoint: string)
    ensures Key(endpoint) != ""
  {
    Rescheme(endpoint);
    NormalNonEmpty(Scheme(endpoint), AfterScheme(endpoint));
  }

  lemma NormalNonEmpty(scheme: string, rest: string)
    requires WebScheme(scheme)
    ensures NormalizeRpcEndpoint(scheme + SCHEME_MARK + rest) != ""
  {
    if rest == "" {
      BareNormal(scheme);
    } else {
      var (host, subPath) := SplitOnce(TrimSuffix(rest, "/"), "/");
      NormalizeWeb(scheme, rest);
      AssembledNonEmpty(scheme, host, subPath);
    }
  }

  lemma AssembledNonEmpty(scheme: string, host: string, subPath: string)
    ensures Assemble(scheme, host, subPath) != ""
  {
    assert |Assemble(scheme, host, subPath)| >= |SCHEME_MARK|;
  }

  /** Keys do end in a slash, as when two of them end a path: the client cache then stores
      its client under a name that the registry does not hold. */
  lemma KeyNotIdempotent(scheme: string, host: string, path: string)
    requires WebScheme(scheme) && '/' !in host && path != "" && !HasSuffix(path, "/")
    ensures var e := scheme + SCHEME_MARK + ((host + "/" + (path + "/")) + "/");
            Key(e) == Assemble(scheme, host, path + "/") && Key(Key(e)) == Assemble(scheme, host, path)
  {
    var once := path + "/";
    var e := scheme + SCHEME_MARK + ((host + "/" + once) + "/");
    ReschemeKeeps(scheme, (host + "/" + once) + "/");
    NormalizeWeb(scheme, (host + "/" + once) + "/");
    TrimOne(host + "/" + once);
    SplitAssembled(host, once);
    assert Key(e) == Assemble(scheme, host, once);
    KeyOfAssembled(scheme, host, once);
    TrimOne(path);
  }

  lemma TrimOne(s: string)
    ensures TrimSuffix(s + "/", "/") == s
  {
    assert (s + "/")[|s|..] == "/" && (s + "/")[..|s|] == s;
  }

  // ----- what the normal form is

  /** Any scheme but https becomes http, and what follows it is kept. */
  lemma SchemeReplaced(scheme: string, rest: string)
    requires ':' !in scheme
    ensures ReplaceAnySchemeWithHttp(scheme + SCHEME_MARK + rest)
         == (if scheme == "https" then "https" else "http") + SCHEME_MARK + rest
  {
    MarkFirst(scheme, rest);
    AfterPrefix(scheme, SCHEME_MARK, rest);
    PrefixesFixScheme(scheme, rest);
    assert "http" + (SCHEME_MARK + rest) == "http" + SCHEME_MARK + rest;
  }

  lemma PrefixesFixScheme(scheme: string, rest: string)
    requires ':' !in scheme
    ensures "tcp://" <= scheme + SCHEME_MARK + rest <==> scheme == "tcp"
    ensures "http://" <= scheme + SCHEME_MARK + rest <==> scheme == "http"
    ensures "https://" <= scheme + SCHEME_MARK + rest <==> scheme == "https"
  {
    PrefixFixesScheme(scheme, rest, "tcp");
    PrefixFixesScheme(scheme, rest, "http");
    PrefixFixesScheme(scheme, rest, "https");
    assert "tcp" + SCHEME_MARK == "tcp://" && "http" + SCHEME_MARK == "http://" && "https" + SCHEME_MARK == "https://";
  }

  lemma MarkFirst(scheme: string, rest: string)
    requires ':' !in scheme
    ensures Index(scheme + SCHEME_MARK + rest, SCHEME_MARK) == |scheme|
  {
    assert SCHEME_MARK[0] == ':';
    IndexAfter(scheme, SCHEME_MARK, rest);
  }

  lemma AfterPrefix(a: string, b: string, c: string)
    ensures (a + b + c)[|a|..] == b + c
  {
  }

  lemma PrefixFixesScheme(scheme: string, rest: string, other: string)
    requires ':' !in scheme && ':' !in other
    ensures other + SCHEME_MARK <= scheme + SCHEME_MARK + rest <==> scheme == other
  {
    var e := scheme + SCHEME_MARK + rest;
    assert e[|scheme|] == ':' && e[..|scheme|] == scheme;
    if other + SCHEME_MARK <= e {
      assert e[|other|] == (other + SCHEME_MARK)[|other|] == ':';
      assert forall i :: 0 <= i < |scheme| ==> e[i] == scheme[i];
      assert forall i :: 0 <= i < |other| ==> e[i] == (other + SCHEME_MARK)[i] == other[i];
    }
  }

  lemma OccursBehind(prefix: string, s: string, sep: string, k: int)
    requires k >= |prefix| && OccursAt(prefix + s, sep, k)
    ensures OccursAt(s, sep, k - |prefix|)
  {
    assert (prefix + s)[k..k + |sep|] == s[k - |prefix|..k - |prefix| + |sep|];
  }

  lemma SlashesAddNoMark(endpoint: string)
    requires !Contains(endpoint, SCHEME_MARK)
    ensures !Contains("//" + endpoint, SCHEME_MARK)
  {
    var e := "//" + endpoint;
    var k := Index(e, SCHEME_MARK);
    if k >= 0 {
      OccursAtByte(e, SCHEME_MARK, k, 0);
      OccursBehind("//", endpoint, SCHEME_MARK, k);
    }
  }

  /** An endpoint without a scheme, with or without the two slashes, gets http. */
  lemma SchemeAdded(endpoint: string)
    requires !Contains(endpoint, SCHEME_MARK) && !("//" <= endpoint)
    ensures ReplaceAnySchemeWithHttp(endpoint) == "http" + SCHEME_MARK + endpoint
    ensures ReplaceAnySchemeWithHttp("//" + endpoint) == "http" + SCHEME_MARK + endpoint
  {
    SlashesAddNoMark(endpoint);
    assert "http" + SCHEME_MARK == "http://";
    assert "http:" + ("//" + endpoint) == "http://" + endpoint;
  }

  // ----- the normal form of an endpoint, part by part

  /** A host ends with its port exactly when it is a name, a colon, and a number. */
  lemma EndsWithPortIff(host: string)
    ensures EndsWithPort(host)
       <==> exists name, port :: host == name + ":" + port && port != "" && forall i :: 0 <= i < |port| ==> '0' <= port[i] <= '9'
  {
    if EndsWithPort(host) {
      var name, port := TakePort(host);
    }
    if name, port :| host == name + ":" + port && port != "" && forall i :: 0 <= i < |port| ==> '0' <= port[i] <= '9' {
      HasPort(name, port);
    }
  }

  lemma TakePort(host: string) returns (name: string, port: string)
    requires EndsWithPort(host)
    ensures host == name + ":" + port && port != "" && forall i :: 0 <= i < |port| ==> '0' <= port[i] <= '9'
  {
    var k :| 0 <= k < |host| - 1 && host[k] == ':' && forall i :: k < i < |host| ==> Digit(host[i]);
    name, port := host[..k], host[k + 1..];
    forall i | 0 <= i < |port| ensures Digit(port[i]) {
      assert port[i] == host[k + 1 + i];
    }
  }

  lemma HasPort(name: string, port: string)
    requires port != "" && forall i :: 0 <= i < |port| ==> '0' <= port[i] <= '9'
    ensures EndsWithPort(name + ":" + port)
  {
    var host := name + ":" + port;
    assert host[|name|] == ':';
    forall i | |name| < i < |host| ensures Digit(host[i]) {
      assert host[i] == port[i - |name| - 1];
    }
  }

  lemma NoPort(host: string)
    requires ':' !in host || !('0' <= host[|host| - 1] <= '9')
    ensures !EndsWithPort(host)
  {
    assert ':' in host ==> !Digit(host[|host| - 1]);
  }

  lemma TrimmedParts(host: string, subPath: string, slash: bool)
    requires host != "" && '/' !in host && !HasSuffix(subPath, "/")
    ensures SplitOnce(TrimSuffix(host + Path(subPath) + (if slash then "/" else ""), "/"), "/") == (host, subPath)
  {
    var rest := host + Path(subPath);
    TrimAssembled(host, subPath);
    TrimOne(rest);
    assert rest + "" == rest;
  }

  /** MAIN. The key of an endpoint, part by part: the scheme is https or becomes http; a host that ends
      with a port keeps it; and a path is kept but for one final slash. */
  lemma KeyOfParts(scheme: string, name: string, port: string, path: string, slash: bool)
    requires ':' !in scheme && '/' !in name && !HasSuffix(path, "/")
    requires port != "" && forall i :: 0 <= i < |port| ==> '0' <= port[i] <= '9'
    ensures Key(scheme + "://" + ((name + ":" + port) + Path(path) + (if slash then "/" else "")))
         == (if scheme == "https" then "https" else "http") + "://" + ((name + ":" + port) + Path(path))
  {
    HasPort(name, port);
    DigitsHaveNoSlash(name, port);
    KeyOfHost(scheme, name + ":" + port, path, slash);
  }

  /** MAIN. A host without a port is given that of its scheme: 443 for https and 80 for any other. */
  lemma KeyWithoutPort(scheme: string, host: string, path: string, slash: bool)
    requires ':' !in scheme && '/' !in host && !HasSuffix(path, "/") && host != ""
    requires ':' !in host || !('0' <= host[|host| - 1] <= '9')
    ensures Key(scheme + "://" + (host + Path(path) + (if slash then "/" else "")))
         == (if scheme == "https" then "https" else "http") + "://"
            + ((host + (if scheme == "https" then ":443" else ":80")) + Path(path))
  {
    NoPort(host);
    KeyOfHost(scheme, host, path, slash);
    PortGiven(scheme, host);
  }

  lemma DigitsHaveNoSlash(name: string, port: string)
    requires '/' !in name && forall i :: 0 <= i < |port| ==> '0' <= port[i] <= '9'
    ensures '/' !in name + ":" + port
  {
  }

  lemma PortGiven(scheme: string, host: string)
    requires !EndsWithPort(host)
    ensures WithPort(if scheme == "https" then "https" else "http", host) == host + if scheme == "https" then ":443" else ":80"
  {
  }

  lemma KeyOfHost(scheme: string, host: string, path: string, slash: bool)
    requires ':' !in scheme && '/' !in host && !HasSuffix(path, "/") && host != ""
    ensures Key(scheme + SCHEME_MARK + (host + Path(path) + (if slash then "/" else "")))
         == Assemble(if scheme == "https" then "https" else "http", host, path)
  {
    var web := if scheme == "https" then "https" else "http";
    var given := host + Path(path) + (if slash then "/" else "");
    SchemeReplaced(scheme, given);
    ReschemeKeeps(web, given);
    KeyIsAssembled(web, host, path, slash);
  }

  /** The normal form alone, of any protocol: 80 is given for http and ws, 443 for https and wss. */
  lemma NormalOfParts(protocol: string, host: string, path: string, slash: bool)
    requires ':' !in protocol && protocol != "" && '/' !in host && !HasSuffix(path, "/") && host != ""
    requires ':' !in host || !('0' <= host[|host| - 1] <= '9')
    ensures NormalizeRpcEndpoint(protocol + "://" + (host + Path(path) + (if slash then "/" else "")))
         == protocol + "://"
            + ((host + (if protocol in {"http", "ws"} then ":80" else if protocol in {"https", "wss"} then ":443" else ""))
               + Path(path))
  {
    NoPort(host);
    NormalizeWeb(protocol, host + Path(path) + (if slash then "/" else ""));
    TrimmedParts(host, path, slash);
    assert host + "" == host;
  }

  /** The same without a scheme: the host is one of http. */
  lemma KeyWithoutScheme(endpoint: string)
    requires !Contains(endpoint, "://") && !("//" <= endpoint)
    ensures Key(endpoint) == Key("http://" + endpoint) == Key("//" + endpoint)
  {
    SchemeAdded(endpoint);
    ReschemeKeeps("http", endpoint);
    assert "http" + SCHEME_MARK == "http://";
  }

  lemma KeyIsAssembled(scheme: string, host: string, subPath: string, slash: bool)
    requires WebScheme(scheme) && host != "" && '/' !in host && !HasSuffix(subPath, "/")
    ensures Key(scheme + SCHEME_MARK + (host + Path(subPath) + (if slash then "/" else ""))) == Assemble(scheme, host, subPath)
  {
    var given := host + Path(subPath) + (if slash then "/" else "");
    ReschemeKeeps(scheme, given);
    NormalizeWeb(scheme, given);
    TrimmedParts(host, subPath, slash);
  }
}
