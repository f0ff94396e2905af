/** Kubeconfig delivery: the server rewrite (provider/apple/create.go) and the line scan that
    reads the credentials back (provider/apple/kubeconfig_merge.go). */
module Kubeconfig {
  import opened Types
  import opened Text
  import Names

  /** The server address k3s always writes. */
  const LOOPBACK := "https://127.0.0.1:6443"

  /** strings.HasPrefix. */
  predicate HasPrefix(s: string, p: string) {
    p <= s
  }

  predicate Contains(s: string, p: string) {
    exists k | 0 <= k <= |s| :: HasPrefix(s[k..], p)
  }

  /** bytes.ReplaceAll(in, LOOPBACK, url): leftmost matches, left to right. */
  function Rewrite(s: string, url: string): string {
    if s == "" then ""
    else if HasPrefix(s, LOOPBACK) then url + Rewrite(s[|LOOPBACK|..], url)
    else [s[0]] + Rewrite(s[1..], url)
  }

  /** An endpoint the rewrite is called with: https, a host, the API port. */
  ghost predicate Endpoint(url: string) {
    exists h :: url == "https://" + h + ":6443"
  }

  lemma LoopbackShape()
    ensures |LOOPBACK| == 22 && LOOPBACK[0] == 'h' && LOOPBACK[1] == 't'
    ensures forall k | 0 < k < 22 :: LOOPBACK[k] != 'h'
    ensures LOOPBACK[21] == '3' && forall k | 0 <= k < 21 :: LOOPBACK[k] != '3'
    ensures '\n' !in LOOPBACK
  {
  }

  lemma EndpointShape(url: string)
    requires Endpoint(url)
    ensures |url| >= 13 && url[0] == 'h' && url[1] == 't' && url[|url| - 1] == '3'
  {
    var h :| url == "https://" + h + ":6443";
    assert url == "https://" + (h + ":6443");
    assert url == ("https://" + h) + ":6443";
  }

  /** Rewritten text without an "h" at its front is text copied from the input. */
  lemma {:induction false} CopiedFront(t: string, url: string, m: nat)
    requires Endpoint(url)
    requires m <= |Rewrite(t, url)| && 'h' !in Rewrite(t, url)[..m]
    ensures m <= |t| && t[..m] == Rewrite(t, url)[..m]
  {
    EndpointShape(url);
    if m > 0 && t != "" {
      assert Rewrite(t, url)[0] in Rewrite(t, url)[..m];
      assert !HasPrefix(t, LOOPBACK);
      var r := Rewrite(t[1..], url);
      assert Rewrite(t, url)[..m] == [t[0]] + r[..m - 1];
      CopiedFront(t[1..], url, m - 1);
    }
  }

  /** A loopback address that starts inside an endpoint also ends inside it. */
  lemma SeamAfterEndpoint(url: string, rest: string, k: nat)
    requires Endpoint(url) && k < |url|
    ensures HasPrefix((url + rest)[k..], LOOPBACK) ==> Contains(url, LOOPBACK)
  {
    EndpointShape(url);
    LoopbackShape();
    var out := (url + rest)[k..];
    if HasPrefix(out, LOOPBACK) {
      assert |url| - 1 - k < 22 ==> LOOPBACK[|url| - 1 - k] == out[|url| - 1 - k] == url[|url| - 1];
      assert url[k..][..22] == out[..22];
      assert HasPrefix(url[k..], LOOPBACK);
    }
  }

  /** A loopback address cannot form where copied text meets an endpoint. */
  lemma SeamBeforeEndpoint(c: char, t: string, url: string)
    requires Endpoint(url)
    ensures HasPrefix([c] + Rewrite(t, url), LOOPBACK) ==> HasPrefix([c] + t, LOOPBACK)
  {
    LoopbackShape();
    var out := Rewrite(t, url);
    if HasPrefix([c] + out, LOOPBACK) {
      assert out[..21] == ([c] + out)[1..22] == LOOPBACK[1..];
      CopiedFront(t, url, 21);
      assert ([c] + t)[..22] == [c] + t[..21];
    }
  }

  /** No loopback address starts at position k of the rewritten text. */
  lemma {:induction false} NoLoopbackAt(s: string, url: string, k: nat)
    requires Endpoint(url) && !Contains(url, LOOPBACK)
    requires k <= |Rewrite(s, url)|
    ensures !HasPrefix(Rewrite(s, url)[k..], LOOPBACK)
  {
    if s == "" {
    } else if HasPrefix(s, LOOPBACK) {
      var rest := Rewrite(s[|LOOPBACK|..], url);
      if k < |url| {
        SeamAfterEndpoint(url, rest, k);
      } else {
        NoLoopbackAt(s[|LOOPBACK|..], url, k - |url|);
        assert (url + rest)[k..] == rest[k - |url|..];
      }
    } else if k > 0 {
      NoLoopbackAt(s[1..], url, k - 1);
      assert Rewrite(s, url)[k..] == Rewrite(s[1..], url)[k - 1..];
    } else {
      SeamBeforeEndpoint(s[0], s[1..], url);
      assert s == [s[0]] + s[1..];
    }
  }

  lemma {:induction false} NothingToRewrite(s: string, url: string)
    requires !Contains(s, LOOPBACK)
    ensures Rewrite(s, url) == s
  {
    if s != "" {
      assert s[0..] == s;
      forall k | 0 <= k <= |s[1..]|
        ensures !HasPrefix(s[1..][k..], LOOPBACK)
      {
        assert s[1..][k..] == s[k + 1..];
      }
      NothingToRewrite(s[1..], url);
    }
  }

  /** Rewriting with an endpoint removes every loopback address from every text exactly when
      the endpoint holds none itself; a second rewrite then changes nothing. */
  lemma RewriteRemovesLoopback(url: string)
    requires Endpoint(url)
    ensures (forall s :: !Contains(Rewrite(s, url), LOOPBACK)) <==> !Contains(url, LOOPBACK)
    ensures !Contains(url, LOOPBACK) ==> forall s :: Rewrite(Rewrite(s, url), url) == Rewrite(s, url)
  {
    assert Rewrite(LOOPBACK, url) == url + Rewrite("", url) == url;
    if !Contains(url, LOOPBACK) {
      forall s
        ensures !Contains(Rewrite(s, url), LOOPBACK)
        ensures Rewrite(Rewrite(s, url), url) == Rewrite(s, url)
      {
        forall k | 0 <= k <= |Rewrite(s, url)|
          ensures !HasPrefix(Rewrite(s, url)[k..], LOOPBACK)
        {
          NoLoopbackAt(s, url, k);
        }
        NothingToRewrite(Rewrite(s, url), url);
      }
    }
  }

  // ---------------------------------------------------------------------------------------
  // The line scan
  // ---------------------------------------------------------------------------------------

  predicate Blank(c: char) {
    c == ' ' || c == '\t' || c == '\n' || c == '\r' || c == '\U{0B}' || c == '\U{0C}' || c == '\U{85}' || c == '\U{A0}'
    || c == '\U{1680}' || '\U{2000}' <= c <= '\U{200A}' || c == '\U{2028}' || c == '\U{2029}' || c == '\U{202F}'
    || c == '\U{205F}' || c == '\U{3000}'
  }

  function TrimLeft(s: string): string {
    if s != "" && Blank(s[0]) then TrimLeft(s[1..]) else s
  }

  function TrimRight(s: string): string {
    if s != "" && Blank(s[|s| - 1]) then TrimRight(s[..|s| - 1]) else s
  }

  /** strings.TrimSpace. */
  function Trim(s: string): string {
    TrimRight(TrimLeft(s))
  }

  /** Lines as bufio.ScanLines splits them; trimming later drops a carriage return. */
  function Lines(s: string): seq<string>
    decreases |s|
  {
    var line := Before(s, '\n');
    if |line| < |s| then [line] + Lines(s[|line| + 1..])
    else if s == "" then [] else [s]
  }

  datatype Creds = Creds(server: string, caData: string, certData: string, keyData: string)

  const SERVER_KEY := "server:"
  const CA_KEY := "certificate-authority-data:"
  const CERT_KEY := "client-certificate-data:"
  const KEY_KEY := "client-key-data:"

  function After(line: string, key: string): string
    requires HasPrefix(line, key)
  {
    Trim(line[|key|..])
  }

  /** One line of the scan: a field is taken from the first line that gives it a value. */
  function Scan(c: Creds, raw: string): Creds {
    var line := Trim(raw);
    if c.server == "" && HasPrefix(line, SERVER_KEY) then c.(server := After(line, SERVER_KEY))
    else if c.caData == "" && HasPrefix(line, CA_KEY) then c.(caData := After(line, CA_KEY))
    else if c.certData == "" && HasPrefix(line, CERT_KEY) then c.(certData := After(line, CERT_KEY))
    else if c.keyData == "" && HasPrefix(line, KEY_KEY) then c.(keyData := After(line, KEY_KEY))
    else c
  }

  function ScanAll(lines: seq<string>): Creds {
    if lines == [] then Creds("", "", "", "") else Scan(ScanAll(lines[..|lines| - 1]), lines[|lines| - 1])
  }

  predicate Complete(c: Creds) {
    c.server != "" && c.caData != "" && c.certData != "" && c.keyData != ""
  }

  /** What parseKubeconfigCreds returns: nothing when a field is missing. */
  function Parsed(raw: string): Option<Creds> {
    var c := ScanAll(Lines(raw));
    if Complete(c) then Some(c) else None
  }

  /** Line k is the first that begins with the key and has a value after it, and v is that value. */
  predicate FirstValue(lines: seq<string>, key: string, v: string, k: nat) {
    && k < |lines| && HasPrefix(Trim(lines[k]), key) && After(Trim(lines[k]), key) == v != ""
    && forall j: nat | j < k && HasPrefix(Trim(lines[j]), key) :: After(Trim(lines[j]), key) == ""
  }

  /** v is the first value of the key in the lines, or empty when none of them has one. */
  ghost predicate Valued(lines: seq<string>, key: string, v: string) {
    if v == "" then forall k: nat :: k < |lines| && HasPrefix(Trim(lines[k]), key) ==> After(Trim(lines[k]), key) == ""
    else exists k: nat :: FirstValue(lines, key, v, k)
  }

  /** The value of the key, if it has one, after one more line. */
  function Further(v: string, raw: string, key: string): string {
    if v == "" && HasPrefix(Trim(raw), key) then After(Trim(raw), key) else v
  }

  lemma ValuedFurther(lines: seq<string>, raw: string, key: string, v: string)
    requires Valued(lines, key, v)
    ensures Valued(lines + [raw], key, Further(v, raw, key))
  {
    hide Trim;
    hide After;
    var all := lines + [raw];
    if v != "" {
      var k: nat :| FirstValue(lines, key, v, k);
      assert FirstValue(all, key, v, k);
    } else if Further(v, raw, key) != "" {
      assert all[|lines|] == raw;
      assert FirstValue(all, key, Further(v, raw, key), |lines|);
    }
  }

  lemma OneKey(line: string)
    ensures HasPrefix(line, SERVER_KEY) ==> !HasPrefix(line, CA_KEY) && !HasPrefix(line, CERT_KEY) && !HasPrefix(line, KEY_KEY)
    ensures HasPrefix(line, CA_KEY) ==> !HasPrefix(line, CERT_KEY) && !HasPrefix(line, KEY_KEY)
    ensures HasPrefix(line, CERT_KEY) ==> !HasPrefix(line, KEY_KEY)
  {
    assert SERVER_KEY[0] == 's' && CA_KEY[0] == CERT_KEY[0] == KEY_KEY[0] == 'c';
    assert CA_KEY[1] == 'e' && CERT_KEY[1] == KEY_KEY[1] == 'l';
    assert CERT_KEY[7] == 'c' && KEY_KEY[7] == 'k';
  }

  /** No line is claimed by two keys, so each key is looked for on its own. */
  lemma ScanEach(c: Creds, raw: string)
    ensures Scan(c, raw) == Creds(Further(c.server, raw, SERVER_KEY), Further(c.caData, raw, CA_KEY),
                                  Further(c.certData, raw, CERT_KEY), Further(c.keyData, raw, KEY_KEY))
  {
    OneKey(Trim(raw));
  }

  ghost predicate AllValued(lines: seq<string>, c: Creds) {
    && Valued(lines, SERVER_KEY, c.server) && Valued(lines, CA_KEY, c.caData)
    && Valued(lines, CERT_KEY, c.certData) && Valued(lines, KEY_KEY, c.keyData)
  }

  lemma {:induction false} ScanAllValued(lines: seq<string>)
    ensures AllValued(lines, ScanAll(lines))
  {
    hide Valued;
    hide Scan;
    if lines == [] {
      NoLines(SERVER_KEY);
      NoLines(CA_KEY);
      NoLines(CERT_KEY);
      NoLines(KEY_KEY);
    } else {
      var init, last := lines[..|lines| - 1], lines[|lines| - 1];
      var c := ScanAll(init);
      ScanAllValued(init);
      ScanEach(c, last);
      ValuedFurther(init, last, SERVER_KEY, c.server);
      ValuedFurther(init, last, CA_KEY, c.caData);
      ValuedFurther(init, last, CERT_KEY, c.certData);
      ValuedFurther(init, last, KEY_KEY, c.keyData);
      assert lines == init + [last];
    }
  }

  lemma NoLines(key: string)
    ensures Valued([], key, "")
  {
  }

  /** A key has a value on some line. */
  ghost predicate Given(lines: seq<string>, key: string) {
    exists k: nat :: k < |lines| && HasPrefix(Trim(lines[k]), key) && After(Trim(lines[k]), key) != ""
  }

  lemma GivenValued(lines: seq<string>, key: string, v: string)
    requires Valued(lines, key, v)
    ensures Given(lines, key) <==> v != ""
  {
    if v != "" {
      var k: nat :| FirstValue(lines, key, v, k);
    }
  }

  /** parseKubeconfigCreds: there is a result exactly when each key has a value on some line,
      and then each field is the value of the first such line. */
  method ParseKubeconfigCreds(raw: string) returns (r: Option<Creds>)
    ensures r == Parsed(raw)
    ensures
      var lines := Lines(raw);
      r.Some? <==> Given(lines, SERVER_KEY) && Given(lines, CA_KEY) && Given(lines, CERT_KEY) && Given(lines, KEY_KEY)
    ensures r.Some? ==> Complete(r.value) && AllValued(Lines(raw), r.value)
  {
    var lines := Lines(raw);
    var c := Creds("", "", "", "");
    for i := 0 to |lines|
      invariant c == ScanAll(lines[..i])
    {
      assert lines[..i + 1][..i] == lines[..i];
      var line := Trim(lines[i]);
      if c.server == "" && HasPrefix(line, SERVER_KEY) {
        c := c.(server := After(line, SERVER_KEY));
      } else if c.caData == "" && HasPrefix(line, CA_KEY) {
        c := c.(caData := After(line, CA_KEY));
      } else if c.certData == "" && HasPrefix(line, CERT_KEY) {
        c := c.(certData := After(line, CERT_KEY));
      } else if c.keyData == "" && HasPrefix(line, KEY_KEY) {
        c := c.(keyData := After(line, KEY_KEY));
      }
    }
    assert lines[..|lines|] == lines;
    ScanAllValued(lines);
    GivenValued(lines, SERVER_KEY, c.server);
    GivenValued(lines, CA_KEY, c.caData);
    GivenValued(lines, CERT_KEY, c.certData);
    GivenValued(lines, KEY_KEY, c.keyData);
    if c.server == "" || c.caData == "" || c.certData == "" || c.keyData == "" {
      return None;
    }
    return Some(c);
  }

  // ---------------------------------------------------------------------------------------
  // Rewriting commutes with scanning
  // ---------------------------------------------------------------------------------------

  /** An endpoint on one line, with no white space in it. */
  ghost predicate PlainEndpoint(url: string) {
    Endpoint(url) && NoBlanks(url)
  }

  predicate NoBlanks(s: string) {
    forall k | 0 <= k < |s| :: !Blank(s[k])
  }

  lemma NoBlanksCat(a: string, b: string)
    ensures NoBlanks(a + b) <==> NoBlanks(a) && NoBlanks(b)
  {
    hide Blank;
    assert forall k | 0 <= k < |a| :: (a + b)[k] == a[k];
    assert forall k | 0 <= k < |b| :: (a + b)[|a| + k] == b[k];
  }

  lemma CleanHasNoBlanks(s: string)
    requires Names.CleanText(s)
    ensures NoBlanks(s)
  {
  }

  lemma FramedBlanks(front: string, host: string, back: string)
    requires NoBlanks(front) && NoBlanks(back)
    ensures NoBlanks(front + host + back) <==> NoBlanks(host)
  {
    hide NoBlanks;
    NoBlanksCat(front + host, back);
    NoBlanksCat(front, host);
  }

  lemma BareURL(host: string)
    ensures Endpoint("https://" + host + ":6443")
    ensures NoBlanks("https://" + host + ":6443") <==> NoBlanks(host)
  {
    assert NoBlanks("https://") && NoBlanks(":6443");
    FramedBlanks("https://", host, ":6443");
  }

  lemma PlainURL(host: string)
    ensures PlainEndpoint(Names.HttpsURL(host, Names.API_PORT)) <==> NoBlanks(host)
  {
    hide NoBlanks;
    hide Endpoint;
    if ':' in host || '%' in host {
      assert "https://" + ("[" + host + "]:" + "6443") == "https://" + ("[" + host + "]") + ":6443";
      BareURL("[" + host + "]");
      Bracketed(host);
    } else {
      assert "https://" + (host + ":" + "6443") == "https://" + host + ":6443";
      BareURL(host);
    }
  }

  lemma Bracketed(host: string)
    ensures NoBlanks("[" + host + "]") <==> NoBlanks(host)
  {
    assert NoBlanks("[") && NoBlanks("]");
    FramedBlanks("[", host, "]");
  }

  lemma PlainFQDN(name: string, d: string)
    requires NoBlanks(name)
    ensures NoBlanks(name + "." + d) <==> NoBlanks(d)
  {
    assert NoBlanks(".");
    NoBlanksCat(name + ".", d);
    NoBlanksCat(name, ".");
  }

  /** The API endpoint can be put in a kubeconfig exactly when the domain, or without one the
      server's address, holds no white space. */
  lemma EndpointPlain(cfg: ClusterConfig, server: string, ip: Addr, d: string)
    requires Names.CleanText(cfg.name) && Names.CleanText(server)
    ensures PlainEndpoint(Names.ClusterAPIEndpoint(cfg, server, ip, d)) <==> NoBlanks(if d != "" then d else ip)
  {
    hide PlainEndpoint;
    hide NoBlanks;
    hide Names.HttpsURL;
    var api := cfg.name + "-" + "api";
    CleanAPI(cfg.name);
    CleanHasNoBlanks(api);
    CleanHasNoBlanks(server);
    PlainFQDN(api, d);
    PlainFQDN(server, d);
    PlainURL(api + "." + d);
    PlainURL(server + "." + d);
    PlainURL(ip);
  }

  lemma CleanAPI(c: string)
    requires Names.CleanText(c)
    ensures Names.CleanText(c + "-" + "api")
  {
    Names.CleanWith(c, "api");
  }

  lemma {:induction false} RewriteAround(a: string, x: char, b: string, url: string)
    requires x !in LOOPBACK
    ensures Rewrite(a + [x] + b, url) == Rewrite(a, url) + [x] + Rewrite(b, url)
  {
    LoopbackShape();
    var s := a + [x] + b;
    if a == "" {
      assert s[0] == x && s[1..] == b;
    } else if HasPrefix(s, LOOPBACK) {
      assert x !in s[..22] && s[|a|] == x;
      assert a[..22] == s[..22];
      assert s[22..] == a[22..] + [x] + b;
      RewriteAround(a[22..], x, b, url);
    } else {
      assert !HasPrefix(a, LOOPBACK) by { assert |a| >= 22 ==> a[..22] == s[..22]; }
      assert s[1..] == a[1..] + [x] + b;
      RewriteAround(a[1..], x, b, url);
    }
  }

  lemma {:induction false} RewriteEnds(s: string, url: string)
    requires Endpoint(url)
    ensures Rewrite(s, url) == "" <==> s == ""
    ensures s != "" ==> Rewrite(s, url)[0] in [s[0], 'h']
    ensures s != "" ==> Rewrite(s, url)[|Rewrite(s, url)| - 1] in [s[|s| - 1], '3']
  {
    EndpointShape(url);
    if s != "" {
      var rest := if HasPrefix(s, LOOPBACK) then s[|LOOPBACK|..] else s[1..];
      RewriteEnds(rest, url);
    }
  }

  lemma {:induction false} RewriteAdds(s: string, url: string, c: char)
    requires c !in s && c !in url
    ensures c !in Rewrite(s, url)
  {
    if s != "" {
      var rest := if HasPrefix(s, LOOPBACK) then s[|LOOPBACK|..] else s[1..];
      RewriteAdds(rest, url, c);
    }
  }

  function RewriteEach(lines: seq<string>, url: string): (r: seq<string>)
    ensures |r| == |lines| && forall k | 0 <= k < |lines| :: r[k] == Rewrite(lines[k], url)
  {
    seq(|lines|, k requires 0 <= k < |lines| => Rewrite(lines[k], url))
  }

  lemma {:induction false} LinesOfRewrite(s: string, url: string)
    requires PlainEndpoint(url)
    ensures Lines(Rewrite(s, url)) == RewriteEach(Lines(s), url)
    decreases |s|
  {
    LoopbackShape();
    RewriteEnds(s, url);
    var line := Before(s, '\n');
    assert '\n' !in url by { assert Blank('\n'); }
    RewriteAdds(line, url, '\n');
    if |line| < |s| {
      var rest := s[|line| + 1..];
      assert s == line + ['\n'] + rest;
      RewriteAround(line, '\n', rest, url);
      BeforeSeparator(Rewrite(line, url), '\n', Rewrite(rest, url));
      assert Rewrite(s, url)[|Rewrite(line, url)| + 1..] == Rewrite(rest, url);
      LinesOfRewrite(rest, url);
    } else {
      assert line == s;
      BeforeAbsent(Rewrite(s, url), '\n');
    }
  }

  lemma {:induction false} TrimLeftOfRewrite(s: string, url: string)
    requires PlainEndpoint(url)
    ensures TrimLeft(Rewrite(s, url)) == Rewrite(TrimLeft(s), url)
  {
    LoopbackShape();
    RewriteEnds(s, url);
    if s != "" && Blank(s[0]) {
      RewriteAround("", s[0], s[1..], url);
      assert s == "" + [s[0]] + s[1..];
      assert Rewrite(s, url)[1..] == Rewrite(s[1..], url);
      TrimLeftOfRewrite(s[1..], url);
    }
  }

  lemma RewriteLast(init: string, x: char, url: string)
    requires x !in LOOPBACK
    ensures Rewrite(init + [x], url) == Rewrite(init, url) + [x]
  {
    RewriteAround(init, x, "", url);
    assert init + [x] + "" == init + [x];
  }

  lemma BlankElsewhere(c: char)
    ensures Blank(c) ==> c !in LOOPBACK && c !in ['h', '3']
  {
  }

  lemma {:induction false} TrimRightOfRewrite(s: string, url: string)
    requires PlainEndpoint(url)
    ensures TrimRight(Rewrite(s, url)) == Rewrite(TrimRight(s), url)
  {
    hide Blank;
    hide Rewrite;
    RewriteEnds(s, url);
    if s != "" {
      var init, x := s[..|s| - 1], s[|s| - 1];
      BlankElsewhere(x);
      BlankElsewhere('3');
      if Blank(x) {
        RewriteLast(init, x, url);
        assert s == init + [x];
        var out := Rewrite(init, url);
        assert (out + [x])[..|out|] == out;
        TrimRightOfRewrite(init, url);
      }
    }
  }

  lemma TrimOfRewrite(s: string, url: string)
    requires PlainEndpoint(url)
    ensures Trim(Rewrite(s, url)) == Rewrite(Trim(s), url)
  {
    TrimLeftOfRewrite(s, url);
    TrimRightOfRewrite(TrimLeft(s), url);
  }

  /** A key that no endpoint can start inside of. */
  predicate Keyword(key: string) {
    forall k | 0 <= k < |key| :: key[k] == 'h' ==> k + 1 < |key| && key[k + 1] != 't'
  }

  lemma PrefixOfCons(c: char, t: string, key: string)
    requires key != ""
    ensures HasPrefix([c] + t, key) <==> c == key[0] && HasPrefix(t, key[1..])
    ensures HasPrefix([c] + t, key) ==> ([c] + t)[|key|..] == t[|key| - 1..]
  {
    assert key == [key[0]] + key[1..];
  }

  /** Text that starts with "ht" does not start with a keyword. */
  lemma KeywordsAvoidEndpoints(s: string, key: string)
    requires Keyword(key) && key != "" && |s| >= 2 && s[0] == 'h' && s[1] == 't'
    ensures !HasPrefix(s, key)
  {
  }

  lemma {:induction false} KeyOfRewrite(line: string, key: string, url: string)
    requires Endpoint(url) && Keyword(key)
    ensures HasPrefix(Rewrite(line, url), key) <==> HasPrefix(line, key)
    ensures HasPrefix(line, key) ==> Rewrite(line, url)[|key|..] == Rewrite(line[|key|..], url)
  {
    if key == "" {
      assert line[0..] == line && Rewrite(line, url)[0..] == Rewrite(line, url);
    } else if line != "" {
      if HasPrefix(line, LOOPBACK) {
        EndpointShape(url);
        LoopbackShape();
        KeywordsAvoidEndpoints(line, key);
        KeywordsAvoidEndpoints(Rewrite(line, url), key);
      } else {
        assert Keyword(key[1..]) by {
          assert forall k | 0 <= k < |key[1..]| :: key[1..][k] == key[k + 1];
        }
        KeyOfRewrite(line[1..], key[1..], url);
        assert line == [line[0]] + line[1..];
        PrefixOfCons(line[0], line[1..], key);
        PrefixOfCons(line[0], Rewrite(line[1..], url), key);
      }
    }
  }

  function RewriteCreds(c: Creds, url: string): Creds {
    Creds(Rewrite(c.server, url), Rewrite(c.caData, url), Rewrite(c.certData, url), Rewrite(c.keyData, url))
  }

  lemma AfterOfRewrite(line: string, key: string, url: string)
    requires PlainEndpoint(url) && Keyword(key)
    ensures HasPrefix(Rewrite(line, url), key) <==> HasPrefix(line, key)
    ensures HasPrefix(line, key) ==> After(Rewrite(line, url), key) == Rewrite(After(line, key), url)
  {
    KeyOfRewrite(line, key, url);
    if HasPrefix(line, key) {
      TrimOfRewrite(line[|key|..], url);
    }
  }

  lemma ScanOfRewrite(c: Creds, raw: string, url: string)
    requires PlainEndpoint(url)
    ensures Scan(RewriteCreds(c, url), Rewrite(raw, url)) == RewriteCreds(Scan(c, raw), url)
  {
    TrimOfRewrite(raw, url);
    var line := Trim(raw);
    RewriteEnds(c.server, url);
    RewriteEnds(c.caData, url);
    RewriteEnds(c.certData, url);
    RewriteEnds(c.keyData, url);
    AfterOfRewrite(line, SERVER_KEY, url);
    AfterOfRewrite(line, CA_KEY, url);
    AfterOfRewrite(line, CERT_KEY, url);
    AfterOfRewrite(line, KEY_KEY, url);
  }

  lemma {:induction false} ScanAllOfRewrite(lines: seq<string>, url: string)
    requires PlainEndpoint(url)
    ensures ScanAll(RewriteEach(lines, url)) == RewriteCreds(ScanAll(lines), url)
  {
    if lines != [] {
      var init, last := lines[..|lines| - 1], lines[|lines| - 1];
      assert RewriteEach(lines, url)[..|lines| - 1] == RewriteEach(init, url);
      ScanAllOfRewrite(init, url);
      ScanOfRewrite(ScanAll(init), last, url);
    }
  }

  /** For every text and every plain endpoint, scanning the rewritten text finds the fields
      of the original, each rewritten, and misses one exactly when the original does. */
  lemma ParsedOfRewrite(raw: string, url: string)
    requires PlainEndpoint(url)
    ensures Parsed(Rewrite(raw, url)) ==
            match Parsed(raw)
            case None => None
            case Some(c) => Some(RewriteCreds(c, url))
  {
    LinesOfRewrite(raw, url);
    ScanAllOfRewrite(Lines(raw), url);
    var c := ScanAll(Lines(raw));
    RewriteEnds(c.server, url);
    RewriteEnds(c.caData, url);
    RewriteEnds(c.certData, url);
    RewriteEnds(c.keyData, url);
  }

  /** The delivered kubeconfig names the new server and carries the three blobs unchanged. */
  lemma DeliveredCreds(raw: string, url: string, c: Creds)
    requires PlainEndpoint(url)
    requires Parsed(raw) == Some(c) && c.server == LOOPBACK
    requires !Contains(c.caData, LOOPBACK) && !Contains(c.certData, LOOPBACK) && !Contains(c.keyData, LOOPBACK)
    ensures Parsed(Rewrite(raw, url)) == Some(c.(server := url))
  {
    ParsedOfRewrite(raw, url);
    NothingToRewrite(c.caData, url);
    NothingToRewrite(c.certData, url);
    NothingToRewrite(c.keyData, url);
    assert Rewrite(LOOPBACK, url) == url + Rewrite("", url) == url;
  }
}
