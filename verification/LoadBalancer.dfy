/** The configuration of the API load balancer (provider/apple/node.go). */
module LoadBalancer {
  import opened Types
  import opened Text
  import opened Names
  import opened Ordering

  // ---------------------------------------------------------------------------------------
  // The text
  // ---------------------------------------------------------------------------------------

  /** A line of the configuration: nothing, a comment, the head of a section, or a setting of the
      section above it. */
  datatype Line = Gap | Remark(text: string) | Head(name: string) | Set(key: string, gap: string, value: string) {
    function Text(): string {
      match this
      case Gap => ""
      case Remark(text) => "#" + text
      case Head(name) => name
      case Set(key, gap, value) => "    " + key + gap + value
    }
  }

  function Unlines(lines: seq<Line>): string {
    if lines == [] then "" else lines[0].Text() + "\n" + Unlines(lines[1..])
  }

  function Opening(c: string): seq<Line> {
    [Remark(" Generated by k3ac for cluster \"" + c + "\" — API load balancer (L4/TCP passthrough)."),
     Remark(NO_TLS + (VERIFIED + END_TO_END)), Gap]
  }

  const NO_TLS := " DO NOT terminate TLS here: "
  const VERIFIED := "the apiserver cert is verified "
  const END_TO_END := "end to end by the client."

  const GLOBAL: seq<Line> := [Head("global"), Set("log", " ", "stdout format raw local0"), Set("maxconn", " ", "4096"), Gap]

  const DEFAULTS: seq<Line> :=
    [Head("defaults"), Set("log", "     ", "global"), Set("mode", "    ", "tcp"), Set("option", "  ", "tcplog"),
     Set("timeout", " ", "connect 5s"), Set("timeout", " ", "client  30s"), Set("timeout", " ", "server  30s"), Gap]

  const RESOLVERS: seq<Line> :=
    [Head("resolvers containerdns"), Set("parse-resolv-conf", "", ""), Set("hold", " ", "valid 10s"), Set("hold", " ", "nx    10s"), Gap]

  const FRONTEND: seq<Line> :=
    [Head("frontend k3s-api"), Set("bind", " ", "*:6443"), Set("default_backend", " ", "k3s-servers"), Gap]

  const BACKEND: seq<Line> := [Head("backend k3s-servers"), Set("balance", " ", "roundrobin"), Set("option", " ", "tcp-check")]

  /** The text before the backend lines. */
  function Preamble(c: string): string {
    Unlines(Opening(c)) + (Unlines(GLOBAL) + (Unlines(DEFAULTS) + (Unlines(RESOLVERS) + (Unlines(FRONTEND) + Unlines(BACKEND)))))
  }

  function LineHead(i: nat): string { "    server srv" + Dec(i) + " " }

  const CHECKED := "check resolvers containerdns"
  const PREFERRED := " resolve-prefer ipv4 init-addr none"
  const LINE_TAIL := ":6443" + " " + (CHECKED + PREFERRED) + "\n"

  /** The backend line of one server. */
  function BackendLine(i: nat, name: string, d: string): string {
    LineHead(i) + (NodeFQDN(name, d) + LINE_TAIL)
  }

  function Backends(names: seq<string>, d: string): string {
    if names == [] then "" else Backends(names[..|names| - 1], d) + BackendLine(|names|, names[|names| - 1], d)
  }

  function APILBConfig(c: string, names: seq<string>, d: string): string {
    Preamble(c) + Backends(names, d)
  }

  lemma Appended(a: string, b: string, c: string)
    ensures a + b + c == a + (b + c)
  {
  }

  /** The backend lines from the i-th on. */
  function BackendsFrom(names: seq<string>, i: nat, d: string): string {
    if names == [] then "" else BackendLine(i, names[0], d) + BackendsFrom(names[1..], i + 1, d)
  }

  lemma MoreBackends(front: seq<string>, name: string, d: string)
    ensures Backends(front + [name], d) == Backends(front, d) + BackendLine(|front| + 1, name, d)
  {
    hide BackendLine;
    assert (front + [name])[..|front|] == front;
  }

  lemma {:induction false} FromFront(front: seq<string>, names: seq<string>, d: string)
    ensures Backends(front + names, d) == Backends(front, d) + BackendsFrom(names, |front| + 1, d)
    decreases |names|
  {
    hide BackendLine;
    hide Backends;
    if names == [] {
      assert front + names == front;
    } else {
      var more := front + [names[0]];
      assert more + names[1..] == front + names;
      FromFront(more, names[1..], d);
      MoreBackends(front, names[0], d);
      Appended(Backends(front, d), BackendLine(|more|, names[0], d), BackendsFrom(names[1..], |more| + 1, d));
    }
  }

  lemma CancelFront(x: string, a: string, b: string)
    requires x + a == x + b
    ensures a == b
  {
    assert a == (x + a)[|x|..] && b == (x + b)[|x|..];
  }

  lemma FirstBackend(i: nat, n: string, rest: string, n': string, rest': string, d: string)
    requires '.' !in n && '.' !in n' && d != ""
    requires BackendLine(i, n, d) + rest == BackendLine(i, n', d) + rest'
    ensures n == n' && rest == rest'
  {
    var x := n + ['.'] + (d + LINE_TAIL + rest);
    var x' := n' + ['.'] + (d + LINE_TAIL + rest');
    LineSplits(i, n, rest, d);
    LineSplits(i, n', rest', d);
    CancelFront(LineHead(i), x, x');
    BeforeSeparator(n, '.', d + LINE_TAIL + rest);
    BeforeSeparator(n', '.', d + LINE_TAIL + rest');
    CancelFront(n + ['.'], d + LINE_TAIL + rest, d + LINE_TAIL + rest');
    CancelFront(d + LINE_TAIL, rest, rest');
  }

  lemma LineSplits(i: nat, n: string, rest: string, d: string)
    requires d != ""
    ensures BackendLine(i, n, d) + rest == LineHead(i) + (n + ['.'] + (d + LINE_TAIL + rest))
  {
    hide LineHead;
    HostSplits(n, d, LINE_TAIL, rest);
    Appended(LineHead(i), NodeFQDN(n, d) + LINE_TAIL, rest);
  }

  lemma HostSplits(n: string, d: string, tail: string, rest: string)
    requires d != ""
    ensures NodeFQDN(n, d) + tail + rest == n + ['.'] + (d + tail + rest)
  {
  }

  lemma {:induction false} BackendsInjective(a: seq<string>, b: seq<string>, i: nat, d: string)
    requires d != "" && (forall n | n in a :: '.' !in n) && (forall n | n in b :: '.' !in n)
    requires BackendsFrom(a, i, d) == BackendsFrom(b, i, d)
    ensures a == b
  {
    if a != [] && b != [] {
      FirstBackend(i, a[0], BackendsFrom(a[1..], i + 1, d), b[0], BackendsFrom(b[1..], i + 1, d), d);
      BackendsInjective(a[1..], b[1..], i + 1, d);
    } else {
      LineNotEmpty(i, a, d);
      LineNotEmpty(i, b, d);
    }
  }

  lemma LineNotEmpty(i: nat, a: seq<string>, d: string)
    ensures BackendsFrom(a, i, d) == "" <==> a == []
  {
    if a != [] {
      assert |LineHead(i)| > 0;
    }
  }

  lemma FromStart(names: seq<string>, d: string)
    ensures Backends(names, d) == BackendsFrom(names, 1, d)
  {
    hide BackendLine;
    FromFront([], names, d);
    assert [] + names == names;
    assert "" + BackendsFrom(names, 1, d) == BackendsFrom(names, 1, d);
  }

  /** The configuration determines the backends, names and order. */
  lemma ConfigNamesServers(c: string, a: seq<string>, b: seq<string>, d: string)
    requires d != "" && (forall n | n in a :: '.' !in n) && (forall n | n in b :: '.' !in n)
    ensures APILBConfig(c, a, d) == APILBConfig(c, b, d) <==> a == b
  {
    hide Preamble;
    hide Backends;
    hide BackendsFrom;
    if APILBConfig(c, a, d) == APILBConfig(c, b, d) {
      CancelFront(Preamble(c), Backends(a, d), Backends(b, d));
      FromStart(a, d);
      FromStart(b, d);
      BackendsInjective(a, b, 1, d);
    }
  }

  // ---------------------------------------------------------------------------------------
  // How HAProxy reads it
  // ---------------------------------------------------------------------------------------

  /** A line without its indentation. */
  function Unindented(line: string): (r: string)
    ensures |r| <= |line|
  {
    if line != "" && line[0] == ' ' then Unindented(line[1..]) else line
  }

  /** What the settings of one key in one section say, in order; under is the section above. */
  function Said(text: string, under: string, section: string, key: string): seq<string>
    decreases |text|
  {
    if text == "" then []
    else
      var line, rest := Before(text, '\n'), Past(text, '\n');
      if line == "" || line[0] == '#' then Said(rest, under, section, key)
      else if line[0] != ' ' then Said(rest, line, section, key)
      else
        var setting := Unindented(line);
        (if under == section && Before(setting, ' ') == key then [Unindented(Past(setting, ' '))] else [])
        + Said(rest, under, section, key)
  }

  /** A server setting's address: what follows the server's name. */
  function Address(setting: string): string {
    Before(Past(setting, ' '), ' ')
  }

  /** The configuration takes TCP connections on the API port to the API port of these hosts, in
      order, and to nothing else. */
  predicate Routes(text: string, hosts: seq<string>) {
    var bound, chosen := Said(text, "", "frontend k3s-api", "bind"), Said(text, "", "frontend k3s-api", "default_backend");
    && Said(text, "", "defaults", "mode") == ["tcp"] && bound == ["*:6443"] && |chosen| == 1
    && var backend := "backend " + chosen[0];
    && Said(text, "", "frontend k3s-api", "mode") == [] && Said(text, "", backend, "mode") == []
    && var servers := Said(text, "", backend, "server");
    && |servers| == |hosts| && forall k: nat | k < |hosts| :: Address(servers[k]) == hosts[k] + ":6443"
  }

  predicate Blanks(s: string) {
    forall k | 0 <= k < |s| :: s[k] == ' '
  }

  /** A line that reads as it was meant. */
  predicate Plain(line: Line) {
    match line
    case Gap => true
    case Remark(text) => '\n' !in text
    case Head(name) => name != "" && name[0] != '#' && name[0] != ' ' && '\n' !in name
    case Set(key, gap, value) =>
      && key != "" && ' ' !in key && '\n' !in key && '\n' !in value
      && Blanks(gap) && (if value == "" then gap == "" else gap != "" && value[0] != ' ')
  }

  /** What lines say, read as they were meant. */
  function Meant(lines: seq<Line>, under: string, section: string, key: string): seq<string> {
    if lines == [] then []
    else
      match lines[0]
      case Head(name) => Meant(lines[1..], name, section, key)
      case Set(k, _, value) => (if under == section && k == key then [value] else []) + Meant(lines[1..], under, section, key)
      case _ => Meant(lines[1..], under, section, key)
  }

  function LastHead(lines: seq<Line>, under: string): string {
    if lines == [] then under else LastHead(lines[1..], if lines[0].Head? then lines[0].name else under)
  }

  lemma {:induction false} BlanksDropped(blanks: string, s: string)
    requires Blanks(blanks) && (s == "" || s[0] != ' ')
    ensures Unindented(blanks + s) == s
  {
    if blanks == "" {
      assert blanks + s == s;
    } else {
      assert (blanks + s)[1..] == blanks[1..] + s;
      BlanksDropped(blanks[1..], s);
    }
  }

  lemma SettingReads(key: string, gap: string, value: string)
    requires Plain(Set(key, gap, value))
    ensures Unindented("    " + key + gap + value) == key + gap + value
    ensures Before(key + gap + value, ' ') == key && Unindented(Past(key + gap + value, ' ')) == value
  {
    var setting := key + gap + value;
    assert "    " + key + gap + value == "    " + setting;
    BlanksDropped("    ", setting);
    if value == "" {
      assert setting == key;
      BeforeAbsent(key, ' ');
    } else {
      assert setting == key + [' '] + (gap[1..] + value);
      Splits(key, ' ', gap[1..] + value);
      BlanksDropped(gap[1..], value);
    }
  }

  lemma LineReads(line: Line, rest: string, under: string, section: string, key: string)
    requires Plain(line)
    ensures Said(line.Text() + "\n" + rest, under, section, key) ==
      match line
      case Head(name) => Said(rest, name, section, key)
      case Set(k, _, value) => (if under == section && k == key then [value] else []) + Said(rest, under, section, key)
      case _ => Said(rest, under, section, key)
  {
    var s := line.Text();
    assert s + "\n" + rest == s + ['\n'] + rest;
    Splits(s, '\n', rest);
    if line.Set? {
      SettingReads(line.key, line.gap, line.value);
    }
  }

  lemma {:induction false} LinesRead(lines: seq<Line>, rest: string, under: string, section: string, key: string)
    requires forall line | line in lines :: Plain(line)
    ensures Said(Unlines(lines) + rest, under, section, key) == Meant(lines, under, section, key) + Said(rest, LastHead(lines, under), section, key)
  {
    hide Said;
    hide Plain;
    if lines == [] {
      assert Unlines(lines) + rest == rest;
    } else {
      var more := Unlines(lines[1..]) + rest;
      assert Unlines(lines) + rest == lines[0].Text() + "\n" + more;
      LineReads(lines[0], more, under, section, key);
      LinesRead(lines[1..], rest, if lines[0].Head? then lines[0].name else under, section, key);
    }
  }

  lemma GlobalLines()
    ensures Plain(Set("log", " ", "stdout format raw local0"))
  {
  }

  lemma ConnectionLines()
    ensures Plain(Set("maxconn", " ", "4096")) && Plain(Head("global"))
  {
  }

  lemma DefaultsLines()
    ensures Plain(Head("defaults"))
    ensures Plain(Set("log", "     ", "global"))
    ensures Plain(Set("mode", "    ", "tcp"))
    ensures Plain(Set("option", "  ", "tcplog"))
  {
  }

  lemma TimeoutLines()
    ensures Plain(Set("timeout", " ", "connect 5s"))
    ensures Plain(Set("timeout", " ", "client  30s"))
    ensures Plain(Set("timeout", " ", "server  30s"))
  {
  }

  lemma ResolversLines()
    ensures Plain(Head("resolvers containerdns"))
    ensures Plain(Set("parse-resolv-conf", "", ""))
  {
  }

  lemma HoldLines()
    ensures Plain(Set("hold", " ", "valid 10s")) && Plain(Set("hold", " ", "nx    10s"))
  {
  }

  lemma FrontendLines()
    ensures Plain(Head("frontend k3s-api"))
    ensures Plain(Set("bind", " ", "*:6443"))
  {
  }

  lemma ChoiceLine()
    ensures Plain(Set("default_backend", " ", "k3s-servers"))
  {
  }

  lemma BackendLines()
    ensures Plain(Head("backend k3s-servers"))
    ensures Plain(Set("balance", " ", "roundrobin"))
    ensures Plain(Set("option", " ", "tcp-check"))
  {
  }

  lemma FixedPlain()
    ensures forall line | line in GLOBAL :: Plain(line)
    ensures forall line | line in DEFAULTS :: Plain(line)
    ensures forall line | line in RESOLVERS :: Plain(line)
    ensures forall line | line in FRONTEND :: Plain(line)
    ensures forall line | line in BACKEND :: Plain(line)
  {
    GapPlain();
    hide Plain;
    GlobalLines();
    ConnectionLines();
    DefaultsLines();
    TimeoutLines();
    ResolversLines();
    HoldLines();
    FrontendLines();
    ChoiceLine();
    BackendLines();
  }

  lemma GapPlain()
    ensures Plain(Gap)
  {
  }

  lemma OpeningPlain(c: string)
    requires CleanText(c)
    ensures forall line | line in Opening(c) :: Plain(line)
  {
    hide Plain;
    GapPlain();
    TitlePlain(c);
    WarningPlain();
  }

  lemma TitlePlain(c: string)
    requires CleanText(c)
    ensures Plain(Remark(" Generated by k3ac for cluster \"" + c + "\" — API load balancer (L4/TCP passthrough)."))
  {
    assert !NameChar('\n') && '\n' !in " Generated by k3ac for cluster \"";
    assert '\n' !in "\" — API load balancer (L4/TCP passthrough).";
  }

  lemma WarningPlain()
    ensures Plain(Remark(NO_TLS + (VERIFIED + END_TO_END)))
  {
    assert '\n' !in NO_TLS && '\n' !in VERIFIED && '\n' !in END_TO_END;
  }

  /** One section's lines. */
  predicate Section(lines: seq<Line>, name: string) {
    lines != [] && lines[0] == Head(name) && forall k | 0 < k < |lines| :: !lines[k].Head?
  }

  /** What they say of a key. */
  function Given(lines: seq<Line>, key: string): seq<string> {
    if lines == [] then []
    else (if lines[0].Set? && lines[0].key == key then [lines[0].value] else []) + Given(lines[1..], key)
  }

  lemma {:induction false} HeadlessMeans(lines: seq<Line>, under: string, section: string, key: string)
    requires forall k | 0 <= k < |lines| :: !lines[k].Head?
    ensures Meant(lines, under, section, key) == (if section == under then Given(lines, key) else []) && LastHead(lines, under) == under
  {
    if lines != [] {
      HeadlessMeans(lines[1..], under, section, key);
    }
  }

  lemma SectionMeans(lines: seq<Line>, name: string, under: string, section: string, key: string)
    requires Section(lines, name)
    ensures Meant(lines, under, section, key) == (if section == name then Given(lines, key) else []) && LastHead(lines, under) == name
  {
    HeadlessMeans(lines[1..], name, section, key);
  }

  lemma SectionReads(lines: seq<Line>, name: string, rest: string, under: string, section: string, key: string)
    requires Section(lines, name) && forall line | line in lines :: Plain(line)
    ensures Said(Unlines(lines) + rest, under, section, key) == (if section == name then Given(lines, key) else []) + Said(rest, name, section, key)
  {
    hide Said;
    hide Meant;
    LinesRead(lines, rest, under, section, key);
    SectionMeans(lines, name, under, section, key);
  }

  lemma OpeningReads(c: string, rest: string, section: string, key: string)
    requires CleanText(c) && section != ""
    ensures Said(Unlines(Opening(c)) + rest, "", section, key) == Said(rest, "", section, key)
  {
    hide Said;
    hide Meant;
    hide Plain;
    OpeningPlain(c);
    LinesRead(Opening(c), rest, "", section, key);
    HeadlessMeans(Opening(c), "", section, key);
  }

  /** What the fixed part says. */
  function Fixed(section: string, key: string): seq<string> {
    (if section == "global" then Given(GLOBAL, key) else [])
    + ((if section == "defaults" then Given(DEFAULTS, key) else [])
    + ((if section == "resolvers containerdns" then Given(RESOLVERS, key) else [])
    + ((if section == "frontend k3s-api" then Given(FRONTEND, key) else [])
    + (if section == "backend k3s-servers" then Given(BACKEND, key) else []))))
  }

  lemma PreambleReads(c: string, rest: string, section: string, key: string)
    requires CleanText(c) && section != ""
    ensures Said(Preamble(c) + rest, "", section, key) == Fixed(section, key) + Said(rest, "backend k3s-servers", section, key)
  {
    hide Said;
    hide Given;
    hide Plain;
    hide Unlines;
    hide Opening;
    FixedPlain();
    var r5 := Unlines(BACKEND) + rest;
    var r4 := Unlines(FRONTEND) + r5;
    var r3 := Unlines(RESOLVERS) + r4;
    var r2 := Unlines(DEFAULTS) + r3;
    var r1 := Unlines(GLOBAL) + r2;
    assert Preamble(c) + rest == Unlines(Opening(c)) + r1;
    OpeningReads(c, r1, section, key);
    SectionReads(GLOBAL, "global", r2, "", section, key);
    SectionReads(DEFAULTS, "defaults", r3, "global", section, key);
    SectionReads(RESOLVERS, "resolvers containerdns", r4, "defaults", section, key);
    SectionReads(FRONTEND, "frontend k3s-api", r5, "resolvers containerdns", section, key);
    SectionReads(BACKEND, "backend k3s-servers", rest, "frontend k3s-api", section, key);
  }

  lemma FixedMode()
    ensures Fixed("defaults", "mode") == ["tcp"]
  {
  }

  lemma FixedFrontend()
    ensures Fixed("frontend k3s-api", "bind") == ["*:6443"] && Fixed("frontend k3s-api", "default_backend") == ["k3s-servers"]
    ensures Fixed("frontend k3s-api", "mode") == []
  {
  }

  lemma FixedBackend()
    ensures Fixed("backend k3s-servers", "mode") == [] && Fixed("backend k3s-servers", "server") == []
  {
  }

  /** What the backend line of one server sets. */
  function ServerValue(i: nat, name: string, d: string): string {
    "srv" + Dec(i) + (" " + (NodeFQDN(name, d) + ":6443" + " " + (CHECKED + PREFERRED)))
  }

  lemma BackendLineIs(i: nat, name: string, d: string)
    ensures BackendLine(i, name, d) == Set("server", " ", ServerValue(i, name, d)).Text() + "\n"
  {
    hide Dec;
    hide NodeFQDN;
    LineParts(Dec(i), NodeFQDN(name, d), CHECKED + PREFERRED);
  }

  lemma LineParts(n: string, host: string, tail: string)
    ensures "    server srv" + n + " " + (host + (":6443" + " " + tail + "\n"))
         == "    " + "server" + " " + ("srv" + n + (" " + (host + ":6443" + " " + tail))) + "\n"
  {
  }

  lemma ServerLinePlain(i: nat, name: string, d: string)
    requires CleanText(name) && Solid(d)
    ensures Plain(Set("server", " ", ServerValue(i, name, d))) && Address(ServerValue(i, name, d)) == NodeFQDN(name, d) + ":6443"
  {
    hide Dec;
    hide NodeFQDN;
    SolidHost(name, d);
    SolidNumber(i);
    SolidOptions();
    assert ' ' !in "server" && '\n' !in "server";
    ServerValueReads("srv" + Dec(i), NodeFQDN(name, d) + ":6443", CHECKED + PREFERRED);
  }

  lemma ServerValueReads(server: string, address: string, options: string)
    requires Solid(server) && Solid(address) && '\n' !in options && server != "" && server[0] == 's'
    ensures
      var value := server + (" " + (address + " " + options));
      '\n' !in value && value[0] == 's' && Address(value) == address
  {
    var value := server + (" " + (address + " " + options));
    assert value == server + [' '] + (address + " " + options);
    Splits(server, ' ', address + " " + options);
    assert address + " " + options == address + [' '] + options;
    Splits(address, ' ', options);
  }

  lemma SolidNumber(i: nat)
    ensures Solid("srv" + Dec(i)) && ("srv" + Dec(i))[0] == 's'
  {
    assert !IsDigit(' ') && !IsDigit('\n');
  }

  lemma SolidOptions()
    ensures '\n' !in CHECKED + PREFERRED
  {
    assert '\n' !in CHECKED && '\n' !in PREFERRED;
  }

  lemma SolidHost(name: string, d: string)
    requires CleanText(name) && Solid(d)
    ensures Solid(NodeFQDN(name, d) + ":6443")
  {
    assert !NameChar(' ') && !NameChar('\n');
  }

  function ServerValues(names: seq<string>, i: nat, d: string): seq<string> {
    seq(|names|, k requires 0 <= k < |names| => ServerValue(i + k, names[k], d))
  }

  lemma {:induction false} BackendsSay(names: seq<string>, i: nat, d: string, section: string, key: string)
    requires Solid(d) && forall n | n in names :: CleanText(n)
    ensures Said(BackendsFrom(names, i, d), "backend k3s-servers", section, key)
         == if section == "backend k3s-servers" && key == "server" then ServerValues(names, i, d) else []
  {
    hide BackendLine;
    hide ServerValue;
    hide ServerValues;
    hide Plain;
    hide Said;
    hide Address;
    hide NodeFQDN;
    NothingSaid(section, key, i, d);
    if names != [] {
      var rest, line := BackendsFrom(names[1..], i + 1, d), Set("server", " ", ServerValue(i, names[0], d));
      BackendLineIs(i, names[0], d);
      ServerLinePlain(i, names[0], d);
      OneLine(line, rest, section, key);
      BackendsSay(names[1..], i + 1, d, section, key);
      MoreValues(names, i, d);
    }
  }

  lemma NothingSaid(section: string, key: string, i: nat, d: string)
    ensures Said("", "backend k3s-servers", section, key) == [] && ServerValues([], i, d) == []
  {
  }

  lemma MoreValues(names: seq<string>, i: nat, d: string)
    requires names != []
    ensures ServerValues(names, i, d) == [ServerValue(i, names[0], d)] + ServerValues(names[1..], i + 1, d)
  {
    hide ServerValue;
  }

  lemma OneLine(line: Line, rest: string, section: string, key: string)
    requires line.Set? && line.key == "server" && Plain(line)
    ensures Said(line.Text() + "\n" + rest, "backend k3s-servers", section, key)
         == (if section == "backend k3s-servers" && key == "server" then [line.value] else []) + Said(rest, "backend k3s-servers", section, key)
  {
    hide Said;
    hide Plain;
    LineReads(line, rest, "backend k3s-servers", section, key);
  }

  /** What a setting of the configuration says. */
  lemma ConfigSays(c: string, names: seq<string>, d: string, section: string, key: string)
    requires CleanText(c) && Solid(d) && section != "" && forall n | n in names :: CleanText(n)
    ensures Said(APILBConfig(c, names, d), "", section, key)
         == Fixed(section, key) + if section == "backend k3s-servers" && key == "server" then ServerValues(names, 1, d) else []
  {
    hide Said;
    hide Fixed;
    hide Preamble;
    hide BackendsFrom;
    hide Backends;
    hide ServerValues;
    FromStart(names, d);
    PreambleReads(c, Backends(names, d), section, key);
    BackendsSay(names, 1, d, section, key);
  }

  /** HAProxy takes the API port to the API port of each server by its name, in order, and to
      nothing else, as long as the domain holds no white space. */
  lemma ConfigRoutes(c: string, names: seq<string>, d: string)
    requires CleanText(c) && Solid(d) && forall n | n in names :: CleanText(n)
    ensures Routes(APILBConfig(c, names, d), HostsOf(names, d))
  {
    hide Said;
    hide Fixed;
    hide APILBConfig;
    hide NodeFQDN;
    hide Address;
    hide ServerValue;
    FixedMode();
    FixedFrontend();
    FixedBackend();
    SectionNames();
    ConfigSays(c, names, d, "defaults", "mode");
    ConfigSays(c, names, d, "frontend k3s-api", "bind");
    ConfigSays(c, names, d, "frontend k3s-api", "default_backend");
    ConfigSays(c, names, d, "frontend k3s-api", "mode");
    ConfigSays(c, names, d, "backend k3s-servers", "mode");
    ConfigSays(c, names, d, "backend k3s-servers", "server");
    forall k: nat | k < |names|
      ensures Address(ServerValues(names, 1, d)[k]) == HostsOf(names, d)[k] + ":6443"
    {
      ServerLinePlain(1 + k, names[k], d);
    }
  }

  lemma SectionNames()
    ensures "backend " + "k3s-servers" == "backend k3s-servers"
    ensures "defaults" != "backend k3s-servers" && "frontend k3s-api" != "backend k3s-servers" && "mode" != "server"
  {
  }

  /** The container names of servers. */
  function HostsOf(names: seq<string>, d: string): (hosts: seq<string>)
    ensures |hosts| == |names| && forall k: nat | k < |names| :: hosts[k] == NodeFQDN(names[k], d)
  {
    seq(|names|, k requires 0 <= k < |names| => NodeFQDN(names[k], d))
  }

  /** buildAPILBConfig. */
  method BuildAPILBConfig(c: string, names: seq<string>, d: string) returns (b: string)
    ensures b == APILBConfig(c, names, d)
    ensures CleanText(c) && Solid(d) && (forall n | n in names :: CleanText(n)) ==> Routes(b, HostsOf(names, d))
  {
    hide Preamble;
    hide Routes;
    hide HostsOf;
    hide BackendLine;
    b := Preamble(c);
    for i := 0 to |names|
      invariant b == APILBConfig(c, names[..i], d)
    {
      assert names[..i + 1][..i] == names[..i];
      var line := BackendLine(i + 1, names[i], d);
      Appended(Preamble(c), Backends(names[..i], d), line);
      b := b + line;
    }
    assert names[..|names|] == names;
    if CleanText(c) && Solid(d) && forall n | n in names :: CleanText(n) {
      ConfigRoutes(c, names, d);
    }
  }

  /** The names of the recorded servers, in order. */
  function ServerNames(nodes: seq<NodeInfo>): (names: seq<string>)
    ensures |names| == |WithRole(nodes, Server)|
    ensures forall k | 0 <= k < |names| :: names[k] == WithRole(nodes, Server)[k].name
  {
    seq(|WithRole(nodes, Server)|, k requires 0 <= k < |WithRole(nodes, Server)| => WithRole(nodes, Server)[k].name)
  }

  /** serverConfigsFromState, as the names buildAPILBConfig uses. */
  method ServerConfigsFromState(nodes: seq<NodeInfo>) returns (names: seq<string>)
    ensures names == ServerNames(nodes)
  {
    names := [];
    for i := 0 to |nodes|
      invariant names == ServerNames(nodes[..i])
    {
      WithRoleCat(nodes[..i], [nodes[i]], Server);
      assert nodes[..i + 1] == nodes[..i] + [nodes[i]];
      if nodes[i].role == Server {
        names := names + [nodes[i].name];
      }
      assert names == ServerNames(nodes[..i + 1]);
    }
    assert nodes[..|nodes|] == nodes;
  }
}
