/** The host entries of a cluster with resolvers of its own (provider/apple/create.go): the text
    every node's /etc/hosts gets, and what a name resolves to by it. */
module Hosts {
  import opened Types
  import opened Text
  import opened Names

  /** "<ip> <fqdn> <name>". */
  function Entry(n: NodeInfo, d: string): string
    requires n.ips != []
  {
    n.ips[0] + " " + NodeFQDN(n.name, d) + " " + n.name + "\n"
  }

  /** One entry per node that has an address, in order. */
  function Entries(nodes: seq<NodeInfo>, d: string): string {
    if nodes == [] then ""
    else (if nodes[0].ips == [] then "" else Entry(nodes[0], d)) + Entries(nodes[1..], d)
  }

  lemma MoreEntries(text: string, nodes: seq<NodeInfo>, d: string, i: nat)
    requires i < |nodes|
    ensures text + Entries(nodes[i..], d) == text + (if nodes[i].ips == [] then "" else Entry(nodes[i], d)) + Entries(nodes[i + 1..], d)
  {
    hide Entry;
    assert nodes[i..][1..] == nodes[i + 1..];
  }

  /** The text writeClusterHosts builds. */
  method BuildEntries(nodes: seq<NodeInfo>, d: string) returns (text: string)
    ensures text == Entries(nodes, d)
  {
    text := "";
    assert nodes[0..] == nodes && text + Entries(nodes, d) == Entries(nodes, d);
    hide *;
    for i := 0 to |nodes|
      invariant text + Entries(nodes[i..], d) == Entries(nodes, d)
    {
      MoreEntries(text, nodes, d, i);
      if nodes[i].ips != [] {
        text := text + Entry(nodes[i], d);
      } else {
        assert text + "" == text;
      }
    }
    NoMoreEntries(text, nodes, d);
  }

  lemma NoMoreEntries(text: string, nodes: seq<NodeInfo>, d: string)
    ensures text + Entries(nodes[|nodes|..], d) == text
  {
  }

  /** One line's answer: its address, if one of the two names after it is asked for. */
  function LineAnswer(line: string, host: string): Option<Addr> {
    var names := Past(line, ' ');
    if host == Before(names, ' ') || host == Past(names, ' ') then Some(Before(line, ' ')) else None
  }

  /** The resolver's reading of the file: the first line that holds the name. */
  function Resolve(text: string, host: string): Option<Addr>
    decreases |text|
  {
    if text == "" then None
    else
      match LineAnswer(Before(text, '\n'), host)
      case Some(addr) => Some(addr)
      case None => Resolve(Past(text, '\n'), host)
  }

  ghost predicate Listed(n: NodeInfo, d: string) {
    && CleanText(n.name) && n.name != "" && n.id == NodeFQDN(n.name, d)
    && n.ips != [] && Solid(n.ips[0])
  }

  lemma SolidName(n: NodeInfo, d: string)
    requires Listed(n, d) && Solid(d)
    ensures Solid(n.name) && Solid(n.id)
  {
    assert !NameChar(' ') && !NameChar('\n');
  }

  /** An entry is a line of its own, and answers for its node's two names only. */
  lemma EntryAnswers(n: NodeInfo, d: string, rest: string, host: string)
    requires Listed(n, d) && Solid(d)
    ensures Resolve(Entry(n, d) + rest, host) == if host == n.id || host == n.name then Some(n.ips[0]) else Resolve(rest, host)
  {
    SolidName(n, d);
    var names := n.id + " " + n.name;
    var line := n.ips[0] + " " + names;
    assert Entry(n, d) + rest == line + ['\n'] + rest;
    Splits(line, '\n', rest);
    assert line == n.ips[0] + [' '] + names && names == n.id + [' '] + n.name;
    Splits(n.ips[0], ' ', names);
    Splits(n.id, ' ', n.name);
  }

  lemma NamesDiffer(a: NodeInfo, b: NodeInfo, d: string)
    requires Listed(a, d) && Listed(b, d) && d != "" && a.name != b.name
    ensures a.id != b.id && a.id != b.name && a.name != b.id
  {
    assert !NameChar('.');
    assert a.id[|a.name|] == '.' && b.id[|b.name|] == '.';
    if a.id == b.id {
      FQDNInjective(a.name, b.name, d);
    }
  }

  /** In every node every node's name, and its name under the domain, lead to that node's
      address. */
  lemma {:induction false} EntriesResolve(nodes: seq<NodeInfo>, d: string, k: nat)
    requires d != "" && Solid(d) && k < |nodes|
    requires forall n | n in nodes :: Listed(n, d)
    requires forall i, j | 0 <= i < j < |nodes| :: nodes[i].name != nodes[j].name
    ensures nodes[k].ips != []
    ensures Resolve(Entries(nodes, d), nodes[k].name) == Resolve(Entries(nodes, d), nodes[k].id) == Some(nodes[k].ips[0])
  {
    var first, rest := nodes[0], Entries(nodes[1..], d);
    assert first in nodes && nodes[k] in nodes && nodes[k].name != "";
    EntryAnswers(first, d, rest, nodes[k].name);
    EntryAnswers(first, d, rest, nodes[k].id);
    if k > 0 {
      NamesDiffer(first, nodes[k], d);
      EntriesResolve(nodes[1..], d, k - 1);
    }
  }
}
