/** Dependency order of a cluster's nodes (provider/apple/lifecycle.go) and the role filters
    over recorded nodes (provider/apple/day2.go). */
module Ordering {
  import opened Types

  /** roleStopRank: lower stops first. */
  function StopRank(r: Role): nat {
    match r
    case Agent => 0
    case LB => 1
    case Server => 2
    case Datastore => 3
  }

  /** What a node of role a needs running: an agent the load balancer, that the servers, those the
      datastore, and each what the next ones need. */
  predicate Needs(a: Role, b: Role) {
    match a
    case Agent => !b.Agent?
    case LB => b.Server? || b.Datastore?
    case Server => b.Datastore?
    case Datastore => false
  }

  /** The ranks are the needs. */
  lemma RanksAreNeeds(a: Role, b: Role)
    ensures StopRank(a) < StopRank(b) <==> Needs(a, b)
  {
  }

  function WithRole(nodes: seq<NodeInfo>, role: Role): (out: seq<NodeInfo>)
    ensures forall n :: n in out <==> n in nodes && n.role == role
    ensures |out| <= |nodes|
  {
    if nodes == [] then []
    else if nodes[0].role == role then [nodes[0]] + WithRole(nodes[1..], role)
    else WithRole(nodes[1..], role)
  }

  lemma {:induction false} WithRoleCat(a: seq<NodeInfo>, b: seq<NodeInfo>, role: Role)
    ensures WithRole(a + b, role) == WithRole(a, role) + WithRole(b, role)
  {
    if a == [] {
      assert a + b == b;
    } else {
      assert (a + b)[1..] == a[1..] + b;
      WithRoleCat(a[1..], b, role);
    }
  }

  /** nodesWithRole. */
  method NodesWithRole(nodes: seq<NodeInfo>, role: Role) returns (out: seq<NodeInfo>)
    ensures out == WithRole(nodes, role)
  {
    out := [];
    for i := 0 to |nodes|
      invariant out == WithRole(nodes[..i], role)
    {
      WithRoleCat(nodes[..i], [nodes[i]], role);
      assert nodes[..i + 1] == nodes[..i] + [nodes[i]];
      if nodes[i].role == role {
        out := out + [nodes[i]];
      }
    }
    assert nodes[..|nodes|] == nodes;
  }

  /** The comparison orderByRole sorts by. */
  predicate Less(a: NodeInfo, b: NodeInfo, reversed: bool) {
    if reversed then StopRank(a.role) > StopRank(b.role) else StopRank(a.role) < StopRank(b.role)
  }

  function Insert(n: NodeInfo, sorted: seq<NodeInfo>, reversed: bool): seq<NodeInfo> {
    if sorted == [] || !Less(sorted[0], n, reversed) then [n] + sorted
    else [sorted[0]] + Insert(n, sorted[1..], reversed)
  }

  /** What a stable sort of nodes by Less returns. */
  function OrderedByRole(nodes: seq<NodeInfo>, reversed: bool): seq<NodeInfo> {
    if nodes == [] then [] else Insert(nodes[0], OrderedByRole(nodes[1..], reversed), reversed)
  }

  function StopOrder(nodes: seq<NodeInfo>): seq<NodeInfo> { OrderedByRole(nodes, false) }

  function StartOrder(nodes: seq<NodeInfo>): seq<NodeInfo> { OrderedByRole(nodes, true) }

  /** orderByRole. */
  method OrderByRole(nodes: seq<NodeInfo>, reversed: bool) returns (ordered: seq<NodeInfo>)
    ensures ordered == OrderedByRole(nodes, reversed)
  {
    ordered := [];
    for i := |nodes| downto 0
      invariant ordered == OrderedByRole(nodes[i..], reversed)
    {
      ordered := Insert(nodes[i], ordered, reversed);
    }
  }

  predicate Sorted(out: seq<NodeInfo>, reversed: bool) {
    forall i, j | 0 <= i < j < |out| :: !Less(out[j], out[i], reversed)
  }

  /** out holds nodes in rank order, each role's nodes in their original order. */
  ghost predicate StablySorted(out: seq<NodeInfo>, nodes: seq<NodeInfo>, reversed: bool) {
    Sorted(out, reversed) && forall role :: WithRole(out, role) == WithRole(nodes, role)
  }

  lemma {:induction false} InsertKeeps(n: NodeInfo, sorted: seq<NodeInfo>, reversed: bool)
    ensures multiset(Insert(n, sorted, reversed)) == multiset([n] + sorted)
  {
    if sorted != [] && Less(sorted[0], n, reversed) {
      InsertKeeps(n, sorted[1..], reversed);
      assert sorted == [sorted[0]] + sorted[1..];
    }
  }

  lemma {:induction false} InsertSorts(n: NodeInfo, sorted: seq<NodeInfo>, reversed: bool)
    requires Sorted(sorted, reversed)
    ensures Sorted(Insert(n, sorted, reversed), reversed)
  {
    if sorted != [] && Less(sorted[0], n, reversed) {
      var rest := Insert(n, sorted[1..], reversed);
      InsertSorts(n, sorted[1..], reversed);
      InsertKeeps(n, sorted[1..], reversed);
      forall k | 0 <= k < |rest|
        ensures !Less(rest[k], sorted[0], reversed)
      {
        assert rest[k] in multiset(rest);
        assert rest[k] == n || rest[k] in sorted[1..];
      }
    }
  }

  lemma {:induction false} InsertStable(n: NodeInfo, sorted: seq<NodeInfo>, reversed: bool, role: Role)
    ensures WithRole(Insert(n, sorted, reversed), role) == WithRole([n], role) + WithRole(sorted, role)
  {
    WithRoleCat([n], sorted, role);
    if sorted != [] && Less(sorted[0], n, reversed) {
      var rest := Insert(n, sorted[1..], reversed);
      InsertStable(n, sorted[1..], reversed, role);
      WithRoleCat([sorted[0]], rest, role);
      assert WithRole([n], role) == [] || WithRole([sorted[0]], role) == [];
    }
  }

  /** orderByRole sorts by rank, keeps every node, and keeps the order within a role. */
  lemma {:induction false} OrderedByRoleSorts(nodes: seq<NodeInfo>, reversed: bool)
    ensures StablySorted(OrderedByRole(nodes, reversed), nodes, reversed)
    ensures multiset(OrderedByRole(nodes, reversed)) == multiset(nodes)
  {
    if nodes != [] {
      var rest := OrderedByRole(nodes[1..], reversed);
      OrderedByRoleSorts(nodes[1..], reversed);
      InsertSorts(nodes[0], rest, reversed);
      InsertKeeps(nodes[0], rest, reversed);
      assert nodes == [nodes[0]] + nodes[1..];
      forall role
        ensures WithRole(Insert(nodes[0], rest, reversed), role) == WithRole(nodes, role)
      {
        InsertStable(nodes[0], rest, reversed, role);
        WithRoleCat([nodes[0]], nodes[1..], role);
      }
    }
  }

  /** There is only one such list, so any stable sort returns it. */
  lemma {:induction false} StablySortedUnique(a: seq<NodeInfo>, b: seq<NodeInfo>, reversed: bool)
    requires Sorted(a, reversed) && Sorted(b, reversed)
    requires forall role :: WithRole(a, role) == WithRole(b, role)
    ensures a == b
  {
    assert a != [] ==> WithRole(a, a[0].role) != [];
    assert b != [] ==> WithRole(b, b[0].role) != [];
    if a != [] && b != [] {
      SameHead(a, b, reversed);
      forall role
        ensures WithRole(a[1..], role) == WithRole(b[1..], role)
      {
        WithRoleTail(a, role);
        WithRoleTail(b, role);
      }
      StablySortedUnique(a[1..], b[1..], reversed);
    }
  }

  lemma SameHead(a: seq<NodeInfo>, b: seq<NodeInfo>, reversed: bool)
    requires a != [] && b != [] && Sorted(a, reversed) && Sorted(b, reversed)
    requires WithRole(a, a[0].role) == WithRole(b, a[0].role)
    requires WithRole(a, b[0].role) == WithRole(b, b[0].role)
    ensures a[0] == b[0]
  {
    assert a[0] in WithRole(b, a[0].role) && b[0] in WithRole(a, b[0].role);
    assert !Less(a[0], b[0], reversed) && !Less(b[0], a[0], reversed);
    assert a[0].role == b[0].role;
    assert WithRole(a, a[0].role)[0] == a[0];
    assert WithRole(b, b[0].role)[0] == b[0];
  }

  lemma WithRoleTail(a: seq<NodeInfo>, role: Role)
    requires a != []
    ensures WithRole(a[1..], role) == if a[0].role == role then WithRole(a, role)[1..] else WithRole(a, role)
  {
  }

  function Reverse(s: seq<NodeInfo>): (r: seq<NodeInfo>)
    ensures |r| == |s| && forall k | 0 <= k < |s| :: r[k] == s[|s| - 1 - k]
  {
    if s == [] then [] else Reverse(s[1..]) + [s[0]]
  }

  lemma {:induction false} WithRoleReverse(s: seq<NodeInfo>, role: Role)
    ensures WithRole(Reverse(s), role) == Reverse(WithRole(s, role))
  {
    if s != [] {
      WithRoleReverse(s[1..], role);
      WithRoleCat(Reverse(s[1..]), [s[0]], role);
    }
  }

  /** Reversing twice: start order is the reverse of the stop order of the reversed list. */
  lemma StartOrderMirrorsStopOrder(nodes: seq<NodeInfo>)
    ensures StartOrder(nodes) == Reverse(StopOrder(Reverse(nodes)))
  {
    var stop := StopOrder(Reverse(nodes));
    var mirrored := Reverse(stop);
    OrderedByRoleSorts(nodes, true);
    OrderedByRoleSorts(Reverse(nodes), false);
    forall role
      ensures WithRole(mirrored, role) == WithRole(StartOrder(nodes), role)
    {
      WithRoleReverse(stop, role);
      WithRoleReverse(nodes, role);
      assert Reverse(Reverse(WithRole(nodes, role))) == WithRole(nodes, role);
    }
    StablySortedUnique(StartOrder(nodes), mirrored, true);
  }

  ghost predicate NoRepeats(nodes: seq<NodeInfo>) {
    forall i, j | 0 <= i < j < |nodes| :: nodes[i] != nodes[j]
  }

  lemma {:induction false} WithRoleNoRepeats(nodes: seq<NodeInfo>, role: Role)
    requires NoRepeats(nodes)
    ensures NoRepeats(WithRole(nodes, role))
  {
    if nodes != [] {
      WithRoleNoRepeats(nodes[1..], role);
      assert nodes[0] !in nodes[1..];
    }
  }

  ghost predicate OnePerRole(nodes: seq<NodeInfo>) {
    forall role :: |WithRole(nodes, role)| <= 1
  }

  lemma Palindrome(own: seq<NodeInfo>)
    requires NoRepeats(own)
    ensures own == Reverse(own) <==> |own| <= 1
  {
    if |own| > 1 {
      assert Reverse(own)[0] == own[|own| - 1] != own[0];
    }
  }

  /** Start order is the plain reverse of stop order exactly for a cluster with at most one
      node of each role. */
  lemma StartReversesStop(nodes: seq<NodeInfo>)
    requires NoRepeats(nodes)
    ensures StartOrder(nodes) == Reverse(StopOrder(nodes)) <==> OnePerRole(nodes)
  {
    var mirrored := Reverse(StopOrder(nodes));
    OrderedByRoleSorts(nodes, true);
    OrderedByRoleSorts(nodes, false);
    forall role
      ensures WithRole(mirrored, role) == Reverse(WithRole(nodes, role))
      ensures mirrored == StartOrder(nodes) ==> |WithRole(nodes, role)| <= 1
      ensures OnePerRole(nodes) ==> WithRole(mirrored, role) == WithRole(StartOrder(nodes), role)
    {
      var own := WithRole(nodes, role);
      WithRoleReverse(StopOrder(nodes), role);
      WithRoleNoRepeats(nodes, role);
      assert WithRole(StartOrder(nodes), role) == own;
      Palindrome(own);
    }
    if OnePerRole(nodes) {
      StablySortedUnique(StartOrder(nodes), mirrored, true);
    }
  }

  /** k3sNodesInUpgradeOrder. */
  function UpgradeOrder(nodes: seq<NodeInfo>): seq<NodeInfo> {
    WithRole(nodes, Server) + WithRole(nodes, Agent)
  }

  function OnlyK3s(nodes: seq<NodeInfo>): (out: seq<NodeInfo>)
    ensures forall n :: n in out <==> n in nodes && n.role.IsK3s()
  {
    if nodes == [] then []
    else if nodes[0].role.IsK3s() then [nodes[0]] + OnlyK3s(nodes[1..])
    else OnlyK3s(nodes[1..])
  }

  lemma {:induction false} OnlyK3sKeeps(nodes: seq<NodeInfo>, role: Role)
    ensures WithRole(OnlyK3s(nodes), role) == if role.IsK3s() then WithRole(nodes, role) else []
  {
    if nodes != [] {
      OnlyK3sKeeps(nodes[1..], role);
    }
  }

  lemma {:induction false} OnlyK3sSorted(nodes: seq<NodeInfo>)
    requires Sorted(nodes, true)
    ensures Sorted(OnlyK3s(nodes), true)
  {
    if nodes != [] {
      OnlyK3sSorted(nodes[1..]);
      assert forall n | n in nodes[1..] :: !Less(n, nodes[0], true);
    }
  }

  lemma {:induction false} WithRoleTwice(nodes: seq<NodeInfo>, role: Role, again: Role)
    ensures WithRole(WithRole(nodes, role), again) == if role == again then WithRole(nodes, role) else []
  {
    if nodes != [] {
      WithRoleTwice(nodes[1..], role, again);
    }
  }

  lemma UpgradeOrderKeeps(nodes: seq<NodeInfo>, role: Role)
    ensures WithRole(UpgradeOrder(nodes), role) == if role.IsK3s() then WithRole(nodes, role) else []
  {
    WithRoleCat(WithRole(nodes, Server), WithRole(nodes, Agent), role);
    WithRoleTwice(nodes, Server, role);
    WithRoleTwice(nodes, Agent, role);
  }

  /** Upgrade order is start order without the datastore and the load balancer. */
  lemma UpgradeOrderIsStartOrder(nodes: seq<NodeInfo>)
    ensures UpgradeOrder(nodes) == OnlyK3s(StartOrder(nodes))
  {
    OrderedByRoleSorts(nodes, true);
    var filtered := OnlyK3s(StartOrder(nodes));
    OnlyK3sSorted(StartOrder(nodes));
    forall role
      ensures WithRole(UpgradeOrder(nodes), role) == WithRole(filtered, role)
    {
      OnlyK3sKeeps(StartOrder(nodes), role);
      UpgradeOrderKeeps(nodes, role);
    }
    StablySortedUnique(UpgradeOrder(nodes), filtered, true);
  }
}
