/** Numbering of nodes added after create (provider/apple/node_ops.go). */
module Numbering {
  import opened Types
  import opened Text

  /** The number a name carries after prefix, when it is one. */
  function IndexIn(name: string, prefix: string): Option<int> {
    match CutPrefix(name, prefix)
    case None => None
    case Some(suffix) => Atoi(suffix)
  }

  /** r is the smallest index above 0 and above every index the nodes carry. */
  ghost predicate IsNextIndex(nodes: seq<NodeInfo>, prefix: string, r: int) {
    && r >= 1
    && (forall n | n in nodes :: IndexIn(n.name, prefix).Some? ==> IndexIn(n.name, prefix).value < r)
    && (r > 1 ==> exists n :: n in nodes && IndexIn(n.name, prefix) == Some(r - 1))
  }

  /** nextIndexForPrefix. */
  method NextIndexForPrefix(nodes: seq<NodeInfo>, prefix: string) returns (r: nat)
    ensures IsNextIndex(nodes, prefix, r)
  {
    var highest := 0;
    for i := 0 to |nodes|
      invariant highest >= 0
      invariant IsNextIndex(nodes[..i], prefix, highest + 1)
    {
      assert nodes[..i + 1] == nodes[..i] + [nodes[i]];
      var cut := CutPrefix(nodes[i].name, prefix);
      if cut.None? {
        continue;
      }
      var idx := Atoi(cut.value);
      if idx.None? {
        continue;
      }
      if idx.value > highest {
        highest := idx.value;
        assert IndexIn(nodes[i].name, prefix) == Some(highest);
      }
    }
    assert nodes[..|nodes|] == nodes;
    r := highest + 1;
  }

  lemma IndexOfPrinted(prefix: string, i: nat)
    ensures IndexIn(prefix + Dec(i), prefix) == Some(i)
  {
    assert (prefix + Dec(i))[|prefix|..] == Dec(i);
    AtoiDec(i);
  }

  /** The names an add generates are new to the cluster and differ from each other. */
  lemma FreshNames(nodes: seq<NodeInfo>, prefix: string, r: nat, i: nat, j: nat)
    requires IsNextIndex(nodes, prefix, r)
    ensures forall n | n in nodes :: n.name != prefix + Dec(r + i)
    ensures i != j ==> prefix + Dec(r + i) != prefix + Dec(r + j)
  {
    var x, y := r + i, r + j;
    IndexOfPrinted(prefix, x);
    IndexOfPrinted(prefix, y);
    forall n | n in nodes
      ensures n.name != prefix + Dec(x)
    {
      assert IndexIn(n.name, prefix) != Some(x);
    }
  }

  /** An index freed by a removal is handed out again by some later add exactly when no
      remaining node carries an index as high. */
  lemma FreedIndexReused(rest: seq<NodeInfo>, prefix: string, freed: int, r: nat)
    requires IsNextIndex(rest, prefix, r) && freed >= 1
    ensures r <= freed <==> forall n | n in rest :: IndexIn(n.name, prefix).Some? ==> IndexIn(n.name, prefix).value < freed
  {
    if freed < r {
      var n :| n in rest && IndexIn(n.name, prefix) == Some(r - 1);
    }
  }
}
