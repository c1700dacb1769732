/** design/mockups/v1/beads.jsx, `DAGView`: layers of the bead graph by longest
    dependency path, memoised. */
module BeadsDag {
  datatype Bead = Bead(id: string, deps: seq<string>)

  /** `beadById`: the dependencies of every bead. */
  type Graph = map<string, seq<string>>

  function BeadById(beads: seq<Bead>): Graph {
    if beads == [] then map[]
    else BeadById(beads[..|beads| - 1])[beads[|beads| - 1].id := beads[|beads| - 1].deps]
  }

  // ----- dependency chains

  /** Each id on the chain is a dependency of the one before it. */
  ghost predicate Chain(g: Graph, p: seq<string>) {
    p != [] && forall i | 0 <= i < |p| - 1 :: p[i] in g && p[i + 1] in g[p[i]]
  }

  ghost predicate Acyclic(g: Graph) {
    forall p | Chain(g, p) && |p| > 1 :: p[0] != p[|p| - 1]
  }

  /** There is a chain of `n` dependency steps from `id`. */
  ghost predicate HasChain(g: Graph, id: string, n: nat) {
    exists p :: Chain(g, p) && |p| == n + 1 && p[0] == id
  }

  ghost function LongestUpTo(g: Graph, id: string, n: nat): nat {
    if n == 0 || HasChain(g, id, n) then n else LongestUpTo(g, id, n - 1)
  }

  /** The length of the longest dependency chain from `id`. */
  ghost function Longest(g: Graph, id: string): nat {
    LongestUpTo(g, id, |g|)
  }

  lemma ChainPart(g: Graph, p: seq<string>, i: nat, j: nat)
    requires Chain(g, p) && i <= j < |p|
    ensures Chain(g, p[i..j + 1])
  {
  }

  /** On an acyclic graph no chain visits an id twice. */
  lemma ChainDistinct(g: Graph, p: seq<string>)
    requires Acyclic(g) && Chain(g, p)
    ensures forall i, j | 0 <= i < j < |p| :: p[i] != p[j]
  {
    forall i, j | 0 <= i < j < |p|
      ensures p[i] != p[j]
    {
      ChainPart(g, p, i, j);
      var q := p[i..j + 1];
      assert q[0] != q[|q| - 1];
    }
  }

  lemma {:induction false} DistinctFits(s: seq<string>, keys: set<string>)
    requires (forall i, j | 0 <= i < j < |s| :: s[i] != s[j]) && forall x | x in s :: x in keys
    ensures |s| <= |keys|
  {
    if s != [] {
      var last := s[|s| - 1];
      DistinctFits(s[..|s| - 1], keys - {last});
    }
  }

  lemma ChainBounded(g: Graph, id: string, n: nat)
    requires Acyclic(g) && HasChain(g, id, n)
    ensures n <= |g|
  {
    var p :| Chain(g, p) && |p| == n + 1 && p[0] == id;
    ChainDistinct(g, p);
    DistinctFits(p[..n], g.Keys);
  }

  lemma {:induction false} LongestUpToMeans(g: Graph, id: string, n: nat)
    ensures HasChain(g, id, LongestUpTo(g, id, n))
    ensures forall k | LongestUpTo(g, id, n) < k <= n :: !HasChain(g, id, k)
  {
    if n == 0 {
      assert Chain(g, [id]);
    } else if !HasChain(g, id, n) {
      LongestUpToMeans(g, id, n - 1);
    }
  }

  /** The longest chain is one, and no chain is longer. */
  lemma LongestMeans(g: Graph, id: string)
    requires Acyclic(g)
    ensures HasChain(g, id, Longest(g, id))
    ensures forall n: nat | HasChain(g, id, n) :: n <= Longest(g, id)
  {
    LongestUpToMeans(g, id, |g|);
    forall n: nat | HasChain(g, id, n)
      ensures n <= Longest(g, id)
    {
      ChainBounded(g, id, n);
    }
  }

  /** A bead lies strictly above the chains of its dependencies. */
  lemma DepShorter(g: Graph, id: string, d: string)
    requires Acyclic(g) && id in g && d in g[id]
    ensures Longest(g, d) < Longest(g, id)
  {
    LongestMeans(g, id);
    LongestMeans(g, d);
    var p :| Chain(g, p) && |p| == Longest(g, d) + 1 && p[0] == d;
    var q := [id] + p;
    assert Chain(g, q) && |q| == Longest(g, d) + 2 && q[0] == id;
    assert HasChain(g, id, Longest(g, d) + 1);
  }

  lemma ChainFirst(g: Graph, p: seq<string>)
    requires Chain(g, p)
    ensures |p| > 1 ==> p[0] in g && g[p[0]] != []
  {
    if |p| > 1 { assert p[0] in g && p[0 + 1] in g[p[0]]; }
  }

  lemma NoDeps(g: Graph, id: string)
    requires Acyclic(g) && (id !in g || g[id] == [])
    ensures Longest(g, id) == 0
  {
    LongestMeans(g, id);
    var p :| Chain(g, p) && |p| == Longest(g, id) + 1 && p[0] == id;
    ChainFirst(g, p);
  }

  lemma SomeDepLongest(g: Graph, id: string)
    requires Acyclic(g) && id in g && g[id] != []
    ensures exists d | d in g[id] :: Longest(g, id) == Longest(g, d) + 1
  {
    LongestMeans(g, id);
    var first := g[id][0];
    DepShorter(g, id, first);
    var p :| Chain(g, p) && |p| == Longest(g, id) + 1 && p[0] == id;
    var d := p[1];
    assert p[0] in g && d in g[p[0]];
    ChainPart(g, p, 1, |p| - 1);
    assert p[1..|p|] == p[1..] && Chain(g, p[1..]) && p[1..][0] == d;
    LongestMeans(g, d);
    assert HasChain(g, d, Longest(g, id) - 1);
    DepShorter(g, id, d);
  }

  // ----- the memoised recursion

  class Layering {
    const beadById: Graph
    var memo: map<string, nat>

    constructor (beadById: Graph)
      ensures this.beadById == beadById && memo == map[]
    {
      this.beadById := beadById;
      memo := map[];
    }

    /** Every entry of the table is right. */
    ghost predicate MemoRight()
      reads this
    {
      forall id | id in memo :: memo[id] == Longest(beadById, id)
    }

    method LayerOf(id: string) returns (layer: nat)
      requires Acyclic(beadById) && MemoRight()
      modifies this`memo
      ensures layer == Longest(beadById, id)
      ensures MemoRight() && id in memo && old(memo.Keys) <= memo.Keys
      decreases Longest(beadById, id)
    {
      if id in memo { return memo[id]; }
      if id !in beadById || beadById[id] == [] {
        NoDeps(beadById, id);
        memo := memo[id := 0];
        return 0;
      }
      var deps := beadById[id];
      var highest := 0;
      for i := 0 to |deps|
        invariant MemoRight() && old(memo.Keys) <= memo.Keys
        invariant forall k | 0 <= k < i :: Longest(beadById, deps[k]) <= highest
        invariant highest < Longest(beadById, id) || i == 0
        invariant i > 0 ==> exists k | 0 <= k < i :: highest == Longest(beadById, deps[k])
      {
        DepShorter(beadById, id, deps[i]);
        var below := LayerOf(deps[i]);
        highest := if i == 0 || below > highest then below else highest;
      }
      SomeDepLongest(beadById, id);
      layer := 1 + highest;
      memo := memo[id := layer];
    }

    /** `beads.forEach(b => layerOf(b.id))` */
    method Fill(beads: seq<Bead>)
      requires Acyclic(beadById) && MemoRight()
      modifies this`memo
      ensures MemoRight() && forall b | b in beads :: b.id in memo
    {
      for i := 0 to |beads|
        invariant MemoRight() && forall k | 0 <= k < i :: beads[k].id in memo
      {
        var _ := LayerOf(beads[i].id);
      }
    }
  }

  /** The layers `DAGView` works with. */
  method Layers(beads: seq<Bead>) returns (layers: map<string, nat>)
    requires Acyclic(BeadById(beads))
    ensures forall b | b in beads :: b.id in layers
    ensures forall id | id in layers :: layers[id] == Longest(BeadById(beads), id)
  {
    var layering := new Layering(BeadById(beads));
    layering.Fill(beads);
    layers := layering.memo;
  }

  ghost predicate UniqueIds(beads: seq<Bead>) {
    forall i, j | 0 <= i < j < |beads| :: beads[i].id != beads[j].id
  }

  lemma {:induction false} BeadByIdHas(beads: seq<Bead>, b: Bead)
    requires UniqueIds(beads) && b in beads
    ensures b.id in BeadById(beads) && BeadById(beads)[b.id] == b.deps
  {
    var n := |beads| - 1;
    if b != beads[n] {
      var i :| 0 <= i < |beads| && beads[i] == b;
      assert beads[..n][i] == b;
      BeadByIdHas(beads[..n], b);
    }
  }

  /** Every bead lies on a later layer than each of its dependencies, known or
      not. */
  lemma LayersDescend(beads: seq<Bead>, b: Bead, d: string)
    requires UniqueIds(beads) && Acyclic(BeadById(beads)) && b in beads && d in b.deps
    ensures Longest(BeadById(beads), d) < Longest(BeadById(beads), b.id)
  {
    BeadByIdHas(beads, b);
    DepShorter(BeadById(beads), b.id, d);
  }
}
