/** design/mockups/v1/beads.jsx, `DAGView`: where the beads are drawn. */
module BeadsLayout {
  import opened Sorting
  import opened Json
  import opened BeadsDag

  const NODE_W := 168.0
  const NODE_H := 60.0
  const GAP_X := 28.0
  const GAP_Y := 44.0
  const PAD_X := 32.0
  const PAD_Y := 32.0

  datatype Point = Point(x: real, y: real)

  type Positions = map<string, Point>

  // ----- rows

  function LayerIn(layers: map<string, nat>, id: string): nat {
    if id in layers then layers[id] else 0
  }

  function OnLayer(layers: map<string, nat>, l: nat): Bead -> bool {
    (b: Bead) => LayerIn(layers, b.id) == l
  }

  /** `byLayer[l]` */
  function Row(beads: seq<Bead>, layers: map<string, nat>, l: nat): seq<Bead> {
    Filtered(beads, OnLayer(layers, l))
  }

  lemma RowStep(beads: seq<Bead>, layers: map<string, nat>, i: nat, l: nat)
    requires i < |beads|
    ensures Row(beads[..i + 1], layers, l)
         == Row(beads[..i], layers, l) + (if LayerIn(layers, beads[i].id) == l then [beads[i]] else [])
  {
    assert beads[..i + 1] == beads[..i] + [beads[i]];
    FilteredAppend(beads[..i], [beads[i]], OnLayer(layers, l));
    FilteredOne(beads[i], OnLayer(layers, l));
  }

  lemma RowIn(beads: seq<Bead>, layers: map<string, nat>, l: nat)
    ensures forall b :: b in Row(beads, layers, l) <==> b in beads && LayerIn(layers, b.id) == l
  {
    FilteredMembers(beads, OnLayer(layers, l));
  }

  type Groups = map<nat, seq<Bead>>

  function At(groups: Groups, l: nat): seq<Bead> {
    if l in groups then groups[l] else []
  }

  ghost predicate Grouped(groups: Groups, beads: seq<Bead>, layers: map<string, nat>) {
    && (forall l: nat :: At(groups, l) == Row(beads, layers, l))
    && (forall l | l in groups :: groups[l] != [])
  }

  lemma GroupNone(layers: map<string, nat>)
    ensures Grouped(map[], [], layers)
  {
  }

  lemma GroupStep(groups: Groups, beads: seq<Bead>, layers: map<string, nat>, i: nat)
    requires i < |beads| && Grouped(groups, beads[..i], layers)
    ensures var l := LayerIn(layers, beads[i].id);
            Grouped(groups[l := At(groups, l) + [beads[i]]], beads[..i + 1], layers)
  {
    hide Row;
    var l := LayerIn(layers, beads[i].id);
    var next := groups[l := At(groups, l) + [beads[i]]];
    forall k: nat
      ensures At(next, k) == Row(beads[..i + 1], layers, k)
    {
      RowStep(beads, layers, i, k);
      assert At(groups, k) == Row(beads[..i], layers, k);
      assert At(groups, k) + [] == At(groups, k);
    }
  }

  method GroupByLayer(beads: seq<Bead>, layers: map<string, nat>) returns (groups: Groups)
    requires forall b | b in beads :: b.id in layers
    ensures Grouped(groups, beads, layers)
  {
    hide Grouped;
    groups := map[];
    GroupNone(layers);
    assert beads[..0] == [];
    for i := 0 to |beads|
      invariant Grouped(groups, beads[..i], layers)
    {
      var l := layers[beads[i].id];
      GroupStep(groups, beads, layers, i);
      groups := groups[l := (if l in groups then groups[l] else []) + [beads[i]]];
    }
    assert beads[..|beads|] == beads;
  }

  // ----- the order within a row

  /** `pos[d]?.x || 0` */
  function XOf(pos: Positions, id: string): real {
    if id in pos then pos[id].x else 0.0
  }

  function SumX(pos: Positions, deps: seq<string>): real {
    if deps == [] then 0.0 else XOf(pos, deps[0]) + SumX(pos, deps[1..])
  }

  /** The average x of a bead's dependencies. */
  function AverageX(pos: Positions, b: Bead): real {
    if b.deps == [] then 0.0 else SumX(pos, b.deps) / |b.deps| as real
  }

  function ByParentX(pos: Positions): (Bead, Bead) -> bool {
    (a: Bead, b: Bead) => AverageX(pos, a) <= AverageX(pos, b)
  }

  // ----- placing rows

  /** Place `i` of a row of `n` on layer `l`, the row centred on x = 0. */
  function Slot(n: nat, i: nat, l: nat): Point {
    Point(-(n as real * NODE_W + (n - 1) as real * GAP_X) / 2.0 + i as real * (NODE_W + GAP_X),
          l as real * (NODE_H + GAP_Y))
  }

  ghost predicate RowPlaced(pos: Positions, row: seq<Bead>, l: nat) {
    forall i | 0 <= i < |row| :: row[i].id in pos && pos[row[i].id] == Slot(|row|, i, l)
  }

  /** A layer's beads, in source order on the first layer and ordered by their
      parents' average x beyond it. */
  function RowOrder(beads: seq<Bead>, layers: map<string, nat>, pos: Positions, l: nat): seq<Bead> {
    if l == 0 then Row(beads, layers, l) else Sort(Row(beads, layers, l), ByParentX(pos))
  }

  ghost predicate LayerPlaced(beads: seq<Bead>, layers: map<string, nat>, pos: Positions, l: nat) {
    RowPlaced(pos, RowOrder(beads, layers, pos, l), l)
  }

  /** Beads have different ids, a layer each, and lie beyond their dependencies. */
  ghost predicate Layered(beads: seq<Bead>, layers: map<string, nat>) {
    && UniqueIds(beads)
    && (forall b | b in beads :: b.id in layers)
    && (forall b, d | b in beads && d in b.deps && d in layers :: layers[d] < layers[b.id])
  }

  function DifferentIds(a: Bead, b: Bead): bool {
    a.id != b.id
  }

  lemma RowMembers(beads: seq<Bead>, layers: map<string, nat>, pos: Positions, l: nat)
    requires UniqueIds(beads)
    ensures forall b :: b in RowOrder(beads, layers, pos, l) <==> b in beads && LayerIn(layers, b.id) == l
    ensures UniqueIds(RowOrder(beads, layers, pos, l))
  {
    RowIn(beads, layers, l);
    SortMembers(Row(beads, layers, l), ByParentX(pos));
    FilteredSorted(beads, OnLayer(layers, l), DifferentIds);
    assert Pairwise(Row(beads, layers, l), DifferentIds);
    SortPairwise(Row(beads, layers, l), ByParentX(pos), DifferentIds);
    assert Pairwise(RowOrder(beads, layers, pos, l), DifferentIds);
  }

  lemma {:induction false} SameSum(pos: Positions, later: Positions, deps: seq<string>)
    requires forall d | d in deps :: XOf(later, d) == XOf(pos, d)
    ensures SumX(later, deps) == SumX(pos, deps)
  {
    if deps != [] { SameSum(pos, later, deps[1..]); }
  }

  /** The order of a row depends on the parents' positions only. */
  lemma SameOrder(beads: seq<Bead>, layers: map<string, nat>, pos: Positions, later: Positions, l: nat)
    requires forall b, d | b in Row(beads, layers, l) && d in b.deps :: XOf(later, d) == XOf(pos, d)
    ensures RowOrder(beads, layers, later, l) == RowOrder(beads, layers, pos, l)
  {
    var row := Row(beads, layers, l);
    forall b | b in row
      ensures AverageX(later, b) == AverageX(pos, b)
    {
      SameSum(pos, later, b.deps);
    }
    SortAgree(row, ByParentX(later), ByParentX(pos));
  }

  /** `later` differs from `pos` on the ids of `row` only. */
  ghost predicate OnlyRow(pos: Positions, later: Positions, row: seq<Bead>) {
    && (forall id | id in pos && (forall b | b in row :: b.id != id) :: id in later && later[id] == pos[id])
    && (forall id | id in later && (forall b | b in row :: b.id != id) :: id in pos)
  }

  lemma OnlyRowAt(pos: Positions, later: Positions, row: seq<Bead>, d: string)
    requires OnlyRow(pos, later, row) && forall b | b in row :: b.id != d
    ensures (d in pos <==> d in later) && XOf(later, d) == XOf(pos, d)
  {
  }

  /** Placing layer `l` completes it and disturbs no earlier layer. */
  lemma LayerAdded(beads: seq<Bead>, layers: map<string, nat>, pos: Positions, later: Positions, l: nat, k: nat)
    requires Layered(beads, layers) && k <= l
    requires OnlyRow(pos, later, RowOrder(beads, layers, pos, l))
    requires if k == l then RowPlaced(later, RowOrder(beads, layers, pos, l), l) else LayerPlaced(beads, layers, pos, k)
    ensures LayerPlaced(beads, layers, later, k)
  {
    var row := RowOrder(beads, layers, pos, l);
    RowMembers(beads, layers, pos, l);
    RowMembers(beads, layers, pos, k);
    RowIn(beads, layers, k);
    hide RowOrder, Row;
    forall b, d | b in Row(beads, layers, k) && d in b.deps
      ensures XOf(later, d) == XOf(pos, d)
    {
      forall c | c in row
        ensures c.id != d
      {
        assert c.id in layers && layers[c.id] == l;
      }
      OnlyRowAt(pos, later, row, d);
    }
    SameOrder(beads, layers, pos, later, k);
    if k < l {
      var early := RowOrder(beads, layers, pos, k);
      forall i | 0 <= i < |early|
        ensures early[i].id in later && later[early[i].id] == pos[early[i].id]
      {
        assert early[i] in early;
        forall c | c in row ensures c.id != early[i].id { }
      }
    }
  }

  /** `row.forEach`: positions of the first `i` beads of the row. */
  function WithRow(pos: Positions, row: seq<Bead>, l: nat, i: nat): Positions
    requires i <= |row|
  {
    if i == 0 then pos else WithRow(pos, row, l, i - 1)[row[i - 1].id := Slot(|row|, i - 1, l)]
  }

  lemma {:induction false} WithRowMeans(pos: Positions, row: seq<Bead>, l: nat, i: nat)
    requires i <= |row| && UniqueIds(row)
    ensures var r := WithRow(pos, row, l, i);
            && (forall j | 0 <= j < i :: row[j].id in r && r[row[j].id] == Slot(|row|, j, l))
            && OnlyRow(pos, r, row)
            && (forall id :: id in r <==> id in pos || exists j | 0 <= j < i :: row[j].id == id)
  {
    hide Slot, OnlyRow, UniqueIds;
    if i > 0 {
      WithRowMeans(pos, row, l, i - 1);
      RowDiffers(row, i - 1);
    }
    WithRowOnly(pos, row, l, i);
  }

  lemma RowDiffers(row: seq<Bead>, i: nat)
    requires i < |row| && UniqueIds(row)
    ensures forall j | 0 <= j < i :: row[j].id != row[i].id
  {
  }

  lemma {:induction false} WithRowOnly(pos: Positions, row: seq<Bead>, l: nat, i: nat)
    requires i <= |row|
    ensures OnlyRow(pos, WithRow(pos, row, l, i), row)
  {
    hide Slot;
    if i > 0 {
      WithRowOnly(pos, row, l, i - 1);
      assert row[i - 1] in row;
    }
  }

  predicate NatLe(a: nat, b: nat) {
    a <= b
  }

  predicate NatDiffer(a: nat, b: nat) {
    a != b
  }

  /** `layerKeys` */
  method LayerKeys(groups: Groups) returns (keys: seq<nat>)
    ensures forall l :: l in keys <==> l in groups
    ensures forall i, j | 0 <= i < j < |keys| :: keys[i] < keys[j]
  {
    var found: seq<nat> := [];
    var rest := groups.Keys;
    while rest != {}
      invariant forall l :: l in groups <==> l in rest || l in found
      invariant forall l | l in found :: l !in rest
      invariant Pairwise(found, NatDiffer)
      decreases |rest|
    {
      var l :| l in rest;
      rest := rest - {l};
      found := found + [l];
    }
    keys := Sort(found, NatLe);
    SortMembers(found, NatLe);
    SortSorted(found, NatLe);
    SortPairwise(found, NatLe, NatDiffer);
    assert SortedBy(keys, NatLe) && Pairwise(keys, NatDiffer);
    forall i, j | 0 <= i < j < |keys|
      ensures keys[i] < keys[j]
    {
      assert NatLe(keys[i], keys[j]) && NatDiffer(keys[i], keys[j]);
    }
  }

  /** The beads of the first `n` layers are placed, and nothing else. */
  ghost predicate Upto(beads: seq<Bead>, layers: map<string, nat>, keys: seq<nat>, n: nat, pos: Positions)
    requires n <= |keys|
  {
    && (forall k | 0 <= k < n :: LayerPlaced(beads, layers, pos, keys[k]))
    && (forall id :: id in pos <==> exists b | b in beads :: b.id == id && LayerIn(layers, id) in keys[..n])
  }

  lemma LayeredUnique(beads: seq<Bead>, layers: map<string, nat>)
    requires Layered(beads, layers)
    ensures UniqueIds(beads)
  {
  }

  lemma UptoNext(beads: seq<Bead>, layers: map<string, nat>, keys: seq<nat>, n: nat, pos: Positions)
    requires Layered(beads, layers) && n < |keys| && Upto(beads, layers, keys, n, pos)
    requires forall i, j | 0 <= i < j < |keys| :: keys[i] < keys[j]
    ensures var row := RowOrder(beads, layers, pos, keys[n]);
            Upto(beads, layers, keys, n + 1, WithRow(pos, row, keys[n], |row|))
  {
    hide WithRow, RowOrder, LayerPlaced, OnlyRow, Layered;
    var l := keys[n];
    var row := RowOrder(beads, layers, pos, l);
    var later := WithRow(pos, row, l, |row|);
    LayeredUnique(beads, layers);
    RowMembers(beads, layers, pos, l);
    WithRowMeans(pos, row, l, |row|);
    UptoPlaced(beads, layers, keys, n, pos, later);
    UptoIds(beads, layers, keys, n, pos, later, row);
  }

  lemma UptoPlaced(beads: seq<Bead>, layers: map<string, nat>, keys: seq<nat>, n: nat, pos: Positions, later: Positions)
    requires Layered(beads, layers) && n < |keys|
    requires forall k | 0 <= k < n :: LayerPlaced(beads, layers, pos, keys[k]) && keys[k] < keys[n]
    requires OnlyRow(pos, later, RowOrder(beads, layers, pos, keys[n]))
    requires RowPlaced(later, RowOrder(beads, layers, pos, keys[n]), keys[n])
    ensures forall k | 0 <= k < n + 1 :: LayerPlaced(beads, layers, later, keys[k])
  {
    hide *;
    forall k | 0 <= k < n + 1
      ensures LayerPlaced(beads, layers, later, keys[k])
    {
      LayerAdded(beads, layers, pos, later, keys[n], keys[k]);
    }
  }

  lemma UptoIds(beads: seq<Bead>, layers: map<string, nat>, keys: seq<nat>, n: nat, pos: Positions, later: Positions,
      row: seq<Bead>)
    requires n < |keys|
    requires forall id :: id in pos <==> exists b | b in beads :: b.id == id && LayerIn(layers, id) in keys[..n]
    requires forall id :: id in later <==> id in pos || exists j | 0 <= j < |row| :: row[j].id == id
    requires forall b :: b in row <==> b in beads && LayerIn(layers, b.id) == keys[n]
    ensures forall id :: id in later <==> exists b | b in beads :: b.id == id && LayerIn(layers, id) in keys[..n + 1]
  {
    hide LayerIn;
    assert keys[..n + 1] == keys[..n] + [keys[n]];
    forall id
      ensures id in later <==> exists b | b in beads :: b.id == id && LayerIn(layers, id) in keys[..n + 1]
    {
      if id in later {
        if id in pos {
          var b :| b in beads && b.id == id && LayerIn(layers, id) in keys[..n];
        } else {
          var j :| 0 <= j < |row| && row[j].id == id;
          assert row[j] in row;
        }
      }
      if b :| b in beads && b.id == id && LayerIn(layers, id) in keys[..n + 1] {
        if LayerIn(layers, id) == keys[n] {
          assert b in row;
          var j :| 0 <= j < |row| && row[j] == b;
          assert row[j].id == id;
        }
      }
    }
  }

  method PlaceRow(pos: Positions, row: seq<Bead>, l: nat) returns (later: Positions)
    ensures later == WithRow(pos, row, l, |row|)
  {
    later := pos;
    var totalW := |row| as real * NODE_W + (|row| - 1) as real * GAP_X;
    var startX := -totalW / 2.0;
    for i := 0 to |row|
      invariant later == WithRow(pos, row, l, i)
    {
      var p := Point(startX + i as real * (NODE_W + GAP_X), l as real * (NODE_H + GAP_Y));
      assert p == Slot(|row|, i, l);
      later := later[row[i].id := p];
    }
  }

  /** The first pass: rows centred on x = 0. */
  method Place(beads: seq<Bead>, layers: map<string, nat>) returns (pos: Positions)
    requires Layered(beads, layers)
    ensures forall l :: LayerPlaced(beads, layers, pos, l)
    ensures forall id :: id in pos <==> exists b | b in beads :: b.id == id
  {
    hide LayerPlaced, Sort, Upto, WithRow, Grouped;
    var byLayer := GroupByLayer(beads, layers);
    var layerKeys := LayerKeys(byLayer);
    pos := map[];
    UptoNone(beads, layers, layerKeys);
    for n := 0 to |layerKeys|
      invariant Upto(beads, layers, layerKeys, n, pos)
    {
      var l := layerKeys[n];
      var row := byLayer[l];
      GroupedRow(byLayer, beads, layers, l);
      if l > 0 { row := Sort(row, ByParentX(pos)); }
      UptoNext(beads, layers, layerKeys, n, pos);
      pos := PlaceRow(pos, row, l);
    }
    AllPlaced(beads, layers, byLayer, layerKeys, pos);
  }

  lemma UptoNone(beads: seq<Bead>, layers: map<string, nat>, keys: seq<nat>)
    ensures Upto(beads, layers, keys, 0, map[])
  {
  }

  lemma GroupedRow(groups: Groups, beads: seq<Bead>, layers: map<string, nat>, l: nat)
    requires Grouped(groups, beads, layers) && l in groups
    ensures groups[l] == Row(beads, layers, l)
  {
    assert At(groups, l) == Row(beads, layers, l);
  }

  lemma AllPlaced(beads: seq<Bead>, layers: map<string, nat>, groups: Groups, keys: seq<nat>, pos: Positions)
    requires Layered(beads, layers) && Grouped(groups, beads, layers) && (forall l :: l in keys <==> l in groups)
    requires Upto(beads, layers, keys, |keys|, pos)
    ensures forall l :: LayerPlaced(beads, layers, pos, l)
    ensures forall id :: id in pos <==> exists b | b in beads :: b.id == id
  {
    assert keys[..|keys|] == keys;
    forall l: nat
      ensures LayerPlaced(beads, layers, pos, l)
    {
      if l in groups {
        var k :| 0 <= k < |keys| && keys[k] == l;
      } else {
        assert At(groups, l) == Row(beads, layers, l) == [];
      }
    }
    forall b | b in beads
      ensures LayerIn(layers, b.id) in keys
    {
      var l := LayerIn(layers, b.id);
      RowIn(beads, layers, l);
      assert At(groups, l) == Row(beads, layers, l);
    }
  }

  // ----- no two boxes meet

  /** Slots of one row are a box and a gap apart. */
  lemma SlotsApart(n: nat, i: nat, j: nat, l: nat)
    requires i < j
    ensures Slot(n, i, l).x + NODE_W + GAP_X <= Slot(n, j, l).x
  {
    assert (j - i) as real * (NODE_W + GAP_X) >= NODE_W + GAP_X;
  }

  /** The boxes at `p` and `q` are separated: beside each other by the gap, or one
      above the other by the gap. */
  predicate Apart(p: Point, q: Point) {
    || p.x + NODE_W + GAP_X <= q.x || q.x + NODE_W + GAP_X <= p.x
    || p.y + NODE_H + GAP_Y <= q.y || q.y + NODE_H + GAP_Y <= p.y
  }

  lemma PlacedAt(beads: seq<Bead>, layers: map<string, nat>, pos: Positions, b: Bead) returns (i: nat)
    requires UniqueIds(beads) && b in beads && LayerPlaced(beads, layers, pos, LayerIn(layers, b.id))
    ensures var l := LayerIn(layers, b.id);
            var row := RowOrder(beads, layers, pos, l);
            i < |row| && row[i] == b && b.id in pos && pos[b.id] == Slot(|row|, i, l)
  {
    var l := LayerIn(layers, b.id);
    RowMembers(beads, layers, pos, l);
    var row := RowOrder(beads, layers, pos, l);
    i :| 0 <= i < |row| && row[i] == b;
  }

  lemma NoOverlap(beads: seq<Bead>, layers: map<string, nat>, pos: Positions, a: Bead, b: Bead)
    requires UniqueIds(beads) && a in beads && b in beads && a.id != b.id
    requires forall l :: LayerPlaced(beads, layers, pos, l)
    ensures a.id in pos && b.id in pos && Apart(pos[a.id], pos[b.id])
  {
    hide RowOrder;
    var la, lb := LayerIn(layers, a.id), LayerIn(layers, b.id);
    var i := PlacedAt(beads, layers, pos, a);
    var j := PlacedAt(beads, layers, pos, b);
    if la == lb {
      var n := |RowOrder(beads, layers, pos, la)|;
      if i < j { SlotsApart(n, i, j, la); } else { SlotsApart(n, j, i, la); }
    } else {
      RowsApart(la, lb);
    }
  }

  lemma RowsApart(la: nat, lb: nat)
    requires la != lb
    ensures || la as real * (NODE_H + GAP_Y) + NODE_H + GAP_Y <= lb as real * (NODE_H + GAP_Y)
            || lb as real * (NODE_H + GAP_Y) + NODE_H + GAP_Y <= la as real * (NODE_H + GAP_Y)
  {
    if la < lb {
      assert (lb - la) as real * (NODE_H + GAP_Y) >= NODE_H + GAP_Y;
    } else {
      assert (la - lb) as real * (NODE_H + GAP_Y) >= NODE_H + GAP_Y;
    }
  }

  // ----- the second pass

  function Least(a: Option<real>, b: real): Option<real> {
    if a.Some? && a.value <= b then a else Some(b)
  }

  /** The boxes, all of them and exactly, fill the space between the paddings.
      `W` is absent when there is no box. */
  ghost predicate Framed(ids: seq<string>, pos: Positions, W: Option<real>, H: real) {
    && (W.Some? <==> ids != [])
    && (forall id | id in ids ::
          && id in pos && PAD_X <= pos[id].x && pos[id].x + NODE_W <= W.value - PAD_X
          && pos[id].y + NODE_H <= H - 2.0 * PAD_Y)
    && (ids != [] ==> exists id | id in ids && id in pos :: pos[id].x == PAD_X)
    && (ids != [] ==> exists id | id in ids && id in pos :: pos[id].x + NODE_W == W.value - PAD_X)
    && (H == 2.0 * PAD_Y || exists id | id in ids && id in pos :: pos[id].y + NODE_H == H - 2.0 * PAD_Y)
  }

  /** Moves everything right so that the leftmost box starts at PAD_X. */
  method Shift(ids: seq<string>, placed: Positions) returns (pos: Positions, W: Option<real>, H: real)
    requires forall id | id in ids :: id in placed
    ensures pos.Keys == placed.Keys
    ensures Framed(ids, pos, W, H)
    ensures forall id | id in ids :: pos[id].y == placed[id].y
    ensures forall a, b | a in ids && b in ids :: pos[a].x - pos[b].x == placed[a].x - placed[b].x
  {
    var minX: Option<real>, maxX, maxY := None, 0.0, 0.0;
    ghost var left, right, low := 0, 0, 0;
    for i := 0 to |ids|
      invariant minX.Some? <==> i > 0
      invariant forall k | 0 <= k < i ::
          minX.value <= placed[ids[k]].x && placed[ids[k]].x + NODE_W <= maxX && placed[ids[k]].y + NODE_H <= maxY
      invariant i > 0 ==> 0 <= left < i && minX.value == placed[ids[left]].x
      invariant i > 0 ==> 0 <= right < i && maxX == placed[ids[right]].x + NODE_W
      invariant maxY == 0.0 || (0 <= low < i && maxY == placed[ids[low]].y + NODE_H)
    {
      var p := placed[ids[i]];
      if minX.None? || p.x + NODE_W > maxX { right := i; }
      if minX.None? || p.x < minX.value { left := i; }
      if p.y + NODE_H > maxY { low := i; }
      maxX := if minX.None? || p.x + NODE_W > maxX then p.x + NODE_W else maxX;
      minX := Least(minX, p.x);
      maxY := if p.y + NODE_H > maxY then p.y + NODE_H else maxY;
    }
    var shift := if minX.Some? then PAD_X - minX.value else 0.0;
    pos := map id | id in placed :: Point(placed[id].x + shift, placed[id].y);
    W := if minX.Some? then Some(maxX - minX.value + PAD_X * 2.0) else None;
    H := maxY + PAD_Y * 2.0;
    forall id | id in ids
      ensures minX.Some? && minX.value <= placed[id].x && placed[id].x + NODE_W <= maxX && placed[id].y + NODE_H <= maxY
    {
      var k :| 0 <= k < |ids| && ids[k] == id;
    }
    if ids != [] {
      assert pos[ids[left]].x == PAD_X && pos[ids[right]].x + NODE_W == W.value - PAD_X;
    }
    if maxY != 0.0 { assert pos[ids[low]].y + NODE_H == H - 2.0 * PAD_Y; }
  }

  function IdsOf(beads: seq<Bead>): (r: seq<string>)
    ensures |r| == |beads| && forall i | 0 <= i < |beads| :: r[i] == beads[i].id
  {
    if beads == [] then [] else [beads[0].id] + IdsOf(beads[1..])
  }

  lemma IdIn(beads: seq<Bead>, b: Bead)
    requires b in beads
    ensures b.id in IdsOf(beads)
  {
    var k :| 0 <= k < |beads| && beads[k] == b;
    assert IdsOf(beads)[k] == b.id;
  }

  /** Every bead is on its layer, below the beads it depends on, and no two boxes
      meet. */
  ghost predicate WellPlaced(beads: seq<Bead>, pos: Positions) {
    && (forall b | b in beads ::
          b.id in pos && pos[b.id].y == Longest(BeadById(beads), b.id) as real * (NODE_H + GAP_Y))
    && (forall a, b | a in beads && b in beads && a.id != b.id :: Apart(pos[a.id], pos[b.id]))
    && (forall a, b | a in beads && b in beads && b.id in a.deps :: pos[b.id].y + NODE_H + GAP_Y <= pos[a.id].y)
  }

  lemma RowsWellPlaced(beads: seq<Bead>, layers: map<string, nat>, pos: Positions)
    requires UniqueIds(beads) && Acyclic(BeadById(beads))
    requires forall b | b in beads :: b.id in layers && layers[b.id] == Longest(BeadById(beads), b.id)
    requires forall l :: LayerPlaced(beads, layers, pos, l)
    ensures WellPlaced(beads, pos)
  {
    hide LayerPlaced, RowOrder, Longest, Acyclic, BeadById, UniqueIds, Apart;
    var g := BeadById(beads);
    forall b | b in beads
      ensures b.id in pos && pos[b.id].y == Longest(g, b.id) as real * (NODE_H + GAP_Y)
    {
      var _ := PlacedAt(beads, layers, pos, b);
    }
    forall a, b | a in beads && b in beads && a.id != b.id
      ensures Apart(pos[a.id], pos[b.id])
    {
      NoOverlap(beads, layers, pos, a, b);
    }
    forall a, b | a in beads && b in beads && b.id in a.deps
      ensures pos[b.id].y + NODE_H + GAP_Y <= pos[a.id].y
    {
      LayersDescend(beads, a, b.id);
      RowsApart(Longest(g, b.id), Longest(g, a.id));
    }
  }

  lemma MovedWellPlaced(beads: seq<Bead>, placed: Positions, pos: Positions)
    requires WellPlaced(beads, placed) && pos.Keys == placed.Keys
    requires forall id | id in IdsOf(beads) :: id in pos && pos[id].y == placed[id].y
    requires forall a, b | a in IdsOf(beads) && b in IdsOf(beads) :: pos[a].x - pos[b].x == placed[a].x - placed[b].x
    ensures WellPlaced(beads, pos)
  {
    hide Longest, BeadById, IdsOf;
    forall b | b in beads ensures b.id in IdsOf(beads) { IdIn(beads, b); }
    forall a, b | a in beads && b in beads && a.id != b.id
      ensures Apart(pos[a.id], pos[b.id])
    {
      assert Apart(placed[a.id], placed[b.id]);
      assert pos[a.id].x - pos[b.id].x == placed[a.id].x - placed[b.id].x;
    }
  }

  /** The layout of an acyclic bead set: every bead gets a box on its layer, no two
      boxes meet, every bead lies below each bead it depends on, and the boxes
      exactly fill the space between the paddings.  Each row is
      in the order of its average parent x and evenly spaced: it is a row of
      `centred`, the first pass, moved right by as much as every other. */
  method Layout(beads: seq<Bead>)
      returns (pos: Positions, W: Option<real>, H: real, ghost layers: map<string, nat>, ghost centred: Positions)
    requires UniqueIds(beads) && Acyclic(BeadById(beads))
    ensures WellPlaced(beads, pos)
    ensures Framed(IdsOf(beads), pos, W, H)
    ensures forall b | b in beads :: b.id in layers && layers[b.id] == Longest(BeadById(beads), b.id)
    ensures forall l :: LayerPlaced(beads, layers, centred, l)
    ensures forall a, b | a in beads && b in beads ::
              a.id in centred && b.id in centred && pos[a.id].x - pos[b.id].x == centred[a.id].x - centred[b.id].x
  {
    hide *;
    var found := Layers(beads);
    layers := found;
    FoundLayered(beads, layers);
    var placed := Place(beads, found);
    centred := placed;
    RowsWellPlaced(beads, layers, placed);
    pos, W, H := Shift(IdsOf(beads), placed);
    IdsIn(beads);
    BoxesIn(beads, placed);
    MovedWellPlaced(beads, placed, pos);
    BoxesIn(beads, pos);
  }

  lemma FoundLayered(beads: seq<Bead>, layers: map<string, nat>)
    requires UniqueIds(beads) && Acyclic(BeadById(beads)) && forall b | b in beads :: b.id in layers
    requires forall id | id in layers :: layers[id] == Longest(BeadById(beads), id)
    ensures Layered(beads, layers)
  {
    forall b, d | b in beads && d in b.deps && d in layers
      ensures layers[d] < layers[b.id]
    {
      LayersDescend(beads, b, d);
    }
  }

  lemma IdsIn(beads: seq<Bead>)
    ensures forall b | b in beads :: b.id in IdsOf(beads)
  {
    forall b | b in beads ensures b.id in IdsOf(beads) { IdIn(beads, b); }
  }

  lemma BoxesIn(beads: seq<Bead>, pos: Positions)
    requires WellPlaced(beads, pos)
    ensures forall b | b in beads :: b.id in pos
  {
  }

  // ----- the numbers of the layout

  /** A row is centred: its places mirror each other around x = 0, the boxes 168
      wide and 28 apart.  Rows are 104 apart. */
  lemma SlotMeans(n: nat, i: nat, l: nat)
    requires i < n
    ensures Slot(n, i, l).x + (Slot(n, n - 1 - i, l).x + 168.0) == 0.0
    ensures i + 1 < n ==> Slot(n, i + 1, l).x - Slot(n, i, l).x == 168.0 + 28.0
    ensures Slot(n, i, l).y == 104.0 * l as real
  {
  }

  /** `sums` adds up the x of the dependencies, one that has no position yet counting
      as 0; the average is the last sum over their number. */
  lemma AverageMeans(pos: Positions, b: Bead) returns (sums: seq<real>)
    ensures |sums| == |b.deps| + 1 && sums[0] == 0.0
    ensures forall i | 0 <= i < |b.deps| :: sums[i + 1] == sums[i] + if b.deps[i] in pos then pos[b.deps[i]].x else 0.0
    ensures if b.deps == [] then AverageX(pos, b) == 0.0 else AverageX(pos, b) == sums[|b.deps|] / |b.deps| as real
  {
    sums := PartialSums(pos, b.deps);
  }

  lemma {:induction false} PartialSums(pos: Positions, deps: seq<string>) returns (sums: seq<real>)
    ensures |sums| == |deps| + 1 && sums[0] == 0.0 && sums[|deps|] == SumX(pos, deps)
    ensures forall i | 0 <= i < |deps| :: sums[i + 1] == sums[i] + if deps[i] in pos then pos[deps[i]].x else 0.0
  {
    if deps == [] {
      sums := [0.0];
    } else {
      var n := |deps| - 1;
      var more := PartialSums(pos, deps[..n]);
      sums := more + [more[n] + XOf(pos, deps[n])];
      SumMore(pos, deps[..n], deps[n]);
      assert deps == deps[..n] + [deps[n]];
    }
  }

  lemma {:induction false} SumMore(pos: Positions, deps: seq<string>, d: string)
    ensures SumX(pos, deps + [d]) == SumX(pos, deps) + XOf(pos, d)
  {
    if deps == [] {
      assert ([] + [d])[1..] == [];
    } else {
      assert (deps + [d])[1..] == deps[1..] + [d];
      SumMore(pos, deps[1..], d);
    }
  }

  /** Beyond the first layer, rows ascend in the average x of their dependencies. */
  lemma RowAscends(beads: seq<Bead>, layers: map<string, nat>, pos: Positions, l: nat, i: nat, j: nat)
    requires l > 0 && i < j < |RowOrder(beads, layers, pos, l)|
    ensures AverageX(pos, RowOrder(beads, layers, pos, l)[i]) <= AverageX(pos, RowOrder(beads, layers, pos, l)[j])
  {
    AverageOrder(pos);
    SortSorted(Row(beads, layers, l), ByParentX(pos));
    var row := RowOrder(beads, layers, pos, l);
    assert ByParentX(pos)(row[i], row[j]);
  }

  lemma AverageOrder(pos: Positions)
    ensures TotalPreorder(ByParentX(pos))
  {
    hide AverageX;
  }
}
