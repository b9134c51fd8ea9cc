/**
 * Generation shift keys (create_gsk): a Nodes x Zones weight matrix whose
 * column for a zone spreads a zonal net position over the nodes of the zone,
 * either evenly ("flat") or in proportion to installed eligible capacity
 * ("gmax").
 */
module Gsk {
  import opened Wrappers
  import opened GridData
  import Ntc

  /** A plant enters a gmax key when its type is in ts and not in es. */
  predicate Eligible(p: Plant, types: PlantTypes) {
    p.plantType in types.ts && p.plantType !in types.es
  }

  /** Some eligible plant sits at node n. */
  ghost predicate HasEligible(plants: seq<Plant>, types: PlantTypes, n: NodeId) {
    exists k :: 0 <= k < |plants| && plants[k].node == n && Eligible(plants[k], types)
  }

  /** The summed g_max of the eligible plants at node n: one group of
      plants[condition].groupby("node").sum(). */
  function NodeCapacity(plants: seq<Plant>, types: PlantTypes, n: NodeId): real {
    if plants == [] then 0.0
    else (if plants[0].node == n && Eligible(plants[0], types) then plants[0].gMax else 0.0)
         + NodeCapacity(plants[1..], types, n)
  }

  /** The index of that groupby: every node with an eligible plant, once. */
  function EligibleNodes(plants: seq<Plant>, types: PlantTypes): (ns: seq<NodeId>)
    ensures Distinct(ns)
    ensures forall n :: n in ns <==> HasEligible(plants, types, n)
  {
    if plants == [] then []
    else
      var prev := EligibleNodes(plants[..|plants| - 1], types);
      var last := plants[|plants| - 1];
      assert forall k :: 0 <= k < |plants| - 1 ==> plants[..|plants| - 1][k] == plants[k];
      if Eligible(last, types) && last.node !in prev then prev + [last.node] else prev
  }

  /** The keys that also occur in ids, in the order of keys. */
  function KeepIn(keys: seq<NodeId>, ids: seq<NodeId>): (r: seq<NodeId>)
    ensures forall x :: x in r <==> x in keys && x in ids
    ensures Distinct(keys) ==> Distinct(r)
  {
    if keys == [] then []
    else
      var rest := KeepIn(keys[1..], ids);
      assert Distinct(keys) ==> Distinct(keys[1..]);
      if keys[0] in ids then [keys[0]] + rest else rest
  }

  /** gmax_in_zone.index: the grouped nodes that belong to zone z. */
  function ZoneGmaxNodes(nodes: seq<Node>, plants: seq<Plant>, types: PlantTypes, z: ZoneId): seq<NodeId> {
    KeepIn(EligibleNodes(plants, types), Ntc.NodeIdsInZone(nodes, z))
  }

  /** Summed capacity of a list of grouped nodes. */
  function CapacitySum(keys: seq<NodeId>, plants: seq<Plant>, types: PlantTypes): real {
    if keys == [] then 0.0 else NodeCapacity(plants, types, keys[0]) + CapacitySum(keys[1..], plants, types)
  }

  /** gmax_in_zone.values.sum(): the eligible capacity of zone z. */
  function ZoneGmax(nodes: seq<Node>, plants: seq<Plant>, types: PlantTypes, z: ZoneId): real {
    CapacitySum(ZoneGmaxNodes(nodes, plants, types, z), plants, types)
  }

  /** The failure the column of zone z raises: a flat key over a zone without
      nodes divides by zero, and so does a gmax key over a zone whose eligible
      plants sum to zero capacity. */
  function ZoneError(option: string, nodes: seq<Node>, plants: seq<Plant>, types: PlantTypes, z: ZoneId)
    : Option<GridError>
  {
    if option == "gmax" then
      if ZoneGmaxNodes(nodes, plants, types, z) != [] && ZoneGmax(nodes, plants, types, z) == 0.0
      then Some(ZeroZoneCapacity(z)) else None
    else if option == "flat" then
      if |Ntc.NodeIdsInZone(nodes, z)| == 0 then Some(EmptyZone(z)) else None
    else None
  }

  /** Position of the first zone whose column fails, or |zs| if none does. */
  function FirstFailing(option: string, nodes: seq<Node>, plants: seq<Plant>, types: PlantTypes,
                        zs: seq<ZoneId>): (k: nat)
    ensures k <= |zs|
    ensures forall p :: 0 <= p < k ==> ZoneError(option, nodes, plants, types, zs[p]).None?
    ensures k < |zs| ==> ZoneError(option, nodes, plants, types, zs[k]).Some?
  {
    if zs == [] then 0
    else if ZoneError(option, nodes, plants, types, zs[0]).Some? then 0
    else 1 + FirstFailing(option, nodes, plants, types, zs[1..])
  }

  /** The entry of the node with identifier id in the column of zone z. */
  function Weight(option: string, nodes: seq<Node>, plants: seq<Plant>, types: PlantTypes,
                  z: ZoneId, id: NodeId): real
    requires ZoneError(option, nodes, plants, types, z).None?
  {
    if option == "gmax" then
      if id in ZoneGmaxNodes(nodes, plants, types, z)
      then NodeCapacity(plants, types, id) / ZoneGmax(nodes, plants, types, z)
      else 0.0
    else if option == "flat" then
      var ids := Ntc.NodeIdsInZone(nodes, z);
      if id in ids then 1.0 / (|ids| as real) else 0.0
    else 0.0
  }

  /** The key create_gsk returns, or the failure of the first zone that has one. */
  function Gsk(option: string, nodes: seq<Node>, zones: seq<ZoneId>, plants: seq<Plant>, types: PlantTypes)
    : (r: Result<Matrix, GridError>)
    ensures r.Success? ==> |r.value| == |nodes| && HasWidth(r.value, |zones|)
    ensures r.Failure? ==> GskError(r.error)
  {
    var k := FirstFailing(option, nodes, plants, types, zones);
    if k < |zones| then Failure(ZoneError(option, nodes, plants, types, zones[k]).value)
    else Success(seq(|nodes|, i requires 0 <= i < |nodes| =>
                   seq(|zones|, j requires 0 <= j < |zones| =>
                     Weight(option, nodes, plants, types, zones[j], nodes[i].id))))
  }

  /** gsk[zone] = 0: clear column j. */
  method ClearColumn(gsk: array2<real>, j: nat)
    requires j < gsk.Length1
    modifies gsk
    ensures forall r :: 0 <= r < gsk.Length0 ==> gsk[r, j] == 0.0
    ensures forall r, c :: 0 <= r < gsk.Length0 && 0 <= c < gsk.Length1 && c != j ==>
              gsk[r, c] == old(gsk[r, c])
  {
    var i := 0;
    while i < gsk.Length0
      invariant 0 <= i <= gsk.Length0
      invariant forall r :: 0 <= r < i ==> gsk[r, j] == 0.0
      invariant forall r, c :: 0 <= r < gsk.Length0 && 0 <= c < gsk.Length1 && c != j ==>
                  gsk[r, c] == old(gsk[r, c])
    {
      gsk[i, j] := 0.0;
      i := i + 1;
    }
  }

  /** gsk.loc[gsk.index.isin(keys), zone] = value: in column j, the rows whose
      label is one of keys receive value(label); every other entry is kept. */
  method AssignWhere(gsk: array2<real>, j: nat, labels: seq<NodeId>, keys: seq<NodeId>, value: NodeId -> real)
    requires j < gsk.Length1 && |labels| == gsk.Length0
    modifies gsk
    ensures forall r :: 0 <= r < gsk.Length0 ==>
              gsk[r, j] == if labels[r] in keys then value(labels[r]) else old(gsk[r, j])
    ensures forall r, c :: 0 <= r < gsk.Length0 && 0 <= c < gsk.Length1 && c != j ==>
              gsk[r, c] == old(gsk[r, c])
  {
    var i := 0;
    while i < gsk.Length0
      invariant 0 <= i <= gsk.Length0
      invariant forall r :: 0 <= r < i ==>
                  gsk[r, j] == if labels[r] in keys then value(labels[r]) else old(gsk[r, j])
      invariant forall r :: i <= r < gsk.Length0 ==> gsk[r, j] == old(gsk[r, j])
      invariant forall r, c :: 0 <= r < gsk.Length0 && 0 <= c < gsk.Length1 && c != j ==>
                  gsk[r, c] == old(gsk[r, c])
    {
      if labels[i] in keys {
        gsk[i, j] := value(labels[i]);
      }
      i := i + 1;
    }
  }

  /** The node-table index (the labels of the rows of the key). */
  function Labels(nodes: seq<Node>): (ids: seq<NodeId>)
    ensures |ids| == |nodes| && forall i :: 0 <= i < |nodes| ==> ids[i] == nodes[i].id
  {
    seq(|nodes|, i requires 0 <= i < |nodes| => nodes[i].id)
  }

  /** One pass of create_gsk's zone loop: clear the column of zone z (column
      j), then write its weights, or report the failure of the zone. */
  method FillColumn(gsk: array2<real>, j: nat, option: string, nodes: seq<Node>, z: ZoneId,
                    plants: seq<Plant>, types: PlantTypes, grouped: seq<NodeId>)
    returns (err: Option<GridError>)
    requires j < gsk.Length1 && gsk.Length0 == |nodes|
    requires grouped == EligibleNodes(plants, types)
    modifies gsk
    ensures err == ZoneError(option, nodes, plants, types, z)
    ensures err.None? ==> forall r :: 0 <= r < |nodes| ==>
              gsk[r, j] == Weight(option, nodes, plants, types, z, nodes[r].id)
    ensures forall r, c :: 0 <= r < gsk.Length0 && 0 <= c < gsk.Length1 && c != j ==>
              gsk[r, c] == old(gsk[r, c])
  {
    var labels := Labels(nodes);
    var nodesInZone := Ntc.NodeIdsInZone(nodes, z);
    ClearColumn(gsk, j);
    var gmaxInZone := KeepIn(grouped, nodesInZone);
    if option == "gmax" {
      if |gmaxInZone| > 0 {
        var total := CapacitySum(gmaxInZone, plants, types);
        if total == 0.0 {
          return Some(ZeroZoneCapacity(z));
        }
        AssignWhere(gsk, j, labels, gmaxInZone, id => NodeCapacity(plants, types, id) / total);
      }
    } else if option == "flat" {
      if |nodesInZone| == 0 {
        return Some(EmptyZone(z));
      }
      AssignWhere(gsk, j, labels, nodesInZone, id => 1.0 / (|nodesInZone| as real));
    }
    err := None;
  }

  /** The entries of a two-dimensional array as a matrix (gsk.values). */
  function Values(a: array2<real>): (m: Matrix)
    reads a
    ensures |m| == a.Length0 && HasWidth(m, a.Length1)
    ensures forall i, c :: 0 <= i < a.Length0 && 0 <= c < a.Length1 ==> m[i][c] == a[i, c]
  {
    seq(a.Length0, i requires 0 <= i < a.Length0 reads a =>
      seq(a.Length1, c requires 0 <= c < a.Length1 reads a => a[i, c]))
  }

  /**
   * create_gsk: for every zone in turn, clear its column, then write the
   * weights of the nodes that receive one.
   */
  method CreateGsk(option: string, nodes: seq<Node>, zones: seq<ZoneId>, plants: seq<Plant>, types: PlantTypes)
    returns (res: Result<Matrix, GridError>)
    ensures res == Gsk(option, nodes, zones, plants, types)
  {
    var grouped := EligibleNodes(plants, types);
    var gsk := new real[|nodes|, |zones|];
    var j := 0;
    while j < |zones|
      invariant 0 <= j <= |zones|
      invariant forall c :: 0 <= c < j ==> ZoneError(option, nodes, plants, types, zones[c]).None?
      invariant forall i, c :: 0 <= i < |nodes| && 0 <= c < j ==>
                  gsk[i, c] == Weight(option, nodes, plants, types, zones[c], nodes[i].id)
    {
      var err := FillColumn(gsk, j, option, nodes, zones[j], plants, types, grouped);
      if err.Some? {
        assert FirstFailing(option, nodes, plants, types, zones) == j;
        assert Gsk(option, nodes, zones, plants, types) == Failure(err.value);
        return Failure(err.value);
      }
      j := j + 1;
    }
    assert FirstFailing(option, nodes, plants, types, zones) == |zones|;
    var m := Values(gsk);
    ghost var spec := Gsk(option, nodes, zones, plants, types).value;
    forall i | 0 <= i < |nodes| ensures m[i] == spec[i] {
      assert forall c :: 0 <= c < |zones| ==> m[i][c] == spec[i][c];
    }
    assert m == spec;
    res := Success(m);
  }

  // ---------------------------------------------------------------------
  // Sums of a column.

  /** Sum of c over a list of node labels. */
  function SumOf(keys: seq<NodeId>, c: NodeId -> real): real {
    if keys == [] then 0.0 else c(keys[0]) + SumOf(keys[1..], c)
  }

  /** keys without x. */
  function Remove(keys: seq<NodeId>, x: NodeId): (r: seq<NodeId>)
    ensures forall y :: y in r <==> y in keys && y != x
    ensures Distinct(keys) ==> Distinct(r)
  {
    if keys == [] then []
    else
      var rest := Remove(keys[1..], x);
      assert Distinct(keys) ==> Distinct(keys[1..]) && keys[0] !in keys[1..];
      if keys[0] == x then rest else [keys[0]] + rest
  }

  lemma {:induction false} SumOfRemove(keys: seq<NodeId>, x: NodeId, c: NodeId -> real)
    requires Distinct(keys)
    ensures SumOf(keys, c) == (if x in keys then c(x) else 0.0) + SumOf(Remove(keys, x), c)
  {
    if keys != [] {
      assert Distinct(keys[1..]);
      SumOfRemove(keys[1..], x, c);
      if keys[0] == x {
        assert x !in keys[1..];
      }
    }
  }

  /** The column of a key whose entries are c(label) on the rows labelled by
      keys and 0 elsewhere sums to the sum of c over keys. */
  lemma {:induction false} SumOverKeys(ids: seq<NodeId>, keys: seq<NodeId>, c: NodeId -> real)
    requires Distinct(ids) && Distinct(keys)
    requires forall x :: x in keys ==> x in ids
    ensures Sum(seq(|ids|, i requires 0 <= i < |ids| => if ids[i] in keys then c(ids[i]) else 0.0))
            == SumOf(keys, c)
  {
    var col := seq(|ids|, i requires 0 <= i < |ids| => if ids[i] in keys then c(ids[i]) else 0.0);
    if ids == [] {
      if keys != [] {
        HeadIn(keys);
        assert false;
      }
    } else {
      var x := ids[0];
      var rest := ids[1..];
      var keys' := Remove(keys, x);
      assert Distinct(rest);
      forall y | y in keys' ensures y in rest {
        var p :| 0 <= p < |ids| && ids[p] == y;
      }
      SumOverKeys(rest, keys', c);
      var col' := seq(|rest|, i requires 0 <= i < |rest| => if rest[i] in keys' then c(rest[i]) else 0.0);
      forall i | 0 <= i < |rest| ensures col[i + 1] == col'[i] {
        assert rest[i] == ids[i + 1] != x;
      }
      assert col[1..] == col';
      SumOfRemove(keys, x, c);
    }
  }

  lemma {:induction false} SumOfConst(keys: seq<NodeId>, c: NodeId -> real, w: real)
    requires forall x :: c(x) == w
    ensures SumOf(keys, c) == |keys| as real * w
  {
    if keys != [] {
      SumOfConst(keys[1..], c, w);
    }
  }

  lemma HeadIn(s: seq<NodeId>)
    ensures s != [] ==> s[0] in s
  {
  }

  lemma DivAdd(a: real, b: real, t: real)
    requires t != 0.0
    ensures a / t + b / t == (a + b) / t
  {
  }

  lemma DivSelf(t: real)
    requires t != 0.0
    ensures t / t == 1.0
  {
  }

  lemma {:induction false} SumOfScaled(keys: seq<NodeId>, plants: seq<Plant>, types: PlantTypes,
                                       c: NodeId -> real, total: real)
    requires total != 0.0
    requires forall x :: c(x) == NodeCapacity(plants, types, x) / total
    ensures SumOf(keys, c) == CapacitySum(keys, plants, types) / total
  {
    if keys != [] {
      var head := NodeCapacity(plants, types, keys[0]);
      var tail := CapacitySum(keys[1..], plants, types);
      SumOfScaled(keys[1..], plants, types, c, total);
      DivAdd(head, tail, total);
    }
  }

  /** With unique node identifiers a node's label is among the nodes of zone
      z exactly when the node's own zone is z. */
  lemma LabelInZone(nodes: seq<Node>, i: nat, z: ZoneId)
    requires UniqueIds(nodes) && i < |nodes|
    ensures nodes[i].id in Ntc.NodeIdsInZone(nodes, z) <==> nodes[i].zone == z
  {
    if nodes[i].id in Ntc.NodeIdsInZone(nodes, z) {
      var k :| 0 <= k < |nodes| && nodes[k].id == nodes[i].id && nodes[k].zone == z;
      assert k == i;
    }
  }

  lemma {:induction false} ZoneIdsDistinct(nodes: seq<Node>, z: ZoneId)
    requires UniqueIds(nodes)
    ensures Distinct(Ntc.NodeIdsInZone(nodes, z))
  {
    if nodes != [] {
      var rest := nodes[1..];
      assert UniqueIds(rest) by {
        forall p, q | 0 <= p < q < |rest| ensures rest[p].id != rest[q].id {
          assert rest[p] == nodes[p + 1] && rest[q] == nodes[q + 1];
        }
      }
      ZoneIdsDistinct(rest, z);
      assert forall k :: 0 <= k < |rest| ==> rest[k].id != nodes[0].id by {
        forall k | 0 <= k < |rest| ensures rest[k].id != nodes[0].id {
          assert rest[k] == nodes[k + 1];
        }
      }
      assert !Ntc.InZone(rest, nodes[0].id, z);
    }
  }

  /** Column j of a matrix. */
  function Column(m: Matrix, j: nat): (col: seq<real>)
    requires forall i :: 0 <= i < |m| ==> j < |m[i]|
    ensures |col| == |m| && forall i :: 0 <= i < |m| ==> col[i] == m[i][j]
  {
    seq(|m|, i requires 0 <= i < |m| => m[i][j])
  }

  // ---------------------------------------------------------------------
  // Properties of create_gsk.

  /** A flat key fails exactly when some zone has no node, and then names the
      first such zone. */
  lemma FlatFailsIffEmptyZone(nodes: seq<Node>, zones: seq<ZoneId>, plants: seq<Plant>, types: PlantTypes)
    ensures Gsk("flat", nodes, zones, plants, types).Failure?
            <==> exists c :: 0 <= c < |zones| && zones[c] !in Ntc.NodeZones(nodes)
    ensures Gsk("flat", nodes, zones, plants, types).Failure? ==>
            exists c :: 0 <= c < |zones| && zones[c] !in Ntc.NodeZones(nodes)
              && Gsk("flat", nodes, zones, plants, types).error == EmptyZone(zones[c])
  {
    forall c | 0 <= c < |zones|
      ensures ZoneError("flat", nodes, plants, types, zones[c]).Some? <==> zones[c] !in Ntc.NodeZones(nodes)
    {
      var ids := Ntc.NodeIdsInZone(nodes, zones[c]);
      if |ids| > 0 {
        assert Ntc.InZone(nodes, ids[0], zones[c]);
      }
      if zones[c] in Ntc.NodeZones(nodes) {
        var k :| 0 <= k < |nodes| && nodes[k].zone == zones[c];
        assert nodes[k].id in ids;
      }
    }
  }

  /** Flat key: a node weighs 1 / (number of nodes of the zone) in the column
      of its own zone and 0 in every other column. */
  lemma FlatWeights(nodes: seq<Node>, zones: seq<ZoneId>, plants: seq<Plant>, types: PlantTypes,
                    i: nat, j: nat)
    requires UniqueIds(nodes)
    requires Gsk("flat", nodes, zones, plants, types).Success?
    requires i < |nodes| && j < |zones|
    ensures Gsk("flat", nodes, zones, plants, types).value[i][j]
            == if nodes[i].zone == zones[j] then 1.0 / (|Ntc.NodeIdsInZone(nodes, zones[j])| as real) else 0.0
  {
    LabelInZone(nodes, i, zones[j]);
  }

  /** Flat key: every column sums to 1. */
  lemma FlatColumnSumsToOne(nodes: seq<Node>, zones: seq<ZoneId>, plants: seq<Plant>, types: PlantTypes, j: nat)
    requires UniqueIds(nodes)
    requires Gsk("flat", nodes, zones, plants, types).Success?
    requires j < |zones|
    ensures Sum(Column(Gsk("flat", nodes, zones, plants, types).value, j)) == 1.0
  {
    var m := Gsk("flat", nodes, zones, plants, types).value;
    var ids := Labels(nodes);
    var keys := Ntc.NodeIdsInZone(nodes, zones[j]);
    var w := 1.0 / (|keys| as real);
    var c: NodeId -> real := x => w;
    ZoneIdsDistinct(nodes, zones[j]);
    forall x | x in keys ensures x in ids {
      var k :| 0 <= k < |nodes| && nodes[k].id == x && nodes[k].zone == zones[j];
    }
    SumOverKeys(ids, keys, c);
    SumOfConst(keys, c, w);
    assert Column(m, j) == seq(|ids|, i requires 0 <= i < |ids| => if ids[i] in keys then c(ids[i]) else 0.0);
  }

  /** Gmax key: a node's weight in the column of its own zone is its eligible
      capacity over the zone's eligible capacity when it has an eligible plant;
      every other entry is 0. */
  lemma GmaxWeights(nodes: seq<Node>, zones: seq<ZoneId>, plants: seq<Plant>, types: PlantTypes,
                    i: nat, j: nat)
    requires UniqueIds(nodes)
    requires Gsk("gmax", nodes, zones, plants, types).Success?
    requires i < |nodes| && j < |zones|
    ensures Gsk("gmax", nodes, zones, plants, types).value[i][j]
            == if nodes[i].zone == zones[j] && HasEligible(plants, types, nodes[i].id)
               then NodeCapacity(plants, types, nodes[i].id) / ZoneGmax(nodes, plants, types, zones[j])
               else 0.0
  {
    LabelInZone(nodes, i, zones[j]);
  }

  /** Gmax key: a zone none of whose nodes has an eligible plant keeps an
      all-zero column. */
  lemma GmaxZeroColumn(nodes: seq<Node>, zones: seq<ZoneId>, plants: seq<Plant>, types: PlantTypes, j: nat)
    requires j < |zones|
    requires forall k :: 0 <= k < |nodes| && nodes[k].zone == zones[j] ==> !HasEligible(plants, types, nodes[k].id)
    ensures ZoneError("gmax", nodes, plants, types, zones[j]).None?
    ensures forall i :: 0 <= i < |nodes| ==> Weight("gmax", nodes, plants, types, zones[j], nodes[i].id) == 0.0
  {
    var keys := ZoneGmaxNodes(nodes, plants, types, zones[j]);
    if keys != [] {
      HeadIn(keys);
      assert false;
    }
  }

  /** Gmax key: the column of a zone with eligible plants sums to 1. */
  lemma GmaxColumnSumsToOne(nodes: seq<Node>, zones: seq<ZoneId>, plants: seq<Plant>, types: PlantTypes, j: nat)
    requires UniqueIds(nodes)
    requires Gsk("gmax", nodes, zones, plants, types).Success?
    requires j < |zones|
    requires ZoneGmaxNodes(nodes, plants, types, zones[j]) != []
    ensures Sum(Column(Gsk("gmax", nodes, zones, plants, types).value, j)) == 1.0
  {
    var m := Gsk("gmax", nodes, zones, plants, types).value;
    var ids := Labels(nodes);
    var keys := ZoneGmaxNodes(nodes, plants, types, zones[j]);
    var total := ZoneGmax(nodes, plants, types, zones[j]);
    assert ZoneError("gmax", nodes, plants, types, zones[j]).None?;
    assert total != 0.0;
    var c: NodeId -> real := x => NodeCapacity(plants, types, x) / total;
    forall x | x in keys ensures x in ids {
      var k :| 0 <= k < |nodes| && nodes[k].id == x && nodes[k].zone == zones[j];
    }
    assert Distinct(ids) && Distinct(keys);
    var col := seq(|ids|, i requires 0 <= i < |ids| => if ids[i] in keys then c(ids[i]) else 0.0);
    assert Column(m, j) == col;
    SumOverKeys(ids, keys, c);
    SumOfScaled(keys, plants, types, c, total);
    assert total == CapacitySum(keys, plants, types);
    DivSelf(total);
  }

  /** An option other than flat and gmax leaves every column at 0. */
  lemma OtherOptionAllZero(option: string, nodes: seq<Node>, zones: seq<ZoneId>, plants: seq<Plant>,
                           types: PlantTypes)
    requires option != "flat" && option != "gmax"
    ensures Gsk(option, nodes, zones, plants, types).Success?
    ensures forall i, j :: 0 <= i < |nodes| && 0 <= j < |zones| ==>
              Gsk(option, nodes, zones, plants, types).value[i][j] == 0.0
  {
    assert FirstFailing(option, nodes, plants, types, zones) == |zones|;
  }
}
