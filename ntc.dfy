/**
 * Default zonal exchange capacities (create_ntc): for every unordered pair of
 * distinct zones two directed rows, 1e5 when a line or DC line joins the two
 * zones in either orientation and 0 otherwise.
 */
module Ntc {
  import opened GridData

  /** The large, effectively non-binding capacity given to connected zones. */
  const ConnectedNtc: real := 100000.0

  /** Some row of the node table has identifier id and zone z. */
  ghost predicate InZone(nodes: seq<Node>, id: NodeId, z: ZoneId) {
    exists k :: 0 <= k < |nodes| && nodes[k].id == id && nodes[k].zone == z
  }

  /** Identifiers of the nodes of zone z (nodes.index[nodes.zone == z]). */
  function NodeIdsInZone(nodes: seq<Node>, z: ZoneId): (ids: seq<NodeId>)
    ensures forall id :: id in ids <==> InZone(nodes, id, z)
  {
    if nodes == [] then []
    else
      var rest := NodeIdsInZone(nodes[1..], z);
      assert forall k :: 1 <= k < |nodes| ==> nodes[k] == nodes[1..][k - 1];
      if nodes[0].zone == z then [nodes[0].id] + rest else rest
  }

  /** Identifiers of the branches whose node_i is in `from` and node_j in `to`. */
  function Oriented(bs: seq<Branch>, from: seq<NodeId>, to: seq<NodeId>): (ids: seq<BranchId>)
    ensures |ids| > 0 <==> SomeOriented(bs, from, to)
  {
    if bs == [] then []
    else
      var rest := Oriented(bs[1..], from, to);
      assert forall k :: 1 <= k < |bs| ==> bs[k] == bs[1..][k - 1];
      if bs[0].nodeI in from && bs[0].nodeJ in to then [bs[0].id] + rest else rest
  }

  /** Some branch has node_i in `from` and node_j in `to`. */
  ghost predicate SomeOriented(bs: seq<Branch>, from: seq<NodeId>, to: seq<NodeId>) {
    exists k :: 0 <= k < |bs| && bs[k].nodeI in from && bs[k].nodeJ in to
  }

  /** The branches joining the two node sets, first in from-to orientation,
      then in to-from orientation. */
  function BranchesBetween(bs: seq<Branch>, from: seq<NodeId>, to: seq<NodeId>): seq<BranchId> {
    Oriented(bs, from, to) + Oriented(bs, to, from)
  }

  /** The capacity create_ntc assigns to the pair (a, b). */
  function PairNtc(nodes: seq<Node>, lines: seq<Branch>, dclines: seq<Branch>,
                   a: ZoneId, b: ZoneId): real
  {
    var fromNodes := NodeIdsInZone(nodes, a);
    var toNodes := NodeIdsInZone(nodes, b);
    if |BranchesBetween(lines, fromNodes, toNodes)| > 0
       || |BranchesBetween(dclines, fromNodes, toNodes)| > 0
    then ConnectedNtc else 0.0
  }

  /** Reference definition of adjacency: branch br runs from a node of zone a
      to a node of zone b. */
  ghost predicate Joins(nodes: seq<Node>, br: Branch, a: ZoneId, b: ZoneId) {
    InZone(nodes, br.nodeI, a) && InZone(nodes, br.nodeJ, b)
  }

  /** Zones a and b are adjacent when some AC or DC line joins them, in either
      orientation. */
  ghost predicate ZonesConnected(nodes: seq<Node>, lines: seq<Branch>, dclines: seq<Branch>,
                                 a: ZoneId, b: ZoneId)
  {
    (exists k :: 0 <= k < |lines| && (Joins(nodes, lines[k], a, b) || Joins(nodes, lines[k], b, a)))
    || (exists k :: 0 <= k < |dclines| && (Joins(nodes, dclines[k], a, b) || Joins(nodes, dclines[k], b, a)))
  }

  lemma BetweenIffJoined(nodes: seq<Node>, bs: seq<Branch>, a: ZoneId, b: ZoneId)
    ensures |BranchesBetween(bs, NodeIdsInZone(nodes, a), NodeIdsInZone(nodes, b))| > 0
        <==> exists k :: 0 <= k < |bs| && (Joins(nodes, bs[k], a, b) || Joins(nodes, bs[k], b, a))
  {
    var fa, fb := NodeIdsInZone(nodes, a), NodeIdsInZone(nodes, b);
    assert |BranchesBetween(bs, fa, fb)| == |Oriented(bs, fa, fb)| + |Oriented(bs, fb, fa)|;
    forall k | 0 <= k < |bs|
      ensures (bs[k].nodeI in fa && bs[k].nodeJ in fb) <==> Joins(nodes, bs[k], a, b)
      ensures (bs[k].nodeI in fb && bs[k].nodeJ in fa) <==> Joins(nodes, bs[k], b, a)
    {
    }
  }

  /** The capacity of a pair is 1e5 exactly when the zones are adjacent and
      0 otherwise; in particular it does not depend on the direction. */
  lemma PairNtcIffConnected(nodes: seq<Node>, lines: seq<Branch>, dclines: seq<Branch>,
                            a: ZoneId, b: ZoneId)
    ensures PairNtc(nodes, lines, dclines, a, b)
         == (if ZonesConnected(nodes, lines, dclines, a, b) then ConnectedNtc else 0.0)
    ensures PairNtc(nodes, lines, dclines, a, b) == PairNtc(nodes, lines, dclines, b, a)
  {
    BetweenIffJoined(nodes, lines, a, b);
    BetweenIffJoined(nodes, dclines, a, b);
    BetweenIffJoined(nodes, lines, b, a);
    BetweenIffJoined(nodes, dclines, b, a);
  }

  /** The capacity rule create_ntc applies, as a function of the pair. */
  function NtcRule(nodes: seq<Node>, lines: seq<Branch>, dclines: seq<Branch>): (ZoneId, ZoneId) -> real {
    (a, b) => PairNtc(nodes, lines, dclines, a, b)
  }

  /** itertools.combinations(zs, 2): the pairs (zs[p], zs[q]) with p < q, in
      lexicographic order of (p, q). */
  function Combinations(zs: seq<ZoneId>): seq<(ZoneId, ZoneId)> {
    if zs == [] then []
    else seq(|zs| - 1, k requires 0 <= k < |zs| - 1 => (zs[0], zs[k + 1])) + Combinations(zs[1..])
  }

  /** The two rows emitted for the pair (a, b), both carrying f(a, b). */
  function PairRows(f: (ZoneId, ZoneId) -> real, pair: (ZoneId, ZoneId)): seq<NtcRow> {
    [NtcRow(pair.0, pair.1, f(pair.0, pair.1)), NtcRow(pair.1, pair.0, f(pair.0, pair.1))]
  }

  /** The rows emitted for a sequence of pairs, in order. */
  function RowsOf(pairs: seq<(ZoneId, ZoneId)>, f: (ZoneId, ZoneId) -> real): seq<NtcRow> {
    if pairs == [] then [] else RowsOf(pairs[..|pairs| - 1], f) + PairRows(f, pairs[|pairs| - 1])
  }

  /** The rows of the first k + 1 pairs extend those of the first k by the
      rows of pair k. */
  lemma RowsOfAppend(pairs: seq<(ZoneId, ZoneId)>, f: (ZoneId, ZoneId) -> real, k: nat)
    requires k < |pairs|
    ensures RowsOf(pairs[..k + 1], f) == RowsOf(pairs[..k], f) + PairRows(f, pairs[k])
  {
    assert pairs[..k + 1][..k] == pairs[..k];
  }

  /** The NTC table create_ntc emits for the zone enumeration zs. */
  function NtcTable(zs: seq<ZoneId>, nodes: seq<Node>, lines: seq<Branch>, dclines: seq<Branch>): (r: seq<NtcRow>)
    ensures |r| == |zs| * (|zs| - 1)
  {
    CombinationsCount(zs);
    RowsOfCount(Combinations(zs), NtcRule(nodes, lines, dclines));
    RowsOf(Combinations(zs), NtcRule(nodes, lines, dclines))
  }

  /** The distinct zones of the node table in order of first appearance: one
      enumeration of Python's set(nodes.zone). */
  function NodeZones(nodes: seq<Node>): (zs: seq<ZoneId>)
    ensures Distinct(zs)
    ensures forall z :: z in zs <==> exists k :: 0 <= k < |nodes| && nodes[k].zone == z
  {
    if nodes == [] then []
    else
      var prev := NodeZones(nodes[..|nodes| - 1]);
      var last := nodes[|nodes| - 1];
      assert forall k :: 0 <= k < |nodes| - 1 ==> nodes[..|nodes| - 1][k] == nodes[k];
      if last.zone in prev then prev else prev + [last.zone]
  }

  /**
   * create_ntc: one pass over the zone pairs, appending two rows per pair.
   */
  method CreateNtc(zs: seq<ZoneId>, nodes: seq<Node>, lines: seq<Branch>, dclines: seq<Branch>)
    returns (tmp: seq<NtcRow>)
    ensures tmp == NtcTable(zs, nodes, lines, dclines)
  {
    ghost var f := NtcRule(nodes, lines, dclines);
    var pairs := Combinations(zs);
    tmp := [];
    var k := 0;
    while k < |pairs|
      invariant 0 <= k <= |pairs|
      invariant tmp == RowsOf(pairs[..k], f)
    {
      var (fromZone, toZone) := pairs[k];
      var fromNodes := NodeIdsInZone(nodes, fromZone);
      var toNodes := NodeIdsInZone(nodes, toZone);
      var acLines := BranchesBetween(lines, fromNodes, toNodes);
      var dcLines := BranchesBetween(dclines, fromNodes, toNodes);
      RowsOfAppend(pairs, f, k);
      assert f(fromZone, toZone) == if |acLines| > 0 || |dcLines| > 0 then ConnectedNtc else 0.0;
      if |acLines| > 0 || |dcLines| > 0 {
        tmp := tmp + [NtcRow(fromZone, toZone, ConnectedNtc), NtcRow(toZone, fromZone, ConnectedNtc)];
      } else {
        tmp := tmp + [NtcRow(fromZone, toZone, 0.0), NtcRow(toZone, fromZone, 0.0)];
      }
      k := k + 1;
    }
    assert pairs[..k] == pairs;
  }

  // ---------------------------------------------------------------------
  // The pairs enumerated by itertools.combinations.

  /** zs lists a before b: a = zs[p], b = zs[q] for some p < q. */
  ghost predicate Before(zs: seq<ZoneId>, pair: (ZoneId, ZoneId)) {
    exists p, q :: 0 <= p < q < |zs| && zs[p] == pair.0 && zs[q] == pair.1
  }

  /** The two pairs name the same unordered pair of zones. */
  predicate SamePair(x: (ZoneId, ZoneId), y: (ZoneId, ZoneId)) {
    x == y || (x.0 == y.1 && x.1 == y.0)
  }

  /** A pair is enumerated exactly when zs lists its first zone before its second. */
  lemma {:induction false} CombinationsIffBefore(zs: seq<ZoneId>, pair: (ZoneId, ZoneId))
    ensures pair in Combinations(zs) <==> Before(zs, pair)
  {
    if zs != [] {
      var head := seq(|zs| - 1, k requires 0 <= k < |zs| - 1 => (zs[0], zs[k + 1]));
      assert Combinations(zs) == head + Combinations(zs[1..]);
      CombinationsIffBefore(zs[1..], pair);
      if pair in head {
        var k :| 0 <= k < |head| && head[k] == pair;
        assert zs[0] == pair.0 && zs[k + 1] == pair.1;
      } else if pair in Combinations(zs[1..]) {
        var p, q :| 0 <= p < q < |zs[1..]| && zs[1..][p] == pair.0 && zs[1..][q] == pair.1;
        assert zs[p + 1] == pair.0 && zs[q + 1] == pair.1;
      }
      if Before(zs, pair) {
        var p, q :| 0 <= p < q < |zs| && zs[p] == pair.0 && zs[q] == pair.1;
        if p == 0 {
          assert head[q - 1] == pair;
        } else {
          assert zs[1..][p - 1] == pair.0 && zs[1..][q - 1] == pair.1;
        }
      }
    }
  }

  /** There are |zs| (|zs| - 1) / 2 pairs. */
  lemma {:induction false} CombinationsCount(zs: seq<ZoneId>)
    ensures 2 * |Combinations(zs)| == |zs| * (|zs| - 1)
  {
    if zs != [] {
      CombinationsCount(zs[1..]);
    }
  }

  /** Over distinct zones, no two enumerated pairs name the same unordered pair. */
  lemma {:induction false} CombinationsUnordered(zs: seq<ZoneId>)
    requires Distinct(zs)
    ensures forall i, j :: 0 <= i < j < |Combinations(zs)| ==>
              !SamePair(Combinations(zs)[i], Combinations(zs)[j])
  {
    if zs != [] {
      var head := seq(|zs| - 1, k requires 0 <= k < |zs| - 1 => (zs[0], zs[k + 1]));
      var tail := Combinations(zs[1..]);
      assert Distinct(zs[1..]);
      CombinationsUnordered(zs[1..]);
      assert Combinations(zs) == head + tail;
      forall t | 0 <= t < |tail|
        ensures tail[t].0 != zs[0] && tail[t].1 != zs[0]
      {
        CombinationsIffBefore(zs[1..], tail[t]);
        var p, q :| 0 <= p < q < |zs[1..]| && zs[1..][p] == tail[t].0 && zs[1..][q] == tail[t].1;
        assert zs[p + 1] == tail[t].0 && zs[q + 1] == tail[t].1;
      }
    }
  }

  // ---------------------------------------------------------------------
  // The rows emitted for a sequence of pairs.

  lemma {:induction false} RowsOfCount(ps: seq<(ZoneId, ZoneId)>, f: (ZoneId, ZoneId) -> real)
    ensures |RowsOf(ps, f)| == 2 * |ps|
  {
    if ps != [] {
      RowsOfCount(ps[..|ps| - 1], f);
    }
  }

  /** A row is emitted exactly when it is one of the two rows of some pair. */
  lemma {:induction false} RowsOfIff(ps: seq<(ZoneId, ZoneId)>, f: (ZoneId, ZoneId) -> real, r: NtcRow)
    ensures r in RowsOf(ps, f) <==> exists k :: 0 <= k < |ps| && r in PairRows(f, ps[k])
  {
    if ps != [] {
      var n := |ps| - 1;
      var init := ps[..n];
      RowsOfIff(init, f, r);
      assert r in RowsOf(ps, f) <==> r in RowsOf(init, f) || r in PairRows(f, ps[n]);
      assert (exists k :: 0 <= k < |init| && r in PairRows(f, init[k]))
             <==> (exists k :: 0 <= k < n && r in PairRows(f, ps[k])) by {
        assert forall k :: 0 <= k < n ==> init[k] == ps[k];
      }
      assert (exists k :: 0 <= k < |ps| && r in PairRows(f, ps[k]))
             <==> (exists k :: 0 <= k < n && r in PairRows(f, ps[k])) || r in PairRows(f, ps[n]) by {
        if exists k :: 0 <= k < |ps| && r in PairRows(f, ps[k]) {
          var k :| 0 <= k < |ps| && r in PairRows(f, ps[k]);
          assert k < n || k == n;
        }
      }
    }
  }

  /** The directed keys (zone_i, zone_j) of a table are pairwise different. */
  ghost predicate UniqueKeys(t: seq<NtcRow>) {
    forall i, j :: 0 <= i < j < |t| ==> t[i].zoneI != t[j].zoneI || t[i].zoneJ != t[j].zoneJ
  }

  /** A table emitted for pairs that are proper and name distinct unordered
      pairs has no directed key twice. */
  lemma {:induction false} RowsOfUnique(ps: seq<(ZoneId, ZoneId)>, f: (ZoneId, ZoneId) -> real)
    requires forall k :: 0 <= k < |ps| ==> ps[k].0 != ps[k].1
    requires forall i, j :: 0 <= i < j < |ps| ==> !SamePair(ps[i], ps[j])
    ensures UniqueKeys(RowsOf(ps, f))
  {
    if ps != [] {
      var init := ps[..|ps| - 1];
      var last := ps[|ps| - 1];
      var t := RowsOf(init, f);
      var u := PairRows(f, last);
      assert forall k :: 0 <= k < |init| ==> init[k] == ps[k];
      RowsOfUnique(init, f);
      forall i | 0 <= i < |t|
        ensures (t[i].zoneI, t[i].zoneJ) != (last.0, last.1)
        ensures (t[i].zoneI, t[i].zoneJ) != (last.1, last.0)
      {
        RowsOfIff(init, f, t[i]);
        var k :| 0 <= k < |init| && t[i] in PairRows(f, init[k]);
        assert !SamePair(ps[k], last);
      }
      assert RowsOf(ps, f) == t + u;
    }
  }

  // ---------------------------------------------------------------------
  // The properties of create_ntc's table.

  /** Every row pairs two different zones of the enumeration, in either order,
      and carries 1e5 exactly when they are adjacent, 0 otherwise. */
  lemma NtcRowsWellFormed(zs: seq<ZoneId>, nodes: seq<Node>, lines: seq<Branch>, dclines: seq<Branch>,
                          r: NtcRow)
    requires Distinct(zs)
    requires r in NtcTable(zs, nodes, lines, dclines)
    ensures r.zoneI in zs && r.zoneJ in zs && r.zoneI != r.zoneJ
    ensures r.ntc == if ZonesConnected(nodes, lines, dclines, r.zoneI, r.zoneJ) then ConnectedNtc else 0.0
  {
    var f := NtcRule(nodes, lines, dclines);
    var a, b := PairOfRow(zs, f, r);
    PairNtcIffConnected(nodes, lines, dclines, a, b);
    PairNtcIffConnected(nodes, lines, dclines, b, a);
  }

  /** A row emitted for the enumerated pairs of distinct zones is one of the
      two rows of a pair of different zones of the enumeration. */
  lemma PairOfRow(zs: seq<ZoneId>, f: (ZoneId, ZoneId) -> real, r: NtcRow) returns (a: ZoneId, b: ZoneId)
    requires Distinct(zs)
    requires r in RowsOf(Combinations(zs), f)
    ensures a in zs && b in zs && a != b
    ensures r == NtcRow(a, b, f(a, b)) || r == NtcRow(b, a, f(a, b))
  {
    var ps := Combinations(zs);
    RowsOfIff(ps, f, r);
    var k :| 0 <= k < |ps| && r in PairRows(f, ps[k]);
    a, b := ps[k].0, ps[k].1;
    CombinationsIffBefore(zs, (a, b));
    var p, q :| 0 <= p < q < |zs| && zs[p] == a && zs[q] == b;
  }

  /** Every ordered pair of different zones has its row, with the capacity of
      the adjacency rule. */
  lemma NtcCoversEveryPair(zs: seq<ZoneId>, nodes: seq<Node>, lines: seq<Branch>, dclines: seq<Branch>,
                           a: ZoneId, b: ZoneId)
    requires a in zs && b in zs && a != b
    ensures NtcRow(a, b, if ZonesConnected(nodes, lines, dclines, a, b) then ConnectedNtc else 0.0)
            in NtcTable(zs, nodes, lines, dclines)
  {
    var f := NtcRule(nodes, lines, dclines);
    var ps := Combinations(zs);
    var p :| 0 <= p < |zs| && zs[p] == a;
    var q :| 0 <= q < |zs| && zs[q] == b;
    var pair := if p < q then (a, b) else (b, a);
    assert Before(zs, pair) by {
      if p < q { assert zs[p] == pair.0 && zs[q] == pair.1; }
      else { assert q < p && zs[q] == pair.0 && zs[p] == pair.1; }
    }
    CombinationsIffBefore(zs, pair);
    var k :| 0 <= k < |ps| && ps[k] == pair;
    PairNtcIffConnected(nodes, lines, dclines, a, b);
    var row := NtcRow(a, b, PairNtc(nodes, lines, dclines, a, b));
    assert row in PairRows(f, ps[k]) by {
      assert f(pair.0, pair.1) == PairNtc(nodes, lines, dclines, pair.0, pair.1);
    }
    RowsOfIff(ps, f, row);
  }

  /** The two directions of a pair carry the same capacity. */
  lemma NtcSymmetric(zs: seq<ZoneId>, nodes: seq<Node>, lines: seq<Branch>, dclines: seq<Branch>,
                     r: NtcRow)
    requires Distinct(zs)
    requires r in NtcTable(zs, nodes, lines, dclines)
    ensures NtcRow(r.zoneJ, r.zoneI, r.ntc) in NtcTable(zs, nodes, lines, dclines)
  {
    NtcRowsWellFormed(zs, nodes, lines, dclines, r);
    PairNtcIffConnected(nodes, lines, dclines, r.zoneI, r.zoneJ);
    NtcCoversEveryPair(zs, nodes, lines, dclines, r.zoneJ, r.zoneI);
  }

  /** Over distinct zones the table has exactly two rows per unordered pair:
      |zs| (|zs| - 1) rows, no directed key twice. */
  lemma NtcShape(zs: seq<ZoneId>, nodes: seq<Node>, lines: seq<Branch>, dclines: seq<Branch>)
    requires Distinct(zs)
    ensures |NtcTable(zs, nodes, lines, dclines)| == |zs| * (|zs| - 1)
    ensures UniqueKeys(NtcTable(zs, nodes, lines, dclines))
  {
    var f := NtcRule(nodes, lines, dclines);
    var ps := Combinations(zs);
    CombinationsCount(zs);
    RowsOfCount(ps, f);
    CombinationsUnordered(zs);
    forall k | 0 <= k < |ps| ensures ps[k].0 != ps[k].1 {
      CombinationsIffBefore(zs, ps[k]);
    }
    RowsOfUnique(ps, f);
  }
}
