/**
 * The constraint system A x <= b and its info table: light preprocessing
 * (dropping rows whose rounded key repeats), projection onto zones through a
 * GSK, selection of rows by position (return_cbco), annotation with the zones
 * of each line's endpoints, and the rules that choose the rows of a nodal
 * N-1 representation.
 */
module Constraints {
  import opened Wrappers
  import opened GridData
  import InjectionLimits

  // ---------------------------------------------------------------------
  // Preprocessing: np.unique(keys, axis=0, return_index=True), then np.sort.

  /** No position before i holds the key at i. */
  predicate FirstAt<K(==)>(keys: seq<K>, i: nat)
    requires i < |keys|
  {
    forall j :: 0 <= j < i ==> keys[j] != keys[i]
  }

  /** The positions of the first occurrence of every distinct key, ascending. */
  function FirstOccurrences<K(==)>(keys: seq<K>): (idx: seq<nat>)
    ensures forall p :: 0 <= p < |idx| ==> idx[p] < |keys|
    ensures forall p, q :: 0 <= p < q < |idx| ==> idx[p] < idx[q]
    ensures forall i: nat :: i in idx <==> i < |keys| && FirstAt(keys, i)
  {
    if keys == [] then []
    else
      var n := |keys| - 1;
      var init := keys[..n];
      var prev := FirstOccurrences(init);
      assert forall i: nat :: i < n ==> (FirstAt(init, i) <==> FirstAt(keys, i)) by {
        forall i: nat | i < n ensures FirstAt(init, i) <==> FirstAt(keys, i) {
          assert forall j :: 0 <= j <= i ==> init[j] == keys[j];
        }
      }
      assert FirstAt(keys, n) <==> keys[n] !in init;
      if keys[n] in init then prev else prev + [n]
  }

  /** No two kept rows share a key. */
  lemma KeptKeysDistinct<K>(keys: seq<K>, idx: seq<nat>)
    requires idx == FirstOccurrences(keys)
    ensures forall p, q :: 0 <= p < q < |idx| ==> keys[idx[p]] != keys[idx[q]]
  {
    forall p, q | 0 <= p < q < |idx| ensures keys[idx[p]] != keys[idx[q]] {
      assert idx[q] in idx;
      assert FirstAt(keys, idx[q]);
    }
  }

  /** Some kept position at or before i holds the key at i. */
  ghost predicate KeptAtOrBefore<K>(keys: seq<K>, idx: seq<nat>, i: nat)
    requires i < |keys| && forall p :: 0 <= p < |idx| ==> idx[p] < |keys|
  {
    exists p :: 0 <= p < |idx| && idx[p] <= i && keys[idx[p]] == keys[i]
  }

  /** Every row's key is the key of a kept row at or before it. */
  lemma {:induction false} EveryKeyKept<K>(keys: seq<K>, i: nat)
    requires i < |keys|
    ensures KeptAtOrBefore(keys, FirstOccurrences(keys), i)
    decreases i
  {
    var idx := FirstOccurrences(keys);
    if FirstAt(keys, i) {
      assert i in idx;
      var p :| 0 <= p < |idx| && idx[p] == i;
      assert idx[p] <= i && keys[idx[p]] == keys[i];
    } else {
      var j :| 0 <= j < i && keys[j] == keys[i];
      EveryKeyKept(keys, j);
    }
  }

  /** A dropped row repeats the key of a kept row that comes before it. */
  lemma DroppedRowRepeatsEarlierKey<K>(keys: seq<K>, i: nat)
    requires i < |keys| && i !in FirstOccurrences(keys)
    ensures var idx := FirstOccurrences(keys);
            exists p :: 0 <= p < |idx| && idx[p] < i && keys[idx[p]] == keys[i]
  {
    var idx := FirstOccurrences(keys);
    EveryKeyKept(keys, i);
    var p :| 0 <= p < |idx| && idx[p] <= i && keys[idx[p]] == keys[i];
    assert idx[p] in idx;
    assert idx[p] != i;
  }

  /** The rounded key of an info row: its PTDF entries and its ram. */
  function RowKey(row: CbcoRow, round: real -> real): seq<real> {
    seq(|row.ptdf|, k requires 0 <= k < |row.ptdf| => round(row.ptdf[k])) + [round(row.ram)]
  }

  function Keys(info: seq<CbcoRow>, round: real -> real): seq<seq<real>> {
    seq(|info|, i requires 0 <= i < |info| => RowKey(info[i], round))
  }

  /** A, b and the info table describe the same rows. */
  predicate Aligned(sys: CbcoSystem) {
    |sys.A| == |sys.b| == |sys.info|
  }

  /** Keep the first row of every rounded key, filtering A, b and info alike. */
  function Preprocess(sys: CbcoSystem, round: real -> real): (r: CbcoSystem)
    requires Aligned(sys)
    ensures Aligned(r) && |r.info| <= |sys.info|
  {
    var idx := FirstOccurrences(Keys(sys.info, round));
    assert |idx| <= |sys.info| by { IncreasingBelowIsShort(idx, |sys.info|); }
    CbcoSystem(SelectRows(sys.A, idx), SelectRows(sys.b, idx), SelectRows(sys.info, idx))
  }

  lemma {:induction false} IncreasingBelowIsShort(idx: seq<nat>, n: nat)
    requires forall p :: 0 <= p < |idx| ==> idx[p] < n
    requires forall p, q :: 0 <= p < q < |idx| ==> idx[p] < idx[q]
    ensures |idx| <= n
  {
    if idx != [] {
      var last := idx[|idx| - 1];
      IncreasingBelowIsShort(idx[..|idx| - 1], last);
    }
  }

  /** No two rows of the info table share a rounded key. */
  ghost predicate KeysDistinct(info: seq<CbcoRow>, round: real -> real) {
    forall p, q :: 0 <= p < q < |info| ==> RowKey(info[p], round) != RowKey(info[q], round)
  }

  /** Some row of the info table has the given rounded key. */
  ghost predicate HasKey(info: seq<CbcoRow>, round: real -> real, key: seq<real>) {
    exists p :: 0 <= p < |info| && RowKey(info[p], round) == key
  }

  /** After preprocessing no two rows share a rounded key. */
  lemma PreprocessKeysDistinct(sys: CbcoSystem, round: real -> real)
    requires Aligned(sys)
    ensures KeysDistinct(Preprocess(sys, round).info, round)
  {
    var keys := Keys(sys.info, round);
    var idx := FirstOccurrences(keys);
    var r := Preprocess(sys, round);
    KeptKeysDistinct(keys, idx);
    assert |r.info| == |idx|;
    forall p, q | 0 <= p < q < |r.info| ensures RowKey(r.info[p], round) != RowKey(r.info[q], round) {
      assert r.info[p] == sys.info[idx[p]] && r.info[q] == sys.info[idx[q]];
      assert keys[idx[p]] != keys[idx[q]];
    }
  }

  /** Preprocessing loses no constraint: every original row's rounded key is
      the key of a kept row. */
  lemma PreprocessKeepsEveryKey(sys: CbcoSystem, round: real -> real, i: nat)
    requires Aligned(sys) && i < |sys.info|
    ensures HasKey(Preprocess(sys, round).info, round, RowKey(sys.info[i], round))
  {
    var keys := Keys(sys.info, round);
    var idx := FirstOccurrences(keys);
    var p := KeptPosition(keys, i);
    var r := Preprocess(sys, round);
    assert r.info[p] == sys.info[idx[p]];
    assert RowKey(r.info[p], round) == keys[idx[p]] == keys[i] == RowKey(sys.info[i], round);
  }

  /** The position, among the kept ones, of a row holding the key at i. */
  lemma KeptPosition<K>(keys: seq<K>, i: nat) returns (p: nat)
    requires i < |keys|
    ensures p < |FirstOccurrences(keys)| && keys[FirstOccurrences(keys)[p]] == keys[i]
  {
    EveryKeyKept(keys, i);
    var idx := FirstOccurrences(keys);
    p :| 0 <= p < |idx| && idx[p] <= i && keys[idx[p]] == keys[i];
  }

  // ---------------------------------------------------------------------
  // create_cbco_data.

  /** A x b' with b' of shape |row| x cols: the zonal PTDF, and the info table
      rebuilt from cb, co, ram and the new columns. */
  function Project(sys: CbcoSystem, gsk: Matrix, cols: nat): (r: Result<CbcoSystem, GridError>)
    requires Aligned(sys)
    ensures r.Success? <==> HasWidth(gsk, cols) && forall i :: 0 <= i < |sys.A| ==> |sys.A[i]| == |gsk|
    ensures r.Failure? ==> r.error == ShapeMismatch
    ensures r.Success? ==>
              HasWidth(gsk, cols) && (forall i :: 0 <= i < |sys.A| ==> |sys.A[i]| == |gsk|)
              && Aligned(r.value) && r.value.A == MatMul(sys.A, gsk, cols) && r.value.b == sys.b
              && forall i :: 0 <= i < |sys.info| ==>
                   r.value.info[i] == sys.info[i].(ptdf := r.value.A[i])
  {
    if !HasWidth(gsk, cols) || exists i :: 0 <= i < |sys.A| && |sys.A[i]| != |gsk| then Failure(ShapeMismatch)
    else
      var a := MatMul(sys.A, gsk, cols);
      Success(CbcoSystem(a, sys.b, seq(|sys.info|, i requires 0 <= i < |sys.info| =>
                                       sys.info[i].(ptdf := a[i]))))
  }

  /** create_cbco_data with the GSK passed as an optional matrix. */
  function CreateCbcoData(sys: CbcoSystem, preprocess: bool, round: real -> real, gsk: Option<Matrix>, cols: nat)
    : (r: Result<CbcoSystem, GridError>)
    requires Aligned(sys)
    ensures r.Success? ==> Aligned(r.value)
    ensures r.Success? && gsk.Some? ==>
              HasWidth(r.value.A, cols) && forall i :: 0 <= i < |r.value.info| ==> r.value.info[i].ptdf == r.value.A[i]
    ensures gsk.None? ==> r == Success(if preprocess then Preprocess(sys, round) else sys)
  {
    var s := if preprocess then Preprocess(sys, round) else sys;
    match gsk
    case None => Success(s)
    case Some(g) => Project(s, g, cols)
  }

  /** Projecting the preprocessed system equals preprocessing the projected
      PTDF: the kept rows of the zonal matrix are the zonal rows of the kept
      nodal rows. */
  lemma PreprocessThenProject(sys: CbcoSystem, round: real -> real, gsk: Matrix, cols: nat)
    requires Aligned(sys)
    requires HasWidth(gsk, cols) && forall i :: 0 <= i < |sys.A| ==> |sys.A[i]| == |gsk|
    ensures var r := CreateCbcoData(sys, true, round, Some(gsk), cols);
            r.Success? && r.value.A == SelectRows(MatMul(sys.A, gsk, cols), FirstOccurrences(Keys(sys.info, round)))
  {
    var idx := FirstOccurrences(Keys(sys.info, round));
    var s := Preprocess(sys, round);
    assert s.A == SelectRows(sys.A, idx);
    assert forall i :: 0 <= i < |s.A| ==> |s.A[i]| == |gsk| by {
      forall i | 0 <= i < |s.A| ensures |s.A[i]| == |gsk| {
        assert s.A[i] == sys.A[idx[i]];
      }
    }
    var projected := Project(s, gsk, cols);
    assert projected.Success? && projected.value.A == MatMul(s.A, gsk, cols);
    assert CreateCbcoData(sys, true, round, Some(gsk), cols) == projected;
    MatMulSelectRows(sys.A, gsk, cols, idx);
  }

  /** The gsk argument of create_cbco_data as the source receives it. */
  datatype GskArgument = NoGsk | GskName(name: string) | GskMatrix(m: Matrix)

  /** Number of entries of a matrix. */
  function Size(m: Matrix): nat {
    if m == [] then 0 else |m[0]| + Size(m[1..])
  }

  /** Python's `if gsk:` on the argument: None is false, a string is true when
      non-empty, an array of more than one element raises, an array of one
      element is its element's truth and an empty array is false. */
  function Truthy(arg: GskArgument): (r: Result<bool, GridError>)
    ensures r.Failure? <==> arg.GskMatrix? && Size(arg.m) > 1
    ensures r.Failure? ==> r.error == AmbiguousTruthValue
    ensures arg.NoGsk? ==> r == Success(false)
    ensures arg.GskName? ==> r == Success(arg.name != "")
    ensures arg.GskMatrix? && Size(arg.m) == 0 ==> r == Success(false)
  {
    match arg
    case NoGsk => Success(false)
    case GskName(s) => Success(s != "")
    case GskMatrix(m) =>
      if Size(m) > 1 then Failure(AmbiguousTruthValue)
      else if Size(m) == 1 then Success(FirstEntry(m) != 0.0)
      else Success(false)
  }

  /** The one entry of a matrix of size 1. */
  function FirstEntry(m: Matrix): real
    requires Size(m) == 1
  {
    if |m[0]| > 0 then m[0][0] else FirstEntry(m[1..])
  }

  /** create_cbco_data as written: `if gsk:` and then np.dot(A, gsk), with
      process_cbco_zonal handing in the option string. */
  function CreateCbcoDataAsWritten(sys: CbcoSystem, preprocess: bool, round: real -> real, arg: GskArgument,
                                   cols: nat): (r: Result<CbcoSystem, GridError>)
    requires Aligned(sys)
    ensures r.Success? ==> Aligned(r.value)
    ensures arg.GskName? ==>
              if arg.name == "" then r == Success(if preprocess then Preprocess(sys, round) else sys)
              else r == Failure(NotAMatrix(arg.name))
    ensures arg.GskMatrix? && Size(arg.m) > 1 ==> r == Failure(AmbiguousTruthValue)
  {
    var s := if preprocess then Preprocess(sys, round) else sys;
    match Truthy(arg)
    case Failure(e) => Failure(e)
    case Success(t) =>
      if !t then Success(s)
      else match arg
        case GskName(name) => Failure(NotAMatrix(name))
        case GskMatrix(m) => Project(s, m, cols)
        case NoGsk => Success(s)
  }

  /** As written, every non-empty GSK option ("flat", "gmax") makes the zonal
      N-1 representation fail: the string reaches np.dot as a matrix. */
  lemma AsWrittenOptionStringFails(sys: CbcoSystem, preprocess: bool, round: real -> real, name: string, cols: nat)
    requires Aligned(sys) && name != ""
    ensures CreateCbcoDataAsWritten(sys, preprocess, round, GskName(name), cols) == Failure(NotAMatrix(name))
  {
  }

  /** As written, even a real GSK matrix with more than one entry fails, at
      the truth test itself. */
  lemma AsWrittenMatrixFails(sys: CbcoSystem, preprocess: bool, round: real -> real, m: Matrix, cols: nat)
    requires Aligned(sys) && Size(m) > 1
    ensures CreateCbcoDataAsWritten(sys, preprocess, round, GskMatrix(m), cols) == Failure(AmbiguousTruthValue)
  {
  }

  /** Without a GSK the written and the corrected version agree. */
  lemma AsWrittenAgreesWithoutGsk(sys: CbcoSystem, preprocess: bool, round: real -> real, cols: nat)
    requires Aligned(sys)
    ensures CreateCbcoDataAsWritten(sys, preprocess, round, NoGsk, cols)
            == CreateCbcoData(sys, preprocess, round, None, cols)
  {
  }

  // ---------------------------------------------------------------------
  // return_cbco.

  /** A position iloc accepts on a table of n rows (negative counts from the end). */
  predicate InRange(i: int, n: nat) {
    -(n as int) <= i < n
  }

  function Wrap(i: int, n: nat): (p: nat)
    requires InRange(i, n)
    ensures p < n && (i >= 0 ==> p == i) && (i < 0 ==> p == n + i)
  {
    if i < 0 then n + i else i
  }

  /** An info row as a row of the grid table, labelled cb + "_" + co. */
  function Labelled(row: CbcoRow): GridRow {
    GridRow(row.cb + "_" + row.co, Some(Cbco(row.cb, row.co)), row.ptdf, row.ram, None, None)
  }

  /** info.iloc[idx], relabelled. */
  function SelectPositions(info: seq<CbcoRow>, idx: seq<int>): (r: Result<seq<GridRow>, GridError>)
    ensures r.Success? <==> forall k :: 0 <= k < |idx| ==> InRange(idx[k], |info|)
    ensures r.Success? ==>
              |r.value| == |idx| && forall k :: 0 <= k < |idx| ==> r.value[k] == Labelled(info[Wrap(idx[k], |info|)])
    ensures r.Failure? ==>
              exists k :: 0 <= k < |idx| && !InRange(idx[k], |info|) && r.error == IndexOutOfBounds(idx[k])
  {
    if idx == [] then Success([])
    else if !InRange(idx[0], |info|) then Failure(IndexOutOfBounds(idx[0]))
    else
      match SelectPositions(info, idx[1..])
      case Failure(e) =>
        assert forall k :: 1 <= k < |idx| ==> idx[1..][k - 1] == idx[k];
        Failure(e)
      case Success(rest) =>
        assert forall k :: 1 <= k < |idx| ==> idx[1..][k - 1] == idx[k];
        Success([Labelled(info[Wrap(idx[0], |info|)])] + rest)
  }

  /** return_cbco: the rows at the given positions, in their order, labelled
      cb_co; a failed redundancy removal (None) cannot be used as an index. */
  function ReturnCbco(info: seq<CbcoRow>, index: Option<seq<int>>): (r: Result<seq<GridRow>, GridError>)
    ensures index.None? ==> r == Failure(RedundancyRemovalFailed)
    ensures index.Some? ==> r == SelectPositions(info, index.value)
  {
    match index
    case None => Failure(RedundancyRemovalFailed)
    case Some(idx) => SelectPositions(info, idx)
  }

  /** Selecting all positions returns the whole table, in order. */
  lemma ReturnAllRows(info: seq<CbcoRow>)
    ensures var r := ReturnCbco(info, Some(Range(|info|)));
            r.Success? && |r.value| == |info|
            && forall k :: 0 <= k < |info| ==> r.value[k] == Labelled(info[k])
  {
  }

  // ---------------------------------------------------------------------
  // _add_zone_to_grid_representation.

  /** lines.loc[id]: the line labelled id. */
  function LineOf(lines: seq<Branch>, id: BranchId): (r: Option<Branch>)
    ensures r.None? <==> forall k :: 0 <= k < |lines| ==> lines[k].id != id
    ensures r.Some? ==> r.value in lines && r.value.id == id
  {
    if lines == [] then None
    else if lines[0].id == id then Some(lines[0])
    else
      assert forall k :: 1 <= k < |lines| ==> lines[k] == lines[1..][k - 1];
      LineOf(lines[1..], id)
  }

  /** nodes.loc[id, "zone"]. */
  function ZoneOf(nodes: seq<Node>, id: NodeId): (r: Option<ZoneId>)
    ensures r.None? <==> forall k :: 0 <= k < |nodes| ==> nodes[k].id != id
    ensures r.Some? ==> Node(id, r.value) in nodes
  {
    if nodes == [] then None
    else if nodes[0].id == id then Some(nodes[0].zone)
    else
      assert forall k :: 1 <= k < |nodes| ==> nodes[k] == nodes[1..][k - 1];
      ZoneOf(nodes[1..], id)
  }

  /** The label used to find a row's line: its cb column when the table has
      one, otherwise its index. */
  function LineKey(row: GridRow): BranchId {
    if row.cbco.Some? then row.cbco.value.cb else row.index
  }

  /** The label of the first row whose line is missing. */
  function MissingLine(grid: seq<GridRow>, lines: seq<Branch>): (id: BranchId)
    requires exists k :: 0 <= k < |grid| && LineOf(lines, LineKey(grid[k])).None?
    ensures LineOf(lines, id).None?
  {
    if LineOf(lines, LineKey(grid[0])).None? then LineKey(grid[0])
    else
      assert exists k :: 0 <= k < |grid[1..]| && LineOf(lines, LineKey(grid[1..][k])).None? by {
        var k :| 0 <= k < |grid| && LineOf(lines, LineKey(grid[k])).None?;
        assert grid[1..][k - 1] == grid[k];
      }
      MissingLine(grid[1..], lines)
  }

  /** lines.loc[keys]: the line of every row, or a failure naming the first
      label that is not a line. */
  function LinesOf(grid: seq<GridRow>, lines: seq<Branch>): (r: Result<seq<Branch>, GridError>)
    ensures r.Success? <==> forall k :: 0 <= k < |grid| ==> LineOf(lines, LineKey(grid[k])).Some?
    ensures r.Success? ==>
              |r.value| == |grid| && forall k :: 0 <= k < |grid| ==> r.value[k] == LineOf(lines, LineKey(grid[k])).value
    ensures r.Failure? ==> r.error.UnknownBranch? && LineOf(lines, r.error.id).None?
  {
    if forall k :: 0 <= k < |grid| ==> LineOf(lines, LineKey(grid[k])).Some? then
      Success(seq(|grid|, k requires 0 <= k < |grid| => LineOf(lines, LineKey(grid[k])).value))
    else Failure(UnknownBranch(MissingLine(grid, lines)))
  }

  /** The first endpoint that is not a node. */
  function MissingNode(ends: seq<NodeId>, nodes: seq<Node>): (id: NodeId)
    requires exists k :: 0 <= k < |ends| && ZoneOf(nodes, ends[k]).None?
    ensures ZoneOf(nodes, id).None?
  {
    if ZoneOf(nodes, ends[0]).None? then ends[0]
    else
      assert exists k :: 0 <= k < |ends[1..]| && ZoneOf(nodes, ends[1..][k]).None? by {
        var k :| 0 <= k < |ends| && ZoneOf(nodes, ends[k]).None?;
        assert ends[1..][k - 1] == ends[k];
      }
      MissingNode(ends[1..], nodes)
  }

  /** nodes.loc[ends, "zone"]: the zone of every endpoint, or a failure naming
      the first node that is not in the node table. */
  function ZonesOf(ends: seq<NodeId>, nodes: seq<Node>): (r: Result<seq<ZoneId>, GridError>)
    ensures r.Success? <==> forall k :: 0 <= k < |ends| ==> ZoneOf(nodes, ends[k]).Some?
    ensures r.Success? ==>
              |r.value| == |ends| && forall k :: 0 <= k < |ends| ==> r.value[k] == ZoneOf(nodes, ends[k]).value
    ensures r.Failure? ==> r.error.UnknownNode? && ZoneOf(nodes, r.error.id).None?
  {
    if forall k :: 0 <= k < |ends| ==> ZoneOf(nodes, ends[k]).Some? then
      Success(seq(|ends|, k requires 0 <= k < |ends| => ZoneOf(nodes, ends[k]).value))
    else Failure(UnknownNode(MissingNode(ends, nodes)))
  }

  /** The endpoint a zone column is read from: node_i for zone_i, node_j for zone_j. */
  function EndOf(line: Branch, first: bool): NodeId {
    if first then line.nodeI else line.nodeJ
  }

  /** The row with its zone_i (first) or zone_j column set to z. */
  function SetZone(row: GridRow, first: bool, z: ZoneId): GridRow {
    if first then row.(zoneI := Some(z)) else row.(zoneJ := Some(z))
  }

  /** Row k names a line whose endpoint for this zone column is a node. */
  predicate ColumnLocatable(grid: seq<GridRow>, nodes: seq<Node>, lines: seq<Branch>, first: bool, k: nat)
    requires k < |grid|
  {
    var line := LineOf(lines, LineKey(grid[k]));
    line.Some? && ZoneOf(nodes, EndOf(line.value, first)).Some?
  }

  /** The zone of that endpoint. */
  function ZoneAt(grid: seq<GridRow>, nodes: seq<Node>, lines: seq<Branch>, first: bool, k: nat): ZoneId
    requires k < |grid| && ColumnLocatable(grid, nodes, lines, first, k)
  {
    ZoneOf(nodes, EndOf(LineOf(lines, LineKey(grid[k])).value, first)).value
  }

  /** When the lines of all rows and the zones of their endpoints are found,
      every row is locatable and the zone found for it is its ZoneAt. */
  lemma ZonesFound(grid: seq<GridRow>, nodes: seq<Node>, lines: seq<Branch>, first: bool,
                   ls: seq<Branch>, ends: seq<NodeId>, zs: seq<ZoneId>)
    requires forall k :: 0 <= k < |grid| ==> LineOf(lines, LineKey(grid[k])).Some?
    requires |ls| == |grid| && forall k :: 0 <= k < |grid| ==> ls[k] == LineOf(lines, LineKey(grid[k])).value
    requires |ends| == |ls| && forall k :: 0 <= k < |ls| ==> ends[k] == EndOf(ls[k], first)
    requires |zs| == |ends| && forall k :: 0 <= k < |ends| ==> ZoneOf(nodes, ends[k]).Some? && zs[k] == ZoneOf(nodes, ends[k]).value
    ensures forall k :: 0 <= k < |grid| ==>
              ColumnLocatable(grid, nodes, lines, first, k) && zs[k] == ZoneAt(grid, nodes, lines, first, k)
  {
    forall k | 0 <= k < |grid|
      ensures ColumnLocatable(grid, nodes, lines, first, k) && zs[k] == ZoneAt(grid, nodes, lines, first, k)
    {
      assert ZoneOf(nodes, ends[k]).Some?;
    }
  }

  /** One zone column, grid["zone_i"] = nodes.loc[lines.loc[keys, "node_i"],
      "zone"] (or zone_j from node_j): it is written only when every row's
      line and endpoint are found, and then every row gets its endpoint's zone. */
  function AddZoneColumn(grid: seq<GridRow>, nodes: seq<Node>, lines: seq<Branch>, first: bool)
    : (r: Result<seq<GridRow>, GridError>)
    ensures r.Success? <==> forall k :: 0 <= k < |grid| ==> ColumnLocatable(grid, nodes, lines, first, k)
    ensures r.Success? ==>
              |r.value| == |grid|
              && forall k :: 0 <= k < |grid| ==>
                   r.value[k] == SetZone(grid[k], first, ZoneAt(grid, nodes, lines, first, k))
    ensures r.Failure? ==> LookupError(r.error)
  {
    match LinesOf(grid, lines)
    case Failure(e) =>
      var k :| 0 <= k < |grid| && LineOf(lines, LineKey(grid[k])).None?;
      assert !ColumnLocatable(grid, nodes, lines, first, k);
      Failure(e)
    case Success(ls) =>
      var ends := seq(|ls|, k requires 0 <= k < |ls| => EndOf(ls[k], first));
      match ZonesOf(ends, nodes)
      case Failure(e) =>
        var k :| 0 <= k < |ends| && ZoneOf(nodes, ends[k]).None?;
        assert !ColumnLocatable(grid, nodes, lines, first, k);
        Failure(e)
      case Success(zs) =>
        ZonesFound(grid, nodes, lines, first, ls, ends, zs);
        Success(seq(|grid|, k requires 0 <= k < |grid| => SetZone(grid[k], first, zs[k])))
  }

  /** _add_zone_to_grid_representation: zone_i is written in full, then zone_j. */
  function AddZones(grid: seq<GridRow>, nodes: seq<Node>, lines: seq<Branch>): (r: Result<seq<GridRow>, GridError>)
    ensures r.Failure? ==> LookupError(r.error)
    ensures r.Success? ==> ZonesAdded(grid, r.value)
  {
    match AddZoneColumn(grid, nodes, lines, true)
    case Failure(e) => Failure(e)
    case Success(g) => AddZoneColumn(g, nodes, lines, false)
  }

  /** The table the source is left holding when adding zones raises: the
      zone_i column is in place when it was found in full, and nothing is
      written otherwise (the zone_j lookup is the one that failed, or zone_i
      itself). */
  function PartlyZoned(grid: seq<GridRow>, nodes: seq<Node>, lines: seq<Branch>): (r: seq<GridRow>)
    ensures |r| == |grid|
    ensures (forall k :: 0 <= k < |grid| ==> ColumnLocatable(grid, nodes, lines, true, k)) ==>
              forall k :: 0 <= k < |grid| ==> r[k] == SetZone(grid[k], true, ZoneAt(grid, nodes, lines, true, k))
    ensures !(forall k :: 0 <= k < |grid| ==> ColumnLocatable(grid, nodes, lines, true, k)) ==> r == grid
  {
    var c := AddZoneColumn(grid, nodes, lines, true);
    if c.Success? then c.value else grid
  }

  /** Row k names a line, and both endpoints of that line are nodes. */
  predicate Locatable(grid: seq<GridRow>, nodes: seq<Node>, lines: seq<Branch>, k: nat)
    requires k < |grid|
  {
    ColumnLocatable(grid, nodes, lines, true, k) && ColumnLocatable(grid, nodes, lines, false, k)
  }

  /** Row k with the zones of its line's endpoints. */
  function WithZones(grid: seq<GridRow>, nodes: seq<Node>, lines: seq<Branch>, k: nat): GridRow
    requires k < |grid| && Locatable(grid, nodes, lines, k)
  {
    grid[k].(zoneI := Some(ZoneAt(grid, nodes, lines, true, k)), zoneJ := Some(ZoneAt(grid, nodes, lines, false, k)))
  }

  /** Writing zone_i leaves the labels lines are found by, and so the zone_j
      lookup, as they are. */
  lemma ZoneJUnaffected(grid: seq<GridRow>, g: seq<GridRow>, nodes: seq<Node>, lines: seq<Branch>, k: nat)
    requires |g| == |grid| && k < |grid|
    requires LineKey(g[k]) == LineKey(grid[k])
    ensures ColumnLocatable(g, nodes, lines, false, k) <==> ColumnLocatable(grid, nodes, lines, false, k)
    ensures ColumnLocatable(grid, nodes, lines, false, k) ==>
              ZoneAt(g, nodes, lines, false, k) == ZoneAt(grid, nodes, lines, false, k)
  {
  }

  /** The rows of the table with zone_i written keep their line labels. */
  lemma ZoneIKeepsKeys(grid: seq<GridRow>, nodes: seq<Node>, lines: seq<Branch>)
    requires AddZoneColumn(grid, nodes, lines, true).Success?
    ensures var g := AddZoneColumn(grid, nodes, lines, true).value;
            |g| == |grid| && forall k :: 0 <= k < |grid| ==> LineKey(g[k]) == LineKey(grid[k])
  {
    var g := AddZoneColumn(grid, nodes, lines, true).value;
    forall k | 0 <= k < |grid| ensures LineKey(g[k]) == LineKey(grid[k]) {
      assert g[k] == SetZone(grid[k], true, ZoneAt(grid, nodes, lines, true, k));
    }
  }

  /** Adding zones succeeds exactly when every row names a line whose two
      endpoints are nodes. */
  lemma AddZonesSucceedsIff(grid: seq<GridRow>, nodes: seq<Node>, lines: seq<Branch>)
    ensures AddZones(grid, nodes, lines).Success? <==> forall k :: 0 <= k < |grid| ==> Locatable(grid, nodes, lines, k)
  {
    var c := AddZoneColumn(grid, nodes, lines, true);
    if c.Success? {
      var g := c.value;
      ZoneIKeepsKeys(grid, nodes, lines);
      assert AddZones(grid, nodes, lines) == AddZoneColumn(g, nodes, lines, false);
      if forall k :: 0 <= k < |grid| ==> Locatable(grid, nodes, lines, k) {
        forall k | 0 <= k < |g| ensures ColumnLocatable(g, nodes, lines, false, k) {
          assert Locatable(grid, nodes, lines, k);
          assert LineKey(g[k]) == LineKey(grid[k]);
          ZoneJUnaffected(grid, g, nodes, lines, k);
        }
      } else {
        var k :| 0 <= k < |grid| && !Locatable(grid, nodes, lines, k);
        ZoneJUnaffected(grid, g, nodes, lines, k);
        assert !ColumnLocatable(g, nodes, lines, false, k);
      }
    } else {
      var k :| 0 <= k < |grid| && !ColumnLocatable(grid, nodes, lines, true, k);
      assert !Locatable(grid, nodes, lines, k);
    }
  }

  /** On success every row is unchanged except that it carries the zones of
      its line's endpoints. */
  lemma AddZonesRows(grid: seq<GridRow>, nodes: seq<Node>, lines: seq<Branch>)
    requires AddZones(grid, nodes, lines).Success?
    ensures forall k :: 0 <= k < |grid| ==> Locatable(grid, nodes, lines, k)
    ensures var r := AddZones(grid, nodes, lines).value;
            |r| == |grid| && forall k :: 0 <= k < |grid| ==> r[k] == WithZones(grid, nodes, lines, k)
  {
    AddZonesSucceedsIff(grid, nodes, lines);
    var g := AddZoneColumn(grid, nodes, lines, true).value;
    var r := AddZones(grid, nodes, lines).value;
    assert r == AddZoneColumn(g, nodes, lines, false).value;
    ZoneIKeepsKeys(grid, nodes, lines);
    forall k | 0 <= k < |grid| ensures r[k] == WithZones(grid, nodes, lines, k) {
      ZoneJUnaffected(grid, g, nodes, lines, k);
      assert g[k] == SetZone(grid[k], true, ZoneAt(grid, nodes, lines, true, k));
      assert r[k] == SetZone(g[k], false, ZoneAt(g, nodes, lines, false, k));
    }
  }

  // ---------------------------------------------------------------------
  // Scaling ram by the capacity multiplier.

  /** z is grid with zones added: same rows in every other column, and both
      zone columns written. */
  predicate ZonesAdded(grid: seq<GridRow>, z: seq<GridRow>) {
    |z| == |grid|
    && forall k :: 0 <= k < |z| ==>
         z[k].index == grid[k].index && z[k].cbco == grid[k].cbco && z[k].ptdf == grid[k].ptdf
         && z[k].ram == grid[k].ram && z[k].zoneI.Some? && z[k].zoneJ.Some?
  }

  /** Scaling a table with zones added scales the original rows' ram. */
  lemma ScaleZoned(grid: seq<GridRow>, z: seq<GridRow>, multiplier: real)
    requires ZonesAdded(grid, z)
    ensures var g := ScaleRam(z, multiplier);
            |g| == |grid|
            && forall k :: 0 <= k < |g| ==>
                 g[k].index == grid[k].index && g[k].cbco == grid[k].cbco && g[k].ptdf == grid[k].ptdf
                 && g[k].ram == grid[k].ram * multiplier && g[k].zoneI.Some? && g[k].zoneJ.Some?
  {
  }

  /** grid.ram *= multiplier. */
  function ScaleRam(grid: seq<GridRow>, multiplier: real): (r: seq<GridRow>)
    ensures |r| == |grid|
    ensures forall k :: 0 <= k < |grid| ==> r[k].ram == grid[k].ram * multiplier
    ensures forall k :: 0 <= k < |grid| ==> r[k].(ram := grid[k].ram) == grid[k]
  {
    seq(|grid|, k requires 0 <= k < |grid| => grid[k].(ram := grid[k].ram * multiplier))
  }

  /** A multiplier of 1 leaves the table as it is. */
  lemma ScaleRamByOne(grid: seq<GridRow>)
    ensures ScaleRam(grid, 1.0) == grid
  {
    assert forall k :: 0 <= k < |grid| ==> ScaleRam(grid, 1.0)[k] == grid[k];
  }

  // ---------------------------------------------------------------------
  // Choice of the rows of a nodal N-1 representation.

  /** A precalculated selection: a table of (cb, co) pairs, or a single column
      of positions. */
  datatype PrecalcFile = PairFile(pairs: seq<Cbco>) | IndexFile(constraints: seq<int>)

  /** The redundancy removal, as seen from here: A, b and optional bounds on
      the nodal injections in, the essential positions (or None) out. */
  type Reduction = (Matrix, seq<real>, Option<seq<InjectionLimits.Bound>>) -> Option<seq<int>>

  /** Positions, ascending, of the info rows whose (cb, co) is listed. */
  function MatchingPositions(info: seq<CbcoRow>, pairs: seq<Cbco>): (idx: seq<int>)
    ensures forall p :: 0 <= p < |idx| ==> 0 <= idx[p] < |info|
    ensures forall p, q :: 0 <= p < q < |idx| ==> idx[p] < idx[q]
    ensures forall i :: i in idx <==> 0 <= i < |info| && Cbco(info[i].cb, info[i].co) in pairs
  {
    if info == [] then []
    else
      var n := |info| - 1;
      var prev := MatchingPositions(info[..n], pairs);
      assert forall i :: 0 <= i < n ==> info[..n][i] == info[i];
      if Cbco(info[n].cb, info[n].co) in pairs then prev + [n] else prev
  }

  /** The cbco_index of process_cbco_nodal: Failure(UnboundIndex) when no
      branch assigns it, Success(None) when the redundancy removal failed. */
  function SelectCbcoIndex(cbcoOption: string, precalcFilename: string, precalc: Option<PrecalcFile>,
                           sys: CbcoSystem, limits: seq<InjectionLimits.Bound>, reduce: Reduction)
    : (r: Result<Option<seq<int>>, GridError>)
    ensures r.Failure? <==> precalcFilename == "" && cbcoOption !in ["full", "clarkson_base", "clarkson", "save"]
    ensures r.Failure? ==> r.error == UnboundIndex
    ensures r.Success? && r.value.None? ==>
              precalcFilename == "" && (cbcoOption == "clarkson_base" || cbcoOption == "clarkson")
  {
    var all := Range(|sys.b|);
    if precalcFilename != "" then
      match precalc
      case None => Success(Some(all))
      case Some(PairFile(pairs)) => Success(Some(MatchingPositions(sys.info, pairs)))
      case Some(IndexFile(constraints)) => Success(Some(constraints))
    else if cbcoOption == "full" then Success(Some(all))
    else if cbcoOption == "clarkson_base" then Success(reduce(sys.A, sys.b, Some(limits)))
    else if cbcoOption == "clarkson" then Success(reduce(sys.A, sys.b, None))
    else if cbcoOption == "save" then Success(Some(all))
    else Failure(UnboundIndex)
  }

  /** full, save and a missing precalc file all select every row, in order. */
  lemma FallbackSelectsAll(cbcoOption: string, precalcFilename: string, precalc: Option<PrecalcFile>,
                           sys: CbcoSystem, limits: seq<InjectionLimits.Bound>, reduce: Reduction)
    requires (precalcFilename != "" && precalc.None?)
          || (precalcFilename == "" && (cbcoOption == "full" || cbcoOption == "save"))
    ensures var r := SelectCbcoIndex(cbcoOption, precalcFilename, precalc, sys, limits, reduce);
            r.Success? && r.value.Some? && r.value.value == Range(|sys.b|)
  {
  }

  /** A precalc pair file selects exactly the rows it lists, ascending, and a
      file name overrides the option. */
  lemma PairFileSelectsListed(cbcoOption: string, precalcFilename: string, pairs: seq<Cbco>,
                              sys: CbcoSystem, limits: seq<InjectionLimits.Bound>, reduce: Reduction)
    requires precalcFilename != ""
    ensures var r := SelectCbcoIndex(cbcoOption, precalcFilename, Some(PairFile(pairs)), sys, limits, reduce);
            r.Success? && r.value.Some?
            && (forall p, q :: 0 <= p < q < |r.value.value| ==> r.value.value[p] < r.value.value[q])
            && forall i :: i in r.value.value <==> 0 <= i < |sys.info| && Cbco(sys.info[i].cb, sys.info[i].co) in pairs
  {
  }

  /** An option that no branch knows leaves cbco_index unbound. */
  lemma UnknownOptionFails(cbcoOption: string, sys: CbcoSystem, limits: seq<InjectionLimits.Bound>,
                           precalc: Option<PrecalcFile>, reduce: Reduction)
    requires cbcoOption !in ["full", "clarkson_base", "clarkson", "save"]
    ensures SelectCbcoIndex(cbcoOption, "", precalc, sys, limits, reduce) == Failure(UnboundIndex)
  {
  }
}
