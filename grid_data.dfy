/**
 * The tables the grid model consumes and produces: nodes, lines, DC lines,
 * plants, stacked time series, constraint (CBCO) rows and NTC rows, plus the
 * small amount of arithmetic over sequences and matrices the model needs.
 */
module GridData {
  import opened Wrappers

  type NodeId = string
  type ZoneId = string
  type BranchId = string

  /** A row of the node table: its identifier (the table index) and its zone. */
  datatype Node = Node(id: NodeId, zone: ZoneId)

  /** A row of the line or DC-line table. */
  datatype Branch = Branch(id: BranchId, nodeI: NodeId, nodeJ: NodeId, maxflow: real)

  /** A row of the plant table. */
  datatype Plant = Plant(node: NodeId, plantType: string, gMax: real)

  /** A row of a stacked per-node time series (demand_el, net_export). */
  datatype Sample = Sample(node: NodeId, value: real)

  /** The plant-type groups of the optimization options: storage (es),
      power-to-heat (ph) and the types that enter a gmax GSK (ts). */
  datatype PlantTypes = PlantTypes(es: seq<string>, ph: seq<string>, ts: seq<string>)

  /** A row of the zonal exchange-capacity table. */
  datatype NtcRow = NtcRow(zoneI: ZoneId, zoneJ: ZoneId, ntc: real)

  /** The market data: node, zone, line, DC-line and plant tables, the stacked
      demand and net-export series and an optional supplied NTC table. */
  datatype MarketData = MarketData(
    nodes: seq<Node>,
    zones: seq<ZoneId>,
    lines: seq<Branch>,
    dclines: seq<Branch>,
    plants: seq<Plant>,
    demand: seq<Sample>,
    netExport: seq<Sample>,
    ntc: seq<NtcRow>)

  type Matrix = seq<seq<real>>

  /** A row of the constraint info table: monitored branch, outage label,
      remaining available margin and the PTDF row. */
  datatype CbcoRow = CbcoRow(cb: BranchId, co: string, ram: real, ptdf: seq<real>)

  /** The system A x <= b together with its info table. */
  datatype CbcoSystem = CbcoSystem(A: Matrix, b: seq<real>, info: seq<CbcoRow>)

  datatype Cbco = Cbco(cb: BranchId, co: string)

  /** A row of a grid table handed to the market model: its index label, the
      (cb, co) columns when the table came from an info table, the PTDF
      columns, ram and, once written, the zone_i and zone_j columns (the
      zones of the branch endpoints). */
  datatype GridRow = GridRow(
    index: string,
    cbco: Option<Cbco>,
    ptdf: seq<real>,
    ram: real,
    zoneI: Option<ZoneId>,
    zoneJ: Option<ZoneId>)

  /** Everything that can abort building a grid representation. */
  datatype GridError =
    | EmptyZone(zone: ZoneId)              // flat GSK: 1 / 0 nodes
    | ZeroZoneCapacity(zone: ZoneId)       // gmax GSK: eligible plants summing to 0
    | RedundancyRemovalFailed              // the reduction returned no index list
    | IndexOutOfBounds(position: int)      // positional row selection out of range
    | UnknownBranch(id: BranchId)          // line lookup by label failed
    | UnknownNode(id: NodeId)              // node lookup by label failed
    | UnboundIndex                         // no valid cbco_option: index never assigned
    | AmbiguousTruthValue                  // truth value of a multi-element array
    | NotAMatrix(text: string)             // a string used as a matrix operand
    | ShapeMismatch                        // matrix operands of incompatible shapes

  /** The failures of a generation shift key. */
  predicate GskError(e: GridError) {
    e.EmptyZone? || e.ZeroZoneCapacity?
  }

  /** The failures of selecting rows by the redundancy removal's index. */
  predicate SelectionError(e: GridError) {
    e.RedundancyRemovalFailed? || e.IndexOutOfBounds?
  }

  /** The failures of looking a line or a node up by its label. */
  predicate LookupError(e: GridError) {
    e.UnknownBranch? || e.UnknownNode?
  }

  predicate UniqueIds(nodes: seq<Node>) {
    forall p, q :: 0 <= p < q < |nodes| ==> nodes[p].id != nodes[q].id
  }

  predicate Distinct<T(==)>(s: seq<T>) {
    forall p, q :: 0 <= p < q < |s| ==> s[p] != s[q]
  }

  function Max(x: real, y: real): real { if x >= y then x else y }
  function Min(x: real, y: real): real { if x <= y then x else y }

  /** Sum of a sequence of reals (pandas sums an empty series to 0). */
  function Sum(s: seq<real>): real {
    if s == [] then 0.0 else s[0] + Sum(s[1..])
  }

  lemma {:induction false} SumAppend(s: seq<real>, t: seq<real>)
    ensures Sum(s + t) == Sum(s) + Sum(t)
  {
    if s == [] {
      assert s + t == t;
    } else {
      assert (s + t)[1..] == s[1..] + t;
      SumAppend(s[1..], t);
    }
  }

  /** Largest element of a non-empty sequence. */
  function MaxOf(s: seq<real>): (m: real)
    requires |s| > 0
    ensures m in s
    ensures forall k :: 0 <= k < |s| ==> s[k] <= m
  {
    if |s| == 1 then s[0] else Max(s[0], MaxOf(s[1..]))
  }

  /** Smallest element of a non-empty sequence. */
  function MinOf(s: seq<real>): (m: real)
    requires |s| > 0
    ensures m in s
    ensures forall k :: 0 <= k < |s| ==> m <= s[k]
  {
    if |s| == 1 then s[0] else Min(s[0], MinOf(s[1..]))
  }

  /** The positions 0, 1, ..., n - 1 (Python's list(range(0, n))). */
  function Range(n: nat): (r: seq<int>)
    ensures |r| == n
    ensures forall k :: 0 <= k < n ==> r[k] == k
  {
    if n == 0 then [] else Range(n - 1) + [n - 1]
  }

  /** Rows of s at the given positions, in the order of the positions. */
  function SelectRows<T>(s: seq<T>, idx: seq<nat>): (r: seq<T>)
    requires forall k :: 0 <= k < |idx| ==> idx[k] < |s|
    ensures |r| == |idx|
    ensures forall k :: 0 <= k < |idx| ==> r[k] == s[idx[k]]
  {
    if idx == [] then [] else [s[idx[0]]] + SelectRows(s, idx[1..])
  }

  /** Dot product of a row with column j of g. */
  function DotColumn(row: seq<real>, g: Matrix, j: nat): real
    requires |row| == |g|
    requires forall k :: 0 <= k < |g| ==> j < |g[k]|
  {
    if row == [] then 0.0 else row[0] * g[0][j] + DotColumn(row[1..], g[1..], j)
  }

  predicate HasWidth(m: Matrix, w: nat) {
    forall i :: 0 <= i < |m| ==> |m[i]| == w
  }

  /** The matrix product a . g, with g of shape |row| x cols. */
  function MatMul(a: Matrix, g: Matrix, cols: nat): (r: Matrix)
    requires forall i :: 0 <= i < |a| ==> |a[i]| == |g|
    requires HasWidth(g, cols)
    ensures |r| == |a| && HasWidth(r, cols)
  {
    seq(|a|, i requires 0 <= i < |a| =>
      seq(cols, j requires 0 <= j < cols => DotColumn(a[i], g, j)))
  }

  /** Projecting then selecting rows equals selecting rows then projecting. */
  lemma MatMulSelectRows(a: Matrix, g: Matrix, cols: nat, idx: seq<nat>)
    requires forall i :: 0 <= i < |a| ==> |a[i]| == |g|
    requires HasWidth(g, cols)
    requires forall k :: 0 <= k < |idx| ==> idx[k] < |a|
    ensures SelectRows(MatMul(a, g, cols), idx) == MatMul(SelectRows(a, idx), g, cols)
  {
    var lhs := SelectRows(MatMul(a, g, cols), idx);
    var rhs := MatMul(SelectRows(a, idx), g, cols);
    assert |lhs| == |rhs|;
    forall k | 0 <= k < |idx| ensures lhs[k] == rhs[k] {
      assert SelectRows(a, idx)[k] == a[idx[k]];
    }
  }
}
