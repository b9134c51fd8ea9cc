/**
 * What each grid representation holds, as functions of the inputs: the
 * topology (PTDF, lines, nodes), the market data, the options and the
 * external computations (N-1 PTDF, redundancy removal, rounding, precalc
 * files).  The state-changing GridModel methods are proved to produce these
 * tables; the properties of the representations are proved here.
 */
module Modes {
  import opened Wrappers
  import opened GridData
  import Ntc
  import Gsk
  import InjectionLimits
  import opened Constraints

  /** The options create_grid_representation and the process_* methods read. */
  datatype Options = Options(
    optType: string,            // optimization.type
    redispatchInclude: bool,    // optimization.redispatch.include
    infeasibilityBound: real,   // optimization.infeasibility.electricity.bound
    plantTypes: PlantTypes,     // optimization.plant_types
    cbcoOption: string,         // grid.cbco_option
    capacityMultiplier: real,   // grid.capacity_multiplier
    gsk: string,                // grid.gsk
    sensitivity: real,          // grid.sensitivity
    preprocess: bool,           // grid.preprocess
    precalcFilename: string)    // grid.precalc_filename

  /** The grid topology collaborator: its node and line tables, the N-0 PTDF
      (one row per line, one column per node) and the slack information. */
  datatype Topology = Topology(
    nodes: seq<Node>,
    lines: seq<Branch>,
    ptdf: Matrix,
    multipleSlack: bool,
    slackZones: map<NodeId, NodeId>)

  predicate ValidTopology(t: Topology) {
    |t.ptdf| == |t.lines| && HasWidth(t.ptdf, |t.nodes|)
  }

  /** Computations outside the core: the filtered N-1 PTDF for a sensitivity,
      the redundancy removal, rounding to 6 and to 4 decimals, and reading a
      precalc file by name (None when the file does not exist). */
  datatype Oracles = Oracles(
    n1: real -> CbcoSystem,
    reduce: Reduction,
    round6: real -> real,
    round4: real -> real,
    precalc: string -> Option<PrecalcFile>)

  /** lines.maxflow as the right-hand side b. */
  function Maxflows(t: Topology): (b: seq<real>)
    ensures |b| == |t.lines| && forall k :: 0 <= k < |t.lines| ==> b[k] == t.lines[k].maxflow
  {
    seq(|t.lines|, k requires 0 <= k < |t.lines| => t.lines[k].maxflow)
  }

  /** The info table of the N-0 constraints: a "basecase" row per line with
      its maxflow as ram and the given PTDF row. */
  function BasecaseInfo(t: Topology, a: Matrix): seq<CbcoRow>
    requires |a| == |t.lines|
  {
    seq(|t.lines|, k requires 0 <= k < |t.lines| => CbcoRow(t.lines[k].id, "basecase", t.lines[k].maxflow, a[k]))
  }

  /** The N-0 PTDF table indexed by line, with ram = maxflow * multiplier. */
  function PtdfTable(t: Topology, multiplier: real): seq<GridRow>
    requires |t.ptdf| == |t.lines|
  {
    seq(|t.lines|, k requires 0 <= k < |t.lines| =>
      GridRow(t.lines[k].id, None, t.ptdf[k], t.lines[k].maxflow * multiplier, None, None))
  }

  /** Zones added to the PTDF table keep each line's label, PTDF row and
      scaled capacity. */
  lemma PtdfTableZoned(t: Topology, multiplier: real, z: seq<GridRow>)
    requires |t.ptdf| == |t.lines|
    requires ZonesAdded(PtdfTable(t, multiplier), z)
    ensures |z| == |t.lines|
    ensures forall k :: 0 <= k < |t.lines| ==>
              z[k].index == t.lines[k].id && z[k].cbco.None? && z[k].ptdf == t.ptdf[k]
              && z[k].ram == t.lines[k].maxflow * multiplier
              && z[k].zoneI.Some? && z[k].zoneJ.Some?
  {
  }

  /** The nodal N-0 table with the zones of every line: the grid of
      process_nodal without reduction, and the redispatch grid. */
  function NodalPtdfGrid(t: Topology, multiplier: real): (r: Result<seq<GridRow>, GridError>)
    requires ValidTopology(t)
    ensures r.Failure? ==> LookupError(r.error)
    ensures r.Success? ==>
              |r.value| == |t.lines|
              && forall k :: 0 <= k < |t.lines| ==>
                   r.value[k].index == t.lines[k].id && r.value[k].cbco.None? && r.value[k].ptdf == t.ptdf[k]
                   && r.value[k].ram == t.lines[k].maxflow * multiplier
                   && r.value[k].zoneI.Some? && r.value[k].zoneJ.Some?
  {
    var table := PtdfTable(t, multiplier);
    var r := AddZones(table, t.nodes, t.lines);
    if r.Failure? then r
    else
      PtdfTableZoned(t, multiplier, r.value);
      r
  }

  /** return_cbco on the reduction's result, then ram scaled: in the order of
      the index, the labelled info rows at the selected positions with ram
      scaled; it fails when the reduction failed or a position is out of range. */
  function ReducedGrid(info: seq<CbcoRow>, index: Option<seq<int>>, multiplier: real)
    : (r: Result<seq<GridRow>, GridError>)
    ensures r.Success? <==> index.Some? && forall p :: 0 <= p < |index.value| ==> InRange(index.value[p], |info|)
    ensures r.Success? ==>
              index.Some? && |r.value| == |index.value|
              && forall p :: 0 <= p < |r.value| ==>
                   InRange(index.value[p], |info|)
                   && r.value[p] == ScaledRow(info[Wrap(index.value[p], |info|)], multiplier)
    ensures r.Failure? ==> SelectionError(r.error)
  {
    match ReturnCbco(info, index)
    case Failure(e) => Failure(e)
    case Success(g) => Success(ScaleRam(g, multiplier))
  }

  /** The grid of process_nodal: one PTDF column per node; the reduction can
      only fail to select, the unreduced table only to find a line or node. */
  function NodalGrid(t: Topology, data: MarketData, opts: Options, env: Oracles): (r: Result<seq<GridRow>, GridError>)
    requires ValidTopology(t)
    ensures r.Failure? ==>
              if opts.cbcoOption == "nodal_clarkson" then SelectionError(r.error) else LookupError(r.error)
    ensures r.Success? ==> forall k :: 0 <= k < |r.value| ==> |r.value[k].ptdf| == |t.nodes|
  {
    if opts.cbcoOption == "nodal_clarkson" then
      var limits := InjectionLimits.NodalLimits(data, opts.plantTypes, opts.infeasibilityBound);
      ReducedGrid(BasecaseInfo(t, t.ptdf), env.reduce(t.ptdf, Maxflows(t), Some(limits)), opts.capacityMultiplier)
    else NodalPtdfGrid(t, opts.capacityMultiplier)
  }

  /** np.dot(ptdf, create_gsk(option)): the zonal PTDF, or the failure of the
      key, or a shape mismatch when the key's rows are not the PTDF's nodes. */
  function ZonalPtdf(t: Topology, data: MarketData, opts: Options): (r: Result<Matrix, GridError>)
    requires ValidTopology(t)
    ensures var g := Gsk.Gsk(opts.gsk, data.nodes, data.zones, data.plants, opts.plantTypes);
            r.Success? <==> g.Success? && |g.value| == |t.nodes|
    ensures r.Failure? ==> GskError(r.error) || r.error == ShapeMismatch
    ensures var g := Gsk.Gsk(opts.gsk, data.nodes, data.zones, data.plants, opts.plantTypes);
            r.Success? ==>
              g.Success? && |g.value| == |t.nodes| && |r.value| == |t.lines| && HasWidth(r.value, |data.zones|)
              && forall k, j :: 0 <= k < |t.lines| && 0 <= j < |data.zones| ==>
                   r.value[k][j] == DotColumn(t.ptdf[k], g.value, j)
  {
    match Gsk.Gsk(opts.gsk, data.nodes, data.zones, data.plants, opts.plantTypes)
    case Failure(e) => Failure(e)
    case Success(g) =>
      if |g| != |t.nodes| then Failure(ShapeMismatch)
      else Success(MatMul(t.ptdf, g, |data.zones|))
  }

  /** The zonal N-0 table without reduction: rounded zonal PTDF, indexed by line. */
  function RoundedTable(t: Topology, a: Matrix, round: real -> real, multiplier: real): (r: seq<GridRow>)
    requires |a| == |t.lines|
    ensures |r| == |t.lines|
    ensures forall k :: 0 <= k < |t.lines| ==>
              r[k].index == t.lines[k].id && r[k].cbco.None? && r[k].zoneI.None? && r[k].zoneJ.None?
              && |r[k].ptdf| == |a[k]| && (forall j :: 0 <= j < |a[k]| ==> r[k].ptdf[j] == round(a[k][j]))
              && r[k].ram == t.lines[k].maxflow * multiplier
  {
    seq(|t.lines|, k requires 0 <= k < |t.lines| =>
      GridRow(t.lines[k].id, None, seq(|a[k]|, j requires 0 <= j < |a[k]| => round(a[k][j])),
              t.lines[k].maxflow * multiplier, None, None))
  }

  /** The grid of process_zonal: one PTDF column per zone; it fails with the
      key, on a shape mismatch, or (reduced) when the selection fails. */
  function ZonalGrid(t: Topology, data: MarketData, opts: Options, env: Oracles): (r: Result<seq<GridRow>, GridError>)
    requires ValidTopology(t)
    ensures r.Failure? ==>
              GskError(r.error) || r.error == ShapeMismatch
              || (opts.cbcoOption == "clarkson" && SelectionError(r.error))
    ensures r.Success? ==> forall k :: 0 <= k < |r.value| ==> |r.value[k].ptdf| == |data.zones|
  {
    match ZonalPtdf(t, data, opts)
    case Failure(e) => Failure(e)
    case Success(a) =>
      if opts.cbcoOption == "clarkson" then
        ReducedGrid(BasecaseInfo(t, a), env.reduce(a, Maxflows(t), None), opts.capacityMultiplier)
      else Success(RoundedTable(t, a, env.round4, opts.capacityMultiplier))
  }

  /** The generated NTC table over the zones of the node table. */
  function GeneratedNtc(data: MarketData): seq<NtcRow> {
    Ntc.NtcTable(Ntc.NodeZones(data.nodes), data.nodes, data.lines, data.dclines)
  }

  /** The NTC table of process_ntc: the supplied one, or a generated one when
      none is supplied. */
  function NtcFor(data: MarketData): seq<NtcRow> {
    if data.ntc == [] then GeneratedNtc(data) else data.ntc
  }

  /** The grid of process_cbco_zonal, with the GSK handed to create_cbco_data
      as a matrix built from the gsk option: one PTDF column per zone and a
      (cb, co) on every row. */
  function CbcoZonalGrid(t: Topology, data: MarketData, opts: Options, env: Oracles)
    : (r: Result<seq<GridRow>, GridError>)
    requires Aligned(env.n1(opts.sensitivity))
    ensures r.Failure? ==> GskError(r.error) || r.error == ShapeMismatch || SelectionError(r.error)
    ensures r.Success? ==>
              forall k :: 0 <= k < |r.value| ==> |r.value[k].ptdf| == |data.zones| && r.value[k].cbco.Some?
  {
    match Gsk.Gsk(opts.gsk, data.nodes, data.zones, data.plants, opts.plantTypes)
    case Failure(e) => Failure(e)
    case Success(g) =>
      match CreateCbcoData(env.n1(opts.sensitivity), true, env.round6, Some(g), |data.zones|)
      case Failure(e) => Failure(e)
      case Success(s) => ReducedGrid(s.info, env.reduce(s.A, s.b, None), opts.capacityMultiplier)
  }

  /** The constraint system process_cbco_nodal works on. */
  function NodalSystem(opts: Options, env: Oracles): (s: CbcoSystem)
    requires Aligned(env.n1(opts.sensitivity))
    ensures Aligned(s)
  {
    CreateCbcoData(env.n1(opts.sensitivity), opts.preprocess, env.round6, None, 0).value
  }

  /** The index process_cbco_nodal selects. */
  function NodalIndex(data: MarketData, opts: Options, env: Oracles): Result<Option<seq<int>>, GridError>
    requires Aligned(env.n1(opts.sensitivity))
  {
    SelectCbcoIndex(opts.cbcoOption, opts.precalcFilename, env.precalc(opts.precalcFilename),
                    NodalSystem(opts, env), InjectionLimits.NodalLimits(data, opts.plantTypes, opts.infeasibilityBound),
                    env.reduce)
  }

  /** The rows process_cbco_nodal stores before adding zones: return_cbco on
      the selected index, every row labelled with its (cb, co). */
  function CbcoNodalSelected(data: MarketData, opts: Options, env: Oracles): (r: Result<seq<GridRow>, GridError>)
    requires Aligned(env.n1(opts.sensitivity))
    ensures r.Failure? ==> r.error == UnboundIndex || SelectionError(r.error)
    ensures r.Success? ==> forall k :: 0 <= k < |r.value| ==> r.value[k].cbco.Some?
  {
    match NodalIndex(data, opts, env)
    case Failure(e) => Failure(e)
    case Success(index) => ReturnCbco(NodalSystem(opts, env).info, index)
  }

  /** The grid of process_cbco_nodal: select, add zones, scale ram.  Every row
      has its (cb, co) and both zone columns. */
  function CbcoNodalGrid(t: Topology, data: MarketData, opts: Options, env: Oracles)
    : (r: Result<seq<GridRow>, GridError>)
    requires Aligned(env.n1(opts.sensitivity))
    ensures r.Failure? ==> r.error == UnboundIndex || SelectionError(r.error) || LookupError(r.error)
    ensures r.Success? ==>
              forall k :: 0 <= k < |r.value| ==>
                r.value[k].cbco.Some? && r.value[k].zoneI.Some? && r.value[k].zoneJ.Some?
  {
    match CbcoNodalSelected(data, opts, env)
    case Failure(e) => Failure(e)
    case Success(g) =>
      match AddZones(g, t.nodes, t.lines)
      case Failure(e) => Failure(e)
      case Success(z) => Success(ScaleRam(z, opts.capacityMultiplier))
  }

  /** Whether the step of create_grid_representation for the market model
      type builds its grid: the ntc type and types without a step always do. */
  predicate ModeOk(t: Topology, data: MarketData, opts: Options, env: Oracles)
    requires ValidTopology(t) && Aligned(env.n1(opts.sensitivity))
  {
    if opts.optType == "nodal" then NodalGrid(t, data, opts, env).Success?
    else if opts.optType == "zonal" then ZonalGrid(t, data, opts, env).Success?
    else if opts.optType == "cbco_nodal" then CbcoNodalGrid(t, data, opts, env).Success?
    else if opts.optType == "cbco_zonal" then CbcoZonalGrid(t, data, opts, env).Success?
    else true
  }

  // ---------------------------------------------------------------------
  // Properties of the representations.

  /** Line labels are unique. */
  predicate UniqueLineIds(lines: seq<Branch>) {
    forall p, q :: 0 <= p < q < |lines| ==> lines[p].id != lines[q].id
  }

  /** With unique labels, looking a line up by its own label finds it. */
  lemma LineOfOwnId(lines: seq<Branch>, k: nat)
    requires UniqueLineIds(lines) && k < |lines|
    ensures LineOf(lines, lines[k].id) == Some(lines[k])
  {
    var r := LineOf(lines, lines[k].id);
    var m :| 0 <= m < |lines| && lines[m] == r.value;
    assert m == k;
  }

  /** Both endpoints of line k are in the node table. */
  predicate EndpointsKnown(nodes: seq<Node>, line: Branch) {
    ZoneOf(nodes, line.nodeI).Some? && ZoneOf(nodes, line.nodeJ).Some?
  }

  /** Row k of the N-0 table finds line k; it can be given zones exactly when
      both endpoints of the line are nodes, and then it gets theirs. */
  lemma PtdfRowLocatable(t: Topology, multiplier: real, k: nat)
    requires |t.ptdf| == |t.lines| && UniqueLineIds(t.lines) && k < |t.lines|
    ensures Locatable(PtdfTable(t, multiplier), t.nodes, t.lines, k) <==> EndpointsKnown(t.nodes, t.lines[k])
    ensures EndpointsKnown(t.nodes, t.lines[k]) ==>
              WithZones(PtdfTable(t, multiplier), t.nodes, t.lines, k) == ZonedRow(t, multiplier, k)
  {
    var table := PtdfTable(t, multiplier);
    assert LineKey(table[k]) == t.lines[k].id;
    LineOfOwnId(t.lines, k);
  }

  /** Line k as a row of the nodal N-0 table with the zones of its endpoints. */
  function ZonedRow(t: Topology, multiplier: real, k: nat): GridRow
    requires |t.ptdf| == |t.lines| && k < |t.lines| && EndpointsKnown(t.nodes, t.lines[k])
  {
    GridRow(t.lines[k].id, None, t.ptdf[k], t.lines[k].maxflow * multiplier,
            ZoneOf(t.nodes, t.lines[k].nodeI), ZoneOf(t.nodes, t.lines[k].nodeJ))
  }

  /** The nodal N-0 table (and the redispatch grid): it exists exactly when
      every line's endpoints are nodes, and then row k is line k with its
      PTDF row unchanged, ram = maxflow * multiplier and the zones of its
      endpoints. */
  lemma NodalPtdfGridRows(t: Topology, multiplier: real)
    requires ValidTopology(t) && UniqueLineIds(t.lines)
    ensures NodalPtdfGrid(t, multiplier).Success? <==> forall k :: 0 <= k < |t.lines| ==> EndpointsKnown(t.nodes, t.lines[k])
    ensures var r := NodalPtdfGrid(t, multiplier);
            r.Success? ==>
              |r.value| == |t.lines|
              && forall k :: 0 <= k < |t.lines| ==> EndpointsKnown(t.nodes, t.lines[k]) && r.value[k] == ZonedRow(t, multiplier, k)
  {
    var table := PtdfTable(t, multiplier);
    forall k | 0 <= k < |t.lines|
      ensures Locatable(table, t.nodes, t.lines, k) <==> EndpointsKnown(t.nodes, t.lines[k])
      ensures EndpointsKnown(t.nodes, t.lines[k]) ==> WithZones(table, t.nodes, t.lines, k) == ZonedRow(t, multiplier, k)
    {
      PtdfRowLocatable(t, multiplier, k);
    }
    AddZonesSucceedsIff(table, t.nodes, t.lines);
    if NodalPtdfGrid(t, multiplier).Success? {
      AddZonesRows(table, t.nodes, t.lines);
    }
  }

  /** With a multiplier of 1 the nodal grid carries the raw PTDF and the raw
      line capacities. */
  lemma NodalGridUnscaled(t: Topology, data: MarketData, opts: Options, env: Oracles)
    requires ValidTopology(t) && UniqueLineIds(t.lines)
    requires opts.cbcoOption != "nodal_clarkson" && opts.capacityMultiplier == 1.0
    requires NodalGrid(t, data, opts, env).Success?
    ensures var g := NodalGrid(t, data, opts, env).value;
            |g| == |t.lines| && forall k :: 0 <= k < |g| ==> g[k].ptdf == t.ptdf[k] && g[k].ram == t.lines[k].maxflow
  {
    NodalPtdfGridRows(t, 1.0);
  }

  /** Row p is the basecase row of the line at position index[p], labelled
      cb_basecase, with row w of the PTDF a, ram = maxflow * multiplier and no
      zone columns. */
  ghost predicate BasecaseRows(t: Topology, a: Matrix, index: seq<int>, g: seq<GridRow>, multiplier: real)
    requires |a| == |t.lines|
  {
    |g| == |index|
    && forall p :: 0 <= p < |g| ==>
         InRange(index[p], |t.lines|)
         && var w := Wrap(index[p], |t.lines|);
         g[p] == GridRow(t.lines[w].id + "_basecase", Some(Cbco(t.lines[w].id, "basecase")),
                         a[w], t.lines[w].maxflow * multiplier, None, None)
  }

  /** Reducing the N-0 constraints of PTDF a keeps only basecase rows. */
  lemma ReducedBasecaseRows(t: Topology, a: Matrix, index: Option<seq<int>>, multiplier: real)
    requires |a| == |t.lines|
    requires ReducedGrid(BasecaseInfo(t, a), index, multiplier).Success?
    ensures index.Some?
    ensures BasecaseRows(t, a, index.value, ReducedGrid(BasecaseInfo(t, a), index, multiplier).value, multiplier)
  {
    var info := BasecaseInfo(t, a);
    var g := ReducedGrid(info, index, multiplier).value;
    forall p | 0 <= p < |g|
      ensures var w := Wrap(index.value[p], |t.lines|);
              g[p] == GridRow(t.lines[w].id + "_basecase", Some(Cbco(t.lines[w].id, "basecase")),
                              a[w], t.lines[w].maxflow * multiplier, None, None)
    {
      var w := Wrap(index.value[p], |t.lines|);
      assert info[w] == CbcoRow(t.lines[w].id, "basecase", t.lines[w].maxflow, a[w]);
      assert g[p] == ScaledRow(info[w], multiplier);
      assert t.lines[w].id + "_" + "basecase" == t.lines[w].id + "_basecase";
    }
  }

  /** A reduced nodal grid keeps only N-0 rows: every row is the basecase row
      of the line at the selected position, with its PTDF row and scaled ram,
      labelled cb_basecase. */
  lemma NodalClarksonRows(t: Topology, data: MarketData, opts: Options, env: Oracles)
    requires ValidTopology(t) && opts.cbcoOption == "nodal_clarkson"
    requires NodalGrid(t, data, opts, env).Success?
    ensures var index := env.reduce(t.ptdf, Maxflows(t),
                                    Some(InjectionLimits.NodalLimits(data, opts.plantTypes, opts.infeasibilityBound)));
            index.Some? && BasecaseRows(t, t.ptdf, index.value, NodalGrid(t, data, opts, env).value, opts.capacityMultiplier)
  {
    var index := env.reduce(t.ptdf, Maxflows(t),
                            Some(InjectionLimits.NodalLimits(data, opts.plantTypes, opts.infeasibilityBound)));
    assert NodalGrid(t, data, opts, env) == ReducedGrid(BasecaseInfo(t, t.ptdf), index, opts.capacityMultiplier);
    ReducedBasecaseRows(t, t.ptdf, index, opts.capacityMultiplier);
  }

  /** The unreduced zonal grid has one row per line, labelled by the line,
      holding the zonal PTDF rounded entry by entry, with
      ram = maxflow * multiplier. */
  lemma ZonalGridColumns(t: Topology, data: MarketData, opts: Options, env: Oracles)
    requires ValidTopology(t) && opts.cbcoOption != "clarkson"
    requires ZonalGrid(t, data, opts, env).Success?
    ensures ZonalPtdf(t, data, opts).Success?
    ensures var a := ZonalPtdf(t, data, opts).value;
            var g := ZonalGrid(t, data, opts, env).value;
            |g| == |t.lines|
            && forall k :: 0 <= k < |g| ==>
                 g[k].index == t.lines[k].id && g[k].cbco.None?
                 && |g[k].ptdf| == |data.zones|
                 && (forall j :: 0 <= j < |data.zones| ==> g[k].ptdf[j] == env.round4(a[k][j]))
                 && g[k].ram == t.lines[k].maxflow * opts.capacityMultiplier
  {
    var a := ZonalPtdf(t, data, opts).value;
    var g := ZonalGrid(t, data, opts, env).value;
    assert g == RoundedTable(t, a, env.round4, opts.capacityMultiplier);
  }

  /** The reduced zonal grid keeps only N-0 rows: every row is the basecase row
      of the line at a selected position, with that line's row of the zonal
      PTDF and ram = maxflow * multiplier. */
  lemma ZonalClarksonRows(t: Topology, data: MarketData, opts: Options, env: Oracles)
    requires ValidTopology(t) && opts.cbcoOption == "clarkson"
    requires ZonalGrid(t, data, opts, env).Success?
    ensures ZonalPtdf(t, data, opts).Success?
    ensures var a := ZonalPtdf(t, data, opts).value;
            var index := env.reduce(a, Maxflows(t), None);
            index.Some? && BasecaseRows(t, a, index.value, ZonalGrid(t, data, opts, env).value, opts.capacityMultiplier)
  {
    var a := ZonalPtdf(t, data, opts).value;
    var index := env.reduce(a, Maxflows(t), None);
    assert ZonalGrid(t, data, opts, env) == ReducedGrid(BasecaseInfo(t, a), index, opts.capacityMultiplier);
    ReducedBasecaseRows(t, a, index, opts.capacityMultiplier);
  }

  /** The zonal grid fails exactly when the key fails or its rows are not the
      PTDF's nodes. */
  lemma ZonalGridFailsIff(t: Topology, data: MarketData, opts: Options, env: Oracles)
    requires ValidTopology(t) && opts.cbcoOption != "clarkson"
    ensures ZonalGrid(t, data, opts, env).Failure? <==>
            Gsk.Gsk(opts.gsk, data.nodes, data.zones, data.plants, opts.plantTypes).Failure?
            || |Gsk.Gsk(opts.gsk, data.nodes, data.zones, data.plants, opts.plantTypes).value| != |t.nodes|
  {
  }

  /** An info row as a grid row with its ram scaled. */
  function ScaledRow(row: CbcoRow, multiplier: real): GridRow {
    Labelled(row).(ram := row.ram * multiplier)
  }

  /** The zonal N-1 system: the rows kept by preprocessing (the first of every
      rounded key), in order, each carrying its projected PTDF row with one
      column per zone. */
  lemma ZonalSystemRows(sys: CbcoSystem, round: real -> real, gsk: Matrix, cols: nat)
    requires Aligned(sys)
    requires CreateCbcoData(sys, true, round, Some(gsk), cols).Success?
    ensures var s := CreateCbcoData(sys, true, round, Some(gsk), cols).value;
            var idx := FirstOccurrences(Keys(sys.info, round));
            |s.info| == |idx| == |s.A|
            && forall i :: 0 <= i < |s.info| ==>
                 |s.A[i]| == cols && s.info[i] == sys.info[idx[i]].(ptdf := s.A[i])
  {
    var s := CreateCbcoData(sys, true, round, Some(gsk), cols).value;
    var pre := Preprocess(sys, round);
    var idx := FirstOccurrences(Keys(sys.info, round));
    assert s == Project(pre, gsk, cols).value;
    forall i | 0 <= i < |s.info| ensures s.info[i] == sys.info[idx[i]].(ptdf := s.A[i]) {
      assert s.info[i] == pre.info[i].(ptdf := s.A[i]);
      assert pre.info[i] == sys.info[idx[i]];
    }
  }

  /** The zonal N-1 grid: in the order of the reduction's index, row p is the
      kept N-1 row at the selected position, labelled cb_co, with its zonal
      PTDF row and ram scaled by the multiplier. */
  lemma CbcoZonalRows(t: Topology, data: MarketData, opts: Options, env: Oracles)
    requires Aligned(env.n1(opts.sensitivity))
    requires CbcoZonalGrid(t, data, opts, env).Success?
    ensures Gsk.Gsk(opts.gsk, data.nodes, data.zones, data.plants, opts.plantTypes).Success?
    ensures var sys := env.n1(opts.sensitivity);
            var gsk := Gsk.Gsk(opts.gsk, data.nodes, data.zones, data.plants, opts.plantTypes).value;
            var c := CreateCbcoData(sys, true, env.round6, Some(gsk), |data.zones|);
            c.Success?
            && var idx := FirstOccurrences(Keys(sys.info, env.round6));
               var index := env.reduce(c.value.A, c.value.b, None);
               var g := CbcoZonalGrid(t, data, opts, env).value;
               index.Some? && |g| == |index.value|
               && forall p :: 0 <= p < |g| ==>
                    InRange(index.value[p], |idx|)
                    && var w := Wrap(index.value[p], |idx|);
                       g[p] == ScaledRow(sys.info[idx[w]].(ptdf := c.value.A[w]), opts.capacityMultiplier)
  {
    var sys := env.n1(opts.sensitivity);
    var gsk := Gsk.Gsk(opts.gsk, data.nodes, data.zones, data.plants, opts.plantTypes).value;
    var s := CreateCbcoData(sys, true, env.round6, Some(gsk), |data.zones|).value;
    var idx := FirstOccurrences(Keys(sys.info, env.round6));
    var index := env.reduce(s.A, s.b, None);
    assert CbcoZonalGrid(t, data, opts, env) == ReducedGrid(s.info, index, opts.capacityMultiplier);
    ZonalSystemRows(sys, env.round6, gsk, |data.zones|);
    var g := CbcoZonalGrid(t, data, opts, env).value;
    forall p | 0 <= p < |g|
      ensures InRange(index.value[p], |idx|)
      ensures var w := Wrap(index.value[p], |idx|);
              g[p] == ScaledRow(sys.info[idx[w]].(ptdf := s.A[w]), opts.capacityMultiplier)
    {
      var w := Wrap(index.value[p], |s.info|);
      assert g[p] == ScaledRow(s.info[w], opts.capacityMultiplier);
      assert s.info[w] == sys.info[idx[w]].(ptdf := s.A[w]);
    }
  }

  /** With a missing precalc file the N-1 nodal grid is the full one
      (a fallback to every row). */
  lemma CbcoNodalFallbackIsFull(t: Topology, data: MarketData, opts: Options, env: Oracles)
    requires Aligned(env.n1(opts.sensitivity))
    requires opts.precalcFilename != "" && env.precalc(opts.precalcFilename).None?
    ensures CbcoNodalGrid(t, data, opts, env)
            == CbcoNodalGrid(t, data, opts.(precalcFilename := "", cbcoOption := "full"), env)
  {
    var full := opts.(precalcFilename := "", cbcoOption := "full");
    var limits := InjectionLimits.NodalLimits(data, opts.plantTypes, opts.infeasibilityBound);
    FallbackSelectsAll(opts.cbcoOption, opts.precalcFilename, env.precalc(opts.precalcFilename),
                       NodalSystem(opts, env), limits, env.reduce);
    FallbackSelectsAll(full.cbcoOption, full.precalcFilename, env.precalc(full.precalcFilename),
                       NodalSystem(full, env), limits, env.reduce);
  }

  /** The rows of info, labelled, with zones added and ram scaled. */
  predicate LabelledZonedScaled(info: seq<CbcoRow>, g: seq<GridRow>, multiplier: real) {
    |g| == |info|
    && forall k :: 0 <= k < |g| ==>
         g[k].index == info[k].cb + "_" + info[k].co && g[k].cbco == Some(Cbco(info[k].cb, info[k].co))
         && g[k].ptdf == info[k].ptdf && g[k].ram == info[k].ram * multiplier
         && g[k].zoneI.Some? && g[k].zoneJ.Some?
  }

  lemma LabelledThenZonedScaled(info: seq<CbcoRow>, rows: seq<GridRow>, z: seq<GridRow>, multiplier: real)
    requires |rows| == |info| && forall k :: 0 <= k < |rows| ==> rows[k] == Labelled(info[k])
    requires ZonesAdded(rows, z)
    ensures LabelledZonedScaled(info, ScaleRam(z, multiplier), multiplier)
  {
    ScaleZoned(rows, z, multiplier);
  }

  /** The full N-1 nodal grid holds every row of the constraint system, in
      order, labelled cb_co, with zones and scaled ram. */
  lemma CbcoNodalFullRows(t: Topology, data: MarketData, opts: Options, env: Oracles)
    requires Aligned(env.n1(opts.sensitivity))
    requires opts.precalcFilename == "" && opts.cbcoOption == "full"
    requires CbcoNodalGrid(t, data, opts, env).Success?
    ensures LabelledZonedScaled(NodalSystem(opts, env).info, CbcoNodalGrid(t, data, opts, env).value, opts.capacityMultiplier)
  {
    var info := NodalSystem(opts, env).info;
    assert NodalIndex(data, opts, env) == Success(Some(Range(|info|)));
    ReturnAllRows(info);
    var rows := ReturnCbco(info, Some(Range(|info|))).value;
    assert CbcoNodalSelected(data, opts, env) == Success(rows);
    var z := AddZones(rows, t.nodes, t.lines).value;
    LabelledThenZonedScaled(info, rows, z, opts.capacityMultiplier);
    assert CbcoNodalGrid(t, data, opts, env).value == ScaleRam(z, opts.capacityMultiplier);
  }

  /** An unknown cbco_option without a precalc file fails: the index is never
      assigned. */
  lemma CbcoNodalUnknownOptionFails(t: Topology, data: MarketData, opts: Options, env: Oracles)
    requires Aligned(env.n1(opts.sensitivity))
    requires opts.precalcFilename == "" && opts.cbcoOption !in ["full", "clarkson_base", "clarkson", "save"]
    ensures CbcoNodalGrid(t, data, opts, env) == Failure(UnboundIndex)
  {
    UnknownOptionFails(opts.cbcoOption, NodalSystem(opts, env),
                       InjectionLimits.NodalLimits(data, opts.plantTypes, opts.infeasibilityBound),
                       env.precalc(""), env.reduce);
  }

  /** A failed redundancy removal fails the N-1 nodal grid. */
  lemma CbcoNodalReductionFailure(t: Topology, data: MarketData, opts: Options, env: Oracles)
    requires Aligned(env.n1(opts.sensitivity))
    requires opts.precalcFilename == "" && opts.cbcoOption == "clarkson"
    requires env.reduce(NodalSystem(opts, env).A, NodalSystem(opts, env).b, None).None?
    ensures CbcoNodalGrid(t, data, opts, env) == Failure(RedundancyRemovalFailed)
  {
  }

  /** The line an N-1 row is found by (its cb) is a line, and both of its
      endpoints are nodes. */
  predicate CbLocatable(t: Topology, row: CbcoRow) {
    var line := LineOf(t.lines, row.cb);
    line.Some? && EndpointsKnown(t.nodes, line.value)
  }

  /** An N-1 row as the nodal N-1 grid holds it: labelled cb_co, ram scaled,
      and the zones of its line's endpoints. */
  function ZonedScaledRow(t: Topology, row: CbcoRow, multiplier: real): GridRow
    requires CbLocatable(t, row)
  {
    var line := LineOf(t.lines, row.cb).value;
    ScaledRow(row, multiplier).(zoneI := ZoneOf(t.nodes, line.nodeI), zoneJ := ZoneOf(t.nodes, line.nodeJ))
  }

  /** A labelled row finds the line of its cb, so it can be given zones
      exactly when that line's endpoints are nodes, and gets theirs. */
  lemma LabelledRowLocatable(t: Topology, rows: seq<GridRow>, row: CbcoRow, p: nat, multiplier: real)
    requires p < |rows| && rows[p] == Labelled(row)
    ensures Locatable(rows, t.nodes, t.lines, p) <==> CbLocatable(t, row)
    ensures CbLocatable(t, row) ==>
              WithZones(rows, t.nodes, t.lines, p).(ram := row.ram * multiplier) == ZonedScaledRow(t, row, multiplier)
  {
    assert LineKey(rows[p]) == row.cb;
  }

  /** Zones for the selected, labelled rows are found exactly when every
      selected row's line and endpoints are. */
  lemma SelectedRowsLocatable(t: Topology, info: seq<CbcoRow>, index: seq<int>, rows: seq<GridRow>)
    requires SelectPositions(info, index) == Success(rows)
    ensures |rows| == |index|
    ensures AddZones(rows, t.nodes, t.lines).Success? <==>
              forall p :: 0 <= p < |index| ==> CbLocatable(t, info[Wrap(index[p], |info|)])
  {
    forall p | 0 <= p < |index|
      ensures Locatable(rows, t.nodes, t.lines, p) <==> CbLocatable(t, info[Wrap(index[p], |info|)])
    {
      LabelledRowLocatable(t, rows, info[Wrap(index[p], |info|)], p, 1.0);
    }
    AddZonesSucceedsIff(rows, t.nodes, t.lines);
  }

  /** Labelled rows with the zones of their lines, ram scaled. */
  lemma LabelledRowsZoned(t: Topology, info: seq<CbcoRow>, index: seq<int>, rows: seq<GridRow>, z: seq<GridRow>,
                          multiplier: real)
    requires |rows| == |index| == |z|
    requires forall p :: 0 <= p < |index| ==>
               InRange(index[p], |info|) && rows[p] == Labelled(info[Wrap(index[p], |info|)])
    requires forall p :: 0 <= p < |index| ==> Locatable(rows, t.nodes, t.lines, p) && z[p] == WithZones(rows, t.nodes, t.lines, p)
    ensures var g := ScaleRam(z, multiplier);
            |g| == |index|
            && forall p :: 0 <= p < |index| ==>
                 InRange(index[p], |info|) && CbLocatable(t, info[Wrap(index[p], |info|)])
                 && g[p] == ZonedScaledRow(t, info[Wrap(index[p], |info|)], multiplier)
  {
    var g := ScaleRam(z, multiplier);
    forall p | 0 <= p < |index|
      ensures CbLocatable(t, info[Wrap(index[p], |info|)])
      ensures g[p] == ZonedScaledRow(t, info[Wrap(index[p], |info|)], multiplier)
    {
      var row := info[Wrap(index[p], |info|)];
      LabelledRowLocatable(t, rows, row, p, multiplier);
      assert g[p] == z[p].(ram := rows[p].ram * multiplier);
    }
  }

  /** The nodal N-1 grid for a selected index: it exists exactly when every
      position is in range and every selected row's line and endpoints are
      found, and then row p is the N-1 row at position index[p], labelled
      cb_co, with ram scaled and the zones of its line's endpoints. */
  lemma CbcoNodalRows(t: Topology, data: MarketData, opts: Options, env: Oracles, index: seq<int>)
    requires Aligned(env.n1(opts.sensitivity))
    requires NodalIndex(data, opts, env) == Success(Some(index))
    ensures var info := NodalSystem(opts, env).info;
            CbcoNodalGrid(t, data, opts, env).Success? <==>
              forall p :: 0 <= p < |index| ==>
                InRange(index[p], |info|) && CbLocatable(t, info[Wrap(index[p], |info|)])
    ensures var info := NodalSystem(opts, env).info;
            var r := CbcoNodalGrid(t, data, opts, env);
            r.Success? ==>
              |r.value| == |index|
              && forall p :: 0 <= p < |index| ==>
                   InRange(index[p], |info|) && CbLocatable(t, info[Wrap(index[p], |info|)])
                   && r.value[p] == ZonedScaledRow(t, info[Wrap(index[p], |info|)], opts.capacityMultiplier)
  {
    var info := NodalSystem(opts, env).info;
    var sel := SelectPositions(info, index);
    assert CbcoNodalSelected(data, opts, env) == sel;
    if sel.Success? {
      SelectedRowsLocatable(t, info, index, sel.value);
      if AddZones(sel.value, t.nodes, t.lines).Success? {
        AddZonesRows(sel.value, t.nodes, t.lines);
        LabelledRowsZoned(t, info, index, sel.value, AddZones(sel.value, t.nodes, t.lines).value, opts.capacityMultiplier);
      }
    }
  }
}
