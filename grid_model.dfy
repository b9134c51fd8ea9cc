/**
 * GridModel and the grid representation it fills.  create_grid_representation
 * records the option and the slack information, runs the process_* method of
 * the requested type and then, when asked, adds the redispatch grid.  Each
 * step assigns fields of the representation the way the source does; a step
 * that raises leaves the representation as it stood at that point and
 * reports the error.
 */
module GridModelState {
  import opened Wrappers
  import opened GridData
  import Ntc
  import Gsk
  import InjectionLimits
  import opened Constraints
  import opened Modes

  /** The grid_representation namespace; None stands for an unset attribute. */
  class GridRepresentation {
    var option: Option<string>
    var multipleSlack: Option<bool>
    var slackZones: Option<map<NodeId, NodeId>>
    var grid: seq<GridRow>
    var redispatchGrid: seq<GridRow>
    var ntc: seq<NtcRow>

    constructor()
      ensures option == None && multipleSlack == None && slackZones == None
      ensures grid == [] && redispatchGrid == [] && ntc == []
    {
      option := None;
      multipleSlack := None;
      slackZones := None;
      grid := [];
      redispatchGrid := [];
      ntc := [];
    }
  }

  class GridModel {
    const topology: Topology
    const data: MarketData
    const options: Options
    const env: Oracles
    const representation: GridRepresentation

    constructor(topology: Topology, data: MarketData, options: Options, env: Oracles)
      ensures this.topology == topology && this.data == data && this.options == options && this.env == env
      ensures fresh(representation)
      ensures representation.option == None && representation.multipleSlack == None
      ensures representation.slackZones == None
      ensures representation.grid == [] && representation.redispatchGrid == [] && representation.ntc == []
    {
      this.topology := topology;
      this.data := data;
      this.options := options;
      this.env := env;
      representation := new GridRepresentation();
    }

    /** grid.ram *= capacity_multiplier, in place. */
    method ScaleGridRam(multiplier: real)
      modifies representation
      ensures representation.grid == ScaleRam(old(representation.grid), multiplier)
      ensures unchanged(representation`option, representation`multipleSlack, representation`slackZones,
                        representation`redispatchGrid, representation`ntc)
    {
      representation.grid := ScaleRam(representation.grid, multiplier);
    }

    /** create_ntc: the generated table over the zones of the node table. */
    method CreateNtc()
      modifies representation
      ensures representation.ntc == GeneratedNtc(data)
      ensures unchanged(representation`option, representation`multipleSlack, representation`slackZones,
                        representation`grid, representation`redispatchGrid)
    {
      var zones := Ntc.NodeZones(data.nodes);
      var tmp := Ntc.CreateNtc(zones, data.nodes, data.lines, data.dclines);
      representation.ntc := tmp;
    }

    /** process_ntc: the supplied table, or a generated one when it is empty. */
    method ProcessNtc()
      modifies representation
      ensures representation.ntc == NtcFor(data)
      ensures unchanged(representation`option, representation`multipleSlack, representation`slackZones,
                        representation`grid, representation`redispatchGrid)
    {
      if |data.ntc| == 0 {
        CreateNtc();
      } else {
        representation.ntc := data.ntc;
      }
    }

    /** _add_zone_to_grid_representation: writes zone_i, then zone_j, into the
        table it is given.  zoned is that table afterwards; when a lookup
        raises, it holds whatever was written before (PartlyZoned). */
    method AddZoneToGridRepresentation(table: seq<GridRow>) returns (zoned: seq<GridRow>, err: Option<GridError>)
      ensures err.None? <==> AddZones(table, topology.nodes, topology.lines).Success?
      ensures err.None? ==> zoned == AddZones(table, topology.nodes, topology.lines).value
      ensures err.Some? ==>
                err.value == AddZones(table, topology.nodes, topology.lines).error && LookupError(err.value)
                && zoned == PartlyZoned(table, topology.nodes, topology.lines)
    {
      zoned := table;
      var zoneI := AddZoneColumn(zoned, topology.nodes, topology.lines, true);
      if zoneI.Failure? {
        return zoned, Some(zoneI.error);
      }
      zoned := zoneI.value;
      var zoneJ := AddZoneColumn(zoned, topology.nodes, topology.lines, false);
      if zoneJ.Failure? {
        return zoned, Some(zoneJ.error);
      }
      zoned := zoneJ.value;
      err := None;
    }

    /** process_nodal.  Without reduction the PTDF table is stored before the
        zones are added in place, so a failed zone lookup leaves it with
        whatever zone column was written. */
    method ProcessNodal() returns (outcome: Outcome<GridError>)
      requires ValidTopology(topology)
      modifies representation
      ensures var r := NodalGrid(topology, data, options, env);
              (outcome.Pass? <==> r.Success?)
              && (r.Success? ==> representation.grid == r.value)
              && (r.Failure? ==> outcome == Fail(r.error))
      ensures outcome.Fail? ==>
                representation.grid == if options.cbcoOption == "nodal_clarkson" then old(representation.grid)
                                       else PartlyZoned(PtdfTable(topology, options.capacityMultiplier),
                                                        topology.nodes, topology.lines)
      ensures unchanged(representation`option, representation`multipleSlack, representation`slackZones,
                        representation`redispatchGrid, representation`ntc)
    {
      var multiplier := options.capacityMultiplier;
      if options.cbcoOption == "nodal_clarkson" {
        var a := topology.ptdf;
        var b := Maxflows(topology);
        var info := BasecaseInfo(topology, a);
        var limits := InjectionLimits.CreateNodalInjectionLimits(data, options.plantTypes, options.infeasibilityBound);
        var index := env.reduce(a, b, Some(limits));
        var selected := ReturnCbco(info, index);
        if selected.Failure? {
          return Fail(selected.error);
        }
        representation.grid := selected.value;
        ScaleGridRam(multiplier);
        outcome := Pass;
      } else {
        representation.grid := PtdfTable(topology, multiplier);
        var zoned, err := AddZoneToGridRepresentation(representation.grid);
        representation.grid := zoned;
        if err.Some? {
          return Fail(err.value);
        }
        outcome := Pass;
      }
    }

    /** add_redispatch_grid: the nodal N-0 table with zones. */
    method AddRedispatchGrid() returns (outcome: Outcome<GridError>)
      requires ValidTopology(topology)
      modifies representation
      ensures var r := NodalPtdfGrid(topology, options.capacityMultiplier);
              (outcome.Pass? <==> r.Success?)
              && representation.redispatchGrid
                 == (if r.Success? then r.value
                     else PartlyZoned(PtdfTable(topology, options.capacityMultiplier), topology.nodes, topology.lines))
              && (r.Failure? ==> outcome == Fail(r.error))
      ensures unchanged(representation`option, representation`multipleSlack, representation`slackZones,
                        representation`grid, representation`ntc)
    {
      representation.redispatchGrid := PtdfTable(topology, options.capacityMultiplier);
      var zoned, err := AddZoneToGridRepresentation(representation.redispatchGrid);
      representation.redispatchGrid := zoned;
      if err.Some? {
        return Fail(err.value);
      }
      outcome := Pass;
    }

    /** process_zonal: the zonal PTDF, reduced or rounded, then the NTC table. */
    method ProcessZonal() returns (outcome: Outcome<GridError>)
      requires ValidTopology(topology)
      modifies representation
      ensures var r := ZonalGrid(topology, data, options, env);
              (outcome.Pass? <==> r.Success?)
              && (r.Success? ==> representation.grid == r.value && representation.ntc == GeneratedNtc(data))
              && (r.Failure? ==> outcome == Fail(r.error)
                                 && representation.grid == old(representation.grid)
                                 && representation.ntc == old(representation.ntc))
      ensures unchanged(representation`option, representation`multipleSlack, representation`slackZones,
                        representation`redispatchGrid)
    {
      var multiplier := options.capacityMultiplier;
      var gsk := Gsk.CreateGsk(options.gsk, data.nodes, data.zones, data.plants, options.plantTypes);
      if gsk.Failure? {
        return Fail(gsk.error);
      }
      if |gsk.value| != |topology.nodes| {
        return Fail(ShapeMismatch);
      }
      var a := MatMul(topology.ptdf, gsk.value, |data.zones|);
      if options.cbcoOption == "clarkson" {
        var index := env.reduce(a, Maxflows(topology), None);
        var selected := ReturnCbco(BasecaseInfo(topology, a), index);
        if selected.Failure? {
          return Fail(selected.error);
        }
        representation.grid := selected.value;
        ScaleGridRam(multiplier);
      } else {
        representation.grid := RoundedTable(topology, a, env.round4, multiplier);
      }
      CreateNtc();
      outcome := Pass;
    }

    /** process_cbco_zonal, with the key of the gsk option passed to
        create_cbco_data as a matrix. */
    method ProcessCbcoZonal() returns (outcome: Outcome<GridError>)
      requires Aligned(env.n1(options.sensitivity))
      modifies representation
      ensures var r := CbcoZonalGrid(topology, data, options, env);
              (outcome.Pass? <==> r.Success?)
              && (r.Success? ==> representation.grid == r.value && representation.ntc == GeneratedNtc(data))
              && (r.Failure? ==> outcome == Fail(r.error)
                                 && representation.grid == old(representation.grid)
                                 && representation.ntc == old(representation.ntc))
      ensures unchanged(representation`option, representation`multipleSlack, representation`slackZones,
                        representation`redispatchGrid)
    {
      var gsk := Gsk.CreateGsk(options.gsk, data.nodes, data.zones, data.plants, options.plantTypes);
      if gsk.Failure? {
        return Fail(gsk.error);
      }
      var cbco := CreateCbcoData(env.n1(options.sensitivity), true, env.round6, Some(gsk.value), |data.zones|);
      if cbco.Failure? {
        return Fail(cbco.error);
      }
      var index := env.reduce(cbco.value.A, cbco.value.b, None);
      var selected := ReturnCbco(cbco.value.info, index);
      if selected.Failure? {
        return Fail(selected.error);
      }
      representation.grid := selected.value;
      ScaleGridRam(options.capacityMultiplier);
      CreateNtc();
      outcome := Pass;
    }

    /** The cbco_index of process_cbco_nodal, branch by branch. */
    method CbcoIndex(sys: CbcoSystem) returns (index: Result<Option<seq<int>>, GridError>)
      requires Aligned(sys)
      ensures index == SelectCbcoIndex(options.cbcoOption, options.precalcFilename,
                                       env.precalc(options.precalcFilename), sys,
                                       InjectionLimits.NodalLimits(data, options.plantTypes, options.infeasibilityBound),
                                       env.reduce)
    {
      var all := Range(|sys.b|);
      if options.precalcFilename != "" {
        match env.precalc(options.precalcFilename)
        case None =>
          index := Success(Some(all));
        case Some(PairFile(pairs)) =>
          index := Success(Some(MatchingPositions(sys.info, pairs)));
        case Some(IndexFile(constraints)) =>
          index := Success(Some(constraints));
      } else if options.cbcoOption == "full" {
        index := Success(Some(all));
      } else if options.cbcoOption == "clarkson_base" {
        var limits := InjectionLimits.CreateNodalInjectionLimits(data, options.plantTypes, options.infeasibilityBound);
        index := Success(env.reduce(sys.A, sys.b, Some(limits)));
      } else if options.cbcoOption == "clarkson" {
        index := Success(env.reduce(sys.A, sys.b, None));
      } else if options.cbcoOption == "save" {
        index := Success(Some(all));
      } else {
        index := Failure(UnboundIndex);
      }
    }

    /** process_cbco_nodal: select rows, store them, add zones, scale ram. */
    method ProcessCbcoNodal() returns (outcome: Outcome<GridError>)
      requires Aligned(env.n1(options.sensitivity))
      modifies representation
      ensures var r := CbcoNodalGrid(topology, data, options, env);
              (outcome.Pass? <==> r.Success?)
              && (r.Success? ==> representation.grid == r.value)
              && (r.Failure? ==> outcome == Fail(r.error))
      ensures outcome.Fail? ==>
                var selected := CbcoNodalSelected(data, options, env);
                representation.grid == if selected.Success? then PartlyZoned(selected.value, topology.nodes, topology.lines)
                                       else old(representation.grid)
      ensures unchanged(representation`option, representation`multipleSlack, representation`slackZones,
                        representation`redispatchGrid, representation`ntc)
    {
      var sys := CreateCbcoData(env.n1(options.sensitivity), options.preprocess, env.round6, None, 0).value;
      var index := CbcoIndex(sys);
      if index.Failure? {
        return Fail(index.error);
      }
      var selected := ReturnCbco(sys.info, index.value);
      if selected.Failure? {
        return Fail(selected.error);
      }
      representation.grid := selected.value;
      var zoned, err := AddZoneToGridRepresentation(representation.grid);
      representation.grid := zoned;
      if err.Some? {
        return Fail(err.value);
      }
      ScaleGridRam(options.capacityMultiplier);
      outcome := Pass;
    }

    /** The branch of create_grid_representation on the market model type:
        the step for that type, or nothing for a type without one. */
    method ProcessMarketModel() returns (outcome: Outcome<GridError>)
      requires ValidTopology(topology) && Aligned(env.n1(options.sensitivity))
      modifies representation
      ensures outcome.Pass? <==> ModeOk(topology, data, options, env)
      ensures options.optType == "ntc" ==>
                representation.ntc == NtcFor(data) && representation.grid == old(representation.grid)
      ensures options.optType == "nodal" ==>
                var r := NodalGrid(topology, data, options, env);
                representation.ntc == old(representation.ntc)
                && (r.Success? ==> representation.grid == r.value)
                && (r.Failure? ==>
                      outcome == Fail(r.error)
                      && representation.grid
                         == if options.cbcoOption == "nodal_clarkson" then old(representation.grid)
                            else PartlyZoned(PtdfTable(topology, options.capacityMultiplier), topology.nodes, topology.lines))
      ensures options.optType == "zonal" ==>
                var r := ZonalGrid(topology, data, options, env);
                (r.Success? ==> representation.grid == r.value && representation.ntc == GeneratedNtc(data))
                && (r.Failure? ==>
                      outcome == Fail(r.error)
                      && representation.grid == old(representation.grid) && representation.ntc == old(representation.ntc))
      ensures options.optType == "cbco_nodal" ==>
                var r := CbcoNodalGrid(topology, data, options, env);
                var selected := CbcoNodalSelected(data, options, env);
                representation.ntc == old(representation.ntc)
                && (r.Success? ==> representation.grid == r.value)
                && (r.Failure? ==>
                      outcome == Fail(r.error)
                      && representation.grid
                         == if selected.Success? then PartlyZoned(selected.value, topology.nodes, topology.lines)
                            else old(representation.grid))
      ensures options.optType == "cbco_zonal" ==>
                var r := CbcoZonalGrid(topology, data, options, env);
                (r.Success? ==> representation.grid == r.value && representation.ntc == GeneratedNtc(data))
                && (r.Failure? ==>
                      outcome == Fail(r.error)
                      && representation.grid == old(representation.grid) && representation.ntc == old(representation.ntc))
      ensures options.optType !in ["ntc", "nodal", "zonal", "cbco_nodal", "cbco_zonal"] ==>
                representation.grid == old(representation.grid) && representation.ntc == old(representation.ntc)
      ensures unchanged(representation`option, representation`multipleSlack, representation`slackZones,
                        representation`redispatchGrid)
    {
      outcome := Pass;
      if options.optType == "ntc" {
        ProcessNtc();
      } else if options.optType == "nodal" {
        outcome := ProcessNodal();
      } else if options.optType == "zonal" {
        outcome := ProcessZonal();
      } else if options.optType == "cbco_nodal" {
        outcome := ProcessCbcoNodal();
      } else if options.optType == "cbco_zonal" {
        outcome := ProcessCbcoZonal();
      }
    }

    /** create_grid_representation. */
    method CreateGridRepresentation() returns (outcome: Outcome<GridError>)
      requires ValidTopology(topology) && Aligned(env.n1(options.sensitivity))
      modifies representation
      ensures representation.option == Some(options.optType)
      ensures representation.multipleSlack == Some(topology.multipleSlack)
      ensures representation.slackZones == Some(topology.slackZones)
      ensures outcome.Pass? <==>
                ModeOk(topology, data, options, env)
                && (options.redispatchInclude ==> NodalPtdfGrid(topology, options.capacityMultiplier).Success?)
      ensures options.optType == "ntc" ==>
                representation.ntc == NtcFor(data) && representation.grid == old(representation.grid)
      ensures options.optType == "nodal" ==>
                var r := NodalGrid(topology, data, options, env);
                representation.ntc == old(representation.ntc)
                && (r.Success? ==> representation.grid == r.value)
                && (r.Failure? ==>
                      outcome == Fail(r.error)
                      && representation.grid
                         == if options.cbcoOption == "nodal_clarkson" then old(representation.grid)
                            else PartlyZoned(PtdfTable(topology, options.capacityMultiplier), topology.nodes, topology.lines))
      ensures options.optType == "zonal" ==>
                var r := ZonalGrid(topology, data, options, env);
                (r.Success? ==> representation.grid == r.value && representation.ntc == GeneratedNtc(data))
                && (r.Failure? ==>
                      outcome == Fail(r.error)
                      && representation.grid == old(representation.grid) && representation.ntc == old(representation.ntc))
      ensures options.optType == "cbco_nodal" ==>
                var r := CbcoNodalGrid(topology, data, options, env);
                var selected := CbcoNodalSelected(data, options, env);
                representation.ntc == old(representation.ntc)
                && (r.Success? ==> representation.grid == r.value)
                && (r.Failure? ==>
                      outcome == Fail(r.error)
                      && representation.grid
                         == if selected.Success? then PartlyZoned(selected.value, topology.nodes, topology.lines)
                            else old(representation.grid))
      ensures options.optType == "cbco_zonal" ==>
                var r := CbcoZonalGrid(topology, data, options, env);
                (r.Success? ==> representation.grid == r.value && representation.ntc == GeneratedNtc(data))
                && (r.Failure? ==>
                      outcome == Fail(r.error)
                      && representation.grid == old(representation.grid) && representation.ntc == old(representation.ntc))
      ensures options.optType !in ["ntc", "nodal", "zonal", "cbco_nodal", "cbco_zonal"] ==>
                representation.grid == old(representation.grid) && representation.ntc == old(representation.ntc)
      ensures !ModeOk(topology, data, options, env) || !options.redispatchInclude ==>
                representation.redispatchGrid == old(representation.redispatchGrid)
      ensures ModeOk(topology, data, options, env) && options.redispatchInclude ==>
                var r := NodalPtdfGrid(topology, options.capacityMultiplier);
                representation.redispatchGrid
                == (if r.Success? then r.value
                    else PartlyZoned(PtdfTable(topology, options.capacityMultiplier), topology.nodes, topology.lines))
                && (r.Failure? ==> outcome == Fail(r.error))
    {
      representation.option := Some(options.optType);
      representation.multipleSlack := Some(topology.multipleSlack);
      representation.slackZones := Some(topology.slackZones);

      outcome := ProcessMarketModel();
      if outcome.Fail? {
        return;
      }

      if options.redispatchInclude {
        ghost var grid, ntc := representation.grid, representation.ntc;
        outcome := AddRedispatchGrid();
        assert representation.grid == grid && representation.ntc == ntc;
      }
    }
  }
}
