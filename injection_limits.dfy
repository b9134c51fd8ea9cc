/**
 * Nodal injection limits (create_nodal_injection_limits): for every node the
 * largest injection or withdrawal it can see, used as box bounds by the
 * redundancy removal.  The source computes with pandas and Python scalars, so
 * an empty series yields NaN and NaN flows through sums and the builtin
 * max/min; Bound models that.
 */
module InjectionLimits {
  import opened GridData

  /** A Python float as far as this computation needs it: a real or NaN. */
  datatype Bound = Finite(value: real) | NaN

  function Add(a: Bound, b: Bound): Bound {
    if a.NaN? || b.NaN? then NaN else Finite(a.value + b.value)
  }

  function Neg(a: Bound): Bound {
    if a.NaN? then NaN else Finite(-a.value)
  }

  /** a > b; every comparison with NaN is false. */
  predicate Greater(a: Bound, b: Bound) {
    a.Finite? && b.Finite? && a.value > b.value
  }

  /** Builtin max(a, b): b only when b > a, otherwise a. */
  function PyMax(a: Bound, b: Bound): (r: Bound)
    ensures a.Finite? && b.Finite? ==> r == Finite(Max(a.value, b.value))
    ensures a.NaN? ==> r.NaN?
    ensures b.NaN? ==> r == a
  {
    if Greater(b, a) then b else a
  }

  /** Builtin min(a, b): b only when b < a, otherwise a. */
  function PyMin(a: Bound, b: Bound): (r: Bound)
    ensures a.Finite? && b.Finite? ==> r == Finite(Min(a.value, b.value))
    ensures a.NaN? ==> r.NaN?
    ensures b.NaN? ==> r == a
  {
    if Greater(a, b) then b else a
  }

  /** Series.max(): NaN for an empty series. */
  function SeriesMax(vs: seq<real>): Bound {
    if vs == [] then NaN else Finite(MaxOf(vs))
  }

  /** Series.min(): NaN for an empty series. */
  function SeriesMin(vs: seq<real>): Bound {
    if vs == [] then NaN else Finite(MinOf(vs))
  }

  /** The values of the rows of a stacked series that belong to node n. */
  function ValuesAt(samples: seq<Sample>, n: NodeId): (vs: seq<real>)
    ensures |vs| == 0 <==> forall k :: 0 <= k < |samples| ==> samples[k].node != n
  {
    if samples == [] then []
    else
      var rest := ValuesAt(samples[1..], n);
      assert forall k :: 1 <= k < |samples| ==> samples[k] == samples[1..][k - 1];
      if samples[0].node == n then [samples[0].value] + rest else rest
  }

  /** Summed g_max of all plants at node n. */
  function CapacityAt(plants: seq<Plant>, n: NodeId): real {
    if plants == [] then 0.0
    else (if plants[0].node == n then plants[0].gMax else 0.0) + CapacityAt(plants[1..], n)
  }

  /** Summed g_max of the plants at node n whose type is in group. */
  function GroupCapacityAt(plants: seq<Plant>, n: NodeId, group: seq<string>): real {
    if plants == [] then 0.0
    else (if plants[0].node == n && plants[0].plantType in group then plants[0].gMax else 0.0)
         + GroupCapacityAt(plants[1..], n, group)
  }

  /** Summed maxflow of the DC lines with an endpoint at node n. */
  function DcCapacityAt(dclines: seq<Branch>, n: NodeId): real {
    if dclines == [] then 0.0
    else (if dclines[0].nodeI == n || dclines[0].nodeJ == n then dclines[0].maxflow else 0.0)
         + DcCapacityAt(dclines[1..], n)
  }

  /** The largest export of node n, never below 0 (0 without rows). */
  function NexMax(netExport: seq<Sample>, n: NodeId): real {
    var vs := ValuesAt(netExport, n);
    if vs == [] then 0.0 else Max(0.0, MaxOf(vs))
  }

  /** The largest import of node n as a positive number (0 without rows). */
  function NexMin(netExport: seq<Sample>, n: NodeId): real {
    var vs := ValuesAt(netExport, n);
    if vs == [] then 0.0 else -Min(0.0, MinOf(vs))
  }

  /** The injection side: all capacity, less the smallest demand, plus the
      largest export, the DC capacity and the infeasibility bound. */
  function UpperSum(data: MarketData, n: NodeId, infeasibility: real): real
    requires ValuesAt(data.demand, n) != []
  {
    CapacityAt(data.plants, n) - MinOf(ValuesAt(data.demand, n)) + NexMax(data.netExport, n)
      + DcCapacityAt(data.dclines, n) + infeasibility
  }

  /** The withdrawal side: the largest demand, storage and power-to-heat
      capacity, the largest import, the DC capacity and the infeasibility bound. */
  function LowerSum(data: MarketData, types: PlantTypes, n: NodeId, infeasibility: real): real
    requires ValuesAt(data.demand, n) != []
  {
    MaxOf(ValuesAt(data.demand, n)) + GroupCapacityAt(data.plants, n, types.es)
      + GroupCapacityAt(data.plants, n, types.ph) + NexMin(data.netExport, n)
      + DcCapacityAt(data.dclines, n) + infeasibility
  }

  /** Reference value of the limit of node n: NaN when the node has no demand
      rows, otherwise the larger of the two sums, and at least 0. */
  function NodalLimit(data: MarketData, types: PlantTypes, n: NodeId, infeasibility: real): (r: Bound)
    ensures r.Finite? <==> exists k :: 0 <= k < |data.demand| && data.demand[k].node == n
    ensures r.Finite? ==> r.value >= 0.0
  {
    if ValuesAt(data.demand, n) == [] then NaN
    else Finite(Max(Max(UpperSum(data, n, infeasibility), 0.0), Max(LowerSum(data, types, n, infeasibility), 0.0)))
  }

  /** The limits of all nodes, in node-table order. */
  function NodalLimits(data: MarketData, types: PlantTypes, infeasibility: real): seq<Bound> {
    seq(|data.nodes|, k requires 0 <= k < |data.nodes| => NodalLimit(data, types, data.nodes[k].id, infeasibility))
  }

  /** The body of create_nodal_injection_limits' loop for one node. */
  method NodeInjectionLimit(data: MarketData, types: PlantTypes, node: NodeId, infeasibility: real)
    returns (limit: Bound)
    ensures limit == NodalLimit(data, types, node, infeasibility)
  {
    var bound := Finite(infeasibility);
    var storage := Finite(GroupCapacityAt(data.plants, node, types.es));
    var elHeat := Finite(GroupCapacityAt(data.plants, node, types.ph));
    var maxDcInj := Finite(DcCapacityAt(data.dclines, node));
    var nex := ValuesAt(data.netExport, node);
    var nexMax := PyMax(Finite(0.0), SeriesMax(nex));
    var nexMin := Neg(PyMin(Finite(0.0), SeriesMin(nex)));
    assert nexMax == Finite(NexMax(data.netExport, node));
    assert nexMin == Finite(NexMin(data.netExport, node));
    var demand := ValuesAt(data.demand, node);
    var upper := PyMax(Add(Add(Add(Add(Finite(CapacityAt(data.plants, node)), Neg(SeriesMin(demand))),
                                   nexMax), maxDcInj), bound), Finite(0.0));
    var lower := PyMax(Add(Add(Add(Add(Add(SeriesMax(demand), storage), elHeat), nexMin), maxDcInj), bound),
                       Finite(0.0));
    if demand == [] {
      assert upper == NaN && lower == NaN;
    } else {
      assert upper == Finite(Max(UpperSum(data, node, infeasibility), 0.0));
      assert lower == Finite(Max(LowerSum(data, types, node, infeasibility), 0.0));
    }
    limit := PyMax(upper, lower);
  }

  /**
   * create_nodal_injection_limits: one entry per node of the node table, in
   * its order.
   */
  method CreateNodalInjectionLimits(data: MarketData, types: PlantTypes, infeasibility: real)
    returns (limits: seq<Bound>)
    ensures |limits| == |data.nodes|
    ensures forall k :: 0 <= k < |data.nodes| ==>
              limits[k] == NodalLimit(data, types, data.nodes[k].id, infeasibility)
    ensures limits == NodalLimits(data, types, infeasibility)
  {
    limits := [];
    var k := 0;
    while k < |data.nodes|
      invariant 0 <= k <= |data.nodes|
      invariant |limits| == k
      invariant forall p :: 0 <= p < k ==> limits[p] == NodalLimit(data, types, data.nodes[p].id, infeasibility)
    {
      var limit := NodeInjectionLimit(data, types, data.nodes[k].id, infeasibility);
      limits := limits + [limit];
      k := k + 1;
    }
  }

  // ---------------------------------------------------------------------
  // Properties of the limits.

  /** A finite limit is the least non-negative number that bounds both the
      injection and the withdrawal side. */
  lemma LimitIsLeastCommonBound(data: MarketData, types: PlantTypes, n: NodeId, infeasibility: real)
    requires ValuesAt(data.demand, n) != []
    ensures NodalLimit(data, types, n, infeasibility).Finite?
    ensures var v := NodalLimit(data, types, n, infeasibility).value;
            v >= 0.0 && v >= UpperSum(data, n, infeasibility) && v >= LowerSum(data, types, n, infeasibility)
            && (v == 0.0 || v == UpperSum(data, n, infeasibility) || v == LowerSum(data, types, n, infeasibility))
  {
  }

  /** The net-export terms never shrink a side: both are non-negative. */
  lemma NetExportTermsNonNegative(netExport: seq<Sample>, n: NodeId)
    ensures NexMax(netExport, n) >= 0.0 && NexMin(netExport, n) >= 0.0
  {
  }

  /** Raising the infeasibility bound never lowers a limit. */
  lemma LimitMonotoneInInfeasibility(data: MarketData, types: PlantTypes, n: NodeId, b1: real, b2: real)
    requires b1 <= b2
    requires ValuesAt(data.demand, n) != []
    ensures NodalLimit(data, types, n, b1).value <= NodalLimit(data, types, n, b2).value
  {
  }
}
