# pomato grid model in Dafny

pomato is a power-market model. Its `GridModel` turns the physical grid into
the *grid representation* that the market optimisation consumes. It writes a
namespace holding these fields:

- the chosen optimisation type;
- the slack information;
- `grid`: a table of linear flow constraints `A x <= b`, with one row per
  monitored line (and outage), the PTDF columns and a `ram` column;
- `redispatch_grid`: the nodal N-0 table used for redispatch;
- `ntc`: a table of zonal exchange capacities.

The content depends on the optimisation type:

- `ntc`: exchange capacities, supplied or generated.
- `nodal`: the N-0 PTDF, optionally reduced by redundancy removal.
- `zonal`: the PTDF projected on zones through a generation shift key (GSK).
- `cbco_nodal`: the filtered N-1 PTDF, reduced by redundancy removal or by a
  precalculated index file.
- `cbco_zonal`: the N-1 PTDF projected on zones and reduced.

The model covers the following. Each item is proved against the source's
promises: shapes, contents, error cases and the invariants each step keeps.

- The generated NTC table (`Ntc`).
- The flat and gmax generation shift keys (`Gsk`).
- The nodal injection limits that bound the redundancy removal
  (`InjectionLimits`).
- The preparation of the constraint system (`Constraints`):
  - duplicate removal;
  - zonal projection;
  - positional row selection;
  - zone annotation;
  - ram scaling;
  - choice of the constraint index.
- What each representation holds, as functions of the inputs (`Modes`).
- The stateful `GridModel` class, whose methods assign the representation's
  fields (`GridModelState`).

Floating-point values are modelled as reals.

These computations outside the core are parameters of the model:

- the N-1 PTDF for a sensitivity;
- the redundancy removal itself;
- rounding to 6 and to 4 decimals;
- reading a precalc file.

The source raises an exception in the cases below. Each one is a `GridError`
in the model, and the state is left as the source leaves it when it raises:

- a failed label lookup: pandas raises `KeyError`;
- `1 / 0` in a flat GSK: Python raises `ZeroDivisionError` (a gmax zone of zero
  capacity is also reported as an error, see "Left out");
- a missing redundancy-removal result: `iloc[None]` is rejected by pandas with
  a `TypeError`;
- an index that is never assigned: Python raises `UnboundLocalError`;
- a shape mismatch: numpy's `np.dot` raises `ValueError`.

## Model

| member | source | states |
|---|---|---|
| `Ntc.NodeIdsInZone` | pomato/grid/grid_model.py:580-581 | an id is listed iff some node of that zone has it |
| `Ntc.NodeZones` | pomato/grid/grid_model.py:577 | the zones of the node table, each once: a zone is listed iff some node lies in it |
| `Ntc.BetweenIffJoined` | pomato/grid/grid_model.py:583-600 | some line or DC line is found between zones a and b iff a branch has one endpoint in a and the other in b, in either orientation |
| `Ntc.PairNtcIffConnected` | pomato/grid/grid_model.py:602-607 | the pair's capacity is 1e5 iff the zones are connected and 0 otherwise, and it is the same in both directions |
| `Ntc.CombinationsIffBefore` | pomato/grid/grid_model.py:577 | a pair is among the zone combinations iff its first zone comes strictly before its second in the zone list |
| `Ntc.CombinationsCount` | pomato/grid/grid_model.py:577 | there are n(n-1)/2 combinations of n zones |
| `Ntc.CombinationsUnordered` | pomato/grid/grid_model.py:577 | over distinct zones, no combination has equal zones and no unordered pair occurs twice |
| `Ntc.RowsOfCount` | pomato/grid/grid_model.py:603-607 | every pair adds exactly two rows, one per direction |
| `Ntc.RowsOfIff` | pomato/grid/grid_model.py:603-607 | a row is in the table iff it is one of the two rows of some pair |
| `Ntc.RowsOfUnique` | pomato/grid/grid_model.py:603-607 | over distinct unordered pairs the (zone_i, zone_j) keys of the table are unique |
| `Ntc.CreateNtc` | pomato/grid/grid_model.py:568-609 | the loop builds exactly the NTC table of the specification function |
| `Ntc.NtcTable` | pomato/grid/grid_model.py:576-607 | n zones give n(n-1) rows, two per combination |
| `Ntc.NtcRowsWellFormed` | pomato/grid/grid_model.py:576-607 | every row joins two different listed zones, with 1e5 if they are connected and 0 if not |
| `Ntc.NtcCoversEveryPair` | pomato/grid/grid_model.py:576-607 | every ordered pair of distinct zones has its row |
| `Ntc.NtcSymmetric` | pomato/grid/grid_model.py:603-607 | the reverse of every row is a row with the same capacity |
| `Ntc.NtcShape` | pomato/grid/grid_model.py:576-609 | over distinct zones the n(n-1) rows have unique (zone_i, zone_j) keys |
| `Gsk.EligibleNodes` | pomato/grid/grid_model.py:537-540 | the nodes grouped for gmax are exactly those with a plant of a ts type that is not storage, each once |
| `Gsk.Gsk` | pomato/grid/grid_model.py:537-555 | a successful key has one row per node and one column per zone; a failure is an empty flat zone or a gmax zone of zero capacity |
| `Gsk.ClearColumn` | pomato/grid/grid_model.py:544 | the zone's column is zero and all other cells are unchanged |
| `Gsk.AssignWhere` | pomato/grid/grid_model.py:549 | the rows whose label is selected get the value in the zone's column, and nothing else changes |
| `Gsk.FillColumn` | pomato/grid/grid_model.py:542-553 | the zone's column holds its weights, or the zone's error is reported |
| `Gsk.CreateGsk` | pomato/grid/grid_model.py:514-555 | the array built column by column equals the specification key, including the first failing zone |
| `Gsk.FlatFailsIffEmptyZone` | pomato/grid/grid_model.py:551-553 | a flat key fails iff some zone has no node, and then it reports that zone |
| `Gsk.FlatWeights` | pomato/grid/grid_model.py:553 | a node weighs 1/size of its zone in its own zone's column and 0 elsewhere |
| `Gsk.FlatColumnSumsToOne` | pomato/grid/grid_model.py:553 | every column of a flat key sums to 1 |
| `Gsk.GmaxWeights` | pomato/grid/grid_model.py:546-549 | a node weighs its eligible capacity over its zone's eligible total, and 0 in other zones |
| `Gsk.GmaxZeroColumn` | pomato/grid/grid_model.py:547 | a zone without eligible plants has an all-zero column and is not an error |
| `Gsk.GmaxColumnSumsToOne` | pomato/grid/grid_model.py:548-549 | every column of a zone with eligible plants sums to 1 |
| `Gsk.OtherOptionAllZero` | pomato/grid/grid_model.py:544-553 | any other option gives an all-zero key |
| `InjectionLimits.PyMax` | pomato/grid/grid_model.py:438-454 | Python's `max` of two numbers is the larger; a NaN first argument is returned, a NaN second argument is ignored |
| `InjectionLimits.PyMin` | pomato/grid/grid_model.py:439 | Python's `min` of two numbers is the smaller; a NaN first argument is returned, a NaN second argument is ignored |
| `InjectionLimits.ValuesAt` | pomato/grid/grid_model.py:438-441 | a node's series is empty iff no sample names the node |
| `InjectionLimits.NodeInjectionLimit` | pomato/grid/grid_model.py:430-454 | the per-node computation gives the node's limit, NaN included |
| `InjectionLimits.CreateNodalInjectionLimits` | pomato/grid/grid_model.py:426-457 | there is one limit per node, in node order, each the node's limit |
| `InjectionLimits.NodalLimit` | pomato/grid/grid_model.py:440-454 | a limit is a number iff the node has demand samples (otherwise NaN), and a number is never negative |
| `InjectionLimits.LimitIsLeastCommonBound` | pomato/grid/grid_model.py:440-454 | a finite limit is non-negative, at least the upper and the lower injection and equal to one of them or to 0 |
| `InjectionLimits.NetExportTermsNonNegative` | pomato/grid/grid_model.py:438-439 | the net-export terms are never negative |
| `InjectionLimits.LimitMonotoneInInfeasibility` | pomato/grid/grid_model.py:444 | a larger infeasibility bound never lowers a limit |
| `Constraints.FirstOccurrences` | pomato/grid/grid_model.py:368-370 | the kept positions are increasing and are exactly the first occurrences of their keys |
| `Constraints.KeptKeysDistinct` | pomato/grid/grid_model.py:368-370 | no two kept rows share a key |
| `Constraints.EveryKeyKept` | pomato/grid/grid_model.py:368-370 | every row's key is kept, at or before its position |
| `Constraints.DroppedRowRepeatsEarlierKey` | pomato/grid/grid_model.py:368-372 | a dropped row repeats the key of an earlier kept row |
| `Constraints.Preprocess` | pomato/grid/grid_model.py:366-372 | A, b and info stay aligned and do not grow |
| `Constraints.PreprocessKeysDistinct` | pomato/grid/grid_model.py:366-372 | after preprocessing, the rounded PTDF and ram rows are pairwise distinct |
| `Constraints.PreprocessKeepsEveryKey` | pomato/grid/grid_model.py:366-372 | every rounded row of the input is still present after preprocessing |
| `Constraints.Project` | pomato/grid/grid_model.py:375-378 | the product succeeds iff the key has one row per PTDF column and one column per zone (otherwise a shape mismatch); A becomes A times the key, b is unchanged and each info row keeps cb, co and ram with its zonal PTDF row |
| `Constraints.CreateCbcoData` | pomato/grid/grid_model.py:364-379 | with a GSK, A and the info PTDF become the zonal projection, one column per zone; without one, the output is the (preprocessed) input |
| `Constraints.PreprocessThenProject` | pomato/grid/grid_model.py:366-378 | the zonal system is the projection of the deduplicated rows: deduplicating commutes with projecting |
| `Constraints.Truthy` | pomato/grid/grid_model.py:374 | `if gsk:` raises iff the argument is an array of more than one entry; None, an empty string and an empty array are false, a non-empty string is true |
| `Constraints.CreateCbcoDataAsWritten` | pomato/grid/grid_model.py:364-379 | as written, an empty option string returns the (preprocessed) system unchanged, any other string fails as not a matrix, and an array of more than one entry fails the truth test |
| `Constraints.AsWrittenOptionStringFails` | pomato/grid/grid_model.py:374-375 | as written, passing the gsk option string fails at the matrix product |
| `Constraints.AsWrittenMatrixFails` | pomato/grid/grid_model.py:374 | as written, a GSK matrix with more than one entry fails the truth test |
| `Constraints.AsWrittenAgreesWithoutGsk` | pomato/grid/grid_model.py:374-379 | without a GSK, the as-written and the corrected function agree |
| `Constraints.Wrap` | pomato/grid/grid_model.py:511 | a valid position, counting from the end when negative, as iloc does |
| `Constraints.SelectPositions` | pomato/grid/grid_model.py:509-511 | the selection succeeds iff every position is in range; row p is then the labelled info row at position p, and otherwise an out-of-range position is reported |
| `Constraints.ReturnCbco` | pomato/grid/grid_model.py:499-512 | a missing reduction result fails; otherwise the rows at the given positions are selected |
| `Constraints.ReturnAllRows` | pomato/grid/grid_model.py:509-512 | the index 0..n-1 returns every row in order, labelled cb_co |
| `Constraints.LineOf` | pomato/grid/grid_model.py:252-256 | a line lookup fails iff no line has the label, and otherwise returns a line with that label |
| `Constraints.ZoneOf` | pomato/grid/grid_model.py:252-256 | a node lookup fails iff no node has the id, and otherwise returns the zone of a node with that id |
| `Constraints.LinesOf` | pomato/grid/grid_model.py:252-256 | the lookup of all rows' lines succeeds iff each row's line exists, and then gives them row by row; a failure names a label that is not a line |
| `Constraints.ZonesOf` | pomato/grid/grid_model.py:252-256 | the lookup of all endpoints' zones succeeds iff each node exists, and gives them in order; a failure names an id that is not a node |
| `Constraints.AddZoneColumn` | pomato/grid/grid_model.py:251-256 | one zone column is written iff every row's line and that line's endpoint are found; row k then gets its endpoint's zone and nothing else changes; a failure is a line or node lookup error |
| `Constraints.AddZones` | pomato/grid/grid_model.py:244-258 | a failure is a line or node lookup error; on success every row keeps index, cb/co, PTDF and ram and has both zone columns |
| `Constraints.PartlyZoned` | pomato/grid/grid_model.py:251-256 | when adding zones raises, the table holds zone_i if that column was found in full, and is untouched otherwise |
| `Constraints.AddZonesSucceedsIff` | pomato/grid/grid_model.py:244-258 | adding zones succeeds iff every row's line (by cb or by index) and both its endpoint nodes exist |
| `Constraints.AddZonesRows` | pomato/grid/grid_model.py:251-258 | row k keeps every column and gets zone_i and zone_j, the zones of its line's node_i and node_j |
| `Constraints.ScaleZoned` | pomato/grid/grid_model.py:329-330 | scaling a zoned table keeps every column but ram, which is multiplied |
| `Constraints.ScaleRam` | pomato/grid/grid_model.py:155 | every row's ram is multiplied and every other column is unchanged |
| `Constraints.ScaleRamByOne` | pomato/grid/grid_model.py:155 | a multiplier of 1 leaves the table unchanged |
| `Constraints.MatchingPositions` | pomato/grid/grid_model.py:291-294 | the positions are increasing and are exactly those whose (cb, co) is listed in the file |
| `Constraints.SelectCbcoIndex` | pomato/grid/grid_model.py:285-326 | the index is unbound (and only then) when no precalc file is named and the option is none of full, clarkson_base, clarkson, save; only the two clarkson options can yield a missing reduction result |
| `Constraints.FallbackSelectsAll` | pomato/grid/grid_model.py:300-320 | a missing precalc file, full and save all select every row, in order |
| `Constraints.PairFileSelectsListed` | pomato/grid/grid_model.py:285-295 | a (cb, co) file selects exactly the listed rows, whatever the option |
| `Constraints.UnknownOptionFails` | pomato/grid/grid_model.py:324-328 | without a precalc file, an unknown cbco_option leaves the index unbound |
| `Modes.Maxflows` | pomato/grid/grid_model.py:145 | b holds the maxflow of every line, in line order |
| `Modes.NodalPtdfGrid` | pomato/grid/grid_model.py:157-175 | the unreduced nodal grid and the redispatch grid: a failure is a lookup error; on success row k is labelled by line k, carries its PTDF row, ram maxflow * multiplier and both zone columns |
| `Modes.ReducedGrid` | pomato/grid/grid_model.py:499-512 | succeeds iff the reduction returned an index whose positions are all in range; row p is then the labelled info row at position p with ram scaled; a failure is a selection error |
| `Modes.NodalGrid` | pomato/grid/grid_model.py:142-163 | every row has one column per node; the reduced grid can only fail to select, the unreduced one only to find a line or node |
| `Modes.RoundedTable` | pomato/grid/grid_model.py:210-215 | one row per line, labelled by the line, without (cb, co) or zones, whose entries are the zonal PTDF rounded to 4 decimals and whose ram is the scaled maxflow |
| `Modes.ZonalGrid` | pomato/grid/grid_model.py:190-215 | every row has one column per zone; a failure is a key error, a shape mismatch, or (reduced only) a selection error |
| `Modes.CbcoZonalGrid` | pomato/grid/grid_model.py:230-241 | every row has one column per zone and a (cb, co); a failure is a key error, a shape mismatch or a selection error |
| `Modes.CbcoNodalSelected` | pomato/grid/grid_model.py:308-328 | the stored rows all carry a (cb, co); a failure is an unbound index or a selection error |
| `Modes.CbcoNodalGrid` | pomato/grid/grid_model.py:308-330 | every row has a (cb, co), zone_i and zone_j; a failure is an unbound index, a selection error or a lookup error |
| `Modes.ZonalPtdf` | pomato/grid/grid_model.py:208-209 | the zonal PTDF exists iff the key succeeds with one row per node; entry (k, j) is line k's PTDF row times the key's column j; a failure is a key error or a shape mismatch |
| `Modes.NodalSystem` | pomato/grid/grid_model.py:282-283 | the N-1 system of process_cbco_nodal keeps A, b and info aligned |
| `Modes.LineOfOwnId` | pomato/grid/grid_model.py:255-256 | with unique line labels, each line's label finds that line |
| `Modes.PtdfRowLocatable` | pomato/grid/grid_model.py:255-256 | a PTDF row can be given zones iff both endpoints of its line are known nodes |
| `Modes.NodalPtdfGridRows` | pomato/grid/grid_model.py:157-163 | the nodal table succeeds iff every line's endpoints are known; row k is then line k's PTDF row, with ram maxflow * multiplier and its endpoints' zones |
| `Modes.NodalGridUnscaled` | tests/test_cbco.py:66-71 | with multiplier 1 the nodal grid holds the PTDF and the maxflows unchanged |
| `Modes.ReducedBasecaseRows` | pomato/grid/grid_model.py:146-155 | a reduced N-0 grid over PTDF a holds, in index order, the basecase row of each selected line, labelled cb_basecase, with row a[w] and maxflow * multiplier |
| `Modes.NodalClarksonRows` | pomato/grid/grid_model.py:143-155 | every row of the reduced nodal grid is the basecase row of the line at the selected position, labelled cb_basecase, with that line's PTDF row and scaled maxflow and no zones |
| `Modes.ZonalClarksonRows` | pomato/grid/grid_model.py:193-206 | every row of the reduced zonal grid is the basecase row of the line at the selected position, with that line's zonal PTDF row and scaled maxflow |
| `Modes.ZonalGridColumns` | pomato/grid/grid_model.py:208-215 | the zonal grid has one row per line, labelled by the line, whose entries are the zonal PTDF rounded to 4 decimals and whose ram is the scaled maxflow |
| `Modes.ZonalGridFailsIff` | pomato/grid/grid_model.py:209 | the zonal grid fails exactly when the key fails or does not have one row per node |
| `Modes.ZonalSystemRows` | pomato/grid/grid_model.py:364-378 | the zonal N-1 system holds the first row of every rounded key, in order, each with its projected PTDF row of one column per zone |
| `Modes.CbcoZonalRows` | pomato/grid/grid_model.py:228-241 | row p of the zonal N-1 grid is the kept N-1 row at the p-th selected position, labelled cb_co, with its zonal PTDF row and scaled ram |
| `Modes.CbcoNodalFallbackIsFull` | tests/test_cbco.py:90-99 | with a missing precalc file the N-1 grid equals the one built with cbco_option full |
| `Modes.LabelledThenZonedScaled` | pomato/grid/grid_model.py:328-330 | labelling, adding zones and scaling keep each row's PTDF and multiply its ram |
| `Modes.CbcoNodalRows` | pomato/grid/grid_model.py:308-330 | for a selected index, the N-1 nodal grid exists iff every position is in range and every selected row's line and endpoints are found; row p is then the N-1 row at position index[p], labelled cb_co, with ram * capacity_multiplier and the zones of its line's node_i and node_j |
| `Modes.CbcoNodalFullRows` | pomato/grid/grid_model.py:308-330 | the full N-1 grid holds every system row in order, labelled cb_co, with zones and scaled ram |
| `Modes.CbcoNodalUnknownOptionFails` | pomato/grid/grid_model.py:324-328 | an unknown cbco_option makes the N-1 nodal grid fail |
| `Modes.CbcoNodalReductionFailure` | pomato/grid/grid_model.py:315-328 | a redundancy removal that returns nothing makes the N-1 nodal grid fail |
| `GridModelState.GridRepresentation.constructor` | pomato/grid/grid_model.py:80-85 | every attribute of the namespace starts unset or empty |
| `GridModelState.GridModel.constructor` | pomato/grid/grid_model.py:64-85 | keeps the grid, data and options, and starts with a fresh, empty representation |
| `GridModelState.GridModel.ScaleGridRam` | pomato/grid/grid_model.py:155 | grid.ram is multiplied in place, and no other field changes |
| `GridModelState.GridModel.CreateNtc` | pomato/grid/grid_model.py:568-609 | ntc becomes the generated table over the node table's zones, and no other field changes |
| `GridModelState.GridModel.ProcessNtc` | pomato/grid/grid_model.py:557-566 | ntc becomes the supplied table, or the generated one when none is supplied |
| `GridModelState.GridModel.AddZoneToGridRepresentation` | pomato/grid/grid_model.py:244-258 | writes zone_i then zone_j; passes iff adding zones succeeds and returns the zoned table; otherwise returns the lookup error and the table as left partly written |
| `GridModelState.GridModel.ProcessNodal` | pomato/grid/grid_model.py:133-163 | passes iff the nodal grid can be built, and stores it; on failure grid is unchanged (reduced) or holds the PTDF table with zone_i if that column was written |
| `GridModelState.GridModel.AddRedispatchGrid` | pomato/grid/grid_model.py:165-175 | redispatch_grid becomes the zoned nodal PTDF table; on failure it holds the PTDF table with zone_i if that column was written; no other field changes |
| `GridModelState.GridModel.ProcessZonal` | pomato/grid/grid_model.py:177-216 | on success, grid becomes the zonal grid and ntc the generated table; on failure both are unchanged |
| `GridModelState.GridModel.ProcessCbcoZonal` | pomato/grid/grid_model.py:218-242 | with create_cbco_data given the key create_gsk(gsk) (the corrected version, see Findings): on success grid becomes the zonal N-1 grid and ntc the generated table; on failure both are unchanged |
| `GridModelState.GridModel.CbcoIndex` | pomato/grid/grid_model.py:285-326 | the index is chosen by precalc file or cbco_option, as in the specification function |
| `GridModelState.GridModel.ProcessCbcoNodal` | pomato/grid/grid_model.py:260-330 | passes iff the N-1 nodal grid can be built, and stores it; on failure grid is unchanged when selection failed, or holds the selected rows with zone_i if that column was written |
| `GridModelState.GridModel.ProcessMarketModel` | pomato/grid/grid_model.py:117-128 | runs the step of the requested type: passes iff that type's grid can be built (always for ntc and for a type outside the five); on failure the error is reported and grid and ntc are left as that step leaves them; redispatch_grid is untouched |
| `GridModelState.GridModel.CreateGridRepresentation` | pomato/grid/grid_model.py:93-131 | records option and slack data; passes iff the type's grid can be built and, when redispatch is included, the redispatch grid too; grid and ntc per type exactly as the step leaves them on success and on failure (cbco_zonal with the key create_gsk(gsk), the corrected version); redispatch_grid is unchanged unless the type step passed and redispatch is included, and is then the zoned N-0 table or, if that fails, the table as left partly zoned |

## Left out

- Running the redundancy removal is not modelled. This covers the Julia
  daemon, the CSV files it writes and reads, and `clarkson_algorithm`. The
  removal is a function parameter that returns an index list, or nothing when
  the daemon produced no result.
- `write_cbco_info` and the file writing of the `save` option are file I/O.
  `save` is modelled as selecting every row.
- Reading a precalc CSV is a parameter that returns a (cb, co) file, an index
  file, or nothing when the file does not exist.
- The grid topology's PTDF, its filtered N-1 PTDF and its slack zones are
  inputs. Their computation is not part of this model.
- Rounding (`np.round`, `.round(decimals=6)`) is a function parameter. Its
  numerical behaviour is not modelled.
- Floating point is modelled by reals. Infinities are not modelled. NaN is
  modelled only where it is a possible value: a missing demand series in the
  injection limits.
- `Gsk.Gsk`: a gmax zone whose eligible plants sum to zero capacity is a
  `ZeroZoneCapacity` error. The source does not raise there: 0/0 writes a NaN
  column and the key is returned. A flat zone without nodes is an
  `EmptyZone` error; the source raises `ZeroDivisionError` at `1/0`.
- `Gsk.CreateGsk`: a zone that fails stops the key at that zone. For flat the
  source raises `ZeroDivisionError` at that zone; for gmax it does not raise
  (see `Gsk.Gsk`). Cells that pandas may already have written in that column
  are not modelled.
- `Constraints.CreateCbcoData`: the `pd.concat` that joins the info table with
  the zonal columns aligns the two by index label. This model pairs rows by
  position.
- `Constraints.LineOf`: where the line table has a duplicate label, pandas
  returns several rows for it, so the lookup yields more rows than the grid
  has and the `.values` assignment of the zone column (lines 252-256) raises.
  This model uses the first matching line and succeeds.
- `Constraints.ZoneOf`: a duplicate node id behaves the same way. pandas
  returns several zones, the assignment raises, and the model uses the first
  matching node and succeeds.
- `GridModelState.GridModel.ProcessCbcoZonal`: models the corrected
  `create_cbco_data` call, with the key `create_gsk(gsk)`. As written, a
  non-empty gsk option fails (see Findings). An empty option skips the
  projection as written, so nodal columns remain; the model projects with the
  all-zero key that `create_gsk("")` returns.
- `Ntc.NodeZones`: `set(...)` order in Python is unspecified. This model takes
  the zones in order of first appearance. The table's rows are therefore in a
  possibly different order, but the set of rows is the same.
- The docstring of `create_ntc` speaks of "10.000" for connected zones. The
  code uses 1e5, and the model follows the code.
- Logging, timing, and the creation of the working folders are not modelled.

## Findings

| source | as written | input that shows it | evidently intended | confidence | as-written member | corrected member |
|---|---|---|---|---|---|---|
| pomato/grid/grid_model.py:374-375 | `process_cbco_zonal` passes the option string `grid_option["gsk"]` (lines 234-236) as `gsk`; `create_cbco_data` tests it with `if gsk:` and then computes `np.dot(A, gsk)` with that string | optimisation type `cbco_zonal` with `gsk = "gmax"` (or `"flat"`): the product of a matrix and a string raises | project the N-1 PTDF with the GSK matrix `create_gsk(gsk)`, as `process_zonal` does | not executed | `Constraints.AsWrittenOptionStringFails` | `Constraints.CreateCbcoData` |
