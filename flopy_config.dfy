/** The rules of mf6het3d/flopy_config.py `configure` that do not concern
    wells: argument defaults, the timing table, the storage flags, the
    constant-head boundary list and the selection of a well's screened layers. */
module FlopyConfig {
  import opened Basics

  // ---------------------------------------------------------------------
  // Arguments and their defaults

  /** The keyword arguments of `configure`; `None` asks for the default. */
  datatype Options = Options(
    simulationName: Option<string>,
    modelName: Option<string>,
    pumpingFlowRate: Option<real>,
    specificStorage: Option<real>,
    newtonRaphson: Option<bool>,
    headConvergence: Option<real>,
    hkFieldVariance: Option<real>)

  /** The values `configure` goes on with once the defaults are filled in. */
  datatype Settings = Settings(
    simDirectory: string,
    simName: string,
    modelName: string,
    pumpingFlowRate: real,
    specificStorage: real,
    newtonRaphson: bool,
    headConvergence: real,
    hkFieldVariance: real,
    innerMaximum: nat,
    outerMaximum: nat)

  const DefaultHeadConvergence: real := 0.000001
  const DefaultHkFieldVariance: real := 2.25
  /** Litres per minute. */
  const DefaultPumpingFlowRate: real := 50.0
  /** Per metre. */
  const DefaultSpecificStorage: real := 0.01
  const DefaultSimulationName: string := "mf6_sim"
  const DefaultModelName: string := "mf6_model"
  const InnerMaximumIterations: nat := 250
  const OuterMaximumIterations: nat := 100

  /** `if x is None: x = d`. */
  function OrElse<T>(x: Option<T>, d: T): T
  {
    if x.Some? then x.value else d
  }

  /** `os.path.join(a, b)` on a POSIX system. */
  function JoinPath(a: string, b: string): string
  {
    if |b| > 0 && b[0] == '/' then b
    else if |a| == 0 || a[|a| - 1] == '/' then a + b
    else a + "/" + b
  }

  /** The joined path ends with the second part, and a relative part is put
      under the first one. */
  lemma JoinPathParts(a: string, b: string)
    ensures |JoinPath(a, b)| >= |b| && JoinPath(a, b)[|JoinPath(a, b)| - |b|..] == b
    ensures (|b| == 0 || b[0] != '/') ==> |JoinPath(a, b)| >= |a| && JoinPath(a, b)[..|a|] == a
    ensures (|b| == 0 || b[0] != '/') && |a| > 0 && a[|a| - 1] != '/' ==> JoinPath(a, b) == a + "/" + b
  {
  }

  /** Lines 37-60: every missing argument takes its default, and the
      Newton-Raphson flag is set whatever was passed. */
  function Resolve(o: Options, experimentFolder: string): Settings
  {
    Settings(
      simDirectory := if o.simulationName.Some? then JoinPath(experimentFolder, o.simulationName.value) else DefaultSimulationName,
      simName := OrElse(o.simulationName, DefaultSimulationName),
      modelName := OrElse(o.modelName, DefaultModelName),
      pumpingFlowRate := OrElse(o.pumpingFlowRate, DefaultPumpingFlowRate),
      specificStorage := OrElse(o.specificStorage, DefaultSpecificStorage),
      newtonRaphson := true,
      headConvergence := OrElse(o.headConvergence, DefaultHeadConvergence),
      hkFieldVariance := OrElse(o.hkFieldVariance, DefaultHkFieldVariance),
      innerMaximum := InnerMaximumIterations,
      outerMaximum := OuterMaximumIterations)
  }

  /** A given argument is used as given; a missing one gets its default; the
      simulation is named `mf6_sim` in the directory `mf6_sim` when no name is given. */
  lemma ResolveDefaults(o: Options, experimentFolder: string)
    ensures var s := Resolve(o, experimentFolder);
      && (o.simulationName.None? ==> s.simName == "mf6_sim" && s.simDirectory == "mf6_sim")
      && (o.simulationName.Some? ==>
            s.simName == o.simulationName.value && s.simDirectory == JoinPath(experimentFolder, o.simulationName.value))
      && s.modelName == (if o.modelName.Some? then o.modelName.value else "mf6_model")
      && s.pumpingFlowRate == (if o.pumpingFlowRate.Some? then o.pumpingFlowRate.value else 50.0)
      && s.specificStorage == (if o.specificStorage.Some? then o.specificStorage.value else 0.01)
      && s.headConvergence == (if o.headConvergence.Some? then o.headConvergence.value else 0.000001)
      && s.hkFieldVariance == (if o.hkFieldVariance.Some? then o.hkFieldVariance.value else 2.25)
      && s.innerMaximum == 250 && s.outerMaximum == 100
  {
  }

  /** The `newtonoptions` the flow model is built with. */
  function NewtonOptions(newtonRaphson: bool): seq<string>
  {
    if newtonRaphson then ["UNDER_RELAXATION"] else []
  }

  /** The Newton formulation is always used, even when `newton_raphson=False` is passed. */
  lemma AlwaysNewton(o: Options, experimentFolder: string)
    ensures NewtonOptions(Resolve(o, experimentFolder).newtonRaphson) == ["UNDER_RELAXATION"]
    ensures Resolve(o, experimentFolder) == Resolve(o.(newtonRaphson := Some(false)), experimentFolder)
  {
  }

  /** The output-control file names. */
  function BudgetFile(modelName: string): string
  {
    modelName + ".bud"
  }

  function HeadFile(modelName: string): string
  {
    modelName + ".hds"
  }

  /** Both files are named after the model, and they never coincide. */
  lemma OutputFilesDistinct(modelName: string)
    ensures BudgetFile(modelName)[..|modelName|] == modelName && HeadFile(modelName)[..|modelName|] == modelName
    ensures BudgetFile(modelName) != HeadFile(modelName)
  {
    assert BudgetFile(modelName)[|modelName| + 1] == 'b';
    assert HeadFile(modelName)[|modelName| + 1] == 'h';
  }

  // ---------------------------------------------------------------------
  // Stress periods

  datatype StressPeriod = StressPeriod(id: int, length: real, nTimeSteps: nat, tsMultiplier: real, steadyState: bool)

  /** A steady period of 100 days, then three transient periods of one hour
      in 15 time steps each. */
  const StressPeriods: seq<StressPeriod> := [
    StressPeriod(0, 100.0, 1, 1.0, true),
    StressPeriod(1, 1.0 / 24.0, 15, 1.0, false),
    StressPeriod(2, 1.0 / 24.0, 15, 1.0, false),
    StressPeriod(3, 1.0 / 24.0, 15, 1.0, false)
  ]

  /** One `[length, n_time_steps, ts_multiplier]` row of the time discretisation. */
  datatype PeriodDatum = PeriodDatum(length: real, nTimeSteps: nat, tsMultiplier: real)

  function Datum(sp: StressPeriod): PeriodDatum
  {
    PeriodDatum(sp.length, sp.nTimeSteps, sp.tsMultiplier)
  }

  /** `perioddata`: the rows appended one stress period at a time. */
  function PeriodData(sps: seq<StressPeriod>): seq<PeriodDatum>
  {
    if |sps| == 0 then [] else PeriodData(sps[..|sps| - 1]) + [Datum(sps[|sps| - 1])]
  }

  /** One row per stress period, in the order of the periods. */
  lemma {:induction false} PeriodDataRows(sps: seq<StressPeriod>)
    ensures |PeriodData(sps)| == |sps|
    ensures forall i :: 0 <= i < |sps| ==>
              PeriodData(sps)[i] == PeriodDatum(sps[i].length, sps[i].nTimeSteps, sps[i].tsMultiplier)
    decreases |sps|
  {
    if |sps| > 0 {
      PeriodDataRows(sps[..|sps| - 1]);
    }
  }

  method BuildPeriodData(sps: seq<StressPeriod>) returns (perioddata: seq<PeriodDatum>)
    ensures perioddata == PeriodData(sps)
  {
    perioddata := [];
    var i := 0;
    while i < |sps|
      invariant 0 <= i <= |sps|
      invariant perioddata == PeriodData(sps[..i])
    {
      assert sps[..i + 1][..i] == sps[..i];
      perioddata := perioddata + [Datum(sps[i])];
      i := i + 1;
    }
    assert sps[..i] == sps;
  }

  /** The identifiers of the stress periods. */
  function PeriodIds(sps: seq<StressPeriod>): set<int>
  {
    set i | 0 <= i < |sps| :: sps[i].id
  }

  /** The four periods are numbered 0 to 3, and only the first is steady. */
  lemma ConfiguredPeriods()
    ensures |StressPeriods| == 4
    ensures forall i :: 0 <= i < 4 ==> StressPeriods[i].id == i
    ensures forall i :: 0 <= i < 4 ==> (StressPeriods[i].steadyState <==> i == 0)
    ensures PeriodData(StressPeriods) ==
              [PeriodDatum(100.0, 1, 1.0), PeriodDatum(1.0 / 24.0, 15, 1.0),
               PeriodDatum(1.0 / 24.0, 15, 1.0), PeriodDatum(1.0 / 24.0, 15, 1.0)]
  {
    PeriodDataRows(StressPeriods);
  }

  // ---------------------------------------------------------------------
  // Storage

  /** `steady_state`: a later period with the same id overwrites an earlier one. */
  function SteadyMap(sps: seq<StressPeriod>): map<int, bool>
  {
    if |sps| == 0 then map[] else SteadyMap(sps[..|sps| - 1])[sps[|sps| - 1].id := sps[|sps| - 1].steadyState]
  }

  /** `transient_state`. */
  function TransientMap(sps: seq<StressPeriod>): map<int, bool>
  {
    if |sps| == 0 then map[] else TransientMap(sps[..|sps| - 1])[sps[|sps| - 1].id := !sps[|sps| - 1].steadyState]
  }

  method BuildStorageMaps(sps: seq<StressPeriod>) returns (steady: map<int, bool>, transient: map<int, bool>)
    ensures steady == SteadyMap(sps) && transient == TransientMap(sps)
  {
    steady, transient := map[], map[];
    var i := 0;
    while i < |sps|
      invariant 0 <= i <= |sps|
      invariant steady == SteadyMap(sps[..i]) && transient == TransientMap(sps[..i])
    {
      assert sps[..i + 1][..i] == sps[..i];
      steady := steady[sps[i].id := sps[i].steadyState];
      transient := transient[sps[i].id := !sps[i].steadyState];
      i := i + 1;
    }
    assert sps[..i] == sps;
  }

  lemma PeriodIdsSnoc(sps: seq<StressPeriod>)
    requires |sps| > 0
    ensures PeriodIds(sps) == PeriodIds(sps[..|sps| - 1]) + {sps[|sps| - 1].id}
  {
    var front := sps[..|sps| - 1];
    forall id | id in PeriodIds(sps)
      ensures id in PeriodIds(front) + {sps[|sps| - 1].id}
    {
      var i :| 0 <= i < |sps| && sps[i].id == id;
      if i < |sps| - 1 {
        assert front[i] == sps[i];
      }
    }
    forall id | id in PeriodIds(front)
      ensures id in PeriodIds(sps)
    {
      var i :| 0 <= i < |front| && front[i].id == id;
      assert sps[i] == front[i];
    }
  }

  /** Both maps have one key per stress-period id, and every period is either
      steady or transient, never both. */
  lemma {:induction false} StorageMapsComplementary(sps: seq<StressPeriod>)
    ensures SteadyMap(sps).Keys == PeriodIds(sps) && TransientMap(sps).Keys == PeriodIds(sps)
    ensures forall id :: id in SteadyMap(sps) ==> TransientMap(sps)[id] == !SteadyMap(sps)[id]
    decreases |sps|
  {
    if |sps| > 0 {
      StorageMapsComplementary(sps[..|sps| - 1]);
      PeriodIdsSnoc(sps);
    }
  }

  /** With distinct ids, each period keeps its own flag. */
  lemma {:induction false} StorageMapsOwnFlags(sps: seq<StressPeriod>)
    requires forall i, j :: 0 <= i < j < |sps| ==> sps[i].id != sps[j].id
    ensures forall i :: 0 <= i < |sps| ==> sps[i].id in SteadyMap(sps) && SteadyMap(sps)[sps[i].id] == sps[i].steadyState
    decreases |sps|
  {
    if |sps| > 0 {
      var front := sps[..|sps| - 1];
      StorageMapsOwnFlags(front);
      forall i | 0 <= i < |sps| - 1
        ensures sps[i].id in SteadyMap(sps) && SteadyMap(sps)[sps[i].id] == sps[i].steadyState
      {
        assert front[i] == sps[i];
      }
    }
  }

  /** Period 0 is steady and periods 1 to 3 are transient. */
  lemma ConfiguredStorage()
    ensures SteadyMap(StressPeriods) == map[0 := true, 1 := false, 2 := false, 3 := false]
    ensures TransientMap(StressPeriods) == map[0 := false, 1 := true, 2 := true, 3 := true]
  {
    var sps := StressPeriods;
    assert sps[..1][..0] == [];
    assert sps[..2][..1] == sps[..1];
    assert sps[..3][..2] == sps[..2];
    assert sps[..4] == sps;
    assert SteadyMap(sps[..1]) == map[0 := true];
    assert SteadyMap(sps[..2]) == map[0 := true, 1 := false];
    assert SteadyMap(sps[..3]) == map[0 := true, 1 := false, 2 := false];
    assert TransientMap(sps[..1]) == map[0 := false];
    assert TransientMap(sps[..2]) == map[0 := false, 1 := true];
    assert TransientMap(sps[..3]) == map[0 := false, 1 := true, 2 := true];
  }

  // ---------------------------------------------------------------------
  // Layers

  /** Layer bottoms are equally spaced: `np.linspace(top - top / nlay, 0, nlay)`
      with the top at `nlay`, the elevations `nlay - 1, ..., 1, 0`. */
  function Bottoms(nlay: nat): (b: seq<real>)
    requires nlay > 0
    ensures |b| == nlay
  {
    seq(nlay, i requires 0 <= i < nlay => (nlay - 1 - i) as real)
  }

  /** Tolerance when comparing layer bottoms with a screen. */
  const BottomTolerance: real := 0.0000001

  /** A layer is screened when its bottom is not above the screen top and
      lies above the screen bottom. */
  predicate Screened(bottom: real, screenBottom: real, screenTop: real)
  {
    bottom - screenTop < BottomTolerance && bottom - screenBottom >= BottomTolerance
  }

  /** `list(np.where(mask)[0])` for the mask of screened layers. */
  function ScreenedLayers(bottoms: seq<real>, screenBottom: real, screenTop: real): (layers: seq<nat>)
    ensures forall i :: 0 <= i < |layers| ==> layers[i] < |bottoms|
    decreases |bottoms|
  {
    if |bottoms| == 0 then []
    else
      ScreenedLayers(bottoms[..|bottoms| - 1], screenBottom, screenTop)
      + (if Screened(bottoms[|bottoms| - 1], screenBottom, screenTop) then [|bottoms| - 1] else [])
  }

  /** The selected layers are exactly the screened ones, in ascending order. */
  lemma {:induction false} ScreenedLayersExact(bottoms: seq<real>, screenBottom: real, screenTop: real)
    ensures forall j :: j in ScreenedLayers(bottoms, screenBottom, screenTop) <==>
              0 <= j < |bottoms| && Screened(bottoms[j], screenBottom, screenTop)
    ensures forall a, b :: 0 <= a < b < |ScreenedLayers(bottoms, screenBottom, screenTop)| ==>
              ScreenedLayers(bottoms, screenBottom, screenTop)[a] < ScreenedLayers(bottoms, screenBottom, screenTop)[b]
    decreases |bottoms|
  {
    if |bottoms| > 0 {
      var front := bottoms[..|bottoms| - 1];
      ScreenedLayersExact(front, screenBottom, screenTop);
      forall j | 0 <= j < |front|
        ensures front[j] == bottoms[j]
      {
      }
    }
  }

  /** An ascending list whose only member is `x` is `[x]`. */
  lemma SingletonOfAscending(xs: seq<nat>, x: nat)
    requires forall j :: j in xs <==> j == x
    requires forall a, b :: 0 <= a < b < |xs| ==> xs[a] < xs[b]
    ensures xs == [x]
  {
    assert x in xs;
    assert xs[0] in xs && xs[|xs| - 1] in xs;
  }

  /** With ten layers of unit thickness, a screen from 1 to 2 selects layer 7
      and a screen from 3 to 4 selects layer 5. */
  lemma ScreenExamples()
    ensures ScreenedLayers(Bottoms(10), 1.0, 2.0) == [7]
    ensures ScreenedLayers(Bottoms(10), 3.0, 4.0) == [5]
  {
    ScreenedLayersExact(Bottoms(10), 1.0, 2.0);
    ScreenedLayersExact(Bottoms(10), 3.0, 4.0);
    SingletonOfAscending(ScreenedLayers(Bottoms(10), 1.0, 2.0), 7);
    SingletonOfAscending(ScreenedLayers(Bottoms(10), 3.0, 4.0), 5);
  }

  // ---------------------------------------------------------------------
  // Constant heads

  /** A structured-grid cell id `(row, col)` as returned by the grid intersection. */
  datatype Cell = Cell(row: nat, col: nat)

  /** One constant-head entry `[(layer, row, col), head]`. */
  datatype ChdEntry = ChdEntry(layer: nat, row: nat, col: nat, head: real)

  datatype ConstantHead = ConstantHead(name: string, head: real)

  /** The inlet boundary on the left edge and the outlet on the right edge. */
  const ConstantHeadData: seq<ConstantHead> := [ConstantHead("inlet", 110.0), ConstantHead("outlet", 100.0)]

  /** The entries of one boundary in one layer, one per intersected cell. */
  function LayerEntries(head: real, cells: seq<Cell>, layer: nat): (es: seq<ChdEntry>)
    ensures |es| == |cells|
  {
    seq(|cells|, c requires 0 <= c < |cells| => ChdEntry(layer, cells[c].row, cells[c].col, head))
  }

  /** The entries of one boundary in the layers `0 .. nlay - 1`. */
  function BoundaryEntries(head: real, cells: seq<Cell>, nlay: nat): seq<ChdEntry>
  {
    if nlay == 0 then [] else BoundaryEntries(head, cells, nlay - 1) + LayerEntries(head, cells, nlay - 1)
  }

  /** `chd_stress_period`: boundary by boundary. */
  function ChdList(heads: seq<real>, cells: seq<seq<Cell>>, nlay: nat): seq<ChdEntry>
    requires |cells| == |heads|
  {
    if |heads| == 0 then []
    else ChdList(heads[..|heads| - 1], cells[..|cells| - 1], nlay) + BoundaryEntries(heads[|heads| - 1], cells[|cells| - 1], nlay)
  }

  lemma {:induction false} BoundaryEntriesLength(head: real, cells: seq<Cell>, nlay: nat)
    ensures |BoundaryEntries(head, cells, nlay)| == nlay * |cells|
    decreases nlay
  {
    if nlay > 0 {
      BoundaryEntriesLength(head, cells, nlay - 1);
      NextLayerOffset(nlay - 1, |cells|);
    }
  }

  lemma NextLayerOffset(n: nat, width: nat)
    ensures n * width + width == (n + 1) * width
  {
  }

  lemma LayerOffsetBelow(l: nat, c: nat, n: nat, width: nat)
    requires l < n && c < width
    ensures l * width + c < n * width
  {
    assert (l + 1) * width <= n * width by {
      assert l + 1 <= n;
    }
  }

  /** Within a boundary the entries run layer by layer, and cell by cell
      inside a layer: entry `l * |cells| + c` is cell `c` of layer `l`. */
  lemma {:induction false} BoundaryEntryAt(head: real, cells: seq<Cell>, nlay: nat, l: nat, c: nat)
    requires l < nlay && c < |cells|
    ensures l * |cells| + c < |BoundaryEntries(head, cells, nlay)|
    ensures BoundaryEntries(head, cells, nlay)[l * |cells| + c] == ChdEntry(l, cells[c].row, cells[c].col, head)
    decreases nlay
  {
    BoundaryEntriesLength(head, cells, nlay);
    BoundaryEntriesLength(head, cells, nlay - 1);
    if l < nlay - 1 {
      LayerOffsetBelow(l, c, nlay - 1, |cells|);
      BoundaryEntryAt(head, cells, nlay - 1, l, c);
    }
  }

  method BuildChd(heads: seq<real>, cells: seq<seq<Cell>>, nlay: nat) returns (chd: seq<ChdEntry>)
    requires |cells| == |heads|
    ensures chd == ChdList(heads, cells, nlay)
  {
    chd := [];
    var b := 0;
    while b < |heads|
      invariant 0 <= b <= |heads|
      invariant chd == ChdList(heads[..b], cells[..b], nlay)
    {
      ghost var before := chd;
      var layer := 0;
      while layer < nlay
        invariant 0 <= layer <= nlay
        invariant chd == before + BoundaryEntries(heads[b], cells[b], layer)
      {
        ghost var done := chd;
        var c := 0;
        while c < |cells[b]|
          invariant 0 <= c <= |cells[b]|
          invariant chd == done + LayerEntries(heads[b], cells[b], layer)[..c]
        {
          assert LayerEntries(heads[b], cells[b], layer)[..c + 1]
              == LayerEntries(heads[b], cells[b], layer)[..c] + [ChdEntry(layer, cells[b][c].row, cells[b][c].col, heads[b])];
          chd := chd + [ChdEntry(layer, cells[b][c].row, cells[b][c].col, heads[b])];
          c := c + 1;
        }
        assert LayerEntries(heads[b], cells[b], layer)[..c] == LayerEntries(heads[b], cells[b], layer);
        layer := layer + 1;
      }
      assert heads[..b + 1][..b] == heads[..b] && cells[..b + 1][..b] == cells[..b];
      b := b + 1;
    }
    assert heads[..b] == heads && cells[..b] == cells;
  }

  /** The two boundaries of the model: `nlay * |inlet|` entries at head 110,
      then `nlay * |outlet|` entries at head 100. */
  lemma ConfiguredChd(inlet: seq<Cell>, outlet: seq<Cell>, nlay: nat)
    ensures ChdList([110.0, 100.0], [inlet, outlet], nlay) == BoundaryEntries(110.0, inlet, nlay) + BoundaryEntries(100.0, outlet, nlay)
    ensures |ChdList([110.0, 100.0], [inlet, outlet], nlay)| == nlay * |inlet| + nlay * |outlet|
    ensures forall i :: 0 <= i < |ChdList([110.0, 100.0], [inlet, outlet], nlay)| ==>
              ChdList([110.0, 100.0], [inlet, outlet], nlay)[i].head == if i < nlay * |inlet| then 110.0 else 100.0
  {
    var first := BoundaryEntries(110.0, inlet, nlay);
    var second := BoundaryEntries(100.0, outlet, nlay);
    assert [110.0, 100.0][..1] == [110.0] && [inlet, outlet][..1] == [inlet];
    assert [110.0][..0] == [] && [inlet][..0] == [];
    assert ChdList([110.0], [inlet], nlay) == [] + first;
    assert [] + first == first;
    BoundaryEntriesLength(110.0, inlet, nlay);
    BoundaryEntriesLength(100.0, outlet, nlay);
    BoundaryHeads(110.0, inlet, nlay);
    BoundaryHeads(100.0, outlet, nlay);
  }

  /** Every entry of a boundary carries that boundary's head. */
  lemma {:induction false} BoundaryHeads(head: real, cells: seq<Cell>, nlay: nat)
    ensures forall i :: 0 <= i < |BoundaryEntries(head, cells, nlay)| ==> BoundaryEntries(head, cells, nlay)[i].head == head
    decreases nlay
  {
    if nlay > 0 {
      BoundaryHeads(head, cells, nlay - 1);
    }
  }
}
