/** `configure` of mf6het3d/flopy_config.py as a whole: the packages it
    assembles for one scenario, from the conductivity field and the cells the
    grid intersection returns. */
module Configure {
  import opened Basics
  import opened Mf6Packages
  import opened FlopyConfig
  import opened FlopyWells

  /** The grid the conductivity field fixes: 10 layers of 100 by 100 cells. */
  const NLay: nat := 10
  const NRow: nat := 100
  const NCol: nat := 100

  /** What `configure` hands to the simulation's packages. */
  datatype Deck = Deck(
    settings: Settings,
    newtonOptions: seq<string>,
    nper: nat,
    perioddata: seq<PeriodDatum>,
    chd: seq<ChdEntry>,
    wel: map<int, seq<WelEntry>>,
    k33: Option<Field>,
    steady: map<int, bool>,
    transient: map<int, bool>,
    budgetFile: string,
    headFile: string)

  /** The heads of the constant-head boundaries, in order. */
  function Heads(chs: seq<ConstantHead>): seq<real>
  {
    seq(|chs|, i requires 0 <= i < |chs| => chs[i].head)
  }

  /** The four wells at the cells the intersection found for them. */
  function ConfiguredWells(q: real, wellCells: seq<seq<Cell>>): seq<Located>
    requires |wellCells| == 4
  {
    seq(4, i requires 0 <= i < 4 => LocatedAt(WellsData(q)[i], wellCells[i], Bottoms(NLay)))
  }

  predicate CellsInGrid(cs: seq<Cell>)
  {
    forall i :: 0 <= i < |cs| ==> cs[i].row < NRow && cs[i].col < NCol
  }

  /** The result of `configure`, or the error that stops it. */
  function ConfigureSpec(o: Options, experimentFolder: string, k: Field,
                         boundaryCells: seq<seq<Cell>>, wellCells: seq<seq<Cell>>): Result<Deck, ConfigError>
    requires |boundaryCells| == |ConstantHeadData| && |wellCells| == 4
  {
    var s := Resolve(o, experimentFolder);
    var ws := ConfiguredWells(s.pumpingFlowRate, wellCells);
    match WelStressPeriods(StressPeriods, ws)
    case Err(e) => Err(e)
    case Ok(wel) =>
      Ok(Deck(s, NewtonOptions(s.newtonRaphson), |StressPeriods|, PeriodData(StressPeriods),
              ChdList(Heads(ConstantHeadData), boundaryCells, NLay), wel, FinalK33(ws, k, NCol, None),
              SteadyMap(StressPeriods), TransientMap(StressPeriods),
              BudgetFile(s.modelName), HeadFile(s.modelName)))
  }

  lemma NodeInGrid(c: Cell)
    requires c.row < NRow && c.col < NCol
    ensures Node(c, NCol) < NRow * NCol
  {
  }

  /** The located wells lie within the field. */
  lemma ConfiguredWellsInField(q: real, wellCells: seq<seq<Cell>>, k: Field)
    requires |wellCells| == 4 && IsField(k, NLay, NRow * NCol)
    requires forall i :: 0 <= i < 4 ==> CellsInGrid(wellCells[i])
    ensures AllInField(ConfiguredWells(q, wellCells), k, NCol)
  {
    var ws := ConfiguredWells(q, wellCells);
    forall i | 0 <= i < 4
      ensures InField(ws[i], k, NCol)
    {
      if |ws[i].cellids| == 1 {
        NodeInGrid(ws[i].cellids[0]);
      }
    }
  }

  /** `wells_data`: four dictionaries, not yet located. */
  method NewWells(data: seq<WellData>) returns (wells: seq<ConfigWell>)
    requires |data| == 4
    ensures |wells| == 4
    ensures forall i :: 0 <= i < 4 ==> fresh(wells[i])
    ensures forall i, j :: 0 <= i < j < 4 ==> wells[i] != wells[j]
    ensures forall i :: 0 <= i < 4 ==>
              wells[i].id == data[i].id && wells[i].screenBottom == data[i].screenBottom
              && wells[i].screenTop == data[i].screenTop && wells[i].pumping == data[i].pumping
  {
    var w1 := new ConfigWell(data[0]);
    var w2 := new ConfigWell(data[1]);
    var w3 := new ConfigWell(data[2]);
    var w4 := new ConfigWell(data[3]);
    wells := [w1, w2, w3, w4];
  }

  /** `configure(**scenario)` for the conductivity field `k`, the cells of the
      two boundary lines and the cells of the four well points. */
  method Configure(o: Options, experimentFolder: string, k: Field,
                   boundaryCells: seq<seq<Cell>>, wellCells: seq<seq<Cell>>)
    returns (r: Result<Deck, ConfigError>)
    requires IsField(k, NLay, NRow * NCol)
    requires |boundaryCells| == |ConstantHeadData| && |wellCells| == 4
    requires forall i :: 0 <= i < 4 ==> CellsInGrid(wellCells[i])
    ensures r == ConfigureSpec(o, experimentFolder, k, boundaryCells, wellCells)
  {
    var s := Resolve(o, experimentFolder);
    var newtonOptions := NewtonOptions(s.newtonRaphson);
    var perioddata := BuildPeriodData(StressPeriods);
    var bottoms := Bottoms(NLay);
    var npf := new NpfPackage(k, None);
    var chd := BuildChd(Heads(ConstantHeadData), boundaryCells, NLay);
    var data := WellsData(s.pumpingFlowRate);
    var wells := NewWells(data);
    LocateWells(wells, wellCells, bottoms);
    ghost var ws := ConfiguredWells(s.pumpingFlowRate, wellCells);
    assert Values(wells) == ws by {
      forall i | 0 <= i < 4
        ensures Values(wells)[i] == ws[i]
      {
      }
    }
    ConfiguredWellsInField(s.pumpingFlowRate, wellCells, k);
    var wel := BuildWel(StressPeriods, wells, NCol, npf);
    if wel.Err? {
      return Err(wel.error);
    }
    var steady, transient := BuildStorageMaps(StressPeriods);
    r := Ok(Deck(s, newtonOptions, |StressPeriods|, perioddata, chd, wel.value, npf.k33,
                 steady, transient, BudgetFile(s.modelName), HeadFile(s.modelName)));
  }

  // ---------------------------------------------------------------------
  // Properties of the configured model

  /** Wells W1 and W2 are screened in layer 7, W3 and W4 in layer 5. */
  lemma ConfiguredLayers(q: real, wellCells: seq<seq<Cell>>)
    requires |wellCells| == 4
    ensures ConfiguredWells(q, wellCells)[0].layers == [7] && ConfiguredWells(q, wellCells)[1].layers == [7]
    ensures ConfiguredWells(q, wellCells)[2].layers == [5] && ConfiguredWells(q, wellCells)[3].layers == [5]
  {
    ScreenExamples();
  }

  /** Every well schedules all four periods. */
  lemma ConfiguredSchedules(q: real, wellCells: seq<seq<Cell>>, i: nat)
    requires |wellCells| == 4 && i < 4
    ensures |ConfiguredWells(q, wellCells)[i].pumping| == 4
    ensures forall j :: 0 <= j < 4 ==> ConfiguredWells(q, wellCells)[i].pumping[j].stressPeriodId == j
  {
  }

  /** The period ids are 0 to 3. */
  lemma ConfiguredPeriodIds()
    ensures PeriodIds(StressPeriods) == {0, 1, 2, 3}
  {
    ConfiguredPeriods();
    assert StressPeriods[0].id == 0 && StressPeriods[1].id == 1 && StressPeriods[2].id == 2 && StressPeriods[3].id == 3;
  }

  /** `configure` gets through the wells exactly when the intersection found a
      single cell for each of the four. */
  lemma ConfigureSucceeds(o: Options, experimentFolder: string, k: Field,
                          boundaryCells: seq<seq<Cell>>, wellCells: seq<seq<Cell>>)
    requires |boundaryCells| == |ConstantHeadData| && |wellCells| == 4
    ensures ConfigureSpec(o, experimentFolder, k, boundaryCells, wellCells).Ok? <==>
              forall i :: 0 <= i < 4 ==> |wellCells[i]| == 1
  {
    var s := Resolve(o, experimentFolder);
    var ws := ConfiguredWells(s.pumpingFlowRate, wellCells);
    WelContents(StressPeriods, ws);
    ConfiguredLayers(s.pumpingFlowRate, wellCells);
    ConfiguredPeriodIds();
    forall i | 0 <= i < 4
      ensures Fits(ws[i], PeriodIds(StressPeriods)) <==> |wellCells[i]| == 1
    {
      ConfiguredSchedules(s.pumpingFlowRate, wellCells, i);
    }
  }

  /** The configured model uses the Newton formulation and four periods of
      which only the first is steady. */
  lemma ConfiguredDeck(o: Options, experimentFolder: string, k: Field,
                       boundaryCells: seq<seq<Cell>>, wellCells: seq<seq<Cell>>)
    requires |boundaryCells| == |ConstantHeadData| && |wellCells| == 4
    requires forall i :: 0 <= i < 4 ==> |wellCells[i]| == 1
    ensures ConfigureSpec(o, experimentFolder, k, boundaryCells, wellCells).Ok?
    ensures var d := ConfigureSpec(o, experimentFolder, k, boundaryCells, wellCells).value;
      && d.newtonOptions == ["UNDER_RELAXATION"]
      && d.nper == 4
      && d.steady == map[0 := true, 1 := false, 2 := false, 3 := false]
      && d.transient == map[0 := false, 1 := true, 2 := true, 3 := true]
  {
    ConfigureSucceeds(o, experimentFolder, k, boundaryCells, wellCells);
    AlwaysNewton(o, experimentFolder);
    ConfiguredPeriods();
    ConfiguredStorage();
  }

  /** The configured well package has one list per period, and in each the
      extraction matches the injection. */
  lemma ConfiguredWelBalanced(o: Options, experimentFolder: string, k: Field,
                              boundaryCells: seq<seq<Cell>>, wellCells: seq<seq<Cell>>)
    requires |boundaryCells| == |ConstantHeadData| && |wellCells| == 4
    requires forall i :: 0 <= i < 4 ==> |wellCells[i]| == 1
    ensures ConfigureSpec(o, experimentFolder, k, boundaryCells, wellCells).Ok?
    ensures ConfigureSpec(o, experimentFolder, k, boundaryCells, wellCells).value.wel.Keys == {0, 1, 2, 3}
    ensures forall sp :: sp in ConfigureSpec(o, experimentFolder, k, boundaryCells, wellCells).value.wel ==>
              Sum(Rates(ConfigureSpec(o, experimentFolder, k, boundaryCells, wellCells).value.wel[sp])) == 0.0
  {
    ConfigureSucceeds(o, experimentFolder, k, boundaryCells, wellCells);
    var s := Resolve(o, experimentFolder);
    var ws := ConfiguredWells(s.pumpingFlowRate, wellCells);
    ConfiguredPeriodIds();
    WelContents(StressPeriods, ws);
    var wel := WelStressPeriods(StressPeriods, ws).value;
    forall sp | sp in wel
      ensures Sum(Rates(wel[sp])) == 0.0
    {
      WelConservesRates(StressPeriods, ws, sp);
      ConfiguredRateBalanced(s.pumpingFlowRate, wellCells, sp);
    }
  }

  /** Every configured well is screened in a single layer, so `k33` ends up equal to `k`. */
  lemma ConfiguredK33(o: Options, experimentFolder: string, k: Field,
                      boundaryCells: seq<seq<Cell>>, wellCells: seq<seq<Cell>>)
    requires |boundaryCells| == |ConstantHeadData| && |wellCells| == 4
    requires forall i :: 0 <= i < 4 ==> |wellCells[i]| == 1
    ensures ConfigureSpec(o, experimentFolder, k, boundaryCells, wellCells).Ok?
    ensures ConfigureSpec(o, experimentFolder, k, boundaryCells, wellCells).value.k33 == Some(k)
  {
    ConfigureSucceeds(o, experimentFolder, k, boundaryCells, wellCells);
    var s := Resolve(o, experimentFolder);
    var ws := ConfiguredWells(s.pumpingFlowRate, wellCells);
    ConfiguredLayers(s.pumpingFlowRate, wellCells);
    ConfiguredSchedules(s.pumpingFlowRate, wellCells, 3);
    SingleLayerWellsKeepK(ws, k, NCol, None);
  }

  lemma ConfiguredRateBalanced(q: real, wellCells: seq<seq<Cell>>, sp: int)
    requires |wellCells| == 4
    ensures WellsRate(ConfiguredWells(q, wellCells), sp) == 0.0
  {
    var ws := ConfiguredWells(q, wellCells);
    var data := WellsData(q);
    assert ws[..1][..0] == [] && ws[..2][..1] == ws[..1] && ws[..3][..2] == ws[..2] && ws[..4] == ws;
    assert forall i :: 0 <= i < 4 ==> ws[i].pumping == data[i].pumping;
    assert WellsRate(ws[..1], sp) == PumpingRate(data[0].pumping, sp);
    assert WellsRate(ws[..2], sp) == WellsRate(ws[..1], sp) + PumpingRate(data[1].pumping, sp);
    assert WellsRate(ws[..3], sp) == WellsRate(ws[..2], sp) + PumpingRate(data[2].pumping, sp);
    assert WellsRate(ws, sp) == WellsRate(ws[..3], sp) + PumpingRate(data[3].pumping, sp);
    WellsDataBalanced(q, sp);
  }

  /** The constant-head list of the configured model: each boundary's cells
      in all ten layers, inlet entries at head 110 first, then outlet entries at head 100. */
  lemma ConfiguredConstantHeads(boundaryCells: seq<seq<Cell>>)
    requires |boundaryCells| == |ConstantHeadData|
    ensures |ChdList(Heads(ConstantHeadData), boundaryCells, NLay)| == 10 * |boundaryCells[0]| + 10 * |boundaryCells[1]|
    ensures forall i :: 0 <= i < |ChdList(Heads(ConstantHeadData), boundaryCells, NLay)| ==>
              ChdList(Heads(ConstantHeadData), boundaryCells, NLay)[i].head == if i < 10 * |boundaryCells[0]| then 110.0 else 100.0
  {
    assert Heads(ConstantHeadData) == [110.0, 100.0];
    assert boundaryCells == [boundaryCells[0], boundaryCells[1]];
    ConfiguredChd(boundaryCells[0], boundaryCells[1], NLay);
  }
}
