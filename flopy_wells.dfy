/** The wells of mf6het3d/flopy_config.py `configure`: the four well
    definitions, their location on the grid, the dictionary
    `wel_stress_period` and the rewriting of `k33` for each pumping entry. */
module FlopyWells {
  import opened Basics
  import opened Mf6Packages
  import opened FlopyConfig

  // ---------------------------------------------------------------------
  // The well definitions

  /** A well as written in `wells_data`, before it is located on the grid. */
  datatype WellData = WellData(id: string, screenBottom: real, screenTop: real, pumping: seq<Pumping>)

  /** The pumping rate in cubic metres per day for `q` litres per minute. */
  function DailyRate(q: real): real
  {
    q * 1440.0 / 1000.0
  }

  /** A well that pumps `rate` in stress period `active` and nothing in the
      other three periods. */
  function Schedule(active: int, rate: real): seq<Pumping>
  {
    seq(4, i requires 0 <= i < 4 => Pumping(i, if i == active then rate else 0.0))
  }

  /** W1 extracts and W2 injects in period 1; W3 extracts and W4 injects in
      period 2. The first pair is screened from 1 to 2, the second from 3 to 4. */
  function WellsData(q: real): seq<WellData>
  {
    [ WellData("W1", 1.0, 2.0, Schedule(1, -DailyRate(q))),
      WellData("W2", 1.0, 2.0, Schedule(1, DailyRate(q))),
      WellData("W3", 3.0, 4.0, Schedule(2, -DailyRate(q))),
      WellData("W4", 3.0, 4.0, Schedule(2, DailyRate(q))) ]
  }

  /** The sum of the rates `ps` schedules for stress period `sp`. */
  function PumpingRate(ps: seq<Pumping>, sp: int): real
  {
    if |ps| == 0 then 0.0
    else PumpingRate(ps[..|ps| - 1], sp) + (if ps[|ps| - 1].stressPeriodId == sp then ps[|ps| - 1].flowRate else 0.0)
  }

  lemma ScheduleRate(active: int, rate: real, sp: int)
    ensures PumpingRate(Schedule(active, rate), sp) == if 0 <= sp < 4 && sp == active then rate else 0.0
  {
    var s := Schedule(active, rate);
    assert s[..1][..0] == [] && s[..2][..1] == s[..1] && s[..3][..2] == s[..2] && s[..4] == s;
    assert PumpingRate(s[..1], sp) == if sp == 0 then s[0].flowRate else 0.0;
    assert PumpingRate(s[..2], sp) == PumpingRate(s[..1], sp) + if sp == 1 then s[1].flowRate else 0.0;
    assert PumpingRate(s[..3], sp) == PumpingRate(s[..2], sp) + if sp == 2 then s[2].flowRate else 0.0;
    assert PumpingRate(s, sp) == PumpingRate(s[..3], sp) + if sp == 3 then s[3].flowRate else 0.0;
  }

  /** In every stress period the four wells inject exactly what they extract. */
  lemma WellsDataBalanced(q: real, sp: int)
    ensures PumpingRate(WellsData(q)[0].pumping, sp) + PumpingRate(WellsData(q)[1].pumping, sp)
          + PumpingRate(WellsData(q)[2].pumping, sp) + PumpingRate(WellsData(q)[3].pumping, sp) == 0.0
  {
    ScheduleRate(1, -DailyRate(q), sp);
    ScheduleRate(1, DailyRate(q), sp);
    ScheduleRate(2, -DailyRate(q), sp);
    ScheduleRate(2, DailyRate(q), sp);
  }

  /** A well after the intersection: its cell ids and its screened layers. */
  datatype Located = Located(id: string, cellids: seq<Cell>, layers: seq<nat>, pumping: seq<Pumping>)

  /** A well dictionary of `wells_data`; the location loop writes its
      `cellids` and `layers` in place. */
  class ConfigWell {
    const id: string
    const screenBottom: real
    const screenTop: real
    const pumping: seq<Pumping>
    var cellids: seq<Cell>
    var layers: seq<nat>

    constructor (d: WellData)
      ensures id == d.id && screenBottom == d.screenBottom && screenTop == d.screenTop && pumping == d.pumping
      ensures cellids == [] && layers == []
    {
      id := d.id;
      screenBottom := d.screenBottom;
      screenTop := d.screenTop;
      pumping := d.pumping;
      cellids := [];
      layers := [];
    }

    function Value(): Located
      reads this
    {
      Located(id, cellids, layers, pumping)
    }

    /** `w['cellids'] = intersect['cellids']; w['layers'] = list(np.where(...)[0])`. */
    method Locate(intersection: seq<Cell>, bottoms: seq<real>)
      modifies this
      ensures cellids == intersection && layers == ScreenedLayers(bottoms, screenBottom, screenTop)
    {
      cellids := intersection;
      layers := ScreenedLayers(bottoms, screenBottom, screenTop);
    }
  }

  function Values(wells: seq<ConfigWell>): seq<Located>
    reads set i | 0 <= i < |wells| :: wells[i]
  {
    seq(|wells|, i reads wells requires 0 <= i < |wells| => wells[i].Value())
  }

  /** The well `d` located at `intersection` above the layers with bottoms `bottoms`. */
  function LocatedAt(d: WellData, intersection: seq<Cell>, bottoms: seq<real>): Located
  {
    Located(d.id, intersection, ScreenedLayers(bottoms, d.screenBottom, d.screenTop), d.pumping)
  }

  /** The loop `for w in wells_data` that intersects each well with the grid. */
  method LocateWells(wells: seq<ConfigWell>, intersections: seq<seq<Cell>>, bottoms: seq<real>)
    requires |intersections| == |wells|
    requires forall i, j :: 0 <= i < j < |wells| ==> wells[i] != wells[j]
    modifies set i | 0 <= i < |wells| :: wells[i]
    ensures forall i :: 0 <= i < |wells| ==>
              wells[i].cellids == intersections[i]
              && wells[i].layers == ScreenedLayers(bottoms, wells[i].screenBottom, wells[i].screenTop)
  {
    var i := 0;
    while i < |wells|
      invariant 0 <= i <= |wells|
      invariant forall j :: 0 <= j < i ==>
                  wells[j].cellids == intersections[j]
                  && wells[j].layers == ScreenedLayers(bottoms, wells[j].screenBottom, wells[j].screenTop)
    {
      wells[i].Locate(intersections[i], bottoms);
      i := i + 1;
    }
  }

  // ---------------------------------------------------------------------
  // The dictionary `wel_stress_period`, as a function of the inputs

  /** One entry of the well package: `[(layer, row, col), flow_rate, boundname]`. */
  datatype WelEntry = WelEntry(layer: nat, row: nat, col: nat, rate: real, boundName: string)

  datatype ConfigError =
      /** `w['cellids'].item()` when the intersection found more or fewer than one cell. */
    | CellNotUnique(wellId: string)
      /** `w['layers'][-1]` for a well without a screened layer. */
    | NoScreenedLayer(wellId: string)
      /** `wel_stress_period[id]` for an id that is not a stress period. */
    | UnknownStressPeriod(stressPeriodId: int)

  /** The node of cell `(row, col)` in a field of `ncol` columns. */
  function Node(c: Cell, ncol: nat): nat
  {
    c.row * ncol + c.col
  }

  /** The layers of the well, and its cell when it has a single one, lie within the field `k`. */
  predicate InField(w: Located, k: Field, ncol: nat)
  {
    forall i :: 0 <= i < |w.layers| ==>
      w.layers[i] < |k| && (|w.cellids| == 1 ==> Node(w.cellids[0], ncol) < |k[w.layers[i]]|)
  }

  predicate AllInField(ws: seq<Located>, k: Field, ncol: nat)
  {
    forall i :: 0 <= i < |ws| ==> InField(ws[i], k, ncol)
  }

  /** The entry of one pumping entry `p` of `w`: its rate at the deepest screened layer. */
  function PumpingEntry(w: Located, p: Pumping): Result<WelEntry, ConfigError>
  {
    if |w.cellids| != 1 then Err(CellNotUnique(w.id))
    else if |w.layers| == 0 then Err(NoScreenedLayer(w.id))
    else Ok(WelEntry(w.layers[|w.layers| - 1], w.cellids[0].row, w.cellids[0].col, p.flowRate, BoundName(w.id, p.stressPeriodId)))
  }

  /** `wel_stress_period[sp].extend([entry])`. */
  function Extend(wel: map<int, seq<WelEntry>>, sp: int, entry: Result<WelEntry, ConfigError>)
    : Result<map<int, seq<WelEntry>>, ConfigError>
  {
    match entry
    case Err(e) => Err(e)
    case Ok(en) => if sp in wel then Ok(wel[sp := wel[sp] + [en]]) else Err(UnknownStressPeriod(sp))
  }

  /** The loop over the pumping entries `ps` of `w`. */
  function AddPumpings(wel: map<int, seq<WelEntry>>, w: Located, ps: seq<Pumping>): Result<map<int, seq<WelEntry>>, ConfigError>
    decreases |ps|
  {
    if |ps| == 0 then Ok(wel)
    else
      match AddPumpings(wel, w, ps[..|ps| - 1])
      case Err(e) => Err(e)
      case Ok(m) => Extend(m, ps[|ps| - 1].stressPeriodId, PumpingEntry(w, ps[|ps| - 1]))
  }

  /** One turn of the loop over the wells: a well without pumping is skipped. */
  function AddWell(wel: map<int, seq<WelEntry>>, w: Located): Result<map<int, seq<WelEntry>>, ConfigError>
  {
    if |w.pumping| == 0 then Ok(wel) else AddPumpings(wel, w, w.pumping)
  }

  function AddWells(wel: map<int, seq<WelEntry>>, ws: seq<Located>): Result<map<int, seq<WelEntry>>, ConfigError>
    decreases |ws|
  {
    if |ws| == 0 then Ok(wel)
    else
      match AddWells(wel, ws[..|ws| - 1])
      case Err(e) => Err(e)
      case Ok(m) => AddWell(m, ws[|ws| - 1])
  }

  /** `wel_stress_period[sp['id']] = []` for every stress period. */
  function EmptyWel(sps: seq<StressPeriod>): map<int, seq<WelEntry>>
  {
    if |sps| == 0 then map[] else EmptyWel(sps[..|sps| - 1])[sps[|sps| - 1].id := []]
  }

  /** The dictionary handed to the well package, or the error that stops `configure`. */
  function WelStressPeriods(sps: seq<StressPeriod>, ws: seq<Located>): Result<map<int, seq<WelEntry>>, ConfigError>
  {
    AddWells(EmptyWel(sps), ws)
  }

  /** `k33` after the turn of well `w`: every pumping entry of a well with a
      single cell rewrites it from a fresh copy of `k`. */
  function K33After(w: Located, k: Field, ncol: nat, k33: Option<Field>): Option<Field>
  {
    if |w.pumping| > 0 && |w.cellids| == 1 then Some(KzzCorrected(k, Upper(w.layers), Node(w.cellids[0], ncol))) else k33
  }

  function FinalK33(ws: seq<Located>, k: Field, ncol: nat, k33: Option<Field>): Option<Field>
    decreases |ws|
  {
    if |ws| == 0 then k33 else K33After(ws[|ws| - 1], k, ncol, FinalK33(ws[..|ws| - 1], k, ncol, k33))
  }

  // ---------------------------------------------------------------------
  // The imperative builder

  lemma AddPumpingsStep(wel: map<int, seq<WelEntry>>, w: Located, ps: seq<Pumping>, j: nat, m: map<int, seq<WelEntry>>)
    requires j < |ps| && AddPumpings(wel, w, ps[..j]) == Ok(m)
    ensures AddPumpings(wel, w, ps[..j + 1]) == Extend(m, ps[j].stressPeriodId, PumpingEntry(w, ps[j]))
  {
    assert ps[..j + 1][..j] == ps[..j];
  }

  lemma {:induction false} AddPumpingsErrPersists(wel: map<int, seq<WelEntry>>, w: Located, ps: seq<Pumping>, n: nat)
    requires n <= |ps| && AddPumpings(wel, w, ps[..n]).Err?
    ensures AddPumpings(wel, w, ps) == AddPumpings(wel, w, ps[..n])
    decreases |ps| - n
  {
    if n < |ps| {
      assert ps[..n + 1][..n] == ps[..n];
      AddPumpingsErrPersists(wel, w, ps, n + 1);
    } else {
      assert ps[..n] == ps;
    }
  }

  lemma {:induction false} AddWellsErrPersists(wel: map<int, seq<WelEntry>>, ws: seq<Located>, n: nat)
    requires n <= |ws| && AddWells(wel, ws[..n]).Err?
    ensures AddWells(wel, ws) == AddWells(wel, ws[..n])
    decreases |ws| - n
  {
    if n < |ws| {
      assert ws[..n + 1][..n] == ws[..n];
      AddWellsErrPersists(wel, ws, n + 1);
    } else {
      assert ws[..n] == ws;
    }
  }

  lemma UpperInField(w: Located, k: Field, ncol: nat)
    requires InField(w, k, ncol) && |w.cellids| == 1
    ensures forall i :: 0 <= i < |Upper(w.layers)| ==>
              Upper(w.layers)[i] < |k| && Node(w.cellids[0], ncol) < |k[Upper(w.layers)[i]]|
  {
    forall i | 0 <= i < |Upper(w.layers)|
      ensures Upper(w.layers)[i] < |k| && Node(w.cellids[0], ncol) < |k[Upper(w.layers)[i]]|
    {
      assert Upper(w.layers)[i] == w.layers[i];
    }
  }

  /** The `for wsp in w['pumping']` loop of one well, extending `wel0`. */
  method AddWellPumpings(wel0: map<int, seq<WelEntry>>, w: Located, ncol: nat, npf: NpfPackage)
    returns (r: Result<map<int, seq<WelEntry>>, ConfigError>)
    requires InField(w, npf.k, ncol)
    modifies npf
    ensures r == AddPumpings(wel0, w, w.pumping)
    ensures r.Ok? ==> npf.k33 == K33After(w, npf.k, ncol, old(npf.k33))
  {
    var k := npf.k;
    ghost var after := K33After(w, k, ncol, old(npf.k33));
    var wel := wel0;
    var j := 0;
    while j < |w.pumping|
      invariant 0 <= j <= |w.pumping|
      invariant AddPumpings(wel0, w, w.pumping[..j]) == Ok(wel)
      invariant j > 0 ==> |w.cellids| == 1 && npf.k33 == after
      invariant j == 0 ==> npf.k33 == old(npf.k33)
    {
      var p := w.pumping[j];
      AddPumpingsStep(wel0, w, w.pumping, j, wel);
      if |w.cellids| != 1 {
        r := Err(CellNotUnique(w.id));
        AddPumpingsErrPersists(wel0, w, w.pumping, j + 1);
        return;
      }
      var cell := w.cellids[0];
      UpperInField(w, k, ncol);
      npf.SetKzzCorrection(Upper(w.layers), Node(cell, ncol));
      if |w.layers| == 0 {
        r := Err(NoScreenedLayer(w.id));
        AddPumpingsErrPersists(wel0, w, w.pumping, j + 1);
        return;
      }
      var entry := WelEntry(w.layers[|w.layers| - 1], cell.row, cell.col, p.flowRate, BoundName(w.id, p.stressPeriodId));
      if p.stressPeriodId !in wel {
        r := Err(UnknownStressPeriod(p.stressPeriodId));
        AddPumpingsErrPersists(wel0, w, w.pumping, j + 1);
        return;
      }
      wel := wel[p.stressPeriodId := wel[p.stressPeriodId] + [entry]];
      j := j + 1;
    }
    assert w.pumping[..j] == w.pumping;
    r := Ok(wel);
  }

  /** `wel_stress_period = {}` followed by one empty list per stress period. */
  method InitialWel(sps: seq<StressPeriod>) returns (wel: map<int, seq<WelEntry>>)
    ensures wel == EmptyWel(sps)
  {
    wel := map[];
    var i := 0;
    while i < |sps|
      invariant 0 <= i <= |sps|
      invariant wel == EmptyWel(sps[..i])
    {
      assert sps[..i + 1][..i] == sps[..i];
      wel := wel[sps[i].id := []];
      i := i + 1;
    }
    assert sps[..i] == sps;
  }

  /** After the first `i` wells, `wel` and `k33` are what the specification says. */
  predicate Progress(ws: seq<Located>, i: nat, wel: map<int, seq<WelEntry>>, k33: Option<Field>, k33Init: Option<Field>,
                     sps: seq<StressPeriod>, k: Field, ncol: nat)
    requires i <= |ws|
  {
    && AddWells(EmptyWel(sps), ws[..i]) == Ok(wel)
    && k33 == FinalK33(ws[..i], k, ncol, k33Init)
  }

  lemma ProgressOk(ws: seq<Located>, i: nat, wel: map<int, seq<WelEntry>>, k33: Option<Field>, k33Init: Option<Field>,
                   sps: seq<StressPeriod>, k: Field, ncol: nat, m: map<int, seq<WelEntry>>)
    requires i < |ws| && Progress(ws, i, wel, k33, k33Init, sps, k, ncol)
    requires AddWell(wel, ws[i]) == Ok(m)
    ensures Progress(ws, i + 1, m, K33After(ws[i], k, ncol, k33), k33Init, sps, k, ncol)
  {
    assert ws[..i + 1][..i] == ws[..i];
    assert ws[..i + 1][i] == ws[i];
  }

  lemma ProgressErr(ws: seq<Located>, i: nat, wel: map<int, seq<WelEntry>>, k33: Option<Field>, k33Init: Option<Field>,
                    sps: seq<StressPeriod>, k: Field, ncol: nat)
    requires i < |ws| && Progress(ws, i, wel, k33, k33Init, sps, k, ncol)
    requires AddWell(wel, ws[i]).Err?
    ensures WelStressPeriods(sps, ws) == AddWell(wel, ws[i])
  {
    assert ws[..i + 1][..i] == ws[..i];
    AddWellsErrPersists(EmptyWel(sps), ws, i + 1);
  }

  /** One turn of the loop over the wells: `continue` for a well without
      pumping, otherwise its pumping entries. */
  method ProcessWell(wel: map<int, seq<WelEntry>>, w: Located, ncol: nat, npf: NpfPackage)
    returns (r: Result<map<int, seq<WelEntry>>, ConfigError>)
    requires InField(w, npf.k, ncol)
    modifies npf
    ensures r == AddWell(wel, w)
    ensures r.Ok? ==> npf.k33 == K33After(w, npf.k, ncol, old(npf.k33))
  {
    if |w.pumping| == 0 {
      return Ok(wel);
    }
    r := AddWellPumpings(wel, w, ncol, npf);
  }

  /** Lines 468-502: fills `wel_stress_period` and rewrites `k33` of the
      flow package once per pumping entry. */
  method BuildWel(sps: seq<StressPeriod>, wells: seq<ConfigWell>, ncol: nat, npf: NpfPackage)
    returns (r: Result<map<int, seq<WelEntry>>, ConfigError>)
    requires AllInField(Values(wells), npf.k, ncol)
    modifies npf
    ensures r == WelStressPeriods(sps, Values(wells))
    ensures r.Ok? ==> npf.k33 == FinalK33(Values(wells), npf.k, ncol, old(npf.k33))
  {
    var k := npf.k;
    var ws := Values(wells);
    var wel := InitialWel(sps);
    assert ws[..0] == [];
    var i := 0;
    while i < |ws|
      invariant 0 <= i <= |ws|
      invariant Progress(ws, i, wel, npf.k33, old(npf.k33), sps, k, ncol)
    {
      ghost var k33Before := npf.k33;
      var added := ProcessWell(wel, ws[i], ncol, npf);
      if added.Err? {
        ProgressErr(ws, i, wel, k33Before, old(npf.k33), sps, k, ncol);
        return added;
      }
      ProgressOk(ws, i, wel, k33Before, old(npf.k33), sps, k, ncol, added.value);
      wel := added.value;
      i := i + 1;
    }
    assert ws[..i] == ws;
    r := Ok(wel);
  }

  // ---------------------------------------------------------------------
  // Properties of the dictionary

  /** One key per stress-period id, each with an empty list. */
  lemma {:induction false} EmptyWelAre(sps: seq<StressPeriod>)
    ensures EmptyWel(sps).Keys == PeriodIds(sps)
    ensures forall sp :: sp in EmptyWel(sps) ==> EmptyWel(sps)[sp] == []
    decreases |sps|
  {
    if |sps| > 0 {
      EmptyWelAre(sps[..|sps| - 1]);
      PeriodIdsSnoc(sps);
    }
  }

  /** The well has one cell and at least one screened layer, so each of its pumping entries yields an entry. */
  predicate Usable(w: Located)
  {
    |w.cellids| == 1 && |w.layers| > 0
  }

  /** The well can be added to a dictionary with the keys `ids`. */
  predicate Fits(w: Located, ids: set<int>)
  {
    |w.pumping| == 0 || (Usable(w) && forall j :: 0 <= j < |w.pumping| ==> w.pumping[j].stressPeriodId in ids)
  }

  predicate AllFit(ws: seq<Located>, ids: set<int>)
  {
    forall i :: 0 <= i < |ws| ==> Fits(ws[i], ids)
  }

  /** The entries the pumping entries `ps` of `w` give to stress period `sp`, in order. */
  function PumpingsAt(w: Located, ps: seq<Pumping>, sp: int): seq<WelEntry>
    requires Usable(w)
    decreases |ps|
  {
    if |ps| == 0 then []
    else
      PumpingsAt(w, ps[..|ps| - 1], sp)
      + (if ps[|ps| - 1].stressPeriodId == sp then [PumpingEntry(w, ps[|ps| - 1]).value] else [])
  }

  /** The entries the wells `ws` give to stress period `sp`, well by well. */
  function WellsAt(ws: seq<Located>, sp: int): seq<WelEntry>
    requires forall i :: 0 <= i < |ws| ==> |ws[i].pumping| == 0 || Usable(ws[i])
    decreases |ws|
  {
    if |ws| == 0 then []
    else
      WellsAt(ws[..|ws| - 1], sp)
      + (if |ws[|ws| - 1].pumping| == 0 then [] else PumpingsAt(ws[|ws| - 1], ws[|ws| - 1].pumping, sp))
  }

  /** Adding pumping entries adds no key. */
  lemma {:induction false} AddPumpingsKeys(wel: map<int, seq<WelEntry>>, w: Located, ps: seq<Pumping>)
    ensures AddPumpings(wel, w, ps).Ok? ==> AddPumpings(wel, w, ps).value.Keys == wel.Keys
    decreases |ps|
  {
    if |ps| > 0 {
      AddPumpingsKeys(wel, w, ps[..|ps| - 1]);
    }
  }

  /** One more pumping entry succeeds exactly when the earlier ones did, the well
      yields an entry, and the entry's period is a key. */
  lemma AddPumpingsOkStep(wel: map<int, seq<WelEntry>>, w: Located, ps: seq<Pumping>)
    requires |ps| > 0
    ensures AddPumpings(wel, w, ps).Ok? <==>
              AddPumpings(wel, w, ps[..|ps| - 1]).Ok? && Usable(w) && ps[|ps| - 1].stressPeriodId in wel
  {
    var p := ps[|ps| - 1];
    var prev := AddPumpings(wel, w, ps[..|ps| - 1]);
    AddPumpingsKeys(wel, w, ps[..|ps| - 1]);
    if prev.Ok? {
      assert AddPumpings(wel, w, ps) == Extend(prev.value, p.stressPeriodId, PumpingEntry(w, p));
      assert PumpingEntry(w, p).Ok? <==> Usable(w);
    } else {
      assert AddPumpings(wel, w, ps) == Err(prev.error);
    }
  }

  /** Adding the pumping entries of one well succeeds exactly when each
      yields an entry for an existing key. */
  lemma {:induction false} AddPumpingsOk(wel: map<int, seq<WelEntry>>, w: Located, ps: seq<Pumping>)
    ensures AddPumpings(wel, w, ps).Ok? <==>
              (|ps| == 0 || Usable(w)) && forall j :: 0 <= j < |ps| ==> ps[j].stressPeriodId in wel
    decreases |ps|
  {
    if |ps| > 0 {
      var front := ps[..|ps| - 1];
      AddPumpingsOk(wel, w, front);
      AddPumpingsOkStep(wel, w, ps);
      assert (forall j :: 0 <= j < |ps| ==> ps[j].stressPeriodId in wel)
             <==> (forall j :: 0 <= j < |front| ==> front[j].stressPeriodId in wel) && ps[|ps| - 1].stressPeriodId in wel by {
        assert forall j :: 0 <= j < |front| ==> front[j] == ps[j];
      }
    }
  }

  /** On success each list gets the entries of its period appended. */
  lemma {:induction false} AddPumpingsAppends(wel: map<int, seq<WelEntry>>, w: Located, ps: seq<Pumping>)
    requires Usable(w) && AddPumpings(wel, w, ps).Ok?
    ensures forall sp :: sp in wel ==>
              (sp in AddPumpings(wel, w, ps).value && AddPumpings(wel, w, ps).value[sp] == wel[sp] + PumpingsAt(w, ps, sp))
    decreases |ps|
  {
    AddPumpingsKeys(wel, w, ps);
    if |ps| > 0 {
      var front := ps[..|ps| - 1];
      AddPumpingsAppends(wel, w, front);
    }
  }

  /** One well: it is added exactly when it fits the keys, adds no key, and
      appends the entries of each period. */
  lemma AddWellContents(wel: map<int, seq<WelEntry>>, w: Located)
    ensures AddWell(wel, w).Ok? <==> Fits(w, wel.Keys)
    ensures AddWell(wel, w).Ok? ==> AddWell(wel, w).value.Keys == wel.Keys
    ensures AddWell(wel, w).Ok? && |w.pumping| > 0 ==>
              Usable(w) && forall sp :: sp in wel ==> AddWell(wel, w).value[sp] == wel[sp] + PumpingsAt(w, w.pumping, sp)
  {
    AddPumpingsOk(wel, w, w.pumping);
    AddPumpingsKeys(wel, w, w.pumping);
    if |w.pumping| > 0 && AddWell(wel, w).Ok? {
      AddPumpingsAppends(wel, w, w.pumping);
    }
  }

  lemma {:induction false} AddWellsKeys(wel: map<int, seq<WelEntry>>, ws: seq<Located>)
    ensures AddWells(wel, ws).Ok? ==> AddWells(wel, ws).value.Keys == wel.Keys
    decreases |ws|
  {
    if |ws| > 0 {
      AddWellsKeys(wel, ws[..|ws| - 1]);
      var prev := AddWells(wel, ws[..|ws| - 1]);
      if prev.Ok? {
        AddWellContents(prev.value, ws[|ws| - 1]);
      }
    }
  }

  /** Adding wells succeeds exactly when every well fits the keys. */
  lemma {:induction false} AddWellsOk(wel: map<int, seq<WelEntry>>, ws: seq<Located>)
    ensures AddWells(wel, ws).Ok? <==> AllFit(ws, wel.Keys)
    decreases |ws|
  {
    if |ws| > 0 {
      var front := ws[..|ws| - 1];
      AddWellsOk(wel, front);
      AddWellsKeys(wel, front);
      assert forall i :: 0 <= i < |front| ==> front[i] == ws[i];
      var prev := AddWells(wel, front);
      if prev.Ok? {
        AddWellContents(prev.value, ws[|ws| - 1]);
      }
    }
  }

  /** On success every well that pumps has a single cell and a screened layer. */
  lemma AddWellsUsable(wel: map<int, seq<WelEntry>>, ws: seq<Located>)
    requires AddWells(wel, ws).Ok?
    ensures forall i :: 0 <= i < |ws| ==> |ws[i].pumping| == 0 || Usable(ws[i])
  {
    AddWellsOk(wel, ws);
    assert forall i :: 0 <= i < |ws| ==> Fits(ws[i], wel.Keys);
  }

  /** On success each list holds the entries of its period, well by well. */
  lemma {:induction false} AddWellsAppends(wel: map<int, seq<WelEntry>>, ws: seq<Located>)
    requires AddWells(wel, ws).Ok?
    requires forall i :: 0 <= i < |ws| ==> |ws[i].pumping| == 0 || Usable(ws[i])
    ensures forall sp :: sp in wel ==>
              (sp in AddWells(wel, ws).value && AddWells(wel, ws).value[sp] == wel[sp] + WellsAt(ws, sp))
    decreases |ws|
  {
    AddWellsKeys(wel, ws);
    if |ws| > 0 {
      var front := ws[..|ws| - 1];
      assert forall i :: 0 <= i < |front| ==> |front[i].pumping| == 0 || Usable(front[i]) by {
        assert forall i :: 0 <= i < |front| ==> front[i] == ws[i];
      }
      AddWellsAppends(wel, front);
      AddWellsKeys(wel, front);
      AddWellContents(AddWells(wel, front).value, ws[|ws| - 1]);
    }
  }

  /** The dictionary has exactly the stress-period ids as keys, and the list of
      a period holds, well by well and in schedule order, one entry per pumping entry of that period. */
  lemma WelContents(sps: seq<StressPeriod>, ws: seq<Located>)
    ensures WelStressPeriods(sps, ws).Ok? <==> AllFit(ws, PeriodIds(sps))
    ensures WelStressPeriods(sps, ws).Ok? ==>
              WelStressPeriods(sps, ws).value.Keys == PeriodIds(sps)
              && (forall i :: 0 <= i < |ws| ==> |ws[i].pumping| == 0 || Usable(ws[i]))
              && forall sp :: sp in PeriodIds(sps) ==> WelStressPeriods(sps, ws).value[sp] == WellsAt(ws, sp)
  {
    EmptyWelAre(sps);
    AddWellsOk(EmptyWel(sps), ws);
    AddWellsKeys(EmptyWel(sps), ws);
    if WelStressPeriods(sps, ws).Ok? {
      AddWellsUsable(EmptyWel(sps), ws);
      AddWellsAppends(EmptyWel(sps), ws);
    }
  }

  /** Each entry sits at the deepest screened layer in the well's cell and is
      named after the well and the period. */
  lemma {:induction false} PumpingsAtShape(w: Located, ps: seq<Pumping>, sp: int)
    requires Usable(w)
    ensures forall e :: e in PumpingsAt(w, ps, sp) ==>
              e.layer == w.layers[|w.layers| - 1] && e.row == w.cellids[0].row && e.col == w.cellids[0].col
              && e.boundName == BoundName(w.id, sp)
    decreases |ps|
  {
    if |ps| > 0 {
      PumpingsAtShape(w, ps[..|ps| - 1], sp);
    }
  }

  function Rates(es: seq<WelEntry>): seq<real>
  {
    seq(|es|, i requires 0 <= i < |es| => es[i].rate)
  }

  lemma RatesAppend(a: seq<WelEntry>, b: seq<WelEntry>)
    ensures Rates(a + b) == Rates(a) + Rates(b)
  {
  }

  /** The scheduled rate of period `sp` summed over the wells. */
  function WellsRate(ws: seq<Located>, sp: int): real
    decreases |ws|
  {
    if |ws| == 0 then 0.0 else WellsRate(ws[..|ws| - 1], sp) + PumpingRate(ws[|ws| - 1].pumping, sp)
  }

  /** The entries of a period carry exactly the rates scheduled for it. */
  lemma {:induction false} PumpingsAtRate(w: Located, ps: seq<Pumping>, sp: int)
    requires Usable(w)
    ensures Sum(Rates(PumpingsAt(w, ps, sp))) == PumpingRate(ps, sp)
    decreases |ps|
  {
    if |ps| > 0 {
      var front := ps[..|ps| - 1];
      var p := ps[|ps| - 1];
      PumpingsAtRate(w, front, sp);
      var tail := if p.stressPeriodId == sp then [PumpingEntry(w, p).value] else [];
      RatesAppend(PumpingsAt(w, front, sp), tail);
      SumAppend(Rates(PumpingsAt(w, front, sp)), Rates(tail));
      if p.stressPeriodId == sp {
        assert Rates(tail) == [p.flowRate];
        assert Sum([p.flowRate]) == Sum([p.flowRate][..0]) + p.flowRate;
        assert [p.flowRate][..0] == [];
      } else {
        assert Rates(tail) == [];
      }
    }
  }

  lemma {:induction false} WellsAtRate(ws: seq<Located>, sp: int)
    requires forall i :: 0 <= i < |ws| ==> |ws[i].pumping| == 0 || Usable(ws[i])
    ensures Sum(Rates(WellsAt(ws, sp))) == WellsRate(ws, sp)
    decreases |ws|
  {
    if |ws| > 0 {
      var front := ws[..|ws| - 1];
      var w := ws[|ws| - 1];
      assert forall i :: 0 <= i < |front| ==> front[i] == ws[i];
      WellsAtRate(front, sp);
      var tail := if |w.pumping| == 0 then [] else PumpingsAt(w, w.pumping, sp);
      RatesAppend(WellsAt(front, sp), tail);
      SumAppend(Rates(WellsAt(front, sp)), Rates(tail));
      if |w.pumping| == 0 {
        assert Rates(tail) == [];
        assert PumpingRate(w.pumping, sp) == 0.0;
      } else {
        PumpingsAtRate(w, w.pumping, sp);
      }
    }
  }

  /** The rates in the list of each period sum to the rates scheduled for it. */
  lemma WelConservesRates(sps: seq<StressPeriod>, ws: seq<Located>, sp: int)
    requires WelStressPeriods(sps, ws).Ok? && sp in PeriodIds(sps)
    ensures sp in WelStressPeriods(sps, ws).value
    ensures Sum(Rates(WelStressPeriods(sps, ws).value[sp])) == WellsRate(ws, sp)
  {
    WelContents(sps, ws);
    WellsAtRate(ws, sp);
  }

  /** Wells screened in at most one layer leave `k33` equal to `k` once one of
      them has pumped from a single cell, and untouched before that. */
  lemma {:induction false} SingleLayerWellsKeepK(ws: seq<Located>, k: Field, ncol: nat, k33: Option<Field>)
    requires forall i :: 0 <= i < |ws| ==> |ws[i].layers| <= 1
    ensures FinalK33(ws, k, ncol, k33) == k33 || FinalK33(ws, k, ncol, k33) == Some(k)
    ensures |ws| > 0 && |ws[|ws| - 1].pumping| > 0 && |ws[|ws| - 1].cellids| == 1 ==> FinalK33(ws, k, ncol, k33) == Some(k)
    decreases |ws|
  {
    if |ws| > 0 {
      var w := ws[|ws| - 1];
      SingleLayerWellsKeepK(ws[..|ws| - 1], k, ncol, k33);
      if |w.pumping| > 0 && |w.cellids| == 1 {
        assert Upper(w.layers) == [];
        KzzCorrectionOfSingleLayer(k, Node(w.cellids[0], ncol));
      }
    }
  }

  /** Every rewrite starts again from `k`, so after the loop `k33` is `k` corrected for
      the last well alone whenever that well pumps from a single cell, whatever came before. */
  lemma LastPumpingWellWins(ws: seq<Located>, k: Field, ncol: nat, k33: Option<Field>)
    requires |ws| > 0 && |ws[|ws| - 1].pumping| > 0 && |ws[|ws| - 1].cellids| == 1
    ensures FinalK33(ws, k, ncol, k33)
            == Some(KzzCorrected(k, Upper(ws[|ws| - 1].layers), Node(ws[|ws| - 1].cellids[0], ncol)))
  {
  }
}
