/** The well discharge allocator of mf6het3d/wells.py (`build`): chooses a
    pumping method per well and turns each pumping entry into per-layer
    well-package entries, grouped by stress period. */
module Wells {
  import opened Basics
  import opened Mf6Packages

  /** One well-package entry: `[(layer, node), rate, boundname]`. */
  datatype Entry = Entry(layer: nat, node: nat, rate: real, boundName: string)

  /** The four pumping methods the builder implements. */
  datatype Policy = DeepestLayer | DistributedByTransmissivities | DeepestLayerKzzCorrection | Homogeneous

  function PolicyName(p: Policy): string
  {
    match p
    case DeepestLayer => "deepest_layer"
    case DistributedByTransmissivities => "distributed_by_transmissivities"
    case DeepestLayerKzzCorrection => "deepest_layer_kzz_correction"
    case Homogeneous => "homogeneous"
  }

  /** The string dispatch of `build`: a name it recognises, or `None`. */
  function ParsePolicy(name: string): Option<Policy>
  {
    if name == "deepest_layer" then Some(DeepestLayer)
    else if name == "distributed_by_transmissivities" then Some(DistributedByTransmissivities)
    else if name == "deepest_layer_kzz_correction" then Some(DeepestLayerKzzCorrection)
    else if name == "homogeneous" then Some(Homogeneous)
    else None
  }

  /** Method names and policies correspond one to one. */
  lemma ParsePolicyRoundTrip(p: Policy, name: string)
    ensures ParsePolicy(PolicyName(p)) == Some(p)
    ensures ParsePolicy(name).Some? ==> PolicyName(ParsePolicy(name).value) == name
  {
  }

  const DefaultMultiLayerMethod := "distributed_by_transmissivities"

  /** The method assigned to a pumping well: a multi-layer well takes the
      scenario's `pumping_method` if it has one, otherwise the default; any
      other well falls back to its deepest layer. */
  function PumpingMethod(layers: seq<nat>, scenarioMethod: Option<string>): string
  {
    if |layers| > 1 then
      (if scenarioMethod.Some? then scenarioMethod.value else DefaultMultiLayerMethod)
    else "deepest_layer"
  }

  lemma PumpingMethodSelection(layers: seq<nat>, scenarioMethod: Option<string>)
    ensures |layers| <= 1 ==> PumpingMethod(layers, scenarioMethod) == "deepest_layer"
    ensures |layers| > 1 && scenarioMethod.Some? ==> PumpingMethod(layers, scenarioMethod) == scenarioMethod.value
    ensures |layers| > 1 && scenarioMethod.None? ==> PumpingMethod(layers, scenarioMethod) == "distributed_by_transmissivities"
  {
  }

  /** A well as the allocator sees it. `node` is the grid node found by
      intersecting the well's point with the grid. */
  datatype WellDef = WellDef(id: string, node: nat, layers: seq<nat>, pumping: seq<Pumping>)

  datatype BuildError =
    | UnsupportedMethod(message: string)
      /** `layers[-1]` of an empty layer list. */
    | NoScreenedLayer(wellId: string)
      /** The layer heights of a one-layer grid are empty, so indexing them fails. */
    | NoLayerHeights(wellId: string)
      /** `wel_stress_period[id]` for an id that is not a stress period. */
    | UnknownStressPeriod(stressPeriodId: int)

  function UnsupportedMethodMessage(name: string): string
  {
    "setup.py: pumping method " + name + " not implemented."
  }

  /** The message of an unknown method names it. */
  lemma UnsupportedMethodNamed(name: string)
    ensures |UnsupportedMethodMessage(name)| == |name| + 42
    ensures UnsupportedMethodMessage(name)[25..25 + |name|] == name
  {
  }

  /** Bottoms and conductivities of the model, all `nlay` by `ncell`. */
  predicate ValidModel(botm: Field, k: Field, k22Mean: Option<Field>)
  {
    && |botm| > 0
    && IsField(botm, |botm|, |botm[0]|)
    && IsField(k, |botm|, |botm[0]|)
    && (k22Mean.Some? ==> IsField(k22Mean.value, |botm|, |botm[0]|))
  }

  /** The well's node and screened layers are cells of the grid. */
  predicate InGrid(w: WellDef, botm: Field)
  {
    |botm| > 0 && w.node < |botm[0]| && forall i :: 0 <= i < |w.layers| ==> w.layers[i] < |botm|
  }

  function Abs(x: real): real
  {
    if x < 0.0 then -x else x
  }

  /** `abs(np.diff(botm[:, node]))[l - 1]`. For layer 0 Python reads index -1,
      the last difference, that is the thickness of the bottom layer. */
  function LayerHeight(botm: Field, l: nat, node: nat): real
    requires 2 <= |botm| && l < |botm|
    requires forall j :: 0 <= j < |botm| ==> node < |botm[j]|
  {
    if l == 0 then Abs(botm[|botm| - 1][node] - botm[|botm| - 2][node])
    else Abs(botm[l][node] - botm[l - 1][node])
  }

  /** `trans_layers`: layer height times `k`, or times `sqrt(k * k22)` when `k22` has data. */
  function Weights(w: WellDef, botm: Field, k: Field, k22Mean: Option<Field>): seq<real>
    requires ValidModel(botm, k, k22Mean) && InGrid(w, botm) && |botm| >= 2
  {
    seq(|w.layers|, i requires 0 <= i < |w.layers| =>
      var l := w.layers[i];
      (if k22Mean.Some? then k22Mean.value[l][w.node] else k[l][w.node]) * LayerHeight(botm, l, w.node))
  }

  /** The transmissivity split divides by the weights' sum, which the source never checks. */
  predicate WeightsUsable(policy: Policy, w: WellDef, botm: Field, k: Field, k22Mean: Option<Field>)
    requires ValidModel(botm, k, k22Mean) && InGrid(w, botm)
  {
    policy == DistributedByTransmissivities && |w.layers| > 0 && |botm| >= 2 ==> Sum(Weights(w, botm, k, k22Mean)) != 0.0
  }

  function HomogeneousEntries(w: WellDef, p: Pumping): seq<Entry>
  {
    seq(|w.layers|, i requires 0 <= i < |w.layers| =>
      Entry(w.layers[i], w.node, p.flowRate / (|w.layers| as real), BoundName(w.id, p.stressPeriodId)))
  }

  /** `t * flow_rate / sum(trans_layers)`. */
  function Share(weight: real, rate: real, total: real): real
    requires total != 0.0
  {
    weight * rate / total
  }

  function TransmissivityEntries(w: WellDef, p: Pumping, weights: seq<real>): seq<Entry>
    requires |weights| == |w.layers|
    requires |weights| > 0 ==> Sum(weights) != 0.0
  {
    seq(|w.layers|, i requires 0 <= i < |w.layers| =>
      Entry(w.layers[i], w.node, Share(weights[i], p.flowRate, Sum(weights)), BoundName(w.id, p.stressPeriodId)))
  }

  /** The entries of one pumping entry under one method (`w_stress_period`). */
  function Allocation(policy: Policy, w: WellDef, p: Pumping, botm: Field, k: Field, k22Mean: Option<Field>)
    : Result<seq<Entry>, BuildError>
    requires ValidModel(botm, k, k22Mean) && InGrid(w, botm)
    requires WeightsUsable(policy, w, botm, k, k22Mean)
  {
    match policy
    case DeepestLayer | DeepestLayerKzzCorrection =>
      if |w.layers| == 0 then Err(NoScreenedLayer(w.id))
      else Ok([Entry(w.layers[|w.layers| - 1], w.node, p.flowRate, BoundName(w.id, p.stressPeriodId))])
    case Homogeneous =>
      Ok(HomogeneousEntries(w, p))
    case DistributedByTransmissivities =>
      if |w.layers| == 0 then Ok([])
      else if |botm| < 2 then Err(NoLayerHeights(w.id))
      else Ok(TransmissivityEntries(w, p, Weights(w, botm, k, k22Mean)))
  }

  /** The well fits the grid and, if it is split by transmissivity, has non-zero weights. */
  predicate WellReady(w: WellDef, scenarioMethod: Option<string>, botm: Field, k: Field, k22Mean: Option<Field>)
    requires ValidModel(botm, k, k22Mean)
  {
    && InGrid(w, botm)
    && var policy := ParsePolicy(PumpingMethod(w.layers, scenarioMethod));
       policy.Some? ==> WeightsUsable(policy.value, w, botm, k, k22Mean)
  }

  predicate WellsReady(ws: seq<WellDef>, scenarioMethod: Option<string>, botm: Field, k: Field, k22Mean: Option<Field>)
  {
    ValidModel(botm, k, k22Mean) && forall i :: 0 <= i < |ws| ==> WellReady(ws[i], scenarioMethod, botm, k, k22Mean)
  }

  // ---------------------------------------------------------------------
  // The dictionary `wel_stress_period`, as a function of the inputs

  /** `{sp: [] for sp in range(nper)}`. */
  function EmptyPeriods(nper: nat): map<int, seq<Entry>>
  {
    if nper == 0 then map[] else EmptyPeriods(nper - 1)[nper - 1 := []]
  }

  /** The stress periods `0 .. nper - 1`, each with no entry yet. */
  lemma {:induction false} EmptyPeriodsAre(nper: nat)
    ensures forall sp :: sp in EmptyPeriods(nper) <==> 0 <= sp < nper
    ensures forall sp :: sp in EmptyPeriods(nper) ==> EmptyPeriods(nper)[sp] == []
  {
    if nper > 0 {
      EmptyPeriodsAre(nper - 1);
    }
  }

  /** Appends the entries of the pumping entries `ps` of `w`, in order. */
  function AddPumpings(wel: map<int, seq<Entry>>, w: WellDef, policy: Policy, ps: seq<Pumping>,
                       botm: Field, k: Field, k22Mean: Option<Field>): Result<map<int, seq<Entry>>, BuildError>
    requires ValidModel(botm, k, k22Mean) && InGrid(w, botm) && WeightsUsable(policy, w, botm, k, k22Mean)
    decreases |ps|
  {
    if |ps| == 0 then Ok(wel)
    else
      match AddPumpings(wel, w, policy, ps[..|ps| - 1], botm, k, k22Mean)
      case Err(e) => Err(e)
      case Ok(m) => Extend(m, ps[|ps| - 1].stressPeriodId, Allocation(policy, w, ps[|ps| - 1], botm, k, k22Mean))
  }

  /** `wel_stress_period[sp].extend(entries)`, after the entries were computed. */
  function Extend(wel: map<int, seq<Entry>>, sp: int, entries: Result<seq<Entry>, BuildError>)
    : Result<map<int, seq<Entry>>, BuildError>
  {
    match entries
    case Err(e) => Err(e)
    case Ok(es) => if sp in wel then Ok(wel[sp := wel[sp] + es]) else Err(UnknownStressPeriod(sp))
  }

  lemma AddPumpingsStep(wel: map<int, seq<Entry>>, w: WellDef, policy: Policy, ps: seq<Pumping>, j: nat,
                        botm: Field, k: Field, k22Mean: Option<Field>, m: map<int, seq<Entry>>)
    requires ValidModel(botm, k, k22Mean) && InGrid(w, botm) && WeightsUsable(policy, w, botm, k, k22Mean)
    requires j < |ps| && AddPumpings(wel, w, policy, ps[..j], botm, k, k22Mean) == Ok(m)
    ensures AddPumpings(wel, w, policy, ps[..j + 1], botm, k, k22Mean)
         == Extend(m, ps[j].stressPeriodId, Allocation(policy, w, ps[j], botm, k, k22Mean))
  {
    assert ps[..j + 1][..j] == ps[..j];
  }

  /** One turn of the loop over the wells. */
  function AddWell(wel: map<int, seq<Entry>>, w: WellDef, scenarioMethod: Option<string>,
                   botm: Field, k: Field, k22Mean: Option<Field>): Result<map<int, seq<Entry>>, BuildError>
    requires ValidModel(botm, k, k22Mean) && WellReady(w, scenarioMethod, botm, k, k22Mean)
  {
    if |w.pumping| == 0 then Ok(wel)
    else
      var methodName := PumpingMethod(w.layers, scenarioMethod);
      match ParsePolicy(methodName)
      case None => Err(UnsupportedMethod(UnsupportedMethodMessage(methodName)))
      case Some(policy) => AddPumpings(wel, w, policy, w.pumping, botm, k, k22Mean)
  }

  function AddWells(wel: map<int, seq<Entry>>, ws: seq<WellDef>, scenarioMethod: Option<string>,
                    botm: Field, k: Field, k22Mean: Option<Field>): Result<map<int, seq<Entry>>, BuildError>
    requires WellsReady(ws, scenarioMethod, botm, k, k22Mean)
    decreases |ws|
  {
    if |ws| == 0 then Ok(wel)
    else
      assert WellsReady(ws[..|ws| - 1], scenarioMethod, botm, k, k22Mean);
      match AddWells(wel, ws[..|ws| - 1], scenarioMethod, botm, k, k22Mean)
      case Err(e) => Err(e)
      case Ok(m) => AddWell(m, ws[|ws| - 1], scenarioMethod, botm, k, k22Mean)
  }

  /** The dictionary `build` hands to the well package, or the error it raises. */
  function WelStressPeriods(ws: seq<WellDef>, nper: nat, scenarioMethod: Option<string>,
                            botm: Field, k: Field, k22Mean: Option<Field>): Result<map<int, seq<Entry>>, BuildError>
    requires WellsReady(ws, scenarioMethod, botm, k, k22Mean)
  {
    AddWells(EmptyPeriods(nper), ws, scenarioMethod, botm, k, k22Mean)
  }

  /** `k33` after the turn of well `w`: a pumping well under the kzz method
      rewrites it from a fresh copy of `k`, any other well leaves it. */
  function K33After(w: WellDef, scenarioMethod: Option<string>, k: Field, k33: Option<Field>): Option<Field>
  {
    if |w.pumping| > 0 && ParsePolicy(PumpingMethod(w.layers, scenarioMethod)) == Some(DeepestLayerKzzCorrection)
    then Some(KzzCorrected(k, Upper(w.layers), w.node))
    else k33
  }

  /** `k33` after the loop over the wells. */
  function FinalK33(ws: seq<WellDef>, scenarioMethod: Option<string>, k: Field, k33: Option<Field>): Option<Field>
    decreases |ws|
  {
    if |ws| == 0 then k33
    else K33After(ws[|ws| - 1], scenarioMethod, k, FinalK33(ws[..|ws| - 1], scenarioMethod, k, k33))
  }

  // ---------------------------------------------------------------------
  // The imperative builder

  /** A well definition dictionary; `build` writes its `pumping_method`. */
  class Well {
    const id: string
    const node: nat
    const layers: seq<nat>
    const pumping: seq<Pumping>
    var pumpingMethod: Option<string>

    constructor (id: string, node: nat, layers: seq<nat>, pumping: seq<Pumping>)
      ensures this.id == id && this.node == node && this.layers == layers && this.pumping == pumping
      ensures pumpingMethod == None
    {
      this.id := id;
      this.node := node;
      this.layers := layers;
      this.pumping := pumping;
      pumpingMethod := None;
    }

    function Def(): WellDef
    {
      WellDef(id, node, layers, pumping)
    }
  }

  /** A pumping well carries the method `build` chose for it. */
  predicate MethodRecorded(w: Well, scenarioMethod: Option<string>)
    reads w
  {
    |w.pumping| > 0 ==> w.pumpingMethod == Some(PumpingMethod(w.layers, scenarioMethod))
  }

  function Defs(wells: seq<Well>): seq<WellDef>
  {
    seq(|wells|, i requires 0 <= i < |wells| => wells[i].Def())
  }

  /** The `for layer in w['layers']` loop of the homogeneous method. */
  method SplitHomogeneously(w: WellDef, p: Pumping) returns (es: seq<Entry>)
    ensures es == HomogeneousEntries(w, p)
  {
    var name := BoundName(w.id, p.stressPeriodId);
    ghost var all := HomogeneousEntries(w, p);
    es := [];
    var i := 0;
    while i < |w.layers|
      invariant 0 <= i <= |w.layers|
      invariant es == all[..i]
    {
      var share := p.flowRate / (|w.layers| as real);
      assert all[i] == Entry(w.layers[i], w.node, share, name);
      assert all[..i + 1] == all[..i] + [all[i]];
      es := es + [Entry(w.layers[i], w.node, share, name)];
      i := i + 1;
    }
  }

  /** The `for index, layer in enumerate(w['layers'])` loop of the transmissivity method. */
  method SplitByWeights(w: WellDef, p: Pumping, weights: seq<real>) returns (es: seq<Entry>)
    requires |weights| == |w.layers| && (|weights| > 0 ==> Sum(weights) != 0.0)
    ensures es == TransmissivityEntries(w, p, weights)
  {
    var total := Sum(weights);
    var name := BoundName(w.id, p.stressPeriodId);
    ghost var all := TransmissivityEntries(w, p, weights);
    es := [];
    var i := 0;
    while i < |w.layers|
      invariant 0 <= i <= |w.layers|
      invariant es == all[..i]
    {
      assert all[i] == Entry(w.layers[i], w.node, Share(weights[i], p.flowRate, total), name);
      assert all[..i + 1] == all[..i] + [all[i]];
      es := es + [Entry(w.layers[i], w.node, Share(weights[i], p.flowRate, total), name)];
      i := i + 1;
    }
  }

  lemma {:induction false} AddPumpingsErrPersists(wel: map<int, seq<Entry>>, w: WellDef, policy: Policy, ps: seq<Pumping>,
                                                  n: nat, botm: Field, k: Field, k22Mean: Option<Field>)
    requires ValidModel(botm, k, k22Mean) && InGrid(w, botm) && WeightsUsable(policy, w, botm, k, k22Mean)
    requires n <= |ps| && AddPumpings(wel, w, policy, ps[..n], botm, k, k22Mean).Err?
    ensures AddPumpings(wel, w, policy, ps, botm, k, k22Mean) == AddPumpings(wel, w, policy, ps[..n], botm, k, k22Mean)
    decreases |ps| - n
  {
    if n < |ps| {
      assert ps[..n + 1][..n] == ps[..n];
      AddPumpingsErrPersists(wel, w, policy, ps, n + 1, botm, k, k22Mean);
    } else {
      assert ps[..n] == ps;
    }
  }

  lemma {:induction false} AddWellsErrPersists(wel: map<int, seq<Entry>>, ws: seq<WellDef>, n: nat,
                                               scenarioMethod: Option<string>, botm: Field, k: Field, k22Mean: Option<Field>)
    requires WellsReady(ws, scenarioMethod, botm, k, k22Mean)
    requires n <= |ws|
    requires WellsReady(ws[..n], scenarioMethod, botm, k, k22Mean)
    requires AddWells(wel, ws[..n], scenarioMethod, botm, k, k22Mean).Err?
    ensures AddWells(wel, ws, scenarioMethod, botm, k, k22Mean) == AddWells(wel, ws[..n], scenarioMethod, botm, k, k22Mean)
    decreases |ws| - n
  {
    if n < |ws| {
      assert ws[..n + 1][..n] == ws[..n];
      assert WellsReady(ws[..n + 1], scenarioMethod, botm, k, k22Mean);
      AddWellsErrPersists(wel, ws, n + 1, scenarioMethod, botm, k, k22Mean);
    } else {
      assert ws[..n] == ws;
    }
  }

  /** The layers above the deepest one are cells of the conductivity field. */
  lemma UpperInGrid(w: WellDef, botm: Field, k: Field, k22Mean: Option<Field>)
    requires ValidModel(botm, k, k22Mean) && InGrid(w, botm)
    ensures forall i :: 0 <= i < |Upper(w.layers)| ==> Upper(w.layers)[i] < |k| && w.node < |k[Upper(w.layers)[i]]|
  {
    forall i | 0 <= i < |Upper(w.layers)|
      ensures Upper(w.layers)[i] < |k| && w.node < |k[Upper(w.layers)[i]]|
    {
      assert Upper(w.layers)[i] == w.layers[i];
    }
  }

  /** The entries of one pumping entry `p` of `w` under `policy` (`w_stress_period`). */
  method AllocatePumping(policy: Policy, w: WellDef, p: Pumping, botm: Field, k: Field, k22Mean: Option<Field>)
    returns (r: Result<seq<Entry>, BuildError>)
    requires ValidModel(botm, k, k22Mean) && InGrid(w, botm)
    requires WeightsUsable(policy, w, botm, k, k22Mean)
    ensures r == Allocation(policy, w, p, botm, k, k22Mean)
  {
    var name := BoundName(w.id, p.stressPeriodId);
    match policy {
      case DeepestLayer | DeepestLayerKzzCorrection =>
        if |w.layers| == 0 {
          return Err(NoScreenedLayer(w.id));
        }
        r := Ok([Entry(w.layers[|w.layers| - 1], w.node, p.flowRate, name)]);
      case DistributedByTransmissivities =>
        if |w.layers| == 0 {
          r := Ok([]);
        } else if |botm| < 2 {
          r := Err(NoLayerHeights(w.id));
        } else {
          var es := SplitByWeights(w, p, Weights(w, botm, k, k22Mean));
          r := Ok(es);
        }
      case Homogeneous =>
        var es := SplitHomogeneously(w, p);
        r := Ok(es);
    }
  }

  /** `k33` after one pumping entry of well `w` under `policy`: the kzz method
      rewrites it from `k`, the others leave it alone. */
  function K33AfterPumping(policy: Policy, w: WellDef, k: Field, k33: Option<Field>): Option<Field>
  {
    if policy == DeepestLayerKzzCorrection then Some(KzzCorrected(k, Upper(w.layers), w.node)) else k33
  }

  /** Turn `j` of the loop over the pumping entries: under `deepest_layer_kzz_correction`
      rewrite `k33`, then compute the entries of `w.pumping[j]` and extend the list of
      their stress period; an error ends the whole loop. */
  method AddPumping(wel0: map<int, seq<Entry>>, w: WellDef, policy: Policy, j: nat,
                    botm: Field, npf: NpfPackage, wel: map<int, seq<Entry>>)
    returns (r: Result<map<int, seq<Entry>>, BuildError>)
    requires ValidModel(botm, npf.k, npf.k22Mean) && InGrid(w, botm)
    requires WeightsUsable(policy, w, botm, npf.k, npf.k22Mean)
    requires j < |w.pumping| && AddPumpings(wel0, w, policy, w.pumping[..j], botm, npf.k, npf.k22Mean) == Ok(wel)
    modifies npf
    ensures r == AddPumpings(wel0, w, policy, w.pumping[..j + 1], botm, npf.k, npf.k22Mean)
    ensures r.Err? ==> r == AddPumpings(wel0, w, policy, w.pumping, botm, npf.k, npf.k22Mean)
    ensures npf.k33 == K33AfterPumping(policy, w, npf.k, old(npf.k33))
  {
    var k, k22Mean := npf.k, npf.k22Mean;
    if policy == DeepestLayerKzzCorrection {
      UpperInGrid(w, botm, k, k22Mean);
      npf.SetKzzCorrection(Upper(w.layers), w.node);
    }
    var p := w.pumping[j];
    var entries := AllocatePumping(policy, w, p, botm, k, k22Mean);
    r := Extend(wel, p.stressPeriodId, entries);
    AddPumpingsStep(wel0, w, policy, w.pumping, j, botm, k, k22Mean, wel);
    if r.Err? {
      AddPumpingsErrPersists(wel0, w, policy, w.pumping, j + 1, botm, k, k22Mean);
    }
  }

  /** The `for wsp in w['pumping']` loop of one well, extending `wel0`. */
  method AddWellPumpings(wel0: map<int, seq<Entry>>, w: WellDef, policy: Policy, botm: Field, npf: NpfPackage)
    returns (r: Result<map<int, seq<Entry>>, BuildError>)
    requires ValidModel(botm, npf.k, npf.k22Mean) && InGrid(w, botm)
    requires WeightsUsable(policy, w, botm, npf.k, npf.k22Mean)
    modifies npf
    ensures r == AddPumpings(wel0, w, policy, w.pumping, botm, npf.k, npf.k22Mean)
    ensures npf.k33 == if |w.pumping| > 0 then K33AfterPumping(policy, w, npf.k, old(npf.k33)) else old(npf.k33)
  {
    ghost var after := K33AfterPumping(policy, w, npf.k, old(npf.k33));
    var wel := wel0;
    var j := 0;
    while j < |w.pumping|
      invariant 0 <= j <= |w.pumping|
      invariant AddPumpings(wel0, w, policy, w.pumping[..j], botm, npf.k, npf.k22Mean) == Ok(wel)
      invariant j > 0 ==> npf.k33 == after
      invariant j == 0 ==> npf.k33 == old(npf.k33)
    {
      var next := AddPumping(wel0, w, policy, j, botm, npf, wel);
      if next.Err? {
        r := next;
        return;
      }
      wel := next.value;
      j := j + 1;
    }
    assert w.pumping[..j] == w.pumping;
    r := Ok(wel);
  }

  lemma AddWellsStep(wel: map<int, seq<Entry>>, ws: seq<WellDef>, i: nat, scenarioMethod: Option<string>,
                     botm: Field, k: Field, k22Mean: Option<Field>, m: map<int, seq<Entry>>)
    requires WellsReady(ws, scenarioMethod, botm, k, k22Mean) && i < |ws|
    requires WellsReady(ws[..i], scenarioMethod, botm, k, k22Mean)
    requires AddWells(wel, ws[..i], scenarioMethod, botm, k, k22Mean) == Ok(m)
    ensures WellsReady(ws[..i + 1], scenarioMethod, botm, k, k22Mean)
    ensures AddWells(wel, ws[..i + 1], scenarioMethod, botm, k, k22Mean) == AddWell(m, ws[i], scenarioMethod, botm, k, k22Mean)
  {
    assert ws[..i + 1][..i] == ws[..i];
    var prefix := ws[..i + 1];
    forall j | 0 <= j < i + 1
      ensures WellReady(prefix[j], scenarioMethod, botm, k, k22Mean)
    {
      assert prefix[j] == ws[j];
    }
  }

  lemma FinalK33Step(ws: seq<WellDef>, i: nat, scenarioMethod: Option<string>, k: Field, k33: Option<Field>)
    requires i < |ws|
    ensures FinalK33(ws[..i + 1], scenarioMethod, k, k33) == K33After(ws[i], scenarioMethod, k, FinalK33(ws[..i], scenarioMethod, k, k33))
  {
    assert ws[..i + 1][..i] == ws[..i];
    assert ws[..i + 1][i] == ws[i];
  }

  /** `wel_stress_period[sp] = []` for every stress period. */
  method InitialPeriods(nper: nat) returns (wel: map<int, seq<Entry>>)
    ensures wel == EmptyPeriods(nper)
  {
    wel := map[];
    var sp := 0;
    while sp < nper
      invariant 0 <= sp <= nper
      invariant wel == EmptyPeriods(sp)
    {
      wel := wel[sp := []];
      sp := sp + 1;
    }
  }

  /** One turn of the loop over the wells: a pumping well gets its method
      recorded and its pumping entries added to `wel`. */
  method ProcessWell(wel: map<int, seq<Entry>>, w: Well, scenarioMethod: Option<string>, botm: Field, npf: NpfPackage)
    returns (r: Result<map<int, seq<Entry>>, BuildError>)
    requires ValidModel(botm, npf.k, npf.k22Mean) && WellReady(w.Def(), scenarioMethod, botm, npf.k, npf.k22Mean)
    modifies w, npf
    ensures r == AddWell(wel, w.Def(), scenarioMethod, botm, npf.k, npf.k22Mean)
    ensures r.Ok? ==> npf.k33 == K33After(w.Def(), scenarioMethod, npf.k, old(npf.k33))
    ensures MethodRecorded(w, scenarioMethod)
    ensures |w.pumping| == 0 ==> w.pumpingMethod == old(w.pumpingMethod)
  {
    if |w.pumping| == 0 {
      return Ok(wel);
    }
    var methodName := PumpingMethod(w.layers, scenarioMethod);
    w.pumpingMethod := Some(methodName);
    var policy := ParsePolicy(methodName);
    if policy.None? {
      return Err(UnsupportedMethod(UnsupportedMethodMessage(methodName)));
    }
    r := AddWellPumpings(wel, w.Def(), policy.value, botm, npf);
  }

  /** After the first `i` wells, `wel` and `k33` are what the specification says. */
  predicate Progress(defs: seq<WellDef>, i: nat, wel: map<int, seq<Entry>>, k33: Option<Field>, k33Init: Option<Field>,
                     nper: nat, scenarioMethod: Option<string>, botm: Field, k: Field, k22Mean: Option<Field>)
    requires i <= |defs|
  {
    && WellsReady(defs[..i], scenarioMethod, botm, k, k22Mean)
    && AddWells(EmptyPeriods(nper), defs[..i], scenarioMethod, botm, k, k22Mean) == Ok(wel)
    && k33 == FinalK33(defs[..i], scenarioMethod, k, k33Init)
  }

  lemma ProgressStarts(defs: seq<WellDef>, nper: nat, scenarioMethod: Option<string>, botm: Field, k: Field,
                       k22Mean: Option<Field>, k33Init: Option<Field>)
    requires ValidModel(botm, k, k22Mean)
    ensures Progress(defs, 0, EmptyPeriods(nper), k33Init, k33Init, nper, scenarioMethod, botm, k, k22Mean)
  {
    assert defs[..0] == [];
  }

  lemma ProgressOk(defs: seq<WellDef>, i: nat, wel: map<int, seq<Entry>>, k33: Option<Field>, k33Init: Option<Field>,
                   nper: nat, scenarioMethod: Option<string>, botm: Field, k: Field, k22Mean: Option<Field>,
                   m: map<int, seq<Entry>>)
    requires WellsReady(defs, scenarioMethod, botm, k, k22Mean) && i < |defs|
    requires Progress(defs, i, wel, k33, k33Init, nper, scenarioMethod, botm, k, k22Mean)
    requires AddWell(wel, defs[i], scenarioMethod, botm, k, k22Mean) == Ok(m)
    ensures Progress(defs, i + 1, m, K33After(defs[i], scenarioMethod, k, k33), k33Init, nper, scenarioMethod, botm, k, k22Mean)
  {
    AddWellsStep(EmptyPeriods(nper), defs, i, scenarioMethod, botm, k, k22Mean, wel);
    FinalK33Step(defs, i, scenarioMethod, k, k33Init);
  }

  lemma ProgressErr(defs: seq<WellDef>, i: nat, wel: map<int, seq<Entry>>, k33: Option<Field>, k33Init: Option<Field>,
                    nper: nat, scenarioMethod: Option<string>, botm: Field, k: Field, k22Mean: Option<Field>)
    requires WellsReady(defs, scenarioMethod, botm, k, k22Mean) && i < |defs|
    requires Progress(defs, i, wel, k33, k33Init, nper, scenarioMethod, botm, k, k22Mean)
    requires AddWell(wel, defs[i], scenarioMethod, botm, k, k22Mean).Err?
    ensures WelStressPeriods(defs, nper, scenarioMethod, botm, k, k22Mean) == AddWell(wel, defs[i], scenarioMethod, botm, k, k22Mean)
  {
    AddWellsStep(EmptyPeriods(nper), defs, i, scenarioMethod, botm, k, k22Mean, wel);
    AddWellsErrPersists(EmptyPeriods(nper), defs, i + 1, scenarioMethod, botm, k, k22Mean);
  }

  lemma ProgressDone(defs: seq<WellDef>, wel: map<int, seq<Entry>>, k33: Option<Field>, k33Init: Option<Field>,
                     nper: nat, scenarioMethod: Option<string>, botm: Field, k: Field, k22Mean: Option<Field>)
    requires WellsReady(defs, scenarioMethod, botm, k, k22Mean)
    requires Progress(defs, |defs|, wel, k33, k33Init, nper, scenarioMethod, botm, k, k22Mean)
    ensures WelStressPeriods(defs, nper, scenarioMethod, botm, k, k22Mean) == Ok(wel)
    ensures k33 == FinalK33(defs, scenarioMethod, k, k33Init)
  {
    assert defs[..|defs|] == defs;
  }

  /** `build(gwf, grid, wells, nper)`: fills `wel_stress_period`, records each
      pumping well's method and, for the kzz method, rewrites `k33`. */
  method Build(wells: seq<Well>, nper: nat, scenarioMethod: Option<string>, botm: Field, npf: NpfPackage)
    returns (r: Result<map<int, seq<Entry>>, BuildError>)
    requires WellsReady(Defs(wells), scenarioMethod, botm, npf.k, npf.k22Mean)
    modifies wells, npf
    ensures r == WelStressPeriods(Defs(wells), nper, scenarioMethod, botm, npf.k, npf.k22Mean)
    ensures r.Ok? ==> npf.k33 == FinalK33(Defs(wells), scenarioMethod, npf.k, old(npf.k33))
    ensures r.Ok? ==> forall j :: 0 <= j < |wells| ==> MethodRecorded(wells[j], scenarioMethod)
    ensures forall j :: 0 <= j < |wells| && |wells[j].pumping| == 0 ==> wells[j].pumpingMethod == old(wells[j].pumpingMethod)
  {
    var k, k22Mean := npf.k, npf.k22Mean;
    var wel := InitialPeriods(nper);
    ghost var defs := Defs(wells);
    ProgressStarts(defs, nper, scenarioMethod, botm, k, k22Mean, npf.k33);
    var i := 0;
    while i < |wells|
      invariant 0 <= i <= |wells|
      invariant Progress(defs, i, wel, npf.k33, old(npf.k33), nper, scenarioMethod, botm, k, k22Mean)
      invariant forall j :: 0 <= j < i ==> MethodRecorded(wells[j], scenarioMethod)
      invariant forall j :: 0 <= j < |wells| && |wells[j].pumping| == 0 ==> wells[j].pumpingMethod == old(wells[j].pumpingMethod)
    {
      assert defs[i] == wells[i].Def();
      ghost var k33Before := npf.k33;
      label before:
      var added := ProcessWell(wel, wells[i], scenarioMethod, botm, npf);
      if added.Err? {
        ProgressErr(defs, i, wel, k33Before, old(npf.k33), nper, scenarioMethod, botm, k, k22Mean);
        return added;
      }
      ProgressOk(defs, i, wel, k33Before, old(npf.k33), nper, scenarioMethod, botm, k, k22Mean, added.value);
      forall j | 0 <= j < i + 1
        ensures MethodRecorded(wells[j], scenarioMethod)
      {
        if wells[j] != wells[i] {
          assert old@before(MethodRecorded(wells[j], scenarioMethod));
          assert unchanged@before(wells[j]);
        }
      }
      forall j | 0 <= j < |wells| && |wells[j].pumping| == 0
        ensures wells[j].pumpingMethod == old(wells[j].pumpingMethod)
      {
        assert old@before(wells[j].pumpingMethod) == old(wells[j].pumpingMethod);
        if wells[j] != wells[i] {
          assert unchanged@before(wells[j]);
        }
      }
      wel := added.value;
      i := i + 1;
    }
    ProgressDone(defs, wel, npf.k33, old(npf.k33), nper, scenarioMethod, botm, k, k22Mean);
    r := Ok(wel);
  }

  // ---------------------------------------------------------------------
  // Properties of the allocation

  /** `deepest_layer` gives one entry at the deepest screened layer with the
      full rate, and the kzz method pumps the same entry. */
  lemma DeepestLayerAllocation(w: WellDef, p: Pumping, botm: Field, k: Field, k22Mean: Option<Field>)
    requires ValidModel(botm, k, k22Mean) && InGrid(w, botm)
    ensures |w.layers| > 0 ==> Allocation(DeepestLayer, w, p, botm, k, k22Mean)
                               == Ok([Entry(w.layers[|w.layers| - 1], w.node, p.flowRate, BoundName(w.id, p.stressPeriodId))])
    ensures |w.layers| == 0 ==> Allocation(DeepestLayer, w, p, botm, k, k22Mean) == Err(NoScreenedLayer(w.id))
    ensures Allocation(DeepestLayerKzzCorrection, w, p, botm, k, k22Mean) == Allocation(DeepestLayer, w, p, botm, k, k22Mean)
  {
  }

  /** A single-layer well pumps its full rate from its one layer, whatever the scenario asks for. */
  lemma SingleLayerWellTakesFullRate(w: WellDef, p: Pumping, scenarioMethod: Option<string>,
                                     botm: Field, k: Field, k22Mean: Option<Field>)
    requires ValidModel(botm, k, k22Mean) && InGrid(w, botm) && |w.layers| == 1
    ensures ParsePolicy(PumpingMethod(w.layers, scenarioMethod)) == Some(DeepestLayer)
    ensures Allocation(DeepestLayer, w, p, botm, k, k22Mean)
            == Ok([Entry(w.layers[0], w.node, p.flowRate, BoundName(w.id, p.stressPeriodId))])
  {
  }

  /** The top layer's weight uses the thickness of the bottom layer: `np.diff`
      drops the first layer, and index `-1` reads the last difference. */
  lemma TopLayerUsesBottomThickness(botm: Field, node: nat)
    requires 2 <= |botm| && forall j :: 0 <= j < |botm| ==> node < |botm[j]|
    ensures LayerHeight(botm, 0, node) == LayerHeight(botm, |botm| - 1, node)
  {
  }

  function Rates(es: seq<Entry>): seq<real>
  {
    seq(|es|, i requires 0 <= i < |es| => es[i].rate)
  }

  /** The total rate of a list of entries. */
  function TotalRate(es: seq<Entry>): real
  {
    Sum(Rates(es))
  }

  lemma TotalRateAppend(a: seq<Entry>, b: seq<Entry>)
    ensures TotalRate(a + b) == TotalRate(a) + TotalRate(b)
  {
    assert Rates(a + b) == Rates(a) + Rates(b);
    SumAppend(Rates(a), Rates(b));
  }

  /** `homogeneous`: one entry per screened layer, in order, each with an
      equal share; the shares add up to the rate. */
  lemma HomogeneousSplit(w: WellDef, p: Pumping)
    requires |w.layers| > 0
    ensures |HomogeneousEntries(w, p)| == |w.layers|
    ensures forall i :: 0 <= i < |w.layers| ==>
              HomogeneousEntries(w, p)[i] == Entry(w.layers[i], w.node, p.flowRate / (|w.layers| as real), BoundName(w.id, p.stressPeriodId))
    ensures TotalRate(HomogeneousEntries(w, p)) == p.flowRate
  {
    HomogeneousTotal(w, p);
  }

  /** The equal shares of `homogeneous` add up to the rate. */
  lemma HomogeneousTotal(w: WellDef, p: Pumping)
    requires |w.layers| > 0
    ensures TotalRate(HomogeneousEntries(w, p)) == p.flowRate
  {
    var n := |w.layers| as real;
    var rates := Rates(HomogeneousEntries(w, p));
    SumConstant(rates, p.flowRate / n);
    EqualSharesAdd(p.flowRate, n);
  }

  lemma EqualSharesAdd(rate: real, n: real)
    requires n != 0.0
    ensures n * (rate / n) == rate
  {
  }

  lemma ShareAdds(a: real, b: real, rate: real, total: real)
    requires total != 0.0
    ensures Share(a, rate, total) + Share(b, rate, total) == Share(a + b, rate, total)
  {
  }

  lemma ShareOfTotal(rate: real, total: real)
    requires total != 0.0
    ensures Share(total, rate, total) == rate
  {
  }

  /** The shares of the weights add up to the share of their sum. */
  lemma {:induction false} SharesSum(weights: seq<real>, shares: seq<real>, rate: real, total: real)
    requires |shares| == |weights| && total != 0.0
    requires forall i :: 0 <= i < |weights| ==> shares[i] == Share(weights[i], rate, total)
    ensures Sum(shares) == Share(Sum(weights), rate, total)
    decreases |weights|
  {
    var n := |weights|;
    if n > 0 {
      SharesSum(weights[..n - 1], shares[..n - 1], rate, total);
      ShareAdds(Sum(weights[..n - 1]), weights[n - 1], rate, total);
    }
  }

  /** The transmissivity shares add up to the rate. */
  lemma TransmissivityTotal(w: WellDef, p: Pumping, weights: seq<real>)
    requires |weights| == |w.layers| > 0 && Sum(weights) != 0.0
    ensures TotalRate(TransmissivityEntries(w, p, weights)) == p.flowRate
  {
    SharesSum(weights, Rates(TransmissivityEntries(w, p, weights)), p.flowRate, Sum(weights));
    ShareOfTotal(p.flowRate, Sum(weights));
  }

  /** `distributed_by_transmissivities`: layer `i` gets `T_i * rate / sum(T)`,
      and the layer rates add up to the rate. */
  lemma TransmissivitySplit(w: WellDef, p: Pumping, weights: seq<real>)
    requires |weights| == |w.layers| > 0 && Sum(weights) != 0.0
    ensures |TransmissivityEntries(w, p, weights)| == |w.layers|
    ensures forall i :: 0 <= i < |w.layers| ==>
              TransmissivityEntries(w, p, weights)[i]
              == Entry(w.layers[i], w.node, Share(weights[i], p.flowRate, Sum(weights)), BoundName(w.id, p.stressPeriodId))
    ensures TotalRate(TransmissivityEntries(w, p, weights)) == p.flowRate
  {
    TransmissivityTotal(w, p, weights);
  }

  /** The entries one pumping entry contributes lie at the well, in its
      screened layers, and carry its boundary name. */
  predicate FromWell(e: Entry, w: WellDef, sp: int)
  {
    e.node == w.node && e.layer in w.layers && e.boundName == BoundName(w.id, sp)
  }

  /** Every policy conserves the rate of a well with screened layers and labels its entries. */
  lemma AllocationConserves(policy: Policy, w: WellDef, p: Pumping, botm: Field, k: Field, k22Mean: Option<Field>)
    requires ValidModel(botm, k, k22Mean) && InGrid(w, botm) && WeightsUsable(policy, w, botm, k, k22Mean)
    requires Allocation(policy, w, p, botm, k, k22Mean).Ok?
    ensures forall e :: e in Allocation(policy, w, p, botm, k, k22Mean).value ==> FromWell(e, w, p.stressPeriodId)
    ensures |w.layers| > 0 ==> TotalRate(Allocation(policy, w, p, botm, k, k22Mean).value) == p.flowRate
  {
    var es := Allocation(policy, w, p, botm, k, k22Mean).value;
    match policy {
      case DeepestLayer | DeepestLayerKzzCorrection =>
        if |w.layers| > 0 {
          assert es == [Entry(w.layers[|w.layers| - 1], w.node, p.flowRate, BoundName(w.id, p.stressPeriodId))];
          assert Rates(es) == [p.flowRate];
          assert [p.flowRate][..0] == [];
          assert Sum([p.flowRate]) == Sum([]) + p.flowRate;
        }
      case Homogeneous =>
        if |w.layers| > 0 {
          HomogeneousSplit(w, p);
        }
      case DistributedByTransmissivities =>
        if |w.layers| > 0 {
          TransmissivitySplit(w, p, Weights(w, botm, k, k22Mean));
        }
    }
  }

  /** The part of `ps` scheduled for stress period `sp`, summed. */
  function ScheduledRate(ps: seq<Pumping>, sp: int): real
  {
    if |ps| == 0 then 0.0
    else ScheduledRate(ps[..|ps| - 1], sp) + (if ps[|ps| - 1].stressPeriodId == sp then ps[|ps| - 1].flowRate else 0.0)
  }

  /** What all the wells schedule for stress period `sp`. */
  function WellsScheduledRate(ws: seq<WellDef>, sp: int): real
  {
    if |ws| == 0 then 0.0 else WellsScheduledRate(ws[..|ws| - 1], sp) + ScheduledRate(ws[|ws| - 1].pumping, sp)
  }

  /** Some pumping entry of `ps` is scheduled for stress period `sp`. */
  predicate Schedules(ps: seq<Pumping>, sp: int)
  {
    exists j :: 0 <= j < |ps| && ps[j].stressPeriodId == sp
  }

  /** `m` extends `wel` with the same stress periods, each list growing only at its end,
      only with entries of well `w`, and only for a period some entry of `ps` is scheduled for. */
  predicate ExtendsWith(m: map<int, seq<Entry>>, wel: map<int, seq<Entry>>, w: WellDef, ps: seq<Pumping>)
  {
    && m.Keys == wel.Keys
    && forall sp :: sp in m ==>
         && |wel[sp]| <= |m[sp]| && m[sp][..|wel[sp]|] == wel[sp]
         && (|wel[sp]| < |m[sp]| ==> Schedules(ps, sp))
         && forall i :: |wel[sp]| <= i < |m[sp]| ==> FromWell(m[sp][i], w, sp)
  }

  lemma ExtendsWithTransitive(m2: map<int, seq<Entry>>, m1: map<int, seq<Entry>>, wel: map<int, seq<Entry>>,
                              w: WellDef, ps: seq<Pumping>)
    requires ExtendsWith(m1, wel, w, ps) && ExtendsWith(m2, m1, w, ps)
    ensures ExtendsWith(m2, wel, w, ps)
  {
    forall sp | sp in m2
      ensures |wel[sp]| <= |m2[sp]| && m2[sp][..|wel[sp]|] == wel[sp]
      ensures forall i :: |wel[sp]| <= i < |m2[sp]| ==> FromWell(m2[sp][i], w, sp)
    {
      assert m2[sp][..|m1[sp]|][..|wel[sp]|] == m2[sp][..|wel[sp]|];
      forall i | |wel[sp]| <= i < |m2[sp]|
        ensures FromWell(m2[sp][i], w, sp)
      {
        if i < |m1[sp]| {
          assert m2[sp][i] == m1[sp][i];
        }
      }
    }
  }

  /** A period scheduled by a prefix of `ps` is scheduled by `ps`. */
  lemma ExtendsWithPrefix(m: map<int, seq<Entry>>, wel: map<int, seq<Entry>>, w: WellDef, ps: seq<Pumping>)
    requires |ps| > 0 && ExtendsWith(m, wel, w, ps[..|ps| - 1])
    ensures ExtendsWith(m, wel, w, ps)
  {
    forall sp | Schedules(ps[..|ps| - 1], sp)
      ensures Schedules(ps, sp)
    {
      var j :| 0 <= j < |ps| - 1 && ps[..|ps| - 1][j].stressPeriodId == sp;
      assert ps[j] == ps[..|ps| - 1][j];
    }
  }

  /** Appending entries of well `w` to one stress period that `ps` schedules extends the dictionary with `w`. */
  lemma ExtendOne(m: map<int, seq<Entry>>, sp: int, es: seq<Entry>, w: WellDef, ps: seq<Pumping>)
    requires sp in m && Schedules(ps, sp) && forall e :: e in es ==> FromWell(e, w, sp)
    ensures ExtendsWith(m[sp := m[sp] + es], m, w, ps)
  {
    var m2 := m[sp := m[sp] + es];
    assert m2[sp][..|m[sp]|] == m[sp];
    forall i | |m[sp]| <= i < |m2[sp]|
      ensures FromWell(m2[sp][i], w, sp)
    {
      assert m2[sp][i] == es[i - |m[sp]|];
    }
  }

  /** The pumping entries of one well keep the stress periods and only append entries of that well. */
  lemma {:induction false} AddPumpingsExtends(wel: map<int, seq<Entry>>, w: WellDef, policy: Policy, ps: seq<Pumping>,
                                              botm: Field, k: Field, k22Mean: Option<Field>)
    requires ValidModel(botm, k, k22Mean) && InGrid(w, botm) && WeightsUsable(policy, w, botm, k, k22Mean)
    requires AddPumpings(wel, w, policy, ps, botm, k, k22Mean).Ok?
    ensures ExtendsWith(AddPumpings(wel, w, policy, ps, botm, k, k22Mean).value, wel, w, ps)
    decreases |ps|
  {
    if |ps| > 0 {
      var front := ps[..|ps| - 1];
      var p := ps[|ps| - 1];
      AddPumpingsExtends(wel, w, policy, front, botm, k, k22Mean);
      var m1 := AddPumpings(wel, w, policy, front, botm, k, k22Mean).value;
      ExtendsWithPrefix(m1, wel, w, ps);
      AllocationConserves(policy, w, p, botm, k, k22Mean);
      assert ps[|ps| - 1].stressPeriodId == p.stressPeriodId;
      ExtendOne(m1, p.stressPeriodId, Allocation(policy, w, p, botm, k, k22Mean).value, w, ps);
      ExtendsWithTransitive(AddPumpings(wel, w, policy, ps, botm, k, k22Mean).value, m1, wel, w, ps);
    }
  }

  /** When the well has screened layers, its pumping entries add exactly its scheduled rates. */
  lemma {:induction false} AddPumpingsConserves(wel: map<int, seq<Entry>>, w: WellDef, policy: Policy, ps: seq<Pumping>,
                                                botm: Field, k: Field, k22Mean: Option<Field>)
    requires ValidModel(botm, k, k22Mean) && InGrid(w, botm) && WeightsUsable(policy, w, botm, k, k22Mean)
    requires AddPumpings(wel, w, policy, ps, botm, k, k22Mean).Ok? && |w.layers| > 0
    ensures ExtendsWith(AddPumpings(wel, w, policy, ps, botm, k, k22Mean).value, wel, w, ps)
    ensures forall sp :: sp in wel ==>
              TotalRate(AddPumpings(wel, w, policy, ps, botm, k, k22Mean).value[sp]) == TotalRate(wel[sp]) + ScheduledRate(ps, sp)
    decreases |ps|
  {
    AddPumpingsExtends(wel, w, policy, ps, botm, k, k22Mean);
    if |ps| > 0 {
      var front := ps[..|ps| - 1];
      var p := ps[|ps| - 1];
      AddPumpingsConserves(wel, w, policy, front, botm, k, k22Mean);
      var m1 := AddPumpings(wel, w, policy, front, botm, k, k22Mean).value;
      var es := Allocation(policy, w, p, botm, k, k22Mean).value;
      AllocationConserves(policy, w, p, botm, k, k22Mean);
      TotalRateAppend(m1[p.stressPeriodId], es);
    }
  }

  /** A pumping well whose deepest-layer policy meets an empty layer list fails at its first entry. */
  lemma UnscreenedWellFails(wel: map<int, seq<Entry>>, w: WellDef, policy: Policy, botm: Field, k: Field, k22Mean: Option<Field>)
    requires ValidModel(botm, k, k22Mean) && InGrid(w, botm) && WeightsUsable(policy, w, botm, k, k22Mean)
    requires |w.pumping| > 0 && |w.layers| == 0 && (policy == DeepestLayer || policy == DeepestLayerKzzCorrection)
    ensures AddPumpings(wel, w, policy, w.pumping, botm, k, k22Mean).Err?
  {
    assert w.pumping[..1][..0] == [];
    AddPumpingsErrPersists(wel, w, policy, w.pumping, 1, botm, k, k22Mean);
  }

  /** One well: the same stress periods, its own entries appended, and its scheduled rates added. */
  lemma AddWellConserves(wel: map<int, seq<Entry>>, w: WellDef, scenarioMethod: Option<string>,
                         botm: Field, k: Field, k22Mean: Option<Field>)
    requires ValidModel(botm, k, k22Mean) && WellReady(w, scenarioMethod, botm, k, k22Mean)
    requires AddWell(wel, w, scenarioMethod, botm, k, k22Mean).Ok?
    ensures ExtendsWith(AddWell(wel, w, scenarioMethod, botm, k, k22Mean).value, wel, w, w.pumping)
    ensures forall sp :: sp in wel ==>
              TotalRate(AddWell(wel, w, scenarioMethod, botm, k, k22Mean).value[sp]) == TotalRate(wel[sp]) + ScheduledRate(w.pumping, sp)
  {
    if |w.pumping| == 0 {
      forall sp | sp in wel
        ensures ScheduledRate(w.pumping, sp) == 0.0
      {
      }
    } else {
      var policy := ParsePolicy(PumpingMethod(w.layers, scenarioMethod)).value;
      if |w.layers| == 0 {
        UnscreenedWellFails(wel, w, policy, botm, k, k22Mean);
      }
      AddPumpingsExtends(wel, w, policy, w.pumping, botm, k, k22Mean);
      AddPumpingsConserves(wel, w, policy, w.pumping, botm, k, k22Mean);
    }
  }

  lemma WellsReadyPrefix(ws: seq<WellDef>, n: nat, scenarioMethod: Option<string>, botm: Field, k: Field, k22Mean: Option<Field>)
    requires WellsReady(ws, scenarioMethod, botm, k, k22Mean) && n <= |ws|
    ensures WellsReady(ws[..n], scenarioMethod, botm, k, k22Mean)
  {
    var prefix := ws[..n];
    forall j | 0 <= j < n
      ensures WellReady(prefix[j], scenarioMethod, botm, k, k22Mean)
    {
      assert prefix[j] == ws[j];
    }
  }

  /** Some well of `ws` with a pumping entry for stress period `sp` gave the entry `e`. */
  predicate FromSomeWell(e: Entry, ws: seq<WellDef>, sp: int)
  {
    exists j :: 0 <= j < |ws| && FromWell(e, ws[j], sp) && Schedules(ws[j].pumping, sp)
  }

  /** All the wells: the same stress periods, and what was there kept as a
      prefix, every added entry from one of the wells, and all their scheduled rates added. */
  lemma {:induction false} AddWellsConserves(wel: map<int, seq<Entry>>, ws: seq<WellDef>, scenarioMethod: Option<string>,
                                             botm: Field, k: Field, k22Mean: Option<Field>)
    requires WellsReady(ws, scenarioMethod, botm, k, k22Mean)
    requires AddWells(wel, ws, scenarioMethod, botm, k, k22Mean).Ok?
    ensures AddWells(wel, ws, scenarioMethod, botm, k, k22Mean).value.Keys == wel.Keys
    ensures forall sp :: sp in wel ==>
              && |wel[sp]| <= |AddWells(wel, ws, scenarioMethod, botm, k, k22Mean).value[sp]|
              && forall i :: |wel[sp]| <= i < |AddWells(wel, ws, scenarioMethod, botm, k, k22Mean).value[sp]| ==>
                   FromSomeWell(AddWells(wel, ws, scenarioMethod, botm, k, k22Mean).value[sp][i], ws, sp)
    ensures forall sp :: sp in wel ==>
              TotalRate(AddWells(wel, ws, scenarioMethod, botm, k, k22Mean).value[sp]) == TotalRate(wel[sp]) + WellsScheduledRate(ws, sp)
    decreases |ws|
  {
    if |ws| > 0 {
      var front := ws[..|ws| - 1];
      var w := ws[|ws| - 1];
      WellsReadyPrefix(ws, |ws| - 1, scenarioMethod, botm, k, k22Mean);
      AddWellsConserves(wel, front, scenarioMethod, botm, k, k22Mean);
      var m1 := AddWells(wel, front, scenarioMethod, botm, k, k22Mean).value;
      var m2 := AddWells(wel, ws, scenarioMethod, botm, k, k22Mean).value;
      AddWellConserves(m1, w, scenarioMethod, botm, k, k22Mean);
      forall sp | sp in wel
        ensures |wel[sp]| <= |m2[sp]|
        ensures forall i :: |wel[sp]| <= i < |m2[sp]| ==> FromSomeWell(m2[sp][i], ws, sp)
      {
        forall i | |wel[sp]| <= i < |m2[sp]|
          ensures FromSomeWell(m2[sp][i], ws, sp)
        {
          if i < |m1[sp]| {
            assert m2[sp][..|m1[sp]|] == m1[sp];
            assert m2[sp][i] == m1[sp][i];
            var j :| 0 <= j < |front| && FromWell(m1[sp][i], front[j], sp) && Schedules(front[j].pumping, sp);
            assert front[j] == ws[j];
          } else {
            assert FromWell(m2[sp][i], ws[|ws| - 1], sp) && Schedules(ws[|ws| - 1].pumping, sp);
          }
        }
      }
    }
  }

  /** What `build` hands to the well package: exactly the stress periods
      `0 .. nper - 1`; each entry under period `sp` comes from a well that
      scheduled it for `sp` and carries that well's `id + "_SP" + str(sp)`;
      and each period's rates add up to what the wells scheduled for it. */
  lemma StressPeriodsConserveRates(ws: seq<WellDef>, nper: nat, scenarioMethod: Option<string>,
                                   botm: Field, k: Field, k22Mean: Option<Field>)
    requires WellsReady(ws, scenarioMethod, botm, k, k22Mean)
    requires WelStressPeriods(ws, nper, scenarioMethod, botm, k, k22Mean).Ok?
    ensures forall sp :: sp in WelStressPeriods(ws, nper, scenarioMethod, botm, k, k22Mean).value <==> 0 <= sp < nper
    ensures forall sp, i ::
              (sp in WelStressPeriods(ws, nper, scenarioMethod, botm, k, k22Mean).value
               && 0 <= i < |WelStressPeriods(ws, nper, scenarioMethod, botm, k, k22Mean).value[sp]|) ==>
              FromSomeWell(WelStressPeriods(ws, nper, scenarioMethod, botm, k, k22Mean).value[sp][i], ws, sp)
    ensures forall sp :: sp in WelStressPeriods(ws, nper, scenarioMethod, botm, k, k22Mean).value ==>
              TotalRate(WelStressPeriods(ws, nper, scenarioMethod, botm, k, k22Mean).value[sp]) == WellsScheduledRate(ws, sp)
  {
    EmptyPeriodsAre(nper);
    AddWellsConserves(EmptyPeriods(nper), ws, scenarioMethod, botm, k, k22Mean);
    forall sp | sp in EmptyPeriods(nper)
      ensures TotalRate(EmptyPeriods(nper)[sp]) == 0.0
    {
      assert Rates(EmptyPeriods(nper)[sp]) == [];
    }
  }

  lemma {:induction false} AddPumpingsNeverUnsupported(wel: map<int, seq<Entry>>, w: WellDef, policy: Policy, ps: seq<Pumping>,
                                                       botm: Field, k: Field, k22Mean: Option<Field>)
    requires ValidModel(botm, k, k22Mean) && InGrid(w, botm) && WeightsUsable(policy, w, botm, k, k22Mean)
    requires AddPumpings(wel, w, policy, ps, botm, k, k22Mean).Err?
    ensures !AddPumpings(wel, w, policy, ps, botm, k, k22Mean).error.UnsupportedMethod?
    decreases |ps|
  {
    if AddPumpings(wel, w, policy, ps[..|ps| - 1], botm, k, k22Mean).Err? {
      AddPumpingsNeverUnsupported(wel, w, policy, ps[..|ps| - 1], botm, k, k22Mean);
    }
  }

  /** A pumping well whose method is none of the four makes `build` fail. */
  lemma UnknownMethodRejected(ws: seq<WellDef>, nper: nat, scenarioMethod: Option<string>,
                              botm: Field, k: Field, k22Mean: Option<Field>, j: nat)
    requires WellsReady(ws, scenarioMethod, botm, k, k22Mean)
    requires j < |ws| && |ws[j].pumping| > 0 && ParsePolicy(PumpingMethod(ws[j].layers, scenarioMethod)) == None
    ensures WelStressPeriods(ws, nper, scenarioMethod, botm, k, k22Mean).Err?
  {
    WellsReadyPrefix(ws, j, scenarioMethod, botm, k, k22Mean);
    WellsReadyPrefix(ws, j + 1, scenarioMethod, botm, k, k22Mean);
    assert ws[..j + 1][..j] == ws[..j];
    assert ws[..j + 1][j] == ws[j];
    AddWellsErrPersists(EmptyPeriods(nper), ws, j + 1, scenarioMethod, botm, k, k22Mean);
  }

  /** Conversely, an unsupported-method error of `build` names the method of one of the wells. */
  lemma {:induction false} UnsupportedErrorNamesMethod(wel: map<int, seq<Entry>>, ws: seq<WellDef>, scenarioMethod: Option<string>,
                                                       botm: Field, k: Field, k22Mean: Option<Field>)
    requires WellsReady(ws, scenarioMethod, botm, k, k22Mean)
    requires AddWells(wel, ws, scenarioMethod, botm, k, k22Mean).Err?
    requires AddWells(wel, ws, scenarioMethod, botm, k, k22Mean).error.UnsupportedMethod?
    ensures exists j :: 0 <= j < |ws| && |ws[j].pumping| > 0
              && ParsePolicy(PumpingMethod(ws[j].layers, scenarioMethod)) == None
              && AddWells(wel, ws, scenarioMethod, botm, k, k22Mean).error.message
                 == UnsupportedMethodMessage(PumpingMethod(ws[j].layers, scenarioMethod))
    decreases |ws|
  {
    var front := ws[..|ws| - 1];
    var w := ws[|ws| - 1];
    WellsReadyPrefix(ws, |ws| - 1, scenarioMethod, botm, k, k22Mean);
    var r := AddWells(wel, ws, scenarioMethod, botm, k, k22Mean);
    if AddWells(wel, front, scenarioMethod, botm, k, k22Mean).Err? {
      UnsupportedErrorNamesMethod(wel, front, scenarioMethod, botm, k, k22Mean);
      var j :| 0 <= j < |front| && |front[j].pumping| > 0
               && ParsePolicy(PumpingMethod(front[j].layers, scenarioMethod)) == None
               && r.error.message == UnsupportedMethodMessage(PumpingMethod(front[j].layers, scenarioMethod));
      assert front[j] == ws[j];
    } else {
      var m := AddWells(wel, front, scenarioMethod, botm, k, k22Mean).value;
      var policy := ParsePolicy(PumpingMethod(w.layers, scenarioMethod));
      if policy.Some? {
        AddPumpingsNeverUnsupported(m, w, policy.value, w.pumping, botm, k, k22Mean);
      }
      assert |ws[|ws| - 1].pumping| > 0;
    }
  }

  /** A well with an empty pumping list changes neither the dictionary nor `k33`. */
  lemma NonPumpingWellIgnored(wel: map<int, seq<Entry>>, ws: seq<WellDef>, w: WellDef, scenarioMethod: Option<string>,
                              botm: Field, k: Field, k22Mean: Option<Field>, k33: Option<Field>)
    requires WellsReady(ws + [w], scenarioMethod, botm, k, k22Mean) && |w.pumping| == 0
    ensures WellsReady(ws, scenarioMethod, botm, k, k22Mean)
    ensures AddWells(wel, ws + [w], scenarioMethod, botm, k, k22Mean) == AddWells(wel, ws, scenarioMethod, botm, k, k22Mean)
    ensures FinalK33(ws + [w], scenarioMethod, k, k33) == FinalK33(ws, scenarioMethod, k, k33)
  {
    assert (ws + [w])[..|ws|] == ws;
    WellsReadyPrefix(ws + [w], |ws|, scenarioMethod, botm, k, k22Mean);
  }

  /** Without a pumping well under the kzz method, `build` leaves `k33` as it was. */
  lemma {:induction false} NoKzzWellKeepsK33(ws: seq<WellDef>, scenarioMethod: Option<string>, k: Field, k33: Option<Field>)
    requires forall j :: 0 <= j < |ws| && |ws[j].pumping| > 0 ==>
               ParsePolicy(PumpingMethod(ws[j].layers, scenarioMethod)) != Some(DeepestLayerKzzCorrection)
    ensures FinalK33(ws, scenarioMethod, k, k33) == k33
    decreases |ws|
  {
    if |ws| > 0 {
      var front := ws[..|ws| - 1];
      forall j | 0 <= j < |front| && |front[j].pumping| > 0
        ensures ParsePolicy(PumpingMethod(front[j].layers, scenarioMethod)) != Some(DeepestLayerKzzCorrection)
      {
        assert front[j] == ws[j];
      }
      NoKzzWellKeepsK33(front, scenarioMethod, k, k33);
    }
  }

  /** The kzz method applies only to multi-layer wells, and `k33` then equals
      `k` scaled by ten at the well node in every screened layer but the deepest. */
  lemma KzzCorrectionOfLastWell(ws: seq<WellDef>, scenarioMethod: Option<string>, k: Field, k33: Option<Field>)
    requires |ws| > 0 && |ws[|ws| - 1].pumping| > 0
    requires ParsePolicy(PumpingMethod(ws[|ws| - 1].layers, scenarioMethod)) == Some(DeepestLayerKzzCorrection)
    ensures |ws[|ws| - 1].layers| > 1
    ensures FinalK33(ws, scenarioMethod, k, k33)
            == Some(KzzCorrected(k, ws[|ws| - 1].layers[..|ws[|ws| - 1].layers| - 1], ws[|ws| - 1].node))
  {
  }
}
