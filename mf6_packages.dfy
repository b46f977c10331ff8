/** What the deck builders share about the solver's packages: per-layer
    property fields, the node-property-flow package whose vertical
    conductivity `k33` is rewritten in place, pumping schedules and the
    boundary names of well entries. */
module Mf6Packages {
  import opened Basics

  /** A value per layer and per horizontal cell: `field[layer][cell]`. A
      structured grid's `(row, col)` is the cell `row * ncol + col`. */
  type Field = seq<seq<real>>

  /** `field` has `nlay` layers of `ncell` cells each. */
  predicate IsField(field: Field, nlay: nat, ncell: nat)
  {
    |field| == nlay && forall l :: 0 <= l < nlay ==> |field[l]| == ncell
  }

  /** One entry of a well's pumping list: `{'stress_period_id': id, 'flow_rate': q}`. */
  datatype Pumping = Pumping(stressPeriodId: int, flowRate: real)

  /** The boundary name of a well entry: `id + '_SP' + str(stress_period_id)`. */
  function BoundName(wellId: string, stressPeriodId: int): string
  {
    wellId + "_SP" + IntToString(stressPeriodId)
  }

  /** A well's entries of different stress periods carry different names. */
  lemma BoundNamesDistinct(wellId: string, a: int, b: int)
    ensures BoundName(wellId, a) == BoundName(wellId, b) ==> a == b
  {
    if BoundName(wellId, a) == BoundName(wellId, b) {
      var n := |wellId + "_SP"|;
      assert IntToString(a) == BoundName(wellId, a)[n..];
      assert IntToString(b) == BoundName(wellId, b)[n..];
      IntToStringInjective(a, b);
    }
  }

  /** `layers[:-1]`: every screened layer but the deepest. */
  function Upper(layers: seq<nat>): seq<nat>
  {
    if |layers| == 0 then [] else layers[..|layers| - 1]
  }

  /** Factor applied to the vertical conductivity of the unpumped screened layers. */
  const KzzFactor: real := 10.0

  /** `k` with the cells at `cell` in the layers `upper` multiplied by ten. */
  function KzzCorrected(k: Field, upper: seq<nat>, cell: nat): Field
  {
    seq(|k|, l requires 0 <= l < |k| =>
      seq(|k[l]|, c requires 0 <= c < |k[l]| =>
        if l in upper && c == cell then k[l][c] * KzzFactor else k[l][c]))
  }

  /** The correction changes exactly the listed cells, each by a factor of ten,
      whatever the order or repetition of the layers listed. */
  lemma KzzCorrectedAt(k: Field, upper: seq<nat>, cell: nat, l: nat, c: nat)
    requires l < |k| && c < |k[l]|
    ensures |KzzCorrected(k, upper, cell)| == |k| && |KzzCorrected(k, upper, cell)[l]| == |k[l]|
    ensures l in upper && c == cell ==> KzzCorrected(k, upper, cell)[l][c] == 10.0 * k[l][c]
    ensures !(l in upper && c == cell) ==> KzzCorrected(k, upper, cell)[l][c] == k[l][c]
  {
  }

  /** With no layer above the pumped one (a single-layer well), `k33` equals `k`. */
  lemma KzzCorrectionOfSingleLayer(k: Field, cell: nat)
    ensures KzzCorrected(k, [], cell) == k
  {
    var r := KzzCorrected(k, [], cell);
    assert |r| == |k|;
    forall l | 0 <= l < |k|
      ensures r[l] == k[l]
    {
      assert |r[l]| == |k[l]|;
    }
  }

  /** The node-property-flow package of a groundwater-flow model. */
  class NpfPackage {
    /** Horizontal conductivity `k` (the array the package was built with). */
    const k: Field
    /** When `k22` has data: the cell-wise geometric mean `sqrt(k * k22)`. */
    const k22Mean: Option<Field>
    /** Vertical conductivity, `None` until set. */
    var k33: Option<Field>

    constructor (k: Field, k22Mean: Option<Field>)
      ensures this.k == k && this.k22Mean == k22Mean && k33 == None
    {
      this.k := k;
      this.k22Mean := k22Mean;
      k33 := None;
    }

    /** `data = k.get_data(); data[upper, cell] = [x * 10 for x in data[upper, cell]];
        k33.set_data(data)`: the copy's entries are scaled one listed layer at a time. */
    method SetKzzCorrection(upper: seq<nat>, cell: nat)
      requires forall i :: 0 <= i < |upper| ==> upper[i] < |k| && cell < |k[upper[i]]|
      modifies this
      ensures k33 == Some(KzzCorrected(k, upper, cell))
    {
      var data := k;
      var i := 0;
      while i < |upper|
        invariant 0 <= i <= |upper|
        invariant |data| == |k|
        invariant forall l :: 0 <= l < |k| ==> |data[l]| == |k[l]|
        invariant forall l, c :: 0 <= l < |k| && 0 <= c < |k[l]| ==>
                    data[l][c] == if l in upper[..i] && c == cell then k[l][c] * KzzFactor else k[l][c]
      {
        var l := upper[i];
        data := data[l := data[l][cell := k[l][cell] * KzzFactor]];
        assert upper[..i + 1] == upper[..i] + [l];
        i := i + 1;
      }
      assert upper[..i] == upper;
      var want := KzzCorrected(k, upper, cell);
      forall l | 0 <= l < |k|
        ensures data[l] == want[l]
      {
        assert |data[l]| == |want[l]|;
      }
      assert data == want;
      k33 := Some(data);
    }
  }
}
