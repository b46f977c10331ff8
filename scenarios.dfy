/** The scenario generator of utils/scenarios.py: the cartesian product of
    parameter value lists, one named row per combination. */
module Scenarios {
  import opened Basics

  /** A single parameter value. A tuple is a single value too: only lists
      and arrays sweep. */
  datatype Atom =
    | IntValue(i: int)
    | RealValue(r: real)
    | BoolValue(b: bool)
    | StringValue(s: string)
    | TupleValue(items: seq<Atom>)

  /** What a keyword argument holds: a `list`/`ndarray` of candidates, or anything else. */
  datatype ParamValue = Scalar(value: Atom) | Sweep(values: seq<Atom>)

  /** One keyword argument, `name=value`; a sweep specification lists them in declaration order. */
  datatype Param = Param(name: string, value: ParamValue)

  datatype Row = Row(simulationName: string, modelName: string, values: seq<Atom>)

  /** The returned data frame: its column names, and its rows in index order. */
  datatype ScenarioTable = ScenarioTable(columns: seq<string>, rows: seq<Row>)

  const NoKeywordArguments := "scenarios.combine: no keyword arguments given."

  /** The candidate list of one parameter: a scalar is wrapped as a one-element list. */
  function Candidates(v: ParamValue): seq<Atom>
  {
    match v
    case Scalar(x) => [x]
    case Sweep(xs) => xs
  }

  function WrapAll(ps: seq<Param>): seq<seq<Atom>>
  {
    seq(|ps|, i requires 0 <= i < |ps| => Candidates(ps[i].value))
  }

  function Names(ps: seq<Param>): seq<string>
  {
    seq(|ps|, i requires 0 <= i < |ps| => ps[i].name)
  }

  /** The `number_of_scenarios` counter: the product of the lengths of the
      list-valued parameters (scalars do not multiply it). */
  function SweepCount(ps: seq<Param>): nat
  {
    if |ps| == 0 then 1
    else
      var last := ps[|ps| - 1].value;
      SweepCount(ps[..|ps| - 1]) * (if last.Sweep? then |last.values| else 1)
  }

  /** The product of the lengths of `ls`. */
  function Radix(ls: seq<seq<Atom>>): nat
  {
    if |ls| == 0 then 1 else |ls[0]| * Radix(ls[1..])
  }

  /** The tuples `[x] + t` for every `x` of `xs` (outer) and every `t` of `tails` (inner). */
  function Spread(xs: seq<Atom>, tails: seq<seq<Atom>>): seq<seq<Atom>>
  {
    if |xs| == 0 then []
    else seq(|tails|, j requires 0 <= j < |tails| => [xs[0]] + tails[j]) + Spread(xs[1..], tails)
  }

  /** `itertools.product(*ls)`: the first list is the outermost loop. */
  function Product(ls: seq<seq<Atom>>): seq<seq<Atom>>
  {
    if |ls| == 0 then [[]] else Spread(ls[0], Product(ls[1..]))
  }

  function SimulationName(base: string, i: nat): string
  {
    base + NatToString(i)
  }

  function ModelName(base: string, i: nat): string
  {
    SimulationName(base, i) + "_MODEL"
  }

  function NamedRows(base: string, combos: seq<seq<Atom>>): seq<Row>
  {
    seq(|combos|, i requires 0 <= i < |combos| => Row(SimulationName(base, i), ModelName(base, i), combos[i]))
  }

  /** The loop over the keyword arguments: wraps each scalar into a
      one-element list and multiplies the counter by each list's length. */
  method CountScenarios(kwargs: seq<Param>) returns (count: nat, values: seq<seq<Atom>>)
    ensures count == SweepCount(kwargs)
    ensures |values| == |kwargs|
    ensures forall i :: 0 <= i < |kwargs| && kwargs[i].value.Scalar? ==> values[i] == [kwargs[i].value.value]
    ensures forall i :: 0 <= i < |kwargs| && kwargs[i].value.Sweep? ==> values[i] == kwargs[i].value.values
  {
    count := 1;
    values := [];
    var i := 0;
    while i < |kwargs|
      invariant 0 <= i <= |kwargs|
      invariant count == SweepCount(kwargs[..i])
      invariant values == WrapAll(kwargs[..i])
    {
      assert kwargs[..i + 1][..i] == kwargs[..i];
      var v := kwargs[i].value;
      if !v.Sweep? {
        values := values + [[v.value]];
        i := i + 1;
        continue;
      }
      count := count * |v.values|;
      values := values + [v.values];
      i := i + 1;
    }
    assert kwargs[..i] == kwargs;
  }

  /** `combine(sim_base_name, **kwargs)`. */
  method Combine(base: string, kwargs: seq<Param>) returns (r: Result<ScenarioTable, string>)
    ensures r.Err? <==> |kwargs| == 0
    ensures r.Err? ==> r.error == NoKeywordArguments
    ensures r.Ok? ==> r.value.columns == ["simulation_name", "model_name"] + Names(kwargs)
    ensures r.Ok? ==> |r.value.rows| == SweepCount(kwargs) == |Product(WrapAll(kwargs))|
    ensures r.Ok? ==> forall i :: 0 <= i < |r.value.rows| ==>
              r.value.rows[i] == Row(SimulationName(base, i), ModelName(base, i), Product(WrapAll(kwargs))[i])
  {
    if |kwargs| == 0 {
      return Err(NoKeywordArguments);
    }
    var count, values := CountScenarios(kwargs);
    assert values == WrapAll(kwargs);
    var combos := Product(values);
    RowCount(kwargs);
    r := Ok(ScenarioTable(["simulation_name", "model_name"] + Names(kwargs), NamedRows(base, combos)));
  }

  // ---------------------------------------------------------------------
  // Properties of the product and of the naming

  lemma {:induction false} RadixSnoc(ls: seq<seq<Atom>>, l: seq<Atom>)
    ensures Radix(ls + [l]) == Radix(ls) * |l|
    decreases |ls|
  {
    if |ls| == 0 {
      assert ([] + [l])[1..] == [];
    } else {
      assert (ls + [l])[1..] == ls[1..] + [l];
      RadixSnoc(ls[1..], l);
    }
  }

  /** The counter of the loop equals the product of the wrapped lists' lengths. */
  lemma {:induction false} SweepCountIsRadix(ps: seq<Param>)
    ensures SweepCount(ps) == Radix(WrapAll(ps))
    decreases |ps|
  {
    if |ps| > 0 {
      var init := ps[..|ps| - 1];
      assert WrapAll(ps) == WrapAll(init) + [Candidates(ps[|ps| - 1].value)];
      SweepCountIsRadix(init);
      RadixSnoc(WrapAll(init), Candidates(ps[|ps| - 1].value));
    }
  }

  // Integer facts, each proved in a context of its own.

  lemma {:induction false} DivMod(n: int, d: int, q: int, r: int)
    requires d > 0 && 0 <= r < d && n == q * d + r
    ensures n / d == q && n % d == r
  {
    var q', r' := n / d, n % d;
    assert (q - q') * d == r' - r;
    if q > q' {
      MulAtLeast(q - q', d);
    } else if q < q' {
      MulAtLeast(q' - q, d);
    }
  }

  lemma {:induction false} MulAtLeast(x: int, d: int)
    requires x >= 1 && d >= 0
    ensures x * d >= d
  {
  }

  lemma {:induction false} DivBelow(i: nat, R: nat, L: nat)
    requires R > 0 && i < L * R
    ensures i / R < L
  {
  }

  lemma {:induction false} SplitIndex(a: nat, b: nat, R: nat, i: nat)
    requires b < R && i == a * R + b
    ensures i / R == a && i % R == b
  {
    DivMod(i, R, a, b);
  }

  lemma {:induction false} MulAssoc(x: nat, y: nat, z: nat)
    ensures x * (y * z) == (x * y) * z
  {
  }

  lemma {:induction false} DigitShift(i: nat, a: nat, b: nat, R: nat, P: nat, L: nat, S: nat)
    requires L > 0 && S > 0 && R == P * (L * S) && b < R && i == a * R + b
    ensures (i / S) % L == (b / S) % L
  {
    var q, r := b / S, b % S;
    assert b == q * S + r;
    var x := a * P * L;
    assert a * R == x * S;
    assert i == (x + q) * S + r;
    DivMod(i, S, x + q, r);
    var qq, rr := q / L, q % L;
    assert q == qq * L + rr;
    assert x + q == (a * P + qq) * L + rr;
    DivMod(x + q, L, a * P + qq, rr);
  }

  // ---------------------------------------------------------------------

  lemma {:induction false} IndexBelow(a: nat, b: nat, n: nat, m: nat)
    requires a < m && b < n
    ensures a * n + b < m * n
  {
    assert (a + 1) * n <= m * n;
  }

  lemma {:induction false} MulPred(a: nat, n: nat)
    requires a > 0
    ensures a * n == n + (a - 1) * n
  {
  }

  /** Element `a * |tails| + b` of Spread(xs, tails) is `[xs[a]] + tails[b]`. */
  lemma {:induction false} SpreadAt(xs: seq<Atom>, tails: seq<seq<Atom>>, a: nat, b: nat)
    requires a < |xs| && b < |tails|
    ensures |Spread(xs, tails)| == |xs| * |tails|
    ensures a * |tails| + b < |Spread(xs, tails)|
    ensures Spread(xs, tails)[a * |tails| + b] == [xs[a]] + tails[b]
    decreases a
  {
    SpreadLength(xs, tails);
    var n := |tails|;
    IndexBelow(a, b, n, |xs|);
    var front := seq(n, j requires 0 <= j < n => [xs[0]] + tails[j]);
    assert Spread(xs, tails) == front + Spread(xs[1..], tails);
    if a > 0 {
      SpreadAt(xs[1..], tails, a - 1, b);
      MulPred(a, n);
      var x := (a - 1) * n + b;
      assert a * n + b == n + x;
      assert (front + Spread(xs[1..], tails))[n + x] == Spread(xs[1..], tails)[x];
    } else {
      assert a * n + b == b;
    }
  }

  lemma {:induction false} SpreadLength(xs: seq<Atom>, tails: seq<seq<Atom>>)
    ensures |Spread(xs, tails)| == |xs| * |tails|
    decreases |xs|
  {
    if |xs| > 0 {
      SpreadLength(xs[1..], tails);
      MulPred(|xs|, |tails|);
    }
  }

  /** The product has as many tuples as the lengths' product. */
  lemma {:induction false} ProductLength(ls: seq<seq<Atom>>)
    ensures |Product(ls)| == Radix(ls)
    decreases |ls|
  {
    if |ls| > 0 {
      ProductLength(ls[1..]);
      SpreadLength(ls[0], Product(ls[1..]));
    }
  }

  lemma {:induction false} RadixSplit(ls: seq<seq<Atom>>, k: nat)
    requires k <= |ls|
    ensures Radix(ls) == Radix(ls[..k]) * Radix(ls[k..])
    decreases k
  {
    if k == 0 {
      assert ls[..0] == [];
      assert ls[0..] == ls;
    } else {
      assert ls[..k][1..] == ls[1..][..k - 1];
      assert ls[k..] == ls[1..][k - 1..];
      RadixSplit(ls[1..], k - 1);
      MulAssoc(|ls[0]|, Radix(ls[1..][..k - 1]), Radix(ls[k..]));
    }
  }

  lemma {:induction false} DivModIdentity(i: nat, R: nat)
    requires R > 0
    ensures i == (i / R) * R + i % R && 0 <= i % R < R
  {
  }

  /** Tuple `a * R + b` of a non-empty product, with `R` the rest's radix: the head's
      element `a`, then tuple `b` of the rest. */
  lemma {:induction false} ProductSplitAt(ls: seq<seq<Atom>>, a: nat, b: nat)
    requires |ls| > 0 && a < |ls[0]| && b < Radix(ls[1..])
    ensures |Product(ls)| == Radix(ls) && |Product(ls[1..])| == Radix(ls[1..])
    ensures a * Radix(ls[1..]) + b < Radix(ls)
    ensures Product(ls)[a * Radix(ls[1..]) + b] == [ls[0][a]] + Product(ls[1..])[b]
  {
    var P := Product(ls[1..]);
    ProductLength(ls);
    ProductLength(ls[1..]);
    SpreadAt(ls[0], P, a, b);
  }

  /** Tuple `i` of a non-empty product: the head's digit, then a tuple of the rest. */
  lemma {:induction false} ProductSplit(ls: seq<seq<Atom>>, i: nat)
    requires |ls| > 0 && i < Radix(ls)
    ensures |Product(ls)| == Radix(ls)
    ensures Radix(ls[1..]) > 0
    ensures i / Radix(ls[1..]) < |ls[0]|
    ensures i % Radix(ls[1..]) < |Product(ls[1..])|
    ensures Product(ls)[i] == [ls[0][i / Radix(ls[1..])]] + Product(ls[1..])[i % Radix(ls[1..])]
  {
    var R := Radix(ls[1..]);
    assert Radix(ls) == |ls[0]| * R;
    Digits(i, R, |ls[0]|);
    ProductSplitAt(ls, i / R, i % R);
  }

  lemma {:induction false} Digits(i: nat, R: nat, L: nat)
    requires i < L * R
    ensures R > 0 && i / R < L && i % R < R && i == (i / R) * R + i % R
  {
    DivBelow(i, R, L);
  }

  lemma {:induction false} ProductComponents(ls: seq<seq<Atom>>, i: nat)
    requires i < |Product(ls)|
    ensures |Product(ls)[i]| == |ls|
    decreases |ls|
  {
    ProductLength(ls);
    if |ls| > 0 {
      ProductSplit(ls, i);
      ProductComponents(ls[1..], i % Radix(ls[1..]));
    }
  }

  /** The digit of component `k > 0` of index `i` is the digit of component
      `k - 1` of the rest's index `i % Radix(ls[1..])`. */
  lemma {:induction false} DigitOfTail(ls: seq<seq<Atom>>, i: nat, k: nat)
    requires 0 < k < |ls| && i < Radix(ls)
    ensures Radix(ls[1..]) > 0 && Radix(ls[k + 1..]) > 0 && |ls[k]| > 0
    ensures ls[1..][k - 1] == ls[k] && ls[1..][k..] == ls[k + 1..]
    ensures (i / Radix(ls[k + 1..])) % |ls[k]| == ((i % Radix(ls[1..])) / Radix(ls[k + 1..])) % |ls[k]|
  {
    var R := Radix(ls[1..]);
    assert Radix(ls) == |ls[0]| * R;
    Digits(i, R, |ls[0]|);
    var a: nat := i / R;
    var b: nat := i % R;
    assert ls[1..][k..] == ls[k + 1..];
    assert ls[1..][k - 1] == ls[k];
    var S := Radix(ls[k + 1..]);
    var L := |ls[k]|;
    var P := Radix(ls[1..][..k - 1]);
    RadixSplit(ls[1..], k - 1);
    assert ls[1..][k - 1..] == ls[k..];
    assert Radix(ls[k..]) == L * S by {
      assert ls[k..][1..] == ls[k + 1..];
    }
    assert R == P * (L * S);
    assert L > 0 && S > 0;
    DigitShift(i, a, b, R, P, L, S);
  }

  lemma {:induction false} ProductAtHead(ls: seq<seq<Atom>>, i: nat)
    requires i < Radix(ls) && 0 < |ls|
    ensures |Product(ls)| == Radix(ls) && |Product(ls)[i]| == |ls|
    ensures Radix(ls[1..]) > 0 && |ls[0]| > 0
    ensures Product(ls)[i][0] == ls[0][(i / Radix(ls[1..])) % |ls[0]|]
  {
    ProductLength(ls);
    ProductComponents(ls, i);
    ProductSplit(ls, i);
    var a: nat := i / Radix(ls[1..]);
    DivMod(a, |ls[0]|, 0, a);
  }

  /** Row order: component `k` of tuple `i` is the `k`-th digit of `i` in the
      mixed radix of the lists' lengths, so the last list varies fastest. */
  lemma {:induction false} ProductAt(ls: seq<seq<Atom>>, i: nat, k: nat)
    requires i < Radix(ls) && k < |ls|
    ensures |Product(ls)| == Radix(ls)
    ensures |Product(ls)[i]| == |ls|
    ensures Radix(ls[k + 1..]) > 0 && |ls[k]| > 0
    ensures Product(ls)[i][k] == ls[k][(i / Radix(ls[k + 1..])) % |ls[k]|]
    decreases |ls|
  {
    if k == 0 {
      ProductAtHead(ls, i);
      assert ls[k + 1..] == ls[1..];
    } else {
      ProductLength(ls);
      ProductComponents(ls, i);
      ProductSplit(ls, i);
      DigitOfTail(ls, i, k);
      var b: nat := i % Radix(ls[1..]);
      ProductLength(ls[1..]);
      ProductAt(ls[1..], b, k - 1);
      assert Product(ls)[i][k] == Product(ls[1..])[b][k - 1];
    }
  }

  /** The row count of combine is the loop's `number_of_scenarios`. */
  lemma {:induction false} RowCount(ps: seq<Param>)
    ensures |Product(WrapAll(ps))| == SweepCount(ps)
  {
    ProductLength(WrapAll(ps));
    SweepCountIsRadix(ps);
  }

  /** With no list-valued parameter there is exactly one scenario. */
  lemma {:induction false} AllScalarsGiveOneRow(ps: seq<Param>)
    requires forall i :: 0 <= i < |ps| ==> ps[i].value.Scalar?
    ensures SweepCount(ps) == 1
    ensures |Product(WrapAll(ps))| == 1
    decreases |ps|
  {
    if |ps| > 0 {
      AllScalarsGiveOneRow(ps[..|ps| - 1]);
    }
    RowCount(ps);
  }

  /** Simulation names are pairwise distinct, and so are model names. */
  lemma {:induction false} NamesDistinct(base: string, i: nat, j: nat)
    requires i != j
    ensures SimulationName(base, i) != SimulationName(base, j)
    ensures ModelName(base, i) != ModelName(base, j)
  {
    var si, sj := SimulationName(base, i), SimulationName(base, j);
    assert si[|base|..] == NatToString(i);
    assert sj[|base|..] == NatToString(j);
    NatToStringInjective(i, j);
    var mi, mj := ModelName(base, i), ModelName(base, j);
    assert mi[..|mi| - 6] == si;
    assert mj[..|mj| - 6] == sj;
  }

  // ---------------------------------------------------------------------
  // Concrete instances

  /** `combine("SIM", a=[1, 2], b=[10, 20])`: four rows, the last parameter fastest. */
  lemma {:induction false} TwoByTwoExample()
    ensures Product(WrapAll([Param("a", Sweep([IntValue(1), IntValue(2)])), Param("b", Sweep([IntValue(10), IntValue(20)]))]))
            == [[IntValue(1), IntValue(10)], [IntValue(1), IntValue(20)], [IntValue(2), IntValue(10)], [IntValue(2), IntValue(20)]]
    ensures SimulationName("SIM", 0) == "SIM0" && SimulationName("SIM", 3) == "SIM3"
    ensures ModelName("SIM", 3) == "SIM3_MODEL"
  {
    var ls := [[IntValue(1), IntValue(2)], [IntValue(10), IntValue(20)]];
    assert WrapAll([Param("a", Sweep([IntValue(1), IntValue(2)])), Param("b", Sweep([IntValue(10), IntValue(20)]))]) == ls;
    var expected := [[IntValue(1), IntValue(10)], [IntValue(1), IntValue(20)], [IntValue(2), IntValue(10)], [IntValue(2), IntValue(20)]];
    assert ls[1..] == [[IntValue(10), IntValue(20)]];
    assert ls[2..] == [];
    assert ls[1..][1..] == [];
    assert Radix(ls[2..]) == 1;
    assert Radix(ls[1..]) == 2;
    assert Radix(ls) == 4;
    forall i, k | 0 <= i < 4 && 0 <= k < 2
      ensures Product(ls)[i][k] == expected[i][k]
    {
      ProductAt(ls, i, k);
    }
    ProductLength(ls);
    forall i | 0 <= i < 4
      ensures Product(ls)[i] == expected[i]
    {
      ProductAt(ls, i, 0);
    }
    assert NatToString(0) == "0";
    assert NatToString(3) == "3";
  }

  /** The sweep of mf6het3d/setup.py: five two-valued parameters. */
  function SetupParameters(): seq<Param>
  {
    [ Param("pumping_flow_rate", Sweep([IntValue(50), IntValue(100)])),
      Param("specific_storage", Sweep([RealValue(0.01), RealValue(0.001)])),
      Param("newton_raphson", Sweep([BoolValue(true), BoolValue(false)])),
      Param("head_convergence", Sweep([RealValue(0.00001), RealValue(0.000001)])),
      Param("hk_field_variance", Sweep([RealValue(1.25), RealValue(2.25)])) ]
  }

  /** That sweep yields 32 scenarios. */
  lemma {:induction false} SetupHasThirtyTwoScenarios()
    ensures |Product(WrapAll(SetupParameters()))| == 32
  {
    var ps := SetupParameters();
    RowCount(ps);
    assert ps[..4][..3][..2][..1][..0] == [];
  }
}
