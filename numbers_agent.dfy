/**
 * The derived-metrics and scenario engine of a property's numeric inputs
 * (tools/numbers_agent.py): building the input map from line-item rows,
 * the seven derived metrics, the anomaly rules, fractional what-if deltas,
 * the net-profit sensitivity grid and the bracketing-plus-bisection
 * break-even search on the sale price.
 *
 * Amounts are reals; the line-item store is replaced by the rows it would
 * return, and the best-effort writes to the snapshot and log tables are
 * left out, since they never change a returned value.
 */
module NumbersAgent {
  import opened Maybe

  /** `Dict[str, float | None]`: an absent key and a `None` amount both mean "unknown". */
  type Inputs = map<string, Option<real>>

  const PRECIO_VENTA := "precio_venta"
  const IMPUESTOS_PCT := "impuestos_pct"
  const PROJECT_MGMT_FEES := "project_mgmt_fees"
  const TERRENOS_COSTE := "terrenos_coste"
  const PROJECT_MANAGEMENT_COSTE := "project_management_coste"
  const ACOMETIDAS := "acometidas"
  const COSTES_CONSTRUCCION := "costes_construccion"
  const TOTAL_PAGADO := "total_pagado"
  const TERRENO_URBANO := "terreno_urbano"
  const TERRENO_RUSTICO := "terreno_rustico"
  const SUPERFICIE_M2 := "superficie_m2"

  /** The five cost components that `costes_totales` adds up, in the source's order. */
  const COST_KEYS := [PROJECT_MGMT_FEES, TERRENOS_COSTE, PROJECT_MANAGEMENT_COSTE, ACOMETIDAS, COSTES_CONSTRUCCION]

  /** `inputs.get(key)`. */
  function Get(inputs: Inputs, key: string): Option<real> {
    if key in inputs then inputs[key] else None
  }

  // ---------------------------------------------------------------- _to_map

  /** What `float(amount)` makes of a row's amount: nothing, a number, or an exception. */
  datatype RawAmount = Missing | Numeric(value: real) | Unparseable

  /** One line-item row: `item_key` may be missing, `amount` as stored. */
  datatype Row = Row(itemKey: Option<string>, amount: RawAmount)

  /** `float(amt) if amt is not None else None`, with a failed conversion read as `None`. */
  function Convert(amount: RawAmount): (r: Option<real>)
    ensures r.Some? <==> amount.Numeric?
    ensures r.Some? ==> r.value == amount.value
  {
    match amount
    case Numeric(v) => Some(v)
    case _ => None
  }

  /** The map `_to_map` has built after seeing `rows`, in order. */
  function RowsToMap(rows: seq<Row>): Inputs
    decreases |rows|
  {
    if rows == [] then map[]
    else
      var m := RowsToMap(rows[..|rows| - 1]);
      var last := rows[|rows| - 1];
      match last.itemKey
      case None => m
      case Some(k) => m[k := Convert(last.amount)]
  }

  method ToMap(rows: seq<Row>) returns (out: Inputs)
    ensures out == RowsToMap(rows)
  {
    out := map[];
    for i := 0 to |rows|
      invariant out == RowsToMap(rows[..i])
    {
      assert rows[..i + 1][..i] == rows[..i];
      var r := rows[i];
      match r.itemKey {
        case None =>
        case Some(k) => out := out[k := Convert(r.amount)];
      }
    }
    assert rows[..|rows|] == rows;
  }

  /** A key is in the map exactly when some row carries it. */
  lemma {:induction false} ToMapKeys(rows: seq<Row>, k: string)
    ensures k in RowsToMap(rows) <==> exists i | 0 <= i < |rows| :: rows[i].itemKey == Some(k)
    decreases |rows|
  {
    if rows != [] {
      var init := rows[..|rows| - 1];
      ToMapKeys(init, k);
      if exists i | 0 <= i < |init| :: init[i].itemKey == Some(k) {
        var i :| 0 <= i < |init| && init[i].itemKey == Some(k);
        assert rows[i] == init[i];
      }
      if exists i | 0 <= i < |rows| :: rows[i].itemKey == Some(k) {
        var i :| 0 <= i < |rows| && rows[i].itemKey == Some(k);
        if i < |init| {
          assert init[i] == rows[i];
        }
      }
    }
  }

  /** For a duplicated key, the last row that carries it decides its amount. */
  lemma {:induction false} ToMapLastWins(rows: seq<Row>, i: int, k: string)
    requires 0 <= i < |rows| && rows[i].itemKey == Some(k)
    requires forall j | i < j < |rows| :: rows[j].itemKey != Some(k)
    ensures k in RowsToMap(rows) && RowsToMap(rows)[k] == Convert(rows[i].amount)
    decreases |rows|
  {
    if i < |rows| - 1 {
      var init := rows[..|rows| - 1];
      ToMapLastWins(init, i, k);
    }
  }

  // ---------------------------------------------------------------- _safe_div

  function SafeDiv(a: Option<real>, b: Option<real>): (r: Option<real>)
    ensures r.Some? <==> a.Some? && b.Some? && b.value != 0.0
    ensures r.Some? ==> r.value * b.value == a.value
  {
    if a.None? || b.None? || b.value == 0.0 then None else Some(a.value / b.value)
  }

  // ---------------------------------------------------------------- _sum

  /** The sum of the present values; absent ones add nothing. */
  function Total(values: seq<Option<real>>): real
    decreases |values|
  {
    if values == [] then 0.0 else Total(values[..|values| - 1]) + values[|values| - 1].GetOr(0.0)
  }

  predicate AnyPresent(values: seq<Option<real>>) {
    exists i | 0 <= i < |values| :: values[i].Some?
  }

  /** What `_sum` returns: `None` when nothing is present, else the sum of what is. */
  function PresentSum(values: seq<Option<real>>): Option<real> {
    if AnyPresent(values) then Some(Total(values)) else None
  }

  /** The accumulator loop of `_sum`. */
  method Sum(values: seq<Option<real>>) returns (r: Option<real>)
    ensures r.None? <==> forall i | 0 <= i < |values| :: values[i].None?
    ensures r.Some? ==> r.value == Total(values)
    ensures r == PresentSum(values)
  {
    var acc := 0.0;
    var has := false;
    for i := 0 to |values|
      invariant has <==> AnyPresent(values[..i])
      invariant acc == Total(values[..i])
    {
      assert values[..i + 1][..i] == values[..i];
      if values[i].Some? {
        has := true;
        acc := acc + values[i].value;
      }
      assert AnyPresent(values[..i]) ==> AnyPresent(values[..i + 1]) by {
        if AnyPresent(values[..i]) {
          var j :| 0 <= j < i && values[..i][j].Some?;
          assert values[..i + 1][j] == values[..i][j];
        }
      }
      assert values[i].Some? ==> values[..i + 1][i].Some?;
    }
    assert values[..|values|] == values;
    r := if has then Some(acc) else None;
  }

  // ---------------------------------------------------------------- compute_derived_from_inputs

  datatype Derived = Derived(
    impuestosTotal: Option<real>,
    costesTotales: Option<real>,
    grossMargin: Option<real>,
    netProfit: Option<real>,
    roiPct: Option<real>,
    urbanoRatio: Option<real>,
    pricePerM2: Option<real>)

  function CostValues(inputs: Inputs): (vs: seq<Option<real>>)
    ensures |vs| == |COST_KEYS|
    ensures forall i | 0 <= i < |COST_KEYS| :: vs[i] == Get(inputs, COST_KEYS[i])
  {
    seq(|COST_KEYS|, i requires 0 <= i < |COST_KEYS| => Get(inputs, COST_KEYS[i]))
  }

  /** At least one of the five cost components is known. */
  predicate CostsKnown(inputs: Inputs) {
    exists k | k in COST_KEYS :: Get(inputs, k).Some?
  }

  /** The cost components added up with unknown ones counted as zero. */
  function CostSum(inputs: Inputs): real {
    Get(inputs, PROJECT_MGMT_FEES).GetOr(0.0) + Get(inputs, TERRENOS_COSTE).GetOr(0.0)
    + Get(inputs, PROJECT_MANAGEMENT_COSTE).GetOr(0.0) + Get(inputs, ACOMETIDAS).GetOr(0.0)
    + Get(inputs, COSTES_CONSTRUCCION).GetOr(0.0)
  }

  lemma CostValuesSum(inputs: Inputs)
    ensures AnyPresent(CostValues(inputs)) <==> CostsKnown(inputs)
    ensures Total(CostValues(inputs)) == CostSum(inputs)
  {
    var vs := CostValues(inputs);
    if CostsKnown(inputs) {
      var k :| k in COST_KEYS && Get(inputs, k).Some?;
      var i :| 0 <= i < |COST_KEYS| && COST_KEYS[i] == k;
      assert vs[i].Some?;
    }
    if AnyPresent(vs) {
      var i :| 0 <= i < |vs| && vs[i].Some?;
      assert COST_KEYS[i] in COST_KEYS;
    }
    assert Total(vs[..1]) == vs[0].GetOr(0.0) by {
      assert vs[..1][..0] == [];
    }
    assert Total(vs[..2]) == Total(vs[..1]) + vs[1].GetOr(0.0) by {
      assert vs[..2][..1] == vs[..1];
    }
    assert Total(vs[..3]) == Total(vs[..2]) + vs[2].GetOr(0.0) by {
      assert vs[..3][..2] == vs[..2];
    }
    assert Total(vs[..4]) == Total(vs[..3]) + vs[3].GetOr(0.0) by {
      assert vs[..4][..3] == vs[..3];
    }
    assert Total(vs) == Total(vs[..4]) + vs[4].GetOr(0.0);
  }

  /** What `_sum` makes of the five cost components. */
  function CostesTotales(inputs: Inputs): (r: Option<real>)
    ensures r.Some? <==> CostsKnown(inputs)
    ensures r.Some? ==> r.value == CostSum(inputs)
  {
    CostValuesSum(inputs);
    PresentSum(CostValues(inputs))
  }

  /** compute_derived_from_inputs: the seven derived metrics, each `None` when an operand is. */
  function ComputeDerived(inputs: Inputs): Derived
  {
    var impuestosTotal := ImpuestosTotal(inputs);
    var costesTotales := CostesTotales(inputs);
    var grossMargin := GrossMargin(inputs, costesTotales);
    var netProfit := NetProfit(grossMargin, impuestosTotal);
    Derived(impuestosTotal, costesTotales, grossMargin, netProfit,
            SafeDiv(netProfit, Get(inputs, TOTAL_PAGADO)), UrbanoRatio(inputs),
            SafeDiv(Get(inputs, PRECIO_VENTA), Get(inputs, SUPERFICIE_M2)))
  }

  /**
   * What each derived metric means: when it is present, and how it relates
   * to the inputs and to the other metrics.
   */
  lemma DerivedMetrics(inputs: Inputs)
    ensures var r := ComputeDerived(inputs);
            var precio := Get(inputs, PRECIO_VENTA);
            var pct := Get(inputs, IMPUESTOS_PCT);
            var pagado := Get(inputs, TOTAL_PAGADO);
            var urbano := Get(inputs, TERRENO_URBANO);
            var rustico := Get(inputs, TERRENO_RUSTICO);
            var superficie := Get(inputs, SUPERFICIE_M2);
            && (r.impuestosTotal.Some? <==> pct.Some? && precio.Some?)
            && (r.impuestosTotal.Some? ==> r.impuestosTotal.value == Tax(pct.value, precio.value))
            && (r.costesTotales.Some? <==> CostsKnown(inputs))
            && (r.costesTotales.Some? ==> r.costesTotales.value == CostSum(inputs))
            && (r.grossMargin.Some? <==> precio.Some? && r.costesTotales.Some?)
            && (r.grossMargin.Some? ==> r.grossMargin.value + r.costesTotales.value == precio.value)
            && (r.netProfit.Some? <==> r.grossMargin.Some? && r.impuestosTotal.Some?)
            && (r.netProfit.Some? ==> r.netProfit.value == precio.value - r.costesTotales.value - r.impuestosTotal.value)
            && (r.roiPct.Some? <==> r.netProfit.Some? && pagado.Some? && pagado.value != 0.0)
            && (r.roiPct.Some? ==> r.roiPct.value * pagado.value == r.netProfit.value)
            && (r.urbanoRatio.Some? <==> urbano.Some? && rustico.Some? && urbano.value + rustico.value != 0.0)
            && (r.urbanoRatio.Some? ==> r.urbanoRatio.value * (urbano.value + rustico.value) == urbano.value)
            && (r.pricePerM2.Some? <==> precio.Some? && superficie.Some? && superficie.value != 0.0)
            && (r.pricePerM2.Some? ==> r.pricePerM2.value * superficie.value == precio.value)
  {
  }

  /** `impuestos_pct * precio_venta`. */
  function Tax(pct: real, precio: real): real {
    pct * precio
  }

  function ImpuestosTotal(inputs: Inputs): Option<real> {
    var pct := Get(inputs, IMPUESTOS_PCT);
    var precio := Get(inputs, PRECIO_VENTA);
    if pct.Some? && precio.Some? then Some(Tax(pct.value, precio.value)) else None
  }

  function GrossMargin(inputs: Inputs, costesTotales: Option<real>): Option<real> {
    var precio := Get(inputs, PRECIO_VENTA);
    if precio.Some? && costesTotales.Some? then Some(precio.value - costesTotales.value) else None
  }

  /** `precio_venta - costes_totales - impuestos_total`, present when all three are. */
  function NetProfit(grossMargin: Option<real>, impuestosTotal: Option<real>): Option<real> {
    if grossMargin.Some? && impuestosTotal.Some? then Some(grossMargin.value - impuestosTotal.value) else None
  }

  function UrbanoRatio(inputs: Inputs): Option<real> {
    var urbano := Get(inputs, TERRENO_URBANO);
    var rustico := Get(inputs, TERRENO_RUSTICO);
    if urbano.Some? && rustico.Some? then SafeDiv(urbano, Some(urbano.value + rustico.value)) else None
  }

  // ---------------------------------------------------------------- validate_anomalies

  datatype Anomaly = TaxRateOutOfRange | NegativeInput(key: string) | PaidAboveSalePrice | NegativeNetProfit

  /** The warning text the source appends for each anomaly. */
  function Message(a: Anomaly): string {
    match a
    case TaxRateOutOfRange => "impuestos_pct fuera de rango [0,0.25]"
    case NegativeInput(k) => k + " es negativo"
    case PaidAboveSalePrice => "total_pagado > precio_venta"
    case NegativeNetProfit => "net_profit negativo"
  }

  /** Distinct anomalies have distinct warning texts, so the text list determines the anomaly list. */
  lemma MessageInjective(a: Anomaly, b: Anomaly)
    requires Message(a) == Message(b)
    ensures a == b
  {
    var suffix := " es negativo";
    var ma, mb := Message(a), Message(b);
    if a.NegativeInput? && b.NegativeInput? {
      assert a.key == ma[..|ma| - |suffix|];
      assert b.key == mb[..|mb| - |suffix|];
    } else if a.NegativeInput? {
      NegativeMessageShape(a.key);
    } else if b.NegativeInput? {
      NegativeMessageShape(b.key);
    }
  }

  lemma NegativeMessageShape(k: string)
    ensures var m := Message(NegativeInput(k));
            |m| >= 12 && m[|m| - 1] == 'o' && m[|m| - 12] == ' '
  {
  }

  /** The inputs that must not be negative, in the order they are checked. */
  const NON_NEGATIVE_KEYS := [PRECIO_VENTA, PROJECT_MGMT_FEES, TERRENOS_COSTE, PROJECT_MANAGEMENT_COSTE,
                              ACOMETIDAS, COSTES_CONSTRUCCION, TOTAL_PAGADO, TERRENO_URBANO, TERRENO_RUSTICO]

  predicate IsNegative(v: Option<real>) {
    v.Some? && v.value < 0.0
  }

  /** The warnings of the per-key loop after it has looked at `keys`. */
  function NegativeChecks(inputs: Inputs, keys: seq<string>): seq<Anomaly>
    decreases |keys|
  {
    if keys == [] then []
    else
      var k := keys[|keys| - 1];
      NegativeChecks(inputs, keys[..|keys| - 1]) + (if IsNegative(Get(inputs, k)) then [NegativeInput(k)] else [])
  }

  /** `NegativeChecks` on the prefix `keys[..i + 1]`: one more check after `keys[..i]`. */
  lemma NegativeChecksPrefix(inputs: Inputs, keys: seq<string>, i: nat)
    requires i < |keys|
    ensures IsNegative(Get(inputs, keys[i])) ==>
              NegativeChecks(inputs, keys[..i + 1]) == NegativeChecks(inputs, keys[..i]) + [NegativeInput(keys[i])]
    ensures !IsNegative(Get(inputs, keys[i])) ==> NegativeChecks(inputs, keys[..i + 1]) == NegativeChecks(inputs, keys[..i])
  {
    assert keys[..i + 1][..i] == keys[..i];
  }

  lemma AppendAssociative(a: seq<Anomaly>, b: seq<Anomaly>, c: seq<Anomaly>)
    ensures a + b + c == a + (b + c)
  {
  }

  lemma WholeKeys(keys: seq<string>)
    ensures keys[..|keys|] == keys
  {
  }

  /** The list `validate_anomalies` returns. */
  function Anomalies(inputs: Inputs, outputs: Derived): seq<Anomaly> {
    var pct := Get(inputs, IMPUESTOS_PCT);
    var precio := Get(inputs, PRECIO_VENTA);
    var pagado := Get(inputs, TOTAL_PAGADO);
    (if pct.Some? && !(0.0 <= pct.value <= 0.25) then [TaxRateOutOfRange] else [])
    + NegativeChecks(inputs, NON_NEGATIVE_KEYS)
    + (if precio.Some? && pagado.Some? && pagado.value > precio.value then [PaidAboveSalePrice] else [])
    + (if IsNegative(outputs.netProfit) then [NegativeNetProfit] else [])
  }

  method ValidateAnomalies(inputs: Inputs, outputs: Derived) returns (warnings: seq<Anomaly>)
    ensures warnings == Anomalies(inputs, outputs)
  {
    warnings := [];
    var pct := Get(inputs, IMPUESTOS_PCT);
    var precio := Get(inputs, PRECIO_VENTA);
    var pagado := Get(inputs, TOTAL_PAGADO);
    var netProfit := outputs.netProfit;
    if pct.Some? && !(0.0 <= pct.value <= 0.25) {
      warnings := warnings + [TaxRateOutOfRange];
    }
    var head := warnings;
    for i := 0 to |NON_NEGATIVE_KEYS|
      invariant warnings == head + NegativeChecks(inputs, NON_NEGATIVE_KEYS[..i])
    {
      NegativeChecksPrefix(inputs, NON_NEGATIVE_KEYS, i);
      var k := NON_NEGATIVE_KEYS[i];
      var v := Get(inputs, k);
      if v.Some? && v.value < 0.0 {
        AppendAssociative(head, NegativeChecks(inputs, NON_NEGATIVE_KEYS[..i]), [NegativeInput(k)]);
        warnings := warnings + [NegativeInput(k)];
      }
    }
    WholeKeys(NON_NEGATIVE_KEYS);
    if precio.Some? && pagado.Some? && pagado.value > precio.value {
      warnings := warnings + [PaidAboveSalePrice];
    }
    if netProfit.Some? && netProfit.value < 0.0 {
      warnings := warnings + [NegativeNetProfit];
    }
  }

  /** When each rule fires, stated independently of the order of the checks. */
  predicate Fires(inputs: Inputs, outputs: Derived, a: Anomaly) {
    match a
    case TaxRateOutOfRange =>
      Get(inputs, IMPUESTOS_PCT).Some? && (Get(inputs, IMPUESTOS_PCT).value < 0.0 || Get(inputs, IMPUESTOS_PCT).value > 0.25)
    case NegativeInput(k) => k in NON_NEGATIVE_KEYS && IsNegative(Get(inputs, k))
    case PaidAboveSalePrice =>
      Get(inputs, PRECIO_VENTA).Some? && Get(inputs, TOTAL_PAGADO).Some?
      && Get(inputs, TOTAL_PAGADO).value > Get(inputs, PRECIO_VENTA).value
    case NegativeNetProfit => IsNegative(outputs.netProfit)
  }

  /** Every rule, in the order the source checks them. */
  function AllChecks(): (checks: seq<Anomaly>)
    ensures |checks| == 12
  {
    [TaxRateOutOfRange]
    + seq(|NON_NEGATIVE_KEYS|, i requires 0 <= i < |NON_NEGATIVE_KEYS| => NegativeInput(NON_NEGATIVE_KEYS[i]))
    + [PaidAboveSalePrice] + [NegativeNetProfit]
  }

  /** The rules of `checks` that fire, in the order of `checks`. */
  function Firing(inputs: Inputs, outputs: Derived, checks: seq<Anomaly>): (r: seq<Anomaly>)
    ensures |r| <= |checks|
    decreases |checks|
  {
    if checks == [] then []
    else
      var last := checks[|checks| - 1];
      Firing(inputs, outputs, checks[..|checks| - 1]) + (if Fires(inputs, outputs, last) then [last] else [])
  }

  lemma {:induction false} FiringAppend(inputs: Inputs, outputs: Derived, a: seq<Anomaly>, b: seq<Anomaly>)
    ensures Firing(inputs, outputs, a + b) == Firing(inputs, outputs, a) + Firing(inputs, outputs, b)
    decreases |b|
  {
    if b == [] {
      assert a + b == a;
    } else {
      assert (a + b)[..|a + b| - 1] == a + b[..|b| - 1];
      FiringAppend(inputs, outputs, a, b[..|b| - 1]);
    }
  }

  lemma FiringSingle(inputs: Inputs, outputs: Derived, x: Anomaly)
    ensures Firing(inputs, outputs, [x]) == if Fires(inputs, outputs, x) then [x] else []
  {
    assert [x][..0] == [];
  }

  lemma {:induction false} FiringMember(inputs: Inputs, outputs: Derived, checks: seq<Anomaly>, x: Anomaly)
    ensures x in Firing(inputs, outputs, checks) <==> x in checks && Fires(inputs, outputs, x)
    decreases |checks|
  {
    if checks != [] {
      var init := checks[..|checks| - 1];
      FiringMember(inputs, outputs, init, x);
      assert checks == init + [checks[|checks| - 1]];
    }
  }

  lemma {:induction false} NegativeChecksAreFiring(inputs: Inputs, outputs: Derived, n: nat)
    requires n <= |NON_NEGATIVE_KEYS|
    ensures NegativeChecks(inputs, NON_NEGATIVE_KEYS[..n])
            == Firing(inputs, outputs, seq(n, i requires 0 <= i < n => NegativeInput(NON_NEGATIVE_KEYS[i])))
  {
    var checks := seq(n, i requires 0 <= i < n => NegativeInput(NON_NEGATIVE_KEYS[i]));
    if n > 0 {
      NegativeChecksAreFiring(inputs, outputs, n - 1);
      assert NON_NEGATIVE_KEYS[..n][..n - 1] == NON_NEGATIVE_KEYS[..n - 1];
      assert checks[..n - 1] == seq(n - 1, i requires 0 <= i < n - 1 => NegativeInput(NON_NEGATIVE_KEYS[i]));
      assert NON_NEGATIVE_KEYS[n - 1] in NON_NEGATIVE_KEYS;
    }
  }

  /**
   * The warnings are exactly the rules that fire, in the fixed check order:
   * range, the negative inputs in list order, paid above price, negative profit.
   */
  lemma AnomaliesInCheckOrder(inputs: Inputs, outputs: Derived)
    ensures Anomalies(inputs, outputs) == Firing(inputs, outputs, AllChecks())
  {
    var negs := seq(|NON_NEGATIVE_KEYS|, i requires 0 <= i < |NON_NEGATIVE_KEYS| => NegativeInput(NON_NEGATIVE_KEYS[i]));
    NegativeChecksAreFiring(inputs, outputs, |NON_NEGATIVE_KEYS|);
    assert NON_NEGATIVE_KEYS[..|NON_NEGATIVE_KEYS|] == NON_NEGATIVE_KEYS;
    FiringAppend(inputs, outputs, [TaxRateOutOfRange] + negs + [PaidAboveSalePrice], [NegativeNetProfit]);
    FiringAppend(inputs, outputs, [TaxRateOutOfRange] + negs, [PaidAboveSalePrice]);
    FiringAppend(inputs, outputs, [TaxRateOutOfRange], negs);
    FiringSingle(inputs, outputs, TaxRateOutOfRange);
    FiringSingle(inputs, outputs, PaidAboveSalePrice);
    FiringSingle(inputs, outputs, NegativeNetProfit);
  }

  /** A warning is present exactly when its rule fires; absent values never warn; at most 12 warnings. */
  lemma AnomaliesExactly(inputs: Inputs, outputs: Derived, a: Anomaly)
    ensures a in Anomalies(inputs, outputs) <==> Fires(inputs, outputs, a)
    ensures |Anomalies(inputs, outputs)| <= 12
  {
    AnomaliesInCheckOrder(inputs, outputs);
    FiringMember(inputs, outputs, AllChecks(), a);
    if a.NegativeInput? && Fires(inputs, outputs, a) {
      var i :| 0 <= i < |NON_NEGATIVE_KEYS| && NON_NEGATIVE_KEYS[i] == a.key;
      assert AllChecks()[1 + i] == a;
    }
  }

  // ---------------------------------------------------------------- apply_deltas

  /** A present amount scaled by a fractional delta: `v * (1 + delta)`. */
  function Scale(amount: real, delta: real): real {
    amount * (1.0 + delta)
  }

  /**
   * The deltas as `float(pct)` sees them: `None` where that conversion
   * raises, which `apply_deltas` catches and skips.
   */
  type Deltas = map<string, Option<real>>

  /** The map `apply_deltas` returns. */
  function Scenario(base: Inputs, deltas: Deltas): (r: Inputs)
    ensures r.Keys == base.Keys
    ensures forall k | k in base && (k !in deltas || base[k].None? || deltas[k].None?) :: r[k] == base[k]
    ensures forall k | k in base && k in deltas && base[k].Some? && deltas[k].Some? ::
              r[k] == Some(Scale(base[k].value, deltas[k].value))
    ensures forall k | k in base && k in deltas && deltas[k] == Some(0.0) :: r[k] == base[k]
  {
    map k | k in base :: if k in deltas && base[k].Some? && deltas[k].Some?
                         then Some(Scale(base[k].value, deltas[k].value)) else base[k]
  }

  method ApplyDeltas(base: Inputs, deltas: Deltas) returns (out: Inputs)
    ensures out == Scenario(base, deltas)
  {
    out := base;
    var pending := deltas.Keys;
    while pending != {}
      invariant pending <= deltas.Keys
      invariant out.Keys == base.Keys
      invariant forall k | k in base && k in pending :: out[k] == base[k]
      invariant forall k | k in base && k !in pending :: out[k] == Scenario(base, deltas)[k]
      decreases pending
    {
      var k :| k in pending;
      var v := Get(out, k);
      if v.Some? && deltas[k].Some? {
        out := out[k := Some(Scale(v.value, deltas[k].value))];
      }
      assert k in base ==> out[k] == Scenario(base, deltas)[k];
      pending := pending - {k};
    }
    assert forall k | k in base :: out[k] == Scenario(base, deltas)[k];
  }

  /** Deltas that are all zero or unconvertible leave the scenario equal to the base. */
  lemma ZeroDeltasIdentity(base: Inputs, deltas: Deltas)
    requires forall k | k in deltas :: deltas[k].None? || deltas[k] == Some(0.0)
    ensures Scenario(base, deltas) == base
  {
    var r := Scenario(base, deltas);
    assert forall k | k in base :: r[k] == base[k];
  }

  // ---------------------------------------------------------------- compute_and_log, what_if

  /** compute_and_log without its two best-effort writes. */
  method ComputeAndLog(rows: seq<Row>) returns (inputs: Inputs, outputs: Derived, anomalies: seq<Anomaly>)
    ensures inputs == RowsToMap(rows)
    ensures outputs == ComputeDerived(inputs)
    ensures anomalies == Anomalies(inputs, outputs)
  {
    inputs := ToMap(rows);
    outputs := ComputeDerived(inputs);
    anomalies := ValidateAnomalies(inputs, outputs);
  }

  /** what_if without its snapshot write: always relative to the stored inputs. */
  method WhatIf(rows: seq<Row>, deltas: Deltas)
    returns (inputs: Inputs, outputs: Derived, anomalies: seq<Anomaly>)
    ensures inputs == Scenario(RowsToMap(rows), deltas)
    ensures inputs.Keys == RowsToMap(rows).Keys
    ensures outputs == ComputeDerived(inputs)
    ensures anomalies == Anomalies(inputs, outputs)
  {
    var base := ToMap(rows);
    inputs := ApplyDeltas(base, deltas);
    outputs := ComputeDerived(inputs);
    anomalies := ValidateAnomalies(inputs, outputs);
  }

  // ---------------------------------------------------------------- sensitivity_grid

  /** The net profit after scaling the price by `1 + dv` and construction cost by `1 + dc`. */
  function GridCell(base: Inputs, dv: real, dc: real): Option<real> {
    ComputeDerived(Scenario(base, map[PRECIO_VENTA := Some(dv), COSTES_CONSTRUCCION := Some(dc)])).netProfit
  }

  datatype Sensitivity = Sensitivity(precioVec: seq<real>, costesVec: seq<real>, grid: seq<seq<Option<real>>>)

  /** One row of the grid: the price delta fixed, the construction-cost delta varying. */
  method GridRow(base: Inputs, dv: real, costesVec: seq<real>) returns (row: seq<Option<real>>)
    ensures GridRowOf(row, base, dv, costesVec)
  {
    row := [];
    for j := 0 to |costesVec|
      invariant |row| == j
      invariant forall b | 0 <= b < j :: row[b] == GridCell(base, dv, costesVec[b])
    {
      var scenario := ApplyDeltas(base, map[PRECIO_VENTA := Some(dv), COSTES_CONSTRUCCION := Some(costesVec[j])]);
      var outs := ComputeDerived(scenario);
      row := row + [outs.netProfit];
    }
  }

  /** `row` is the grid row for the price delta `dv`. */
  predicate GridRowOf(row: seq<Option<real>>, base: Inputs, dv: real, costesVec: seq<real>) {
    |row| == |costesVec| && forall b | 0 <= b < |costesVec| :: row[b] == GridCell(base, dv, costesVec[b])
  }

  /** sensitivity_grid without its snapshot write. */
  method SensitivityGrid(rows: seq<Row>, precioVec: seq<real>, costesVec: seq<real>) returns (r: Sensitivity)
    ensures r.precioVec == precioVec && r.costesVec == costesVec
    ensures |r.grid| == |precioVec|
    ensures forall i | 0 <= i < |precioVec| :: |r.grid[i]| == |costesVec|
    ensures forall i, j | 0 <= i < |precioVec| && 0 <= j < |costesVec| ::
              r.grid[i][j] == GridCell(RowsToMap(rows), precioVec[i], costesVec[j])
  {
    var base := ToMap(rows);
    var grid: seq<seq<Option<real>>> := [];
    for i := 0 to |precioVec|
      invariant |grid| == i
      invariant forall a | 0 <= a < i :: GridRowOf(grid[a], base, precioVec[a], costesVec)
    {
      var row := GridRow(base, precioVec[i], costesVec);
      grid := grid + [row];
    }
    r := Sensitivity(precioVec, costesVec, grid);
    forall i, j | 0 <= i < |precioVec| && 0 <= j < |costesVec|
      ensures r.grid[i][j] == GridCell(base, precioVec[i], costesVec[j])
    {
      assert GridRowOf(grid[i], base, precioVec[i], costesVec);
    }
  }

  /** A zero delta on both axes reproduces the unmodified net profit. */
  lemma GridOrigin(base: Inputs)
    ensures GridCell(base, 0.0, 0.0) == ComputeDerived(base).netProfit
  {
    ZeroDeltasIdentity(base, map[PRECIO_VENTA := Some(0.0), COSTES_CONSTRUCCION := Some(0.0)]);
  }

  // ---------------------------------------------------------------- break_even_precio

  /**
   * `f(precio)`, the net profit as a function of the sale price alone:
   * defined exactly when some cost and the tax rate are known, and then
   * affine in the price.
   */
  function NetProfitAt(base: Inputs, p: real): Option<real> {
    if Solvable(base) then Some(p - CostSum(base) - Tax(Get(base, IMPUESTOS_PCT).value, p)) else None
  }

  /** Forcing the sale price leaves the costs and the tax rate as they were. */
  lemma PriceUpdateKeepsCosts(base: Inputs, p: real)
    ensures var scenario := base[PRECIO_VENTA := Some(p)];
            && Get(scenario, PRECIO_VENTA) == Some(p)
            && Get(scenario, IMPUESTOS_PCT) == Get(base, IMPUESTOS_PCT)
            && (CostsKnown(scenario) <==> CostsKnown(base))
            && CostSum(scenario) == CostSum(base)
  {
    var scenario := base[PRECIO_VENTA := Some(p)];
    assert forall k | k in COST_KEYS :: Get(scenario, k) == Get(base, k);
  }

  /** `f` agrees with the derived net profit of the scenario whose sale price is `p`. */
  lemma NetProfitAtIsScenarioProfit(base: Inputs, p: real)
    ensures NetProfitAt(base, p) == ComputeDerived(base[PRECIO_VENTA := Some(p)]).netProfit
  {
    var scenario := base[PRECIO_VENTA := Some(p)];
    var d := ComputeDerived(scenario);
    DerivedMetrics(scenario);
    PriceUpdateKeepsCosts(base, p);
    if Solvable(base) {
      var pct := Get(base, IMPUESTOS_PCT).value;
      assert d.impuestosTotal == Some(Tax(pct, p));
      assert d.costesTotales == Some(CostSum(base));
    }
  }

  /** Where it is defined, `f` is affine in the price, with slope `1 - impuestos_pct`. */
  lemma NetProfitAtAffine(base: Inputs, p: real)
    requires Solvable(base)
    ensures NetProfitAt(base, p).value == p * (1.0 - Get(base, IMPUESTOS_PCT).value) - CostSum(base)
  {
  }

  /** Whether `f` is defined at all: it does not depend on the price, which `f` always sets. */
  predicate Solvable(base: Inputs) {
    CostsKnown(base) && Get(base, IMPUESTOS_PCT).Some?
  }

  /** `base.get("precio_venta") or 100000.0`: an absent, `None` or zero price falls back to 100000. */
  function StartPrice(base: Inputs): (p0: real)
    ensures p0 != 0.0
    ensures Get(base, PRECIO_VENTA).Some? && Get(base, PRECIO_VENTA).value != 0.0 ==> p0 == Get(base, PRECIO_VENTA).value
    ensures Get(base, PRECIO_VENTA).None? || Get(base, PRECIO_VENTA).value == 0.0 ==> p0 == 100000.0
  {
    var p := Get(base, PRECIO_VENTA);
    if p.Some? && p.value != 0.0 then p.value else 100000.0
  }

  /** `a * b > 0`, stated by cases. */
  predicate SameSign(a: real, b: real) {
    (a > 0.0 && b > 0.0) || (a < 0.0 && b < 0.0)
  }

  lemma SameSignIsPositiveProduct(a: real, b: real)
    ensures SameSign(a, b) <==> a * b > 0.0
  {
    if a > 0.0 && b < 0.0 {
      assert a * b < 0.0;
    } else if a < 0.0 && b > 0.0 {
      assert a * b < 0.0;
    }
  }

  /** `lo = max(1.0, p0 * 0.5)` and `hi = p0 * 1.5`. */
  function InitialBracket(p0: real): (bracket: (real, real))
    ensures bracket.0 >= 1.0 && bracket.0 >= p0 * 0.5
    ensures bracket.0 == 1.0 || bracket.0 == p0 * 0.5
    ensures bracket.1 == p0 * 1.5
  {
    (if 1.0 >= p0 * 0.5 then 1.0 else p0 * 0.5, p0 * 1.5)
  }

  function Abs(x: real): real {
    if x < 0.0 then -x else x
  }

  function Pow(x: real, n: nat): real {
    if n == 0 then 1.0 else x * Pow(x, n - 1)
  }

  /** The bracket after `n` widenings: `lo` shrinks by 0.8 and `hi` grows by 1.2 each time. */
  function Widened(lo0: real, hi0: real, n: nat): (real, real) {
    if n == 0 then (lo0, hi0)
    else
      var prev := Widened(lo0, hi0, n - 1);
      (prev.0 * 0.8, prev.1 * 1.2)
  }

  lemma {:induction false} WidenedClosedForm(lo0: real, hi0: real, n: nat)
    ensures Widened(lo0, hi0, n).0 == lo0 * Pow(0.8, n)
    ensures Widened(lo0, hi0, n).1 == hi0 * Pow(1.2, n)
  {
    if n > 0 {
      WidenedClosedForm(lo0, hi0, n - 1);
      calc {
        Widened(lo0, hi0, n).0;
        Widened(lo0, hi0, n - 1).0 * 0.8;
        lo0 * Pow(0.8, n - 1) * 0.8;
        lo0 * (0.8 * Pow(0.8, n - 1));
        lo0 * Pow(0.8, n);
      }
      calc {
        Widened(lo0, hi0, n).1;
        Widened(lo0, hi0, n - 1).1 * 1.2;
        hi0 * Pow(1.2, n - 1) * 1.2;
        hi0 * (1.2 * Pow(1.2, n - 1));
        hi0 * Pow(1.2, n);
      }
    }
  }

  /** The expansion loop: widen `[lo, hi]` geometrically while both ends have the same sign, at most 5 times. */
  method ExpandBracket(base: Inputs, lo0: real, hi0: real) returns (lo: real, hi: real, vLo: Option<real>, vHi: Option<real>, expand: nat)
    ensures expand <= 5
    ensures lo == Widened(lo0, hi0, expand).0 && hi == Widened(lo0, hi0, expand).1
    ensures vLo == NetProfitAt(base, lo) && vHi == NetProfitAt(base, hi)
    ensures expand < 5 ==> vLo.None? || vHi.None? || !SameSign(vLo.value, vHi.value)
  {
    lo, hi := lo0, hi0;
    vLo, vHi := NetProfitAt(base, lo), NetProfitAt(base, hi);
    expand := 0;
    while vLo.Some? && vHi.Some? && SameSign(vLo.value, vHi.value) && expand < 5
      invariant expand <= 5
      invariant lo == Widened(lo0, hi0, expand).0 && hi == Widened(lo0, hi0, expand).1
      invariant vLo == NetProfitAt(base, lo) && vHi == NetProfitAt(base, hi)
    {
      lo := lo * 0.8;
      hi := hi * 1.2;
      vLo := NetProfitAt(base, lo);
      vHi := NetProfitAt(base, hi);
      expand := expand + 1;
    }
  }

  /** A width halved `n` times. */
  function Halved(width: real, n: nat): real {
    if n == 0 then width else Halved(width, n - 1) / 2.0
  }

  lemma {:induction false} HalvedClosedForm(width: real, n: nat)
    ensures Halved(width, n) * Pow(2.0, n) == width
  {
    if n > 0 {
      HalvedClosedForm(width, n - 1);
      calc {
        Halved(width, n) * Pow(2.0, n);
        Halved(width, n - 1) / 2.0 * (2.0 * Pow(2.0, n - 1));
        Halved(width, n - 1) * Pow(2.0, n - 1);
      }
    }
  }

  /**
   * The bisection loop. It halves the bracket on every completed iteration,
   * keeps a sign change if it started with one, and stops early only when the
   * midpoint's net profit is within `tol` of zero.
   */
  method Bisect(base: Inputs, lo0: real, hi0: real, vLo0: real, vHi0: real, tol: real, maxIter: int)
    returns (root: real, it: nat, lo: real, hi: real)
    requires NetProfitAt(base, lo0) == Some(vLo0) && NetProfitAt(base, hi0) == Some(vHi0)
    ensures it == 0 || it <= maxIter
    ensures root == 0.5 * (lo + hi)
    ensures hi - lo == Halved(hi0 - lo0, it)
    ensures NetProfitAt(base, root).Some?
    ensures !SameSign(vLo0, vHi0) ==> !SameSign(NetProfitAt(base, lo).value, NetProfitAt(base, hi).value)
    ensures it < maxIter ==> Abs(NetProfitAt(base, root).value) <= tol
  {
    lo, hi := lo0, hi0;
    var vLo, vHi := vLo0, vHi0;
    it := 0;
    root := 0.0;
    var found := false;
    while !found && it < maxIter
      invariant it == 0 || it <= maxIter
      invariant NetProfitAt(base, lo) == Some(vLo) && NetProfitAt(base, hi) == Some(vHi)
      invariant hi - lo == Halved(hi0 - lo0, it)
      invariant !SameSign(vLo0, vHi0) ==> !SameSign(vLo, vHi)
      invariant found ==> root == 0.5 * (lo + hi) && Abs(NetProfitAt(base, root).value) <= tol
      decreases maxIter - it, if found then 0 else 1
    {
      var mid := 0.5 * (lo + hi);
      var vMid := NetProfitAt(base, mid);
      // The source's `if v_mid is None: break` never fires: f is defined at lo, hence everywhere.
      assert vMid.Some?;
      if Abs(vMid.value) <= tol {
        root := mid;
        found := true;
      } else {
        if !SameSign(vLo, vMid.value) {
          hi, vHi := mid, vMid.value;
        } else {
          lo, vLo := mid, vMid.value;
        }
        it := it + 1;
      }
    }
    if !found {
      root := 0.5 * (lo + hi);
    }
  }

  datatype BreakEven = InsufficientData | Solution(precioVenta: real, netProfit: Option<real>, iterations: nat)

  method BreakEvenPrecio(rows: seq<Row>, tol: real := 1.0, maxIter: int := 60) returns (r: BreakEven)
    ensures r.InsufficientData? <==> !Solvable(RowsToMap(rows))
    ensures r.Solution? ==> r.netProfit.Some? && r.netProfit == NetProfitAt(RowsToMap(rows), r.precioVenta)
    ensures r.Solution? ==> r.iterations == 0 || r.iterations <= maxIter
    ensures r.Solution? && r.iterations < maxIter ==> Abs(r.netProfit.value) <= tol
  {
    var base := ToMap(rows);
    var p0 := StartPrice(base);
    var (lo, hi) := InitialBracket(p0);
    var vLo := NetProfitAt(base, lo);
    var vHi := NetProfitAt(base, hi);
    if vLo.None? || vHi.None? {
      return InsufficientData;
    }
    var expand;
    lo, hi, vLo, vHi, expand := ExpandBracket(base, lo, hi);
    // The source's second `insufficient_data` check never fires: f was defined before the expansion.
    assert vLo.Some? && vHi.Some?;
    var root, it, _, _ := Bisect(base, lo, hi, vLo.value, vHi.value, tol, maxIter);
    r := Solution(root, NetProfitAt(base, root), it);
  }

  // ---------------------------------------------------------------- a worked scenario

  /** The inputs of a worked example. */
  const WORKED_INPUTS: Inputs :=
    map[PRECIO_VENTA := Some(200000.0), COSTES_CONSTRUCCION := Some(80000.0),
        TERRENOS_COSTE := Some(20000.0), PROJECT_MANAGEMENT_COSTE := Some(10000.0),
        ACOMETIDAS := Some(5000.0), PROJECT_MGMT_FEES := Some(0.0),
        IMPUESTOS_PCT := Some(0.08), TOTAL_PAGADO := Some(150000.0)]

  /** A worked example: costs 115000, taxes 16000, profit 69000. */
  lemma WorkedScenario()
    ensures var d := ComputeDerived(WORKED_INPUTS);
            && d.costesTotales == Some(115000.0) && d.impuestosTotal == Some(16000.0)
            && d.grossMargin == Some(85000.0) && d.netProfit == Some(69000.0) && d.roiPct == Some(0.46)
  {
    WorkedValues(WORKED_INPUTS, 200000.0);
    DerivedMetrics(WORKED_INPUTS);
  }

  /** The same example after a 10% price cut: profit 50600. */
  lemma WorkedPriceCut()
    ensures ComputeDerived(Scenario(WORKED_INPUTS, map[PRECIO_VENTA := Some(-0.1)])).netProfit == Some(50600.0)
  {
    var deltas: Deltas := map[PRECIO_VENTA := Some(-0.1)];
    var cut := Scenario(WORKED_INPUTS, deltas);
    WorkedValues(WORKED_INPUTS, 200000.0);
    forall k | k in WORKED_INPUTS && k != PRECIO_VENTA
      ensures Get(cut, k) == Get(WORKED_INPUTS, k)
    {
      assert k !in deltas;
    }
    assert Get(cut, PRECIO_VENTA) == Some(Scale(200000.0, -0.1));
    WorkedValues(cut, 180000.0);
    DerivedMetrics(cut);
  }

  /** The values of the worked example that the metrics read, with the sale price as given. */
  lemma WorkedValues(inputs: Inputs, precio: real)
    requires Get(inputs, PRECIO_VENTA) == Some(precio)
    requires forall k | k in WORKED_INPUTS && k != PRECIO_VENTA :: Get(inputs, k) == Get(WORKED_INPUTS, k)
    ensures Get(inputs, IMPUESTOS_PCT) == Some(0.08) && Get(inputs, TOTAL_PAGADO) == Some(150000.0)
    ensures CostsKnown(inputs) && CostSum(inputs) == 115000.0
  {
    assert Get(WORKED_INPUTS, IMPUESTOS_PCT) == Some(0.08);
    assert Get(WORKED_INPUTS, TOTAL_PAGADO) == Some(150000.0);
    assert Get(WORKED_INPUTS, PROJECT_MGMT_FEES) == Some(0.0);
    assert Get(WORKED_INPUTS, TERRENOS_COSTE) == Some(20000.0);
    assert Get(WORKED_INPUTS, PROJECT_MANAGEMENT_COSTE) == Some(10000.0);
    assert Get(WORKED_INPUTS, ACOMETIDAS) == Some(5000.0);
    assert Get(WORKED_INPUTS, COSTES_CONSTRUCCION) == Some(80000.0);
  }
}
