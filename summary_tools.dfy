/**
 * The summary computation of tools/summary_tools.py: resolving `a|b.c`
 * selectors against document metadata, aggregating document values, and
 * the two-phase numbers/documents-then-formulas pass over the results map.
 *
 * The three data sources are parameters: the line-item lookup
 * (`_get_number`), the document query (`_get_docs_values` without its
 * per-row extraction), and the formula evaluator (`_safe_eval`), which is
 * an uninterpreted partial function. Python's `float(str)` is a parameter
 * too.
 */
module SummaryTools {
  import opened Maybe
  import opened Strings

  /** A JSON value as stored in a document's `metadata`. */
  datatype Json =
    | JObject(fields: map<string, Json>)
    | JString(text: string)
    | JNumber(number: real)
    | JBool(truth: bool)
    | JNull
    | JArray(items: seq<Json>)

  // ---------------------------------------------------------------- _extract_from_meta

  /** Walk a dotted path; every step needs a map holding the next key. */
  function Resolve(cur: Json, path: seq<string>): Option<Json>
    decreases |path|
  {
    if path == [] then Some(cur)
    else if cur.JObject? && path[0] in cur.fields then Resolve(cur.fields[path[0]], path[1..])
    else None
  }

  /**
   * `float(str(cur).replace(",", ""))`. A number prints as itself; a string
   * loses its commas and goes to `parse`; booleans, `None`, maps and lists
   * print as `True`, `None`, `{...}` or `[...]`, which never parse.
   */
  function AsNumber(v: Json, parse: string -> Option<real>): Option<real> {
    match v
    case JNumber(n) => Some(n)
    case JString(s) => parse(Without(s, ','))
    case _ => None
  }

  /** What one alternative of a selector yields: a resolved, parseable value, or nothing. */
  function AltValue(meta: Json, alt: string, parse: string -> Option<real>): Option<real> {
    match Resolve(meta, Split(alt, '.'))
    case Some(v) => AsNumber(v, parse)
    case None => None
  }

  /** The alternatives tried left to right; the first that yields a number wins. */
  function FirstNumber(meta: Json, alts: seq<string>, parse: string -> Option<real>): Option<real>
    decreases |alts|
  {
    if alts == [] then None
    else
      var v := AltValue(meta, alts[0], parse);
      if v.Some? then v else FirstNumber(meta, alts[1..], parse)
  }

  /** What `_extract_from_meta` returns. */
  function Extract(meta: Json, selector: string, parse: string -> Option<real>): Option<real> {
    if selector == "" then None else FirstNumber(meta, Split(selector, '|'), parse)
  }

  method ExtractFromMeta(meta: Json, selector: string, parse: string -> Option<real>) returns (r: Option<real>)
    ensures r == Extract(meta, selector, parse)
  {
    if selector == "" {
      return None;
    }
    var alts := Split(selector, '|');
    for a := 0 to |alts|
      invariant FirstNumber(meta, alts, parse) == FirstNumber(meta, alts[a..], parse)
    {
      FirstNumberAt(meta, alts, a, parse);
      var ok, cur := ResolvePath(meta, Split(alts[a], '.'));
      if ok {
        var v := AsNumber(cur, parse);
        if v.Some? {
          return v;
        }
      }
    }
    NoAlternatives(meta, alts, parse);
    r := None;
  }

  /** The inner loop of `_extract_from_meta`: walk the path while each step finds its key in a map. */
  method ResolvePath(meta: Json, parts: seq<string>) returns (ok: bool, cur: Json)
    ensures Resolve(meta, parts) == if ok then Some(cur) else None
  {
    cur := meta;
    ok := true;
    var p := 0;
    while p < |parts|
      invariant 0 <= p <= |parts|
      invariant Resolve(meta, parts) == if ok then Resolve(cur, parts[p..]) else None
      decreases |parts| - p, ok
    {
      if cur.JObject? && parts[p] in cur.fields {
        cur := cur.fields[parts[p]];
        p := p + 1;
      } else {
        ok := false;
        break;
      }
    }
    if ok {
      assert parts[p..] == [];
    }
  }

  /** `FirstNumber` from alternative `a` on: that alternative's value, or the ones after it. */
  lemma FirstNumberAt(meta: Json, alts: seq<string>, a: nat, parse: string -> Option<real>)
    requires a < |alts|
    ensures FirstNumber(meta, alts[a..], parse)
            == if AltValue(meta, alts[a], parse).Some? then AltValue(meta, alts[a], parse)
               else FirstNumber(meta, alts[a + 1..], parse)
  {
    assert alts[a..][0] == alts[a] && alts[a..][1..] == alts[a + 1..];
  }

  lemma NoAlternatives(meta: Json, alts: seq<string>, parse: string -> Option<real>)
    ensures FirstNumber(meta, alts[|alts|..], parse).None?
  {
    assert alts[|alts|..] == [];
  }

  /** The empty selector and, more generally, one with no usable alternative yield nothing. */
  lemma {:induction false} FirstNumberSpec(meta: Json, alts: seq<string>, parse: string -> Option<real>)
    ensures FirstNumber(meta, alts, parse).None? <==> forall i | 0 <= i < |alts| :: AltValue(meta, alts[i], parse).None?
    ensures FirstNumber(meta, alts, parse).Some? ==>
              exists i | 0 <= i < |alts| ::
                && FirstNumber(meta, alts, parse) == AltValue(meta, alts[i], parse)
                && forall j | 0 <= j < i :: AltValue(meta, alts[j], parse).None?
    decreases |alts|
  {
    if alts != [] {
      var rest := alts[1..];
      FirstNumberSpec(meta, rest, parse);
      if AltValue(meta, alts[0], parse).None? {
        assert forall i | 0 <= i < |rest| :: rest[i] == alts[i + 1];
        if FirstNumber(meta, alts, parse).Some? {
          var i :| 0 <= i < |rest| && FirstNumber(meta, rest, parse) == AltValue(meta, rest[i], parse)
                   && forall j | 0 <= j < i :: AltValue(meta, rest[j], parse).None?;
          assert forall j | 0 <= j < i + 1 :: AltValue(meta, alts[j], parse).None? by {
            forall j | 0 <= j < i + 1
              ensures AltValue(meta, alts[j], parse).None?
            {
              if j > 0 {
                assert alts[j] == rest[j - 1];
              }
            }
          }
        } else {
          forall i | 0 <= i < |alts|
            ensures AltValue(meta, alts[i], parse).None?
          {
            if i > 0 {
              assert alts[i] == rest[i - 1];
            }
          }
        }
      } else {
        assert FirstNumber(meta, alts, parse) == AltValue(meta, alts[0], parse);
      }
    }
  }

  /** An alternative put in front wins whenever it yields a number, and is skipped otherwise. */
  lemma SelectorPrefersEarlierAlternative(meta: Json, first: string, rest: string, parse: string -> Option<real>)
    requires '|' !in first
    ensures AltValue(meta, first, parse).Some? ==> Extract(meta, first + "|" + rest, parse) == AltValue(meta, first, parse)
    ensures AltValue(meta, first, parse).None? ==>
              Extract(meta, first + "|" + rest, parse) == FirstNumber(meta, Split(rest, '|'), parse)
  {
    SplitAround(first, rest, '|');
    SplitWithoutSep(first, '|');
    assert first + "|" + rest == first + ['|'] + rest;
    var alts := Split(first + "|" + rest, '|');
    assert alts == [first] + Split(rest, '|');
    assert alts[1..] == Split(rest, '|');
  }

  /** Walking `p + q` is walking `p` and then `q` from wherever `p` led. */
  lemma {:induction false} ResolveAppend(cur: Json, p: seq<string>, q: seq<string>)
    ensures Resolve(cur, p + q) == match Resolve(cur, p) case None => None case Some(c) => Resolve(c, q)
    decreases |p|
  {
    if p == [] {
      assert p + q == q;
    } else {
      assert (p + q)[0] == p[0] && (p + q)[1..] == p[1..] + q;
      if cur.JObject? && p[0] in cur.fields {
        ResolveAppend(cur.fields[p[0]], p[1..], q);
      }
    }
  }

  /** Thousands separators never matter: a string with or without its commas reads the same. */
  lemma CommasIgnored(s: string, parse: string -> Option<real>)
    ensures AsNumber(JString(s), parse) == AsNumber(JString(Without(s, ',')), parse)
  {
    WithoutAbsent(Without(s, ','), ',');
  }

  // ---------------------------------------------------------------- compute_summary

  /** A row of `summary_spec`; absent columns are `None`. */
  datatype SpecRow = SpecRow(
    itemKey: string,
    source: Option<string>,
    selector: Option<map<string, string>>,
    aggregation: Option<string>,
    expression: Option<string>)

  /** A document as the query returns it. */
  datatype DocRecord = DocRecord(name: string, metadata: Json)

  datatype EvalResult = Evaluated(value: real) | EvalError(message: string)

  /** The outside world `compute_summary` reads from. */
  datatype Env = Env(
    lineItem: string -> Option<real>,
    fetchDocs: (string, string, string) -> seq<DocRecord>,
    parse: string -> Option<real>,
    eval: (string, map<string, real>) -> EvalResult)

  datatype Provenance =
    | FromNumbers(itemKey: string)
    | FromDocuments(matched: seq<(string, Option<real>)>, aggregation: string)
    | FromFormula(expression: string, inputs: map<string, real>)
    | FormulaError(error: string, expression: string)

  datatype Summary = Summary(results: map<string, real>, provenance: map<string, Provenance>)

  /** `spec = [s for s in spec if s["item_key"] in only_items]`, applied only for a non-empty list. */
  function SelectRows(spec: seq<SpecRow>, onlyItems: Option<seq<string>>): (rows: seq<SpecRow>)
    ensures onlyItems.None? || onlyItems.value == [] ==> rows == spec
    ensures onlyItems.Some? && onlyItems.value != [] ==>
              forall s :: s in rows <==> s in spec && s.itemKey in onlyItems.value
    ensures |rows| <= |spec|
    decreases |spec|
  {
    if onlyItems.None? || onlyItems.value == [] || spec == [] then spec
    else
      var tail := SelectRows(spec[1..], onlyItems);
      assert forall s :: s in spec <==> s == spec[0] || s in spec[1..];
      if spec[0].itemKey in onlyItems.value then [spec[0]] + tail else tail
  }

  /** `d.get(key, default)`. */
  function Lookup(d: map<string, string>, key: string, default: string): string {
    if key in d then d[key] else default
  }

  /** `_get_docs_values`: each matched document with what its metadata yields for the selector. */
  function DocsValues(env: Env, group: string, subgroup: string, name: string, selector: string)
    : (vals: seq<(string, Option<real>)>)
    ensures var docs := env.fetchDocs(group, subgroup, name);
            && |vals| == |docs|
            && forall i | 0 <= i < |docs| :: vals[i] == (docs[i].name, Extract(docs[i].metadata, selector, env.parse))
  {
    var docs := env.fetchDocs(group, subgroup, name);
    seq(|docs|, i requires 0 <= i < |docs| => (docs[i].name, Extract(docs[i].metadata, selector, env.parse)))
  }

  /** The numeric values among the matched ones, in order. */
  function PresentValues(vals: seq<(string, Option<real>)>): (numbers: seq<real>)
    ensures |numbers| <= |vals|
    ensures numbers == [] <==> forall i | 0 <= i < |vals| :: vals[i].1.None?
    decreases |vals|
  {
    if vals == [] then []
    else
      var tail := PresentValues(vals[1..]);
      assert forall i | 0 <= i < |vals| - 1 :: vals[1..][i] == vals[i + 1];
      if vals[0].1.Some? then [vals[0].1.value] + tail else tail
  }

  /** `vals[i]` holds the first numeric value of the matched documents. */
  predicate FirstPresent(vals: seq<(string, Option<real>)>, i: int) {
    0 <= i < |vals| && vals[i].1.Some? && forall j | 0 <= j < i :: vals[j].1.None?
  }

  /** `vals[i]` holds the last numeric value of the matched documents. */
  predicate LastPresent(vals: seq<(string, Option<real>)>, i: int) {
    0 <= i < |vals| && vals[i].1.Some? && forall j | i < j < |vals| :: vals[j].1.None?
  }

  /** Some matched document yielded the number `x`. */
  predicate YieldedBySome(vals: seq<(string, Option<real>)>, x: real) {
    exists i | 0 <= i < |vals| :: vals[i].1 == Some(x)
  }

  /** The numeric values are exactly the values of the documents that yielded one. */
  lemma {:induction false} PresentValuesMembers(vals: seq<(string, Option<real>)>)
    ensures forall i | 0 <= i < |vals| && vals[i].1.Some? :: vals[i].1.value in PresentValues(vals)
    ensures forall k | 0 <= k < |PresentValues(vals)| :: YieldedBySome(vals, PresentValues(vals)[k])
    decreases |vals|
  {
    if vals != [] {
      var tail := vals[1..];
      PresentValuesMembers(tail);
      var numbers := PresentValues(vals);
      var rest := PresentValues(tail);
      assert numbers == (if vals[0].1.Some? then [vals[0].1.value] else []) + rest;
      forall i | 0 <= i < |vals| && vals[i].1.Some?
        ensures vals[i].1.value in numbers
      {
        if i > 0 {
          assert tail[i - 1] == vals[i];
        }
      }
      forall k | 0 <= k < |numbers|
        ensures YieldedBySome(vals, numbers[k])
      {
        if vals[0].1.Some? && k == 0 {
          assert vals[0].1 == Some(numbers[k]);
        } else {
          var k' := if vals[0].1.Some? then k - 1 else k;
          assert numbers[k] == rest[k'];
          assert YieldedBySome(tail, rest[k']);
          var i :| 0 <= i < |tail| && tail[i].1 == Some(rest[k']);
          assert vals[i + 1] == tail[i];
        }
      }
    }
  }

  /** The first numeric value is that of the first document that yielded one. */
  lemma {:induction false} PresentValuesFirst(vals: seq<(string, Option<real>)>, i: int)
    requires FirstPresent(vals, i)
    ensures PresentValues(vals) != [] && PresentValues(vals)[0] == vals[i].1.value
    decreases i
  {
    if i > 0 {
      assert FirstPresent(vals[1..], i - 1) by {
        forall j | 0 <= j < i - 1
          ensures vals[1..][j].1.None?
        {
          assert vals[1..][j] == vals[j + 1];
        }
      }
      PresentValuesFirst(vals[1..], i - 1);
    }
  }

  /** The last numeric value is that of the last document that yielded one. */
  lemma {:induction false} PresentValuesLast(vals: seq<(string, Option<real>)>, i: int)
    requires LastPresent(vals, i)
    ensures PresentValues(vals) != [] && PresentValues(vals)[|PresentValues(vals)| - 1] == vals[i].1.value
    decreases i
  {
    var tail := vals[1..];
    if i == 0 {
      assert forall j | 0 <= j < |tail| :: tail[j] == vals[j + 1];
      assert PresentValues(tail) == [];
    } else {
      assert LastPresent(tail, i - 1) by {
        assert tail[i - 1] == vals[i];
        forall j | i - 1 < j < |tail|
          ensures tail[j].1.None?
        {
          assert tail[j] == vals[j + 1];
        }
      }
      PresentValuesLast(tail, i - 1);
    }
  }

  /** Python's `sum` over a list of floats, left to right. */
  function SumReals(xs: seq<real>): real
    decreases |xs|
  {
    if xs == [] then 0.0 else SumReals(xs[..|xs| - 1]) + xs[|xs| - 1]
  }

  /** Summing a concatenation is summing the two parts. */
  lemma {:induction false} SumRealsAppend(a: seq<real>, b: seq<real>)
    ensures SumReals(a + b) == SumReals(a) + SumReals(b)
    decreases |b|
  {
    if b != [] {
      var b' := b[..|b| - 1];
      assert (a + b)[..|a + b| - 1] == a + b';
      SumRealsAppend(a, b');
    } else {
      assert a + b == a;
    }
  }

  /** `sum` adds up, `latest` takes the last value, anything else the first. */
  function Aggregate(numbers: seq<real>, agg: string): (out: real)
    requires numbers != []
    ensures agg == "sum" ==> out == SumReals(numbers)
    ensures agg != "sum" ==> out in numbers
    ensures agg == "latest" ==> out == numbers[|numbers| - 1]
    ensures agg != "sum" && agg != "latest" ==> out == numbers[0]
  {
    if agg == "sum" then SumReals(numbers)
    else if agg == "latest" then numbers[|numbers| - 1]
    else numbers[0]
  }

  /** A `numbers` row needs `selector["item_key"]`; without it the source raises. */
  predicate BrokenNumbersRow(s: SpecRow) {
    s.source == Some("numbers") && (s.selector.None? || "item_key" !in s.selector.value)
  }

  /** One step of the first loop; `None` is the exception a broken numbers row raises. */
  function Step1(st: Summary, s: SpecRow, env: Env): Option<Summary> {
    if BrokenNumbersRow(s) then None
    else if s.source == Some("numbers") then
      var itemKey := s.selector.value["item_key"];
      var val := env.lineItem(itemKey);
      if val.Some?
      then Some(Summary(st.results[s.itemKey := val.value], st.provenance[s.itemKey := FromNumbers(itemKey)]))
      else Some(st)
    else if s.source == Some("documents") then
      var sel := s.selector.GetOr(map[]);
      var vals := DocsValues(env, Lookup(sel, "group", ""), Lookup(sel, "subgroup", ""),
                             Lookup(sel, "name", "*"), Lookup(sel, "json_key", ""));
      var agg := LowerStr(if s.aggregation.None? || s.aggregation.value == "" then "value" else s.aggregation.value);
      var numbers := PresentValues(vals);
      if numbers != []
      then Some(Summary(st.results[s.itemKey := Aggregate(numbers, agg)],
                        st.provenance[s.itemKey := FromDocuments(vals, agg)]))
      else Some(st)
    else Some(st)
  }

  /** The first loop over `rows`, row by row. */
  function Pass1(rows: seq<SpecRow>, env: Env): Option<Summary>
    decreases |rows|
  {
    if rows == [] then Some(Summary(map[], map[]))
    else
      match Pass1(rows[..|rows| - 1], env)
      case None => None
      case Some(st) => Step1(st, rows[|rows| - 1], env)
  }

  /** One step of the second loop: formulas see a copy of the results so far. */
  function Step2(st: Summary, s: SpecRow, env: Env): Summary {
    if s.source != Some("formula") then st
    else
      var expr := s.expression.GetOr("");
      match env.eval(expr, st.results)
      case Evaluated(v) =>
        var results := st.results[s.itemKey := v];
        Summary(results, st.provenance[s.itemKey := FromFormula(expr, results)])
      case EvalError(msg) =>
        Summary(st.results, st.provenance[s.itemKey := FormulaError(msg, expr)])
  }

  function Pass2(rows: seq<SpecRow>, st: Summary, env: Env): Summary
    decreases |rows|
  {
    if rows == [] then st else Step2(Pass2(rows[..|rows| - 1], st, env), rows[|rows| - 1], env)
  }

  /** What `compute_summary` returns, or `None` when it raises. */
  function SummaryOf(spec: seq<SpecRow>, onlyItems: Option<seq<string>>, env: Env): Option<Summary> {
    var rows := SelectRows(spec, onlyItems);
    match Pass1(rows, env)
    case None => None
    case Some(st) => Some(Pass2(rows, st, env))
  }

  lemma {:induction false} Pass1Fails(rows: seq<SpecRow>, n: nat, env: Env)
    requires n <= |rows| && Pass1(rows[..n], env).None?
    ensures Pass1(rows, env).None?
    decreases |rows| - n
  {
    if n < |rows| {
      assert rows[..n + 1][..n] == rows[..n];
      Pass1Fails(rows, n + 1, env);
    } else {
      assert rows[..n] == rows;
    }
  }

  /** The first loop of `compute_summary`: numbers and documents rows. */
  method FirstPass(rows: seq<SpecRow>, env: Env) returns (r: Option<Summary>)
    ensures r == Pass1(rows, env)
  {
    var results: map<string, real> := map[];
    var provenance: map<string, Provenance> := map[];
    for i := 0 to |rows|
      invariant Pass1(rows[..i], env) == Some(Summary(results, provenance))
    {
      Pass1Prefix(rows, i, env);
      var s := rows[i];
      if s.source == Some("numbers") {
        if s.selector.None? || "item_key" !in s.selector.value {
          Pass1Fails(rows, i + 1, env);
          return None;
        }
        var itemKey := s.selector.value["item_key"];
        var val := env.lineItem(itemKey);
        if val.Some? {
          results := results[s.itemKey := val.value];
          provenance := provenance[s.itemKey := FromNumbers(itemKey)];
        }
      } else if s.source == Some("documents") {
        var sel := s.selector.GetOr(map[]);
        var vals := DocsValues(env, Lookup(sel, "group", ""), Lookup(sel, "subgroup", ""),
                               Lookup(sel, "name", "*"), Lookup(sel, "json_key", ""));
        var agg := LowerStr(if s.aggregation.None? || s.aggregation.value == "" then "value" else s.aggregation.value);
        var numbers := PresentValues(vals);
        if numbers != [] {
          results := results[s.itemKey := Aggregate(numbers, agg)];
          provenance := provenance[s.itemKey := FromDocuments(vals, agg)];
        }
      }
    }
    WholeRows(rows);
    r := Some(Summary(results, provenance));
  }

  /** `Pass1` on the prefix `rows[..i + 1]` is one more step after `rows[..i]`. */
  lemma Pass1Prefix(rows: seq<SpecRow>, i: nat, env: Env)
    requires i < |rows|
    ensures Pass1(rows[..i + 1], env)
            == match Pass1(rows[..i], env) case None => None case Some(st) => Step1(st, rows[i], env)
  {
    assert rows[..i + 1][..i] == rows[..i];
  }

  lemma WholeRows(rows: seq<SpecRow>)
    ensures rows[..|rows|] == rows
  {
  }

  /** The second loop of `compute_summary`: formula rows, evaluated over the results so far. */
  method FormulaPass(rows: seq<SpecRow>, st: Summary, env: Env) returns (out: Summary)
    ensures out == Pass2(rows, st, env)
  {
    var results := st.results;
    var provenance := st.provenance;
    for i := 0 to |rows|
      invariant Pass2(rows[..i], st, env) == Summary(results, provenance)
    {
      assert rows[..i + 1][..i] == rows[..i];
      var s := rows[i];
      if s.source == Some("formula") {
        var expr := s.expression.GetOr("");
        match env.eval(expr, results) {
          case Evaluated(v) =>
            results := results[s.itemKey := v];
            provenance := provenance[s.itemKey := FromFormula(expr, results)];
          case EvalError(msg) =>
            provenance := provenance[s.itemKey := FormulaError(msg, expr)];
        }
      }
    }
    assert rows[..|rows|] == rows;
    out := Summary(results, provenance);
  }

  /** compute_summary without the final upserts. */
  method ComputeSummary(spec: seq<SpecRow>, onlyItems: Option<seq<string>>, env: Env) returns (r: Option<Summary>)
    ensures r == SummaryOf(spec, onlyItems, env)
  {
    var rows := SelectRows(spec, onlyItems);
    r := FirstPass(rows, env);
    if r.Some? {
      var out := FormulaPass(rows, r.value, env);
      r := Some(out);
    }
  }

  // ---------------------------------------------------------------- properties of the two passes

  /** Every computed result has a provenance entry. */
  predicate Documented(st: Summary) {
    st.results.Keys <= st.provenance.Keys
  }

  lemma {:induction false} Pass1Documented(rows: seq<SpecRow>, env: Env)
    ensures Pass1(rows, env).Some? ==> Documented(Pass1(rows, env).value)
    decreases |rows|
  {
    if rows != [] {
      Pass1Documented(rows[..|rows| - 1], env);
    }
  }

  lemma {:induction false} Pass2Documented(rows: seq<SpecRow>, st: Summary, env: Env)
    requires Documented(st)
    ensures Documented(Pass2(rows, st, env))
    ensures st.results.Keys <= Pass2(rows, st, env).results.Keys
    decreases |rows|
  {
    if rows != [] {
      Pass2Documented(rows[..|rows| - 1], st, env);
    }
  }

  /** A completed summary documents every result, and the formula pass only adds results. */
  lemma SummaryDocumented(spec: seq<SpecRow>, onlyItems: Option<seq<string>>, env: Env)
    ensures var r := SummaryOf(spec, onlyItems, env);
            r.Some? ==> Documented(r.value)
    ensures var rows := SelectRows(spec, onlyItems);
            Pass1(rows, env).Some? ==> Pass1(rows, env).value.results.Keys <= SummaryOf(spec, onlyItems, env).value.results.Keys
  {
    var rows := SelectRows(spec, onlyItems);
    Pass1Documented(rows, env);
    if Pass1(rows, env).Some? {
      Pass2Documented(rows, Pass1(rows, env).value, env);
    }
  }

  /** The first pass writes only keys of `numbers` and `documents` rows. */
  lemma {:induction false} Pass1Keys(rows: seq<SpecRow>, env: Env, k: string)
    requires Pass1(rows, env).Some? && k in Pass1(rows, env).value.provenance
    ensures exists i | 0 <= i < |rows| :: rows[i].itemKey == k && rows[i].source in {Some("numbers"), Some("documents")}
    decreases |rows|
  {
    var init := rows[..|rows| - 1];
    var st := Pass1(init, env).value;
    if k in st.provenance {
      Pass1Keys(init, env, k);
      var i :| 0 <= i < |init| && init[i].itemKey == k && init[i].source in {Some("numbers"), Some("documents")};
      assert rows[i] == init[i];
    }
  }

  /** A failing formula records the error and leaves the results as they were. */
  lemma FailingFormulaKeepsResults(st: Summary, s: SpecRow, env: Env)
    requires s.source == Some("formula") && env.eval(s.expression.GetOr(""), st.results).EvalError?
    ensures Step2(st, s, env).results == st.results
    ensures Step2(st, s, env).provenance[s.itemKey]
            == FormulaError(env.eval(s.expression.GetOr(""), st.results).message, s.expression.GetOr(""))
  {
  }

  /** The keys of the formula rows. */
  function FormulaKeys(rows: seq<SpecRow>): set<string> {
    set s | s in rows && s.source == Some("formula") :: s.itemKey
  }

  /**
   * Formulas see a copy of the results, so names they read and default to 0
   * are never written back: the formula pass adds only formula rows' keys.
   */
  lemma {:induction false} Pass2Keys(rows: seq<SpecRow>, st: Summary, env: Env)
    ensures Pass2(rows, st, env).results.Keys <= st.results.Keys + FormulaKeys(rows)
    decreases |rows|
  {
    if rows != [] {
      var init := rows[..|rows| - 1];
      Pass2Keys(init, st, env);
      assert forall s | s in init :: s in rows;
      assert FormulaKeys(init) <= FormulaKeys(rows);
      assert rows[|rows| - 1] in rows;
    }
  }

  /**
   * A formula that evaluates stores its value under its own key, records the
   * results it was computed with, and touches no other entry.
   */
  lemma EvaluatedFormulaStep(st: Summary, s: SpecRow, env: Env)
    requires s.source == Some("formula") && env.eval(s.expression.GetOr(""), st.results).Evaluated?
    ensures var v := env.eval(s.expression.GetOr(""), st.results).value;
            var r := Step2(st, s, env);
            && r.results == st.results[s.itemKey := v]
            && r.provenance.Keys == st.provenance.Keys + {s.itemKey}
            && r.provenance[s.itemKey] == FromFormula(s.expression.GetOr(""), r.results)
            && forall k | k in st.provenance && k != s.itemKey :: r.provenance[k] == st.provenance[k]
  {
  }

  /** A documents row with no numeric value leaves both maps as they were. */
  lemma EmptyDocumentsKeepsState(st: Summary, s: SpecRow, env: Env)
    requires s.source == Some("documents")
    requires var sel := s.selector.GetOr(map[]);
             var vals := DocsValues(env, Lookup(sel, "group", ""), Lookup(sel, "subgroup", ""),
                                    Lookup(sel, "name", "*"), Lookup(sel, "json_key", ""));
             forall i | 0 <= i < |vals| :: vals[i].1.None?
    ensures Step1(st, s, env) == Some(st)
  {
  }
}
