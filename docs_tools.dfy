/**
 * The document-slot classifier of tools/docs_tools.py: an ordered table of
 * slots, each with its keywords, and `propose_slot`, which returns the first
 * slot one of whose keywords appears in the lower-cased file name or hint.
 * Also the storage key under which `upload_and_link` stores a file.
 */
module DocsTools {
  import opened Strings

  /** A proposed place for a document: group, subgroup (possibly empty) and name. */
  datatype Slot = Slot(group: string, subgroup: string, name: string)

  /** The slot table, in its declaration order; a key is `group` or `group:subgroup`. */
  const DOC_GROUPS: seq<(string, seq<string>)> := [
    ("Compra", ["escritura", "registro", "arras", "impuesto", "contrato privado", "itp", "iba"]),
    ("Reforma:Docs diseño", ["mapas", "planos", "arquitecto", "aparejador", "licencia"]),
    ("Reforma:Docs obra", ["constructor", "contrato constructor"]),
    ("Reforma:Docs facturas", ["factura", "fontaneria", "electricista", "calefaccion", "carpinteria", "diseño"]),
    ("Reforma:Docs registro obra nueva", ["registro documento", "documento de impuestos"]),
    ("Venta", ["certificacion"])
  ]

  /** The answer when no keyword matches. */
  const DEFAULT_SLOT := Slot("Compra", "", "Contrato privado")

  /** `kw in fn or kw in hint`. */
  predicate Mentioned(kw: string, fn: string, hint: string) {
    Contains(fn, kw) || Contains(hint, kw)
  }

  /** `sum(1 for kw in kws if kw in fn or kw in hint)`. */
  function Score(kws: seq<string>, fn: string, hint: string): (n: nat)
    ensures n <= |kws|
    ensures n > 0 <==> exists k | 0 <= k < |kws| :: Mentioned(kws[k], fn, hint)
    decreases |kws|
  {
    if kws == [] then 0
    else
      var rest := Score(kws[1..], fn, hint);
      assert forall k | 1 <= k < |kws| :: kws[1..][k - 1] == kws[k];
      (if Mentioned(kws[0], fn, hint) then 1 else 0) + rest
  }

  /** `next((kw.capitalize() for kw in kws if kw in fn), "Documento")`. */
  function DocName(kws: seq<string>, fn: string): (name: string)
    ensures (forall k | 0 <= k < |kws| :: !Contains(fn, kws[k])) ==> name == "Documento"
    ensures forall k | 0 <= k < |kws| && Contains(fn, kws[k]) && (forall j | 0 <= j < k :: !Contains(fn, kws[j])) ::
              name == Capitalize(kws[k])
    decreases |kws|
  {
    if kws == [] then "Documento"
    else if Contains(fn, kws[0]) then Capitalize(kws[0])
    else
      assert forall k | 1 <= k < |kws| :: kws[1..][k - 1] == kws[k];
      DocName(kws[1..], fn)
  }

  /** The slot named by a table key, `split(":")` into group and optional subgroup. */
  function SlotFor(key: string, kws: seq<string>, fn: string): Slot {
    var parts := Split(key, ':');
    Slot(parts[0], if |parts| > 1 then parts[1] else "", DocName(kws, fn))
  }

  predicate GroupMatches(entry: (string, seq<string>), fn: string, hint: string) {
    Score(entry.1, fn, hint) > 0
  }

  /** The loop over the table with its early return. */
  function ProposeFrom(groups: seq<(string, seq<string>)>, fn: string, hint: string): Slot
    decreases |groups|
  {
    if groups == [] then DEFAULT_SLOT
    else if GroupMatches(groups[0], fn, hint) then SlotFor(groups[0].0, groups[0].1, fn)
    else ProposeFrom(groups[1..], fn, hint)
  }

  /** `propose_slot(filename, text_hint)`. */
  function ProposeSlot(filename: string, textHint: string): Slot {
    ProposeFrom(DOC_GROUPS, LowerStr(filename), LowerStr(textHint))
  }

  /**
   * The first entry with a matching keyword decides the slot; when no entry
   * matches, the answer is the default. `i` is that entry's index, or -1.
   */
  lemma {:induction false} ProposeFromFirstMatch(groups: seq<(string, seq<string>)>, fn: string, hint: string)
    returns (i: int)
    ensures -1 <= i < |groups|
    ensures i == -1 ==> ProposeFrom(groups, fn, hint) == DEFAULT_SLOT
                        && forall j | 0 <= j < |groups| :: !GroupMatches(groups[j], fn, hint)
    ensures 0 <= i ==> ProposeFrom(groups, fn, hint) == SlotFor(groups[i].0, groups[i].1, fn)
                       && GroupMatches(groups[i], fn, hint)
                       && forall j | 0 <= j < i :: !GroupMatches(groups[j], fn, hint)
    decreases |groups|
  {
    if groups == [] {
      i := -1;
    } else if GroupMatches(groups[0], fn, hint) {
      i := 0;
    } else {
      var tail := groups[1..];
      var i' := ProposeFromFirstMatch(tail, fn, hint);
      assert ProposeFrom(groups, fn, hint) == ProposeFrom(tail, fn, hint);
      i := if i' == -1 then -1 else i' + 1;
      if 0 <= i {
        assert groups[i] == tail[i'];
      }
      forall j | 0 < j < |groups| && (i == -1 || j < i)
        ensures !GroupMatches(groups[j], fn, hint)
      {
        assert groups[j] == tail[j - 1];
      }
    }
  }

  /** A `Reforma:<subgroup>` key splits into its two parts. */
  lemma ReformaKey(sub: string)
    requires ':' !in sub
    ensures Split("Reforma" + [':'] + sub, ':') == ["Reforma", sub]
  {
    SplitPrefix("Reforma", sub, ':');
    SplitWithoutSep(sub, ':');
  }

  /** Each table key split into group and, where it has one, subgroup. */
  const KEY_PARTS: seq<seq<string>> := [
    ["Compra"],
    ["Reforma", "Docs diseño"],
    ["Reforma", "Docs obra"],
    ["Reforma", "Docs facturas"],
    ["Reforma", "Docs registro obra nueva"],
    ["Venta"]
  ]

  /** Entries 1 to 4 are `Reforma:<subgroup>` keys. */
  lemma ReformaEntry(i: nat)
    requires 1 <= i <= 4
    ensures |KEY_PARTS[i]| == 2 && KEY_PARTS[i][0] == "Reforma" && ':' !in KEY_PARTS[i][1]
    ensures DOC_GROUPS[i].0 == "Reforma" + [':'] + KEY_PARTS[i][1]
  {
    if i == 1 {
      DisenoKey();
    } else if i == 2 {
      ObraKey();
    } else if i == 3 {
      FacturasKey();
    } else {
      RegistroObraNuevaKey();
    }
  }

  lemma DisenoKey()
    ensures |KEY_PARTS[1]| == 2 && KEY_PARTS[1][0] == "Reforma" && ':' !in KEY_PARTS[1][1]
    ensures DOC_GROUPS[1].0 == "Reforma" + [':'] + KEY_PARTS[1][1]
  {
    assert DOC_GROUPS[1].0 == "Reforma" + [':'] + "Docs diseño";
  }

  lemma ObraKey()
    ensures |KEY_PARTS[2]| == 2 && KEY_PARTS[2][0] == "Reforma" && ':' !in KEY_PARTS[2][1]
    ensures DOC_GROUPS[2].0 == "Reforma" + [':'] + KEY_PARTS[2][1]
  {
    assert DOC_GROUPS[2].0 == "Reforma" + [':'] + "Docs obra";
  }

  lemma FacturasKey()
    ensures |KEY_PARTS[3]| == 2 && KEY_PARTS[3][0] == "Reforma" && ':' !in KEY_PARTS[3][1]
    ensures DOC_GROUPS[3].0 == "Reforma" + [':'] + KEY_PARTS[3][1]
  {
    assert DOC_GROUPS[3].0 == "Reforma" + [':'] + "Docs facturas";
  }

  lemma RegistroObraNuevaKey()
    ensures |KEY_PARTS[4]| == 2 && KEY_PARTS[4][0] == "Reforma" && ':' !in KEY_PARTS[4][1]
    ensures DOC_GROUPS[4].0 == "Reforma" + [':'] + KEY_PARTS[4][1]
  {
    assert DOC_GROUPS[4].0 == "Reforma" + [':'] + "Docs registro obra nueva";
  }

  lemma KeyParts(i: nat)
    requires i < |DOC_GROUPS|
    ensures Split(DOC_GROUPS[i].0, ':') == KEY_PARTS[i]
  {
    if i == 0 || i == 5 {
      var g := KEY_PARTS[i][0];
      assert DOC_GROUPS[i].0 == g && ':' !in g;
      SplitWithoutSep(g, ':');
    } else {
      ReformaEntry(i);
      ReformaKey(KEY_PARTS[i][1]);
    }
  }

  /** Each table key's group part is one of the three top-level groups. */
  lemma KeyGroup(i: nat)
    requires i < |KEY_PARTS|
    ensures KEY_PARTS[i][0] in {"Compra", "Reforma", "Venta"}
  {
    if i == 0 {
      assert KEY_PARTS[0][0] == "Compra";
    } else if i == 5 {
      assert KEY_PARTS[5][0] == "Venta";
    } else {
      assert KEY_PARTS[i][0] == "Reforma";
    }
  }

  /** The subgroup part of a split key, empty when the key has none. */
  function SubgroupPart(parts: seq<string>): string {
    if |parts| > 1 then parts[1] else ""
  }

  /** Only entry 4 of the table names the `Docs registro obra nueva` subgroup. */
  lemma KeySubgroup(i: nat)
    requires i < |KEY_PARTS| && i != 4
    ensures SubgroupPart(KEY_PARTS[i]) != "Docs registro obra nueva"
  {
    if i == 0 || i == 5 {
      assert |KEY_PARTS[i]| == 1;
    } else {
      assert |KEY_PARTS[i][1]| != |"Docs registro obra nueva"|;
    }
  }

  /** Every proposal lands in one of the three top-level groups. */
  lemma ProposeSlotGroup(filename: string, textHint: string)
    ensures ProposeSlot(filename, textHint).group in {"Compra", "Reforma", "Venta"}
  {
    var fn, hint := LowerStr(filename), LowerStr(textHint);
    var i := ProposeFromFirstMatch(DOC_GROUPS, fn, hint);
    if 0 <= i {
      KeyParts(i);
      KeyGroup(i);
      assert ProposeSlot(filename, textHint).group == KEY_PARTS[i][0];
    }
  }

  /** With no keyword in the file name or the hint, the proposal is the default slot. */
  lemma ProposeSlotDefault(filename: string, textHint: string)
    requires forall g, k | 0 <= g < |DOC_GROUPS| && 0 <= k < |DOC_GROUPS[g].1| ::
               !Mentioned(DOC_GROUPS[g].1[k], LowerStr(filename), LowerStr(textHint))
    ensures ProposeSlot(filename, textHint) == Slot("Compra", "", "Contrato privado")
  {
    var i := ProposeFromFirstMatch(DOC_GROUPS, LowerStr(filename), LowerStr(textHint));
  }

  /**
   * Both keywords of the `Reforma:Docs registro obra nueva` entry contain a
   * `Compra` keyword: `registro` and `impuesto`.
   */
  lemma ObraNuevaMatchesCompra(fn: string, hint: string)
    requires GroupMatches(DOC_GROUPS[4], fn, hint)
    ensures GroupMatches(DOC_GROUPS[0], fn, hint)
  {
    var kws := DOC_GROUPS[4].1;
    var compra := DOC_GROUPS[0].1;
    var k :| 0 <= k < |kws| && Mentioned(kws[k], fn, hint);
    if k == 0 {
      KeywordPieces();
      MentionedPiece(kws[0], compra[1], 0, fn, hint);
      assert Mentioned(compra[1], fn, hint);
    } else {
      KeywordPieces();
      MentionedPiece(kws[1], compra[3], 13, fn, hint);
      assert Mentioned(compra[3], fn, hint);
    }
  }

  /** Where the two `Compra` keywords sit inside the `Docs registro obra nueva` keywords. */
  lemma KeywordPieces()
    ensures OccursAt(DOC_GROUPS[4].1[0], DOC_GROUPS[0].1[1], 0)
    ensures OccursAt(DOC_GROUPS[4].1[1], DOC_GROUPS[0].1[3], 13)
  {
    assert DOC_GROUPS[4].1[0] == "registro documento" && DOC_GROUPS[0].1[1] == "registro";
    assert DOC_GROUPS[4].1[1] == "documento de impuestos" && DOC_GROUPS[0].1[3] == "impuesto";
  }

  /** A mentioned keyword mentions every piece of itself. */
  lemma MentionedPiece(kw: string, sub: string, at: int, fn: string, hint: string)
    requires Mentioned(kw, fn, hint) && OccursAt(kw, sub, at)
    ensures Mentioned(sub, fn, hint)
  {
    if Contains(fn, kw) {
      ContainsPiece(fn, kw, sub, at);
    } else {
      ContainsPiece(hint, kw, sub, at);
    }
  }

  /** `Compra` is examined first, so the `Docs registro obra nueva` subgroup is never proposed. */
  lemma ObraNuevaNeverProposed(filename: string, textHint: string)
    ensures ProposeSlot(filename, textHint).subgroup != "Docs registro obra nueva"
  {
    var fn, hint := LowerStr(filename), LowerStr(textHint);
    var i := ProposeFromFirstMatch(DOC_GROUPS, fn, hint);
    if i == 4 {
      ObraNuevaMatchesCompra(fn, hint);
    } else if 0 <= i {
      KeyParts(i);
      KeySubgroup(i);
      assert ProposeSlot(filename, textHint).subgroup == SubgroupPart(KEY_PARTS[i]);
    }
  }

  // ---------------------------------------------------------------- upload_and_link

  /** `f"property/{property_id}/{document_group}/{filename}"`. */
  function StorageKey(propertyId: string, group: string, filename: string): string {
    "property/" + propertyId + "/" + group + "/" + filename
  }

  /**
   * The key is a path: splitting it on `/` gives back `property`, the
   * property id and the group, then the file name's own segments.
   */
  lemma StorageKeySegments(propertyId: string, group: string, filename: string)
    requires '/' !in propertyId && '/' !in group
    ensures Split(StorageKey(propertyId, group, filename), '/')
            == ["property", propertyId, group] + Split(filename, '/')
  {
    var tail := group + ['/'] + filename;
    var mid := propertyId + ['/'] + tail;
    assert StorageKey(propertyId, group, filename) == "property" + ['/'] + mid;
    SplitPrefix("property", mid, '/');
    SplitPrefix(propertyId, tail, '/');
    SplitPrefix(group, filename, '/');
  }
}
