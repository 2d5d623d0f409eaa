/**
 * Naming helpers of tools/utils.py: the short form of a property id and the
 * names of the three per-property database schemas built from it.
 */
module Utils {
  import opened Strings

  /** `re.sub("-", "", uuid_str)[:8]`. */
  function ShortId(uuid: string): (sid: string)
    ensures '-' !in sid
    ensures |sid| <= |Without(uuid, '-')| && sid == Without(uuid, '-')[..|sid|]
    ensures |sid| == if |uuid| - multiset(uuid)['-'] < 8 then |uuid| - multiset(uuid)['-'] else 8
  {
    var stripped := Without(uuid, '-');
    if |stripped| <= 8 then stripped else stripped[..8]
  }

  /** A short id is its own short id. */
  lemma ShortIdIdempotent(uuid: string)
    ensures ShortId(ShortId(uuid)) == ShortId(uuid)
  {
    WithoutAbsent(ShortId(uuid), '-');
  }

  const DOCUMENTS_SUFFIX := "__documents_framework"
  const NUMBERS_SUFFIX := "__numbers_framework"
  const SUMMARY_SUFFIX := "__framework_summary_property"

  function DocsSchema(pid: string): string {
    "prop_" + ShortId(pid) + DOCUMENTS_SUFFIX
  }

  function NumsSchema(pid: string): string {
    "prop_" + ShortId(pid) + NUMBERS_SUFFIX
  }

  function SumSchema(pid: string): string {
    "prop_" + ShortId(pid) + SUMMARY_SUFFIX
  }

  /** A property's three schemas never share a name. */
  lemma SchemasDistinct(pid: string)
    ensures DocsSchema(pid) != NumsSchema(pid)
    ensures DocsSchema(pid) != SumSchema(pid)
    ensures NumsSchema(pid) != SumSchema(pid)
  {
    var k := 5 + |ShortId(pid)| + 2;
    assert DocsSchema(pid)[k] == 'd';
    assert NumsSchema(pid)[k] == 'n';
    assert SumSchema(pid)[k] == 'f';
  }

  /** Wrapping short ids between the same prefix and suffix keeps them apart. */
  lemma NameInjective(sa: string, sb: string, suffix: string)
    ensures "prop_" + sa + suffix == "prop_" + sb + suffix <==> sa == sb
  {
    if "prop_" + sa + suffix == "prop_" + sb + suffix {
      assert ("prop_" + sa + suffix)[5..5 + |sa|] == sa;
      assert ("prop_" + sb + suffix)[5..5 + |sb|] == sb;
    }
  }

  /** Two properties get the same schema name exactly when their short ids agree. */
  lemma SchemaNameInjective(a: string, b: string)
    ensures DocsSchema(a) == DocsSchema(b) <==> ShortId(a) == ShortId(b)
    ensures NumsSchema(a) == NumsSchema(b) <==> ShortId(a) == ShortId(b)
    ensures SumSchema(a) == SumSchema(b) <==> ShortId(a) == ShortId(b)
  {
    NameInjective(ShortId(a), ShortId(b), DOCUMENTS_SUFFIX);
    NameInjective(ShortId(a), ShortId(b), NUMBERS_SUFFIX);
    NameInjective(ShortId(a), ShortId(b), SUMMARY_SUFFIX);
  }
}
