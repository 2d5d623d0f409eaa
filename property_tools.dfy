/**
 * `list_frameworks` of tools/property_tools.py, which spells out the three
 * schema names itself instead of calling the helpers in tools/utils.py.
 */
module PropertyTools {
  import opened Strings
  import Utils

  datatype Frameworks = Frameworks(documentsSchema: string, numbersSchema: string, summarySchema: string)

  /**
   * `sid = property_id.replace("-", "")[:8]` and the three names built from
   * it; they agree with the names tools/utils.py gives the same property.
   */
  function ListFrameworks(propertyId: string): (f: Frameworks)
    ensures f.documentsSchema == Utils.DocsSchema(propertyId)
    ensures f.numbersSchema == Utils.NumsSchema(propertyId)
    ensures f.summarySchema == Utils.SumSchema(propertyId)
  {
    var stripped := Without(propertyId, '-');
    var sid := stripped[..if |stripped| < 8 then |stripped| else 8];
    Frameworks("prop_" + sid + "__documents_framework",
               "prop_" + sid + "__numbers_framework",
               "prop_" + sid + "__framework_summary_property")
  }
}
