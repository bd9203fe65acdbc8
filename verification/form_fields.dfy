/** The option defaulting at the top of the upload handler: each scalar
    field is the first value sent under its name, or a default when that is
    missing or empty. */
module FormFields {
  import opened Common
  import opened Decimal
  import opened Statements

  /** A multipart field as the form parser hands it over: absent, or the
      values sent under that name. */
  type Field = Option<seq<string>>

  datatype Fields = Fields(
    companyName: Field,
    sector: Field,
    activity: Field,
    legalEntity: Field,
    comparisonLevel: Field,
    yearsCount: Field,
    analysisTypes: Field,
    language: Field,
    budget: Field)

  /** `field?.[0]` is a non-empty (truthy) string. */
  predicate Supplied(f: Field) {
    f.Some? && |f.value| > 0 && f.value[0] != ""
  }

  /** `field?.[0] || fallback`. */
  function FirstOr(f: Field, fallback: string): string {
    if Supplied(f) then f.value[0] else fallback
  }

  /** The options the handler builds from the parsed fields. */
  function OptionsOf(fields: Fields): (o: Options)
    ensures Supplied(fields.companyName) ==> o.companyName == fields.companyName.value[0]
    ensures !Supplied(fields.companyName) ==> o.companyName == ""
    ensures Supplied(fields.sector) ==> o.sector == fields.sector.value[0]
    ensures !Supplied(fields.sector) ==> o.sector == ""
    ensures Supplied(fields.activity) ==> o.activity == fields.activity.value[0]
    ensures !Supplied(fields.activity) ==> o.activity == ""
    ensures Supplied(fields.legalEntity) ==> o.legalEntity == fields.legalEntity.value[0]
    ensures !Supplied(fields.legalEntity) ==> o.legalEntity == ""
    ensures Supplied(fields.comparisonLevel) ==> o.comparisonLevel == fields.comparisonLevel.value[0]
    ensures !Supplied(fields.comparisonLevel) ==> o.comparisonLevel == "local"
    ensures Supplied(fields.yearsCount) ==> o.yearsCount == ParseInt(fields.yearsCount.value[0])
    ensures !Supplied(fields.yearsCount) ==> o.yearsCount == Some(1)
    ensures fields.analysisTypes.Some? ==> o.analysisTypes == fields.analysisTypes.value
    ensures fields.analysisTypes.None? ==> o.analysisTypes == []
    ensures Supplied(fields.language) ==> o.language == fields.language.value[0]
    ensures !Supplied(fields.language) ==> o.language == "ar"
    ensures o.budget == fields.budget
  {
    assert ToDecimal(1) == "1";
    ParseIntToDecimal(1);
    Options(
      FirstOr(fields.companyName, ""),
      FirstOr(fields.sector, ""),
      FirstOr(fields.activity, ""),
      FirstOr(fields.legalEntity, ""),
      FirstOr(fields.comparisonLevel, "local"),
      ParseInt(FirstOr(fields.yearsCount, "1")),
      match fields.analysisTypes case Some(values) => values case None => [],
      FirstOr(fields.language, "ar"),
      fields.budget)
  }

  /** A request that sends no field at all gets every default. */
  lemma NoFieldsAllDefaults()
    ensures OptionsOf(Fields(None, None, None, None, None, None, None, None, None))
         == Options("", "", "", "", "local", Some(1), [], "ar", None)
  {
  }
}
