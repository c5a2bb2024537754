/**
 * lib/mocked-data.js: the field values of the two test cohorts, keyed by the
 * name of the field's type. An unsupported type name fails an assertion.
 */
module MockedData {
  import opened Wrappers
  import opened Store

  predicate IsSupportedType(typeName: string)
  {
    typeName == "string" || typeName == "boolean" || typeName == "number"
  }

  /** The value sentinel records carry in the field of the given type. */
  function SentinelValueForType(typeName: string): (r: Result<Value>)
    ensures r.Ok? <==> IsSupportedType(typeName)
    ensures r.Ok? ==> TypeOf(r.value) == typeName
    ensures r.AssertionFailed? ==> r.message == "unsupported type: " + typeName
  {
    match typeName
    case "string" => Ok(Str("sentinel"))
    case "boolean" => Ok(Bool(true))
    case "number" => Ok(Num(42))
    case _ => AssertionFailed("unsupported type: " + typeName)
  }

  /** The value non-sentinel records carry in the field of the given type. */
  function NonSentinelValueForType(typeName: string): (r: Result<Value>)
    ensures r.Ok? <==> IsSupportedType(typeName)
    ensures r.Ok? ==> TypeOf(r.value) == typeName
    ensures r.AssertionFailed? ==> r.message == "unsupported type: " + typeName
  {
    match typeName
    case "string" => Ok(Str("nonSentinel"))
    case "boolean" => Ok(Bool(false))
    case "number" => Ok(Num(24))
    case _ => AssertionFailed("unsupported type: " + typeName)
  }

  /** The two tables, entry by entry. */
  lemma Tables()
    ensures SentinelValueForType("string") == Ok(Str("sentinel"))
    ensures SentinelValueForType("boolean") == Ok(Bool(true))
    ensures SentinelValueForType("number") == Ok(Num(42))
    ensures NonSentinelValueForType("string") == Ok(Str("nonSentinel"))
    ensures NonSentinelValueForType("boolean") == Ok(Bool(false))
    ensures NonSentinelValueForType("number") == Ok(Num(24))
  {
  }

  /** A filter on a supported field's sentinel value separates the cohorts: the two values differ. */
  lemma SentinelDiffersFromNonSentinel(typeName: string)
    requires IsSupportedType(typeName)
    ensures SentinelValueForType(typeName).value != NonSentinelValueForType(typeName).value
  {
  }
}
