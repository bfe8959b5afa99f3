/**
  The resolvers of the numbers-trivia data source
  (src/data-source-numbers/resolvers.ts): four `Query` fields that forward an
  input and a constant type tag to the REST model, and the `date` and `year`
  fields of a trivia record, which turn a missing or empty value into `null`.
 */
module NumbersResolvers {
  import opened JsValue

  /** A call `getNumbers(input, type)` on the numbers REST model. */
  datatype Request = Request(input: Value, kind: string)

  /** The `Query` resolvers, by field name. */
  const Query: map<string, Object -> Request> := map[
    "trivia" := (args: Object) => Request(Lookup(args, "number"), "trivia"),
    "date" := (args: Object) => Request(Lookup(args, "date"), "date"),
    "math" := (args: Object) => Request(Lookup(args, "number"), "math"),
    "year" := (args: Object) => Request(Lookup(args, "number"), "year")
  ]

  /** `x || null`: a truthy value, or `null`. */
  function OrNull(x: Value): (r: Value)
    ensures Truthy(x) ==> r == x
    ensures !Truthy(x) ==> r == Null
  {
    Or(x, Null)
  }

  /** `Numbers_Trivia.date`. */
  function Date(data: Object): (r: Value)
    ensures r == Null || Truthy(r)
    ensures Truthy(Lookup(data, "date")) ==> r == Lookup(data, "date")
    ensures !Truthy(Lookup(data, "date")) ==> r == Null
    ensures r != Undefined && r != Str("")
  {
    OrNull(Lookup(data, "date"))
  }

  /** `Numbers_Trivia.year`. */
  function Year(data: Object): (r: Value)
    ensures r == Null || Truthy(r)
    ensures Truthy(Lookup(data, "year")) ==> r == Lookup(data, "year")
    ensures !Truthy(Lookup(data, "year")) ==> r == Null
    ensures r != Undefined && r != Str("")
  {
    OrNull(Lookup(data, "year"))
  }

  /** Every `Query` resolver asks the model for the type named like its own field;
      `date` forwards its `date` argument, the others their `number` argument. */
  lemma TypeTagIsFieldName(field: string, args: Object)
    requires field in Query
    ensures Query[field](args).kind == field
    ensures Query[field](args).input == Lookup(args, if field == "date" then "date" else "number")
  {
  }

  lemma QueryFields()
    ensures Query.Keys == {"trivia", "date", "math", "year"}
  {
  }

  /** Defaulting is a normalisation: a record whose `date`/`year` already went through
      the resolver resolves to the same value again. */
  lemma DefaultingIdempotent(data: Object)
    ensures Date(map["date" := Date(data)]) == Date(data)
    ensures Year(map["year" := Year(data)]) == Year(data)
  {
  }

  /** A missing or empty date comes out as `null`, and so, independently, does a
      missing or empty year. */
  lemma MissingIsNull(data: Object)
    ensures ("date" !in data || data["date"] == Str("")) ==> Date(data) == Null
    ensures ("year" !in data || data["year"] == Str("")) ==> Year(data) == Null
  {
  }
}
