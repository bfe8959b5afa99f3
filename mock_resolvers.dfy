/**
  The resolvers of the mock data source (src/data-source-mock/resolvers.ts):
  three `Query` fields that ask the model for a basket of one type or of
  mixed fruit, and the `MixedFruit` union's type resolver, which decides a
  variant by whether the value has a truthy `cherry` attribute.
 */
module MockResolvers {
  import opened JsValue
  import opened MockModel

  /** The argument each `Query` resolver passes to `context.model.getData`. */
  const GetDataArgs: map<string, Object> := map[
    "greenApple" := map["type" := Str("GreenApple")],
    "cherry" := map["type" := Str("Cherry")],
    "fruit" := map[]
  ]

  /** The basket a `Query` field resolves to, or None for a field the map does not define.
      The model answers as the program's `getData` does, so `fruit` yields nulls. */
  function QueryResolver(field: string, draws: seq<bool>): (r: Option<seq<Value>>)
    ensures r.Some? <==> field in {"greenApple", "cherry", "fruit"}
    ensures r.Some? ==> r.value == GetDataAsWritten(GetDataArgs[field], draws)
  {
    if field in GetDataArgs then Some(GetDataAsWritten(GetDataArgs[field], draws)) else None
  }

  /** `MixedFruit.__resolveType(obj)`. */
  function ResolveType(obj: Object): (r: string)
    ensures r == "Cherry" || r == "GreenApple"
    ensures r == "Cherry" <==> Truthy(Lookup(obj, "cherry"))
  {
    if Truthy(Lookup(obj, "cherry")) then "Cherry" else "GreenApple"
  }

  /** The type tags: `greenApple` asks for "GreenApple", `cherry` for "Cherry", `fruit` for no type. */
  lemma QueryTypeTags()
    ensures Lookup(GetDataArgs["greenApple"], "type") == Str("GreenApple")
    ensures Lookup(GetDataArgs["cherry"], "type") == Str("Cherry")
    ensures Lookup(GetDataArgs["fruit"], "type") == Undefined
  {
  }

  /** An object with neither attribute resolves to "GreenApple"; the resolver never fails. */
  lemma EmptyObjectIsGreenApple()
    ensures ResolveType(map[]) == "GreenApple"
  {
  }

  /** Round trip: every element of the `cherry` basket resolves to "Cherry",
      every element of the `greenApple` basket to "GreenApple". */
  lemma TypedBasketsResolveToTheirType(draws: seq<bool>)
    ensures forall e :: e in QueryResolver("cherry", draws).value ==>
              e.Obj? && ResolveType(e.props) == "Cherry"
    ensures forall e :: e in QueryResolver("greenApple", draws).value ==>
              e.Obj? && ResolveType(e.props) == "GreenApple"
  {
  }

  /** The corrected mixed basket: slot `i` resolves to the variant its draw picked. */
  lemma MixedBasketResolvesPerDraw(draws: seq<bool>, i: nat)
    requires i < |draws|
    ensures var e := GetData(GetDataArgs["fruit"], draws)[i];
      e.Obj? && ResolveType(e.props) == if draws[i] then "Cherry" else "GreenApple"
  {
  }

  /** As written, the `fruit` basket holds only nulls, so no slot is a fruit the
      union could resolve. */
  lemma FruitBasketAsWrittenHoldsNulls(draws: seq<bool>, i: nat)
    requires i < |draws|
    ensures QueryResolver("fruit", draws).value[i] == Null
    ensures GetData(GetDataArgs["fruit"], draws)[i] != QueryResolver("fruit", draws).value[i]
  {
  }
}
