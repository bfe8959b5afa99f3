/**
  `MockModel.getData` of the mock data source (src/data-source-mock/model.ts):
  a fruit basket of random length filled according to `args.type`. The random
  draws are a parameter: `draws` has one entry per slot of the basket (its
  length is the random length) and, for the mixed basket, `draws[i]` says
  whether slot `i` picked the cherry.
 */
module MockModel {
  import opened JsValue

  const CherryEmoji: string := "\U{1F352}"
  const GreenAppleEmoji: string := "\U{1F34F}"

  /** The element of a cherry basket, `{cherry: "🍒"}`. */
  const CherryFruit: Value := Obj(map["cherry" := Str(CherryEmoji)])

  /** The element of a green-apple basket, `{apple: "🍏"}`. */
  const GreenAppleFruit: Value := Obj(map["apple" := Str(GreenAppleEmoji)])

  /** The two shapes the mixed basket draws from; the cherry carries a trailing space. */
  const MixedCherry: Value := Obj(map["cherry" := Str(CherryEmoji + " ")])
  const MixedApple: Value := GreenAppleFruit

  /** `getData(args)` as written: in the default branch `fill(null)` turns every slot
      into `null` and the result of the following `map` is dropped, so the basket
      holds only nulls. */
  function GetDataAsWritten(args: Object, draws: seq<bool>): (basket: seq<Value>)
    ensures |basket| == |draws|
    ensures Lookup(args, "type") == Str("Cherry") ==>
              forall i :: 0 <= i < |basket| ==> basket[i] == CherryFruit
    ensures Lookup(args, "type") == Str("GreenApple") ==>
              forall i :: 0 <= i < |basket| ==> basket[i] == GreenAppleFruit
    ensures Lookup(args, "type") != Str("Cherry") && Lookup(args, "type") != Str("GreenApple") ==>
              forall i :: 0 <= i < |basket| ==> basket[i] == Null
  {
    var kind := Lookup(args, "type");
    if kind == Str("Cherry") then seq(|draws|, _ => CherryFruit)
    else if kind == Str("GreenApple") then seq(|draws|, _ => GreenAppleFruit)
    else seq(|draws|, _ => Null)
  }

  /** `getData(args)` with the default branch keeping the basket the `map` builds:
      each slot holds the cherry or the apple its draw picked. */
  function GetData(args: Object, draws: seq<bool>): (basket: seq<Value>)
    ensures |basket| == |draws|
    ensures Lookup(args, "type") == Str("Cherry") ==>
              forall i :: 0 <= i < |basket| ==> basket[i] == CherryFruit
    ensures Lookup(args, "type") == Str("GreenApple") ==>
              forall i :: 0 <= i < |basket| ==> basket[i] == GreenAppleFruit
    ensures Lookup(args, "type") != Str("Cherry") && Lookup(args, "type") != Str("GreenApple") ==>
              forall i :: 0 <= i < |basket| ==> basket[i] == if draws[i] then MixedCherry else MixedApple
  {
    var kind := Lookup(args, "type");
    if kind == Str("Cherry") then seq(|draws|, _ => CherryFruit)
    else if kind == Str("GreenApple") then seq(|draws|, _ => GreenAppleFruit)
    else seq(|draws|, i requires 0 <= i < |draws| => if draws[i] then MixedCherry else MixedApple)
  }

  /** The two definitions differ only in the default branch. */
  lemma TypedBasketsUnchanged(args: Object, draws: seq<bool>)
    requires Lookup(args, "type") in {Str("Cherry"), Str("GreenApple")}
    ensures GetData(args, draws) == GetDataAsWritten(args, draws)
  {
  }
}
