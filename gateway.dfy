/**
  The gateway's own resolvers (src/index.ts). They sit on top of the composed
  graph and reach the data sources through the binding,
  `ctx.binding.query.<field>(args, ctx)`, which is a parameter here: a total
  function from a call to what the delegated query answers, a value or a
  rejection. A resolver's run records the calls it made, in order, and its
  outcome; a rejection from a delegated call is passed on unchanged.
 */
module Gateway {
  import opened JsValue
  import MockModel
  import MockResolvers

  /** `ctx.binding.query.<field>(args, ctx)`. */
  datatype Call = Call(field: string, args: Object)

  /** What the composed graph answers to a delegated query. */
  type Binding = Call -> Result<Value>

  /** The delegated calls a resolver made, in order, and what it returned or threw. */
  datatype Run = Run(calls: seq<Call>, result: Result<Value>)

  const LatestComicCall: Call := Call("latestComic", map[])

  /** The `date` argument built from a comic's month and day: `${month}/${day}`. */
  function DateString(month: Value, day: Value): string {
    ToStr(month) + "/" + ToStr(day)
  }

  /** `Query.comicAndTrivia`: fetch the latest comic, then the trivia for its date. */
  function ComicAndTrivia(binding: Binding): (r: Run)
    ensures 1 <= |r.calls| <= 2 && r.calls[0] == LatestComicCall
    ensures |r.calls| == 2 <==> binding(LatestComicCall).Ok? && !Nullish(binding(LatestComicCall).value)
    ensures |r.calls| == 2 ==> r.calls[1].field == "date" && r.calls[1].args.Keys == {"date"}
    ensures r.result.Ok? ==>
              |r.calls| == 2 && binding(r.calls[0]).Ok? && binding(r.calls[1]).Ok? &&
              r.result.value == Obj(map["comic" := binding(r.calls[0]).value,
                                        "trivia" := binding(r.calls[1]).value])
    ensures binding(LatestComicCall).Err? ==> r.result == binding(LatestComicCall)
    ensures binding(LatestComicCall).Ok? && Nullish(binding(LatestComicCall).value) ==>
              r.result == Err(TypeError("day"))
    ensures |r.calls| == 2 ==>
              var comic := binding(LatestComicCall).value;
              r.calls[1] == Call("date", map["date" :=
                Str(DateString(GetProp(comic, "month").value, GetProp(comic, "day").value))])
    ensures |r.calls| == 2 && binding(r.calls[1]).Ok? ==> r.result.Ok?
    ensures |r.calls| == 2 && binding(r.calls[1]).Err? ==> r.result == binding(r.calls[1])
  {
    match binding(LatestComicCall)
    case Err(e) => Run([LatestComicCall], Err(e))
    case Ok(comic) =>
      match GetProp(comic, "day")
      case Err(e) => Run([LatestComicCall], Err(e))
      case Ok(day) =>
        var month := GetProp(comic, "month").value;
        var dateCall := Call("date", map["date" := Str(DateString(month, day))]);
        match binding(dateCall)
        case Err(e) => Run([LatestComicCall, dateCall], Err(e))
        case Ok(trivia) => Run([LatestComicCall, dateCall], Ok(Obj(map["comic" := comic, "trivia" := trivia])))
  }

  /** The text before and after the first '/' of `s`, if it has one. */
  function SplitAtSlash(s: string): Option<(string, string)>
    decreases |s|
  {
    if s == [] then None
    else if s[0] == '/' then Some(([], s[1..]))
    else
      match SplitAtSlash(s[1..])
      case None => None
      case Some(p) => Some(([s[0]] + p.0, p.1))
  }

  /** The date string splits back into the month and the day it was built from. */
  lemma {:induction false} SplitDateString(month: string, day: string)
    requires '/' !in month
    ensures SplitAtSlash(month + "/" + day) == Some((month, day))
    decreases |month|
  {
    var s := month + "/" + day;
    if month == [] {
      assert s[1..] == day;
    } else {
      assert s[1..] == month[1..] + "/" + day;
      SplitDateString(month[1..], day);
      assert [month[0]] + month[1..] == month;
    }
  }

  /** For a comic whose month and day are strings, `date` is called with exactly
      `month + "/" + day`, from which the month and the day can be read back
      when the month holds no '/'. */
  lemma {:induction false} ComicDateForwarded(binding: Binding, month: string, day: string)
    requires binding(LatestComicCall).Ok? && binding(LatestComicCall).value.Obj?
    requires Lookup(binding(LatestComicCall).value.props, "month") == Str(month)
    requires Lookup(binding(LatestComicCall).value.props, "day") == Str(day)
    ensures |ComicAndTrivia(binding).calls| == 2
    ensures ComicAndTrivia(binding).calls[1] == Call("date", map["date" := Str(month + "/" + day)])
    ensures '/' !in month ==> SplitAtSlash(month + "/" + day) == Some((month, day))
  {
    if '/' !in month {
      SplitDateString(month, day);
    }
  }

  /** A comic that comes back as null cannot be destructured: the resolver throws a
      TypeError and never asks for the trivia. */
  lemma NullComicThrows(binding: Binding)
    requires binding(LatestComicCall) == Ok(Null)
    ensures ComicAndTrivia(binding) == Run([LatestComicCall], Err(TypeError("day")))
  {
  }

  /** The end-to-end case: the latest comic is from the first of April (month "4", day "1")
      and the trivia source answers for date "4/1". */
  lemma ComicAndTriviaExample()
    ensures var comic := Obj(map["day" := Str("1"), "month" := Str("4")]);
      var trivia := Obj(map["text" := Str("trivia for 4/1")]);
      var dateCall := Call("date", map["date" := Str("4/1")]);
      var binding := (c: Call) =>
        if c == LatestComicCall then Ok(comic)
        else if c == dateCall then Ok(trivia)
        else Err(Raised(Null));
      ComicAndTrivia(binding) == Run([LatestComicCall, dateCall], Ok(Obj(map["comic" := comic, "trivia" := trivia])))
  {
    var comic := Obj(map["day" := Str("1"), "month" := Str("4")]);
    assert DateString(Str("4"), Str("1")) == "4/1";
  }

  /** `Query.triviaAndFruit`. `number` is the random draw `Math.round(Math.random() * 100)`. */
  function TriviaAndFruit(binding: Binding, number: int): (r: Run)
    ensures r.calls == [Call("trivia", map["number" := Num(number)])]
    ensures r.result.Ok? ==>
              binding(r.calls[0]).Ok? && !Nullish(binding(r.calls[0]).value) &&
              r.result.value == Obj(map["triviaContent" := GetProp(binding(r.calls[0]).value, "text").value])
    ensures r.result.Err? <==> binding(r.calls[0]).Err? || binding(r.calls[0]) in {Ok(Null), Ok(Undefined)}
    ensures binding(r.calls[0]).Err? ==> r.result == binding(r.calls[0])
    ensures binding(r.calls[0]) in {Ok(Null), Ok(Undefined)} ==> r.result == Err(TypeError("text"))
  {
    var triviaCall := Call("trivia", map["number" := Num(number)]);
    match binding(triviaCall)
    case Err(e) => Run([triviaCall], Err(e))
    case Ok(trivia) =>
      match GetProp(trivia, "text")
      case Err(e) => Run([triviaCall], Err(e))
      case Ok(text) => Run([triviaCall], Ok(Obj(map["triviaContent" := text])))
  }

  /** `TriviaAndFruit.aBasketOfGreenApples`: the `greenApple` query with empty arguments. */
  function BasketOfGreenApples(binding: Binding): (r: Run)
    ensures r.calls == [Call("greenApple", map[])] && r.result == binding(r.calls[0])
  {
    var call := Call("greenApple", map[]);
    Run([call], binding(call))
  }

  /** `TriviaAndFruit.aBasketOfCherries`: the `cherry` query with empty arguments. */
  function BasketOfCherries(binding: Binding): (r: Run)
    ensures r.calls == [Call("cherry", map[])] && r.result == binding(r.calls[0])
  {
    var call := Call("cherry", map[]);
    Run([call], binding(call))
  }

  /** `TriviaAndFruit.legend`, whatever the parent and the arguments. */
  function Legend(parent: Value, args: Object): (r: Value)
    ensures r.Obj? && r.props.Keys == {"greenApple", "cherry"}
  {
    Obj(map["greenApple" := Str(MockModel.GreenAppleEmoji), "cherry" := Str(MockModel.CherryEmoji)])
  }

  /** The legend shows the same emoji the mock model puts in its typed baskets. */
  lemma LegendMatchesBaskets(parent: Value, args: Object)
    ensures Legend(parent, args).props["cherry"] == MockModel.CherryFruit.props["cherry"]
    ensures Legend(parent, args).props["greenApple"] == MockModel.GreenAppleFruit.props["apple"]
  {
  }

  /** `legend` ignores its parent and its arguments. */
  lemma LegendIndependentOfInputs(p1: Value, a1: Object, p2: Value, a2: Object)
    ensures Legend(p1, a1) == Legend(p2, a2)
  {
  }

  /** `MixedFruit.__resolveType(obj)`. */
  function ResolveType(obj: Object): (r: string)
    ensures r == "Cherry" || r == "GreenApple"
    ensures r == "Cherry" <==> Truthy(Lookup(obj, "cherry"))
  {
    if Truthy(Lookup(obj, "cherry")) then "Cherry" else "GreenApple"
  }

  /** The gateway's union resolver and the mock data source's agree on every object. */
  lemma ResolveTypeAgrees(obj: Object)
    ensures ResolveType(obj) == MockResolvers.ResolveType(obj)
  {
  }

  /** When the binding answers the basket queries from the mock data source, every
      fruit the gateway's baskets deliver resolves, through the gateway's own union
      resolver, to the variant the basket is named after. */
  lemma BasketsResolveThroughGateway(binding: Binding, draws: seq<bool>)
    requires binding(Call("greenApple", map[])) == Ok(Arr(MockResolvers.QueryResolver("greenApple", draws).value))
    requires binding(Call("cherry", map[])) == Ok(Arr(MockResolvers.QueryResolver("cherry", draws).value))
    ensures forall e :: e in BasketOfGreenApples(binding).result.value.elems ==>
              e.Obj? && ResolveType(e.props) == "GreenApple"
    ensures forall e :: e in BasketOfCherries(binding).result.value.elems ==>
              e.Obj? && ResolveType(e.props) == "Cherry"
  {
  }
}
