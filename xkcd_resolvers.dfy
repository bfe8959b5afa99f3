/**
  The resolvers of the xkcd data source (src/data-source-xkcd/resolvers.ts):
  two `Query` fields that forward to the REST model, and the `link` field of
  a comic, which builds the comic's page address when the API returns an
  empty link.
 */
module XkcdResolvers {
  import opened JsValue

  /** A call on the xkcd REST model: `getLatestComic()` or `getComicById(id)`. */
  datatype Request = LatestComic | ComicById(id: Value)

  /** The `Query` resolvers, by field name. */
  const Query: map<string, Object -> Request> := map[
    "latestComic" := (args: Object) => LatestComic,
    "comic" := (args: Object) => ComicById(Lookup(args, "id"))
  ]

  const LinkPrefix: string := "https://xkcd.com/"

  /** `https://xkcd.com/${num}/`. */
  function FallbackLink(num: Value): (url: string)
    ensures |url| >= |LinkPrefix| + 1
    ensures url[..|LinkPrefix|] == LinkPrefix && url[|url| - 1] == '/'
  {
    LinkPrefix + ToStr(num) + "/"
  }

  /** The comic number a page address of the fallback form names, if any. */
  function ComicNumberOfLink(url: string): Option<nat> {
    if |url| >= |LinkPrefix| + 2 && url[..|LinkPrefix|] == LinkPrefix && url[|url| - 1] == '/'
       && AllDigits(url[|LinkPrefix|..|url| - 1])
    then Some(ParseDecimal(url[|LinkPrefix|..|url| - 1]))
    else None
  }

  /** `XKCD_Comic.link`: the comic's own link when it is truthy, else the fallback address. */
  function Link(data: Object): (r: Value)
    ensures Truthy(r)
    ensures Truthy(Lookup(data, "link")) ==> r == Lookup(data, "link")
    ensures !Truthy(Lookup(data, "link")) ==> r == Str(FallbackLink(Lookup(data, "num")))
  {
    Or(Lookup(data, "link"), Str(FallbackLink(Lookup(data, "num"))))
  }

  /** The fallback address names the comic: reading the number back out of it gives `num`,
      whether the API sent the number as a number or as its decimal string. */
  lemma FallbackLinkNamesComic(data: Object, n: nat)
    requires !Truthy(Lookup(data, "link"))
    requires Lookup(data, "num") == Num(n) || Lookup(data, "num") == Str(Decimal(n))
    ensures Link(data).Str? && ComicNumberOfLink(Link(data).s) == Some(n)
  {
    var url := Link(data).s;
    assert url == LinkPrefix + Decimal(n) + "/";
    assert url[|LinkPrefix|..|url| - 1] == Decimal(n);
    ParseDecimalOfDecimal(n);
  }

  /** The `Query` resolvers: `latestComic` asks for the latest comic with no argument,
      `comic` forwards its `id` argument unchanged. */
  lemma QueryForwarding(args: Object)
    ensures Query.Keys == {"latestComic", "comic"}
    ensures Query["latestComic"](args) == LatestComic
    ensures Query["comic"](args) == ComicById(Lookup(args, "id"))
  {
  }
}
