/** Deep links of the form `productsapp://product/<id>` and
    `productsapp://category/<encoded name>`: building them, parsing them
    back into `DeepLinkParams`, and dispatching the result to one of the two
    screens.

    The URL parser of expo-linking, `encodeURIComponent` and
    `decodeURIComponent` are not part of this model; they are passed in as
    function values (`UriFunctions`), and what the round-trip lemmas need of
    them is stated as the predicates `PathIsTextAfterScheme` and
    `EncodingIsReversible`. */
module DeepLinking {
  import opened Types
  import opened JsText

  const BaseUrl: string := "productsapp://"

  /** The `path` that `Linking.parse` reports (absent when it is null or
      undefined), or the exception it throws. */
  datatype LinkParse = Parsed(path: Option<string>) | ParseThrew

  datatype UriFunctions = UriFunctions(
    parse: string -> LinkParse,
    encode: string -> string,
    /** `decodeURIComponent`; `None` when it throws (malformed escapes). */
    decode: string -> Option<string>)

  /** Assumption about the foreign URL parser: for a URL in the app's scheme
      the path is all of the text after `productsapp://`. */
  ghost predicate PathIsTextAfterScheme(uri: UriFunctions) {
    forall url :: BaseUrl <= url ==> uri.parse(url) == Parsed(Some(url[|BaseUrl|..]))
  }

  /** Assumption about the foreign codec: a non-empty string encodes to a
      non-empty string without `/` (it is escaped as `%2F`), and decoding
      gives the string back. */
  ghost predicate EncodingIsReversible(uri: UriFunctions) {
    forall s :: s != "" ==>
      uri.encode(s) != "" && '/' !in uri.encode(s) && uri.decode(uri.encode(s)) == Some(s)
  }

  /** `createDeepLink`: a truthy product id wins over the category; with
      neither, the bare scheme prefix. */
  function CreateDeepLink(uri: UriFunctions, params: DeepLinkParams): (url: string)
    ensures BaseUrl <= url
    ensures url == BaseUrl <==> !TruthyInt(params.productId) && !TruthyString(params.category)
  {
    if TruthyInt(params.productId) then
      BaseUrl + ("product/" + NumberToString(params.productId.value))
    else if TruthyString(params.category) then
      BaseUrl + ("category/" + uri.encode(params.category.value))
    else
      BaseUrl
  }

  /** `parseDeepLink`: exactly two non-empty path segments, `product/<int>`
      or `category/<encoded>`; anything else, and any exception, gives
      `None` (null). */
  function ParseDeepLink(uri: UriFunctions, url: string): (r: Option<DeepLinkParams>)
    ensures r.Some? ==> (r.value.productId.Some? <==> r.value.category.None?)
  {
    match uri.parse(url)
    case ParseThrew => None
    case Parsed(path) =>
      if !TruthyString(path) then None
      else
        var segments := PathSegments(path.value);
        if |segments| != 2 then None
        else if segments[0] == "product" && ParseInt(segments[1]).Some? then
          Some(DeepLinkParams(None, ParseInt(segments[1])))
        else if segments[0] == "category" then
          match uri.decode(segments[1])
          case None => None
          case Some(category) => Some(DeepLinkParams(Some(category), None))
        else None
  }

  /** What a parsed link yields, read back from the path it came from: two
      segments, `product` with the integer `parseInt` reads from the second,
      or `category` with the decoded second segment. */
  lemma ParsedLinkShape(uri: UriFunctions, url: string)
    requires ParseDeepLink(uri, url).Some?
    ensures uri.parse(url).Parsed? && TruthyString(uri.parse(url).path)
    ensures
      var segments := PathSegments(uri.parse(url).path.value);
      var p := ParseDeepLink(uri, url).value;
      |segments| == 2 &&
      ((segments[0] == "product" && p.category.None? && p.productId == ParseInt(segments[1])) ||
       (segments[0] == "category" && p.productId.None? && p.category == uri.decode(segments[1])))
  {
  }

  /** Links that are not of the two recognised shapes give `None`: no path,
      an empty path, a segment count other than two, a first segment other
      than `product` or `category`, or `product/` followed by something
      `parseInt` rejects (never read as a category). */
  lemma UnrecognizedLinksAreNull(uri: UriFunctions, url: string)
    requires uri.parse(url).Parsed?
    requires
      var path := uri.parse(url).path;
      !TruthyString(path) ||
      var segments := PathSegments(path.value);
      |segments| != 2 ||
      (segments[0] != "product" && segments[0] != "category") ||
      (segments[0] == "product" && ParseInt(segments[1]).None?)
    ensures ParseDeepLink(uri, url) == None
  {
  }

  /** The accepting direction: every two-segment path of a recognised
      shape parses, not only the canonical text `CreateDeepLink` writes.
      `product/<v>` gives the integer `parseInt` reads from `v` whenever it
      reads one (so `007`, ` 5`, `+5` and `5abc` are accepted), and
      `category/<v>` gives the decoded `v`, or `None` when decoding throws. */
  lemma RecognizedLinksAreAccepted(uri: UriFunctions, url: string)
    requires uri.parse(url).Parsed? && TruthyString(uri.parse(url).path)
    requires |PathSegments(uri.parse(url).path.value)| == 2
    ensures
      var segments := PathSegments(uri.parse(url).path.value);
      && (segments[0] == "product" && ParseInt(segments[1]).Some? ==>
            ParseDeepLink(uri, url) == Some(DeepLinkParams(None, ParseInt(segments[1]))))
      && (segments[0] == "category" && uri.decode(segments[1]).Some? ==>
            ParseDeepLink(uri, url) == Some(DeepLinkParams(uri.decode(segments[1]), None)))
      && (segments[0] == "category" && uri.decode(segments[1]).None? ==>
            ParseDeepLink(uri, url) == None)
  {
  }

  /** `parseDeepLink` never throws: an exception from the URL parser is
      caught and gives `None`. */
  lemma ParserExceptionIsNull(uri: UriFunctions, url: string)
    requires uri.parse(url) == ParseThrew
    ensures ParseDeepLink(uri, url) == None
  {
  }

  /** `parseInt` reads `007` as 7. */
  lemma ParseIntWithLeadingZeros()
    ensures ParseInt("007") == Some(7)
  {
    assert DecimalValue("007") == 7 by {
      assert "007"[..2] == "00" && "00"[..1] == "0" && "0"[..0] == "";
    }
    LeadingDigitsThen("007", "");
    assert "007" + "" == "007";
    ParseIntOfDigits("007");
  }

  /** An id written with leading zeros, which `CreateDeepLink` never
      writes, is still read: `product/007` opens product 7. */
  lemma LeadingZerosAccepted(uri: UriFunctions, url: string)
    requires uri.parse(url) == Parsed(Some("product/007"))
    ensures ParseDeepLink(uri, url) == Some(DeepLinkParams(None, Some(7)))
  {
    var path := "product" + "/" + "007";
    assert "product/007" == path;
    TwoSegments("product", "007");
    ParseIntWithLeadingZeros();
    RecognizedLinksAreAccepted(uri, url);
  }

  /** Under the parser assumption, the path of `productsapp://<path>` is
      `<path>`. */
  lemma PathOfLink(uri: UriFunctions, path: string)
    requires PathIsTextAfterScheme(uri)
    ensures uri.parse(BaseUrl + path) == Parsed(Some(path))
  {
    var url := BaseUrl + path;
    assert BaseUrl <= url;
    assert url[|BaseUrl|..] == path;
  }

  /** A link built for a truthy product id parses back to that id alone,
      whatever category was also given. */
  lemma ProductLinkRoundTrip(uri: UriFunctions, id: int, category: Option<string>)
    requires PathIsTextAfterScheme(uri)
    requires id != 0
    ensures ParseDeepLink(uri, CreateDeepLink(uri, DeepLinkParams(category, Some(id))))
            == Some(DeepLinkParams(None, Some(id)))
  {
    var digits := NumberToString(id);
    var path := "product" + "/" + digits;
    var url := CreateDeepLink(uri, DeepLinkParams(category, Some(id)));
    assert url == BaseUrl + path by {
      assert "product/" + digits == path;
    }
    assert uri.parse(url) == Parsed(Some(path)) by { PathOfLink(uri, path); }
    assert PathSegments(path) == ["product", digits] by { TwoSegments("product", digits); }
    assert ParseInt(digits) == Some(id) by {
      ParseIntOfNumberToString(id, "");
      assert digits + "" == digits;
    }
  }

  /** A link built from a truthy category alone parses back to that
      category alone. */
  lemma CategoryLinkRoundTrip(uri: UriFunctions, category: string, id: Option<int>)
    requires PathIsTextAfterScheme(uri) && EncodingIsReversible(uri)
    requires category != "" && !TruthyInt(id)
    ensures ParseDeepLink(uri, CreateDeepLink(uri, DeepLinkParams(Some(category), id)))
            == Some(DeepLinkParams(Some(category), None))
  {
    var encoded := uri.encode(category);
    var path := "category" + "/" + encoded;
    var url := CreateDeepLink(uri, DeepLinkParams(Some(category), id));
    assert url == BaseUrl + path by {
      assert "category/" + encoded == path;
    }
    assert uri.parse(url) == Parsed(Some(path)) by { PathOfLink(uri, path); }
    assert PathSegments(path) == ["category", encoded] by { TwoSegments("category", encoded); }
  }

  /** With neither a truthy id nor a truthy category the link is the bare
      prefix, which parses to `None`. */
  lemma EmptyLinkIsNull(uri: UriFunctions, params: DeepLinkParams)
    requires PathIsTextAfterScheme(uri)
    requires !TruthyInt(params.productId) && !TruthyString(params.category)
    ensures ParseDeepLink(uri, CreateDeepLink(uri, params)) == None
  {
    assert BaseUrl[|BaseUrl|..] == "";
  }

  /** The two navigation targets of the app. */
  datatype Route = ProductDetail(productId: int) | ProductList(category: string)

  /** The navigation `handleDeepLink` performs for a parse result, if any:
      a truthy product id opens the detail screen, otherwise a truthy
      category opens the filtered list. */
  function DeepLinkTarget(params: Option<DeepLinkParams>): (target: Option<Route>)
    ensures target.Some? <==>
      params.Some? && (TruthyInt(params.value.productId) || TruthyString(params.value.category))
    ensures target.Some? && target.value.ProductDetail? ==>
      params.value.productId == Some(target.value.productId) && target.value.productId != 0
    ensures target.Some? && target.value.ProductList? ==>
      !TruthyInt(params.value.productId) && params.value.category == Some(target.value.category)
      && target.value.category != ""
  {
    if params.None? then None
    else if TruthyInt(params.value.productId) then Some(ProductDetail(params.value.productId.value))
    else if TruthyString(params.value.category) then Some(ProductList(params.value.category.value))
    else None
  }

  /** End to end: dispatching a link that `CreateDeepLink` built opens the
      screen its parameters name, and a link with neither parameter is not
      handled. */
  lemma CreatedLinkDispatch(uri: UriFunctions, params: DeepLinkParams)
    requires PathIsTextAfterScheme(uri) && EncodingIsReversible(uri)
    ensures var target := DeepLinkTarget(ParseDeepLink(uri, CreateDeepLink(uri, params)));
      if TruthyInt(params.productId) then target == Some(ProductDetail(params.productId.value))
      else if TruthyString(params.category) then target == Some(ProductList(params.category.value))
      else target == None
  {
    if TruthyInt(params.productId) {
      ProductLinkRoundTrip(uri, params.productId.value, params.category);
    } else if TruthyString(params.category) {
      CategoryLinkRoundTrip(uri, params.category.value, params.productId);
    } else {
      EmptyLinkIsNull(uri, params);
    }
  }

  /** The navigation object handed to `handleDeepLink`; it records every
      `navigate` call. */
  class Navigator {
    var calls: seq<Route>

    constructor ()
      ensures calls == []
    {
      calls := [];
    }

    method Navigate(route: Route)
      modifies this
      ensures calls == old(calls) + [route]
    {
      calls := calls + [route];
    }
  }

  /** `handleDeepLink`: parses the URL, navigates to the target if there is
      one and reports whether it did. */
  method HandleDeepLink(uri: UriFunctions, url: string, navigation: Navigator) returns (handled: bool)
    modifies navigation
    ensures handled <==> DeepLinkTarget(ParseDeepLink(uri, url)).Some?
    ensures navigation.calls == old(navigation.calls) +
      (if handled then [DeepLinkTarget(ParseDeepLink(uri, url)).value] else [])
  {
    var params := ParseDeepLink(uri, url);
    if params.None? {
      return false;
    }
    if TruthyInt(params.value.productId) {
      navigation.Navigate(ProductDetail(params.value.productId.value));
      return true;
    }
    if TruthyString(params.value.category) {
      navigation.Navigate(ProductList(params.value.category.value));
      return true;
    }
    return false;
  }
}
