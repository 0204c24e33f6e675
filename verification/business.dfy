/**
 * Reading the selected business and restaurant ids out of a dashboard path
 * (src/lib/business.ts), with the `business`/`restaurant` cookies as fallback.
 */
module BusinessIds {
  import opened Wrappers
  import opened Seqs
  import JsNumber

  datatype ParsedIds = ParsedIds(businessId: Option<string>, restaurantId: Option<string>)

  /** `path.replace(/^\//, "")`: drop one leading slash. */
  function StripLeadingSlash(path: string): string
  {
    if path != [] && path[0] == '/' then path[1..] else path
  }

  /** Dropping the leading slash first makes no difference: the empty first part is filtered out anyway. */
  lemma StripLeadingSlashIrrelevant(path: string)
    ensures Segments(StripLeadingSlash(path)) == Segments(path)
  {
    if path != [] && path[0] == '/' {
      assert Split(path, '/') == [[]] + Split(path[1..], '/');
      assert Split(path, '/')[1..] == Split(path[1..], '/');
    }
  }

  /** `!isNaN(Number(s))`. */
  predicate IsNumeric(s: string) { JsNumber.IsNumeric(s) }

  /** parseBusinessRestaurantIds(path). */
  function ParseBusinessRestaurantIds(path: string): (r: ParsedIds)
    ensures r.restaurantId.Some? ==> r.businessId.Some?
    ensures var segs := Segments(path);
      r.businessId.Some? <==> |segs| >= 2 && segs[0] == "business" && IsNumeric(segs[1])
    ensures var segs := Segments(path);
      r.businessId.Some? ==> r.businessId.value == segs[1]
    ensures var segs := Segments(path);
      r.restaurantId.Some? <==>
        |segs| >= 4 && segs[0] == "business" && IsNumeric(segs[1]) && segs[2] == "restaurant" && IsNumeric(segs[3])
    ensures var segs := Segments(path);
      r.restaurantId.Some? ==> r.restaurantId.value == segs[3]
  {
    StripLeadingSlashIrrelevant(path);
    if path == "/" || path == "" then
      assert Split(path, '/') == [[]] || Split(path, '/') == [[], []];
      ParsedIds(None, None)
    else
      var segments := Segments(StripLeadingSlash(path));
      if |segments| == 0 || segments[0] != "business" || |segments| < 2 then ParsedIds(None, None)
      else
        var businessId := segments[1];
        if businessId == "" || !IsNumeric(businessId) then ParsedIds(None, None)
        else if |segments| == 2 then ParsedIds(Some(businessId), None)
        else if |segments| >= 4 && segments[2] == "restaurant" then
          var restaurantId := segments[3];
          if restaurantId == "" || !IsNumeric(restaurantId) then ParsedIds(Some(businessId), None)
          else ParsedIds(Some(businessId), Some(restaurantId))
        else ParsedIds(Some(businessId), None)
  }

  /** The root path selects nothing. */
  lemma RootSelectsNothing()
    ensures ParseBusinessRestaurantIds("/") == ParsedIds(None, None)
    ensures ParseBusinessRestaurantIds("") == ParsedIds(None, None)
  {
  }

  /** A path of exactly two segments never names a restaurant. */
  lemma TwoSegmentsNoRestaurant(path: string)
    requires |Segments(path)| == 2
    ensures ParseBusinessRestaurantIds(path).restaurantId == None
  {
  }

  /** Runs of slashes are collapsed: "//business//5" reads like "/business/5". */
  lemma RepeatedSlashesCollapse()
    ensures ParseBusinessRestaurantIds("//business//5") == ParseBusinessRestaurantIds("/business/5")
    ensures ParseBusinessRestaurantIds("/business/5") == ParsedIds(Some("5"), None)
  {
    SegmentsOfRepeatedSlashes();
    SegmentsOfSingleSlashes();
    JsNumber.DigitsAreNumeric("5");
  }

  lemma SegmentsOfRepeatedSlashes()
    ensures Segments("//business//5") == ["business", "5"]
  {
    var parts := ["", "", "business", "", "5"];
    SplitJoin(parts, '/');
    assert Join(parts, '/') == "//business//5";
    assert Filter(parts[4..], NonEmpty) == ["5"];
    assert Filter(parts[3..], NonEmpty) == ["5"];
    assert Filter(parts[2..], NonEmpty) == ["business", "5"];
    assert Filter(parts[1..], NonEmpty) == ["business", "5"];
  }

  lemma SegmentsOfSingleSlashes()
    ensures Segments("/business/5") == ["business", "5"]
  {
    var parts := ["", "business", "5"];
    SplitJoin(parts, '/');
    assert Join(parts, '/') == "/business/5";
    assert Filter(parts[2..], NonEmpty) == ["5"];
    assert Filter(parts[1..], NonEmpty) == ["business", "5"];
  }

  /** A JavaScript cookie value as `value || null` reads it: an empty cookie counts as absent. */
  function OrNull(cookie: Option<string>): (r: Option<string>)
    ensures r.Some? <==> cookie.Some? && cookie.value != ""
    ensures r.Some? ==> r == cookie
  {
    if cookie.Some? && cookie.value != "" then cookie else None
  }

  /**
   * getBusinessRestaurantIdsClient(path); `businessCookie` and `restaurantCookie` are
   * what `getCookie("business")` and `getCookie("restaurant")` return.
   */
  function GetBusinessRestaurantIdsClient(path: string, businessCookie: Option<string>,
                                          restaurantCookie: Option<string>): (r: ParsedIds)
    ensures var url := ParseBusinessRestaurantIds(path);
      url.restaurantId.Some? ==> r == url
    ensures var url := ParseBusinessRestaurantIds(path);
      url.businessId.Some? && url.restaurantId.None? ==>
        r == ParsedIds(url.businessId, OrNull(restaurantCookie))
    ensures var url := ParseBusinessRestaurantIds(path);
      url.businessId.None? ==> r == ParsedIds(OrNull(businessCookie), OrNull(restaurantCookie))
  {
    var urlParsed := ParseBusinessRestaurantIds(path);
    if urlParsed.businessId.Some? && urlParsed.restaurantId.Some? then urlParsed
    else if urlParsed.businessId.Some? then
      ParsedIds(urlParsed.businessId, OrNull(restaurantCookie))
    else
      ParsedIds(OrNull(businessCookie), OrNull(restaurantCookie))
  }

  /**
   * Unlike the URL parser, the cookie fallback can name a restaurant without a business:
   * on a path outside /business with only a `restaurant` cookie set.
   */
  lemma ClientRestaurantWithoutBusiness()
    ensures GetBusinessRestaurantIdsClient("/", None, Some("3")) == ParsedIds(None, Some("3"))
  {
    RootSelectsNothing();
  }
}
