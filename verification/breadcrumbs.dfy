/**
 * Breadcrumbs and page titles of the dashboard (src/lib/breadcrumbs.ts).
 */
module Breadcrumbs {
  import opened Wrappers
  import opened Seqs
  import opened Text

  /** The parts of the selected business and restaurant the breadcrumbs show. */
  datatype Business = Business(id: int, name: string)
  datatype Restaurant = Restaurant(id: int, name: string)

  datatype Crumb = Crumb(caption: string, href: Option<string>)

  /** `segments[j]`, which is `undefined` outside the array. */
  function At(segs: seq<string>, j: int): Option<string>
  {
    if 0 <= j < |segs| then Some(segs[j]) else None
  }

  /** `${business?.id}`: the id in decimal, or the text "undefined" without a business. */
  function BusinessIdText(business: Option<Business>): string
  {
    if business.Some? then IntToString(business.value.id) else "undefined"
  }

  /** The crumb that segment `i` contributes, if any: one arm of the switch. */
  function CrumbAt(segs: seq<string>, i: nat, business: Option<Business>, restaurant: Option<Restaurant>): Option<Crumb>
    requires i < |segs|
  {
    var segment := segs[i];
    var prev := At(segs, i - 1);
    var next := At(segs, i + 1);
    if segment == "business" then
      // "/business/create" and "/business/[businessId]" get the same linked crumb
      if i == |segs| - 1 then Some(Crumb("Negócios", None)) else Some(Crumb("Negócios", Some("/business")))
    else if segment == "create" then
      if prev == Some("business") then Some(Crumb("Criar Negócio", None))
      else if prev == Some("restaurant") then Some(Crumb("Criar Restaurante", None))
      else None
    else if segment == "categories" then Some(Crumb("Categorias", None))
    else if segment == "ingredients" then Some(Crumb("Ingredientes", None))
    else if segment == "meals" then Some(Crumb("Refeições", None))
    else if segment == "menus" then Some(Crumb("Menus", None))
    else if segment == "restaurant" then
      if next == Some("create") then None
      else if next.Some? && next.value != "" then
        if restaurant.Some? then
          if i + 1 < |segs| - 1 then
            Some(Crumb(restaurant.value.name,
                       Some("/business/" + BusinessIdText(business) + "/restaurant/" + IntToString(restaurant.value.id))))
          else Some(Crumb(restaurant.value.name, None))
        else Some(Crumb("Restaurante", None))
      else None
    else if segment == "tables" then Some(Crumb("Mesas", None))
    else if segment == "orders" then Some(Crumb("Pedidos", None))
    else if prev == Some("business") then
      if business.Some? then
        if i < |segs| - 1 then Some(Crumb(business.value.name, Some("/business/" + IntToString(business.value.id))))
        else Some(Crumb(business.value.name, None))
      else Some(Crumb("Empresa", None))
    else None
  }

  function OptionToSeq<T>(o: Option<T>): seq<T> { if o.Some? then [o.value] else [] }

  /** The crumbs of the first `n` segments, in segment order. */
  function CrumbsUpTo(segs: seq<string>, n: nat, business: Option<Business>, restaurant: Option<Restaurant>): seq<Crumb>
    requires n <= |segs|
  {
    if n == 0 then [] else CrumbsUpTo(segs, n - 1, business, restaurant) + OptionToSeq(CrumbAt(segs, n - 1, business, restaurant))
  }

  /** The indices of the segments among the first `n` that contribute a crumb. */
  function Origins(segs: seq<string>, n: nat, business: Option<Business>, restaurant: Option<Restaurant>): seq<nat>
    requires n <= |segs|
  {
    if n == 0 then []
    else Origins(segs, n - 1, business, restaurant)
         + (if CrumbAt(segs, n - 1, business, restaurant).Some? then [n - 1] else [])
  }

  /**
   * At most one crumb per segment, in segment order: the k-th crumb is the one produced by
   * the k-th contributing segment, and those segments come in strictly increasing order.
   */
  lemma {:induction false} CrumbsFollowSegments(segs: seq<string>, n: nat, business: Option<Business>, restaurant: Option<Restaurant>)
    requires n <= |segs|
    ensures var crumbs := CrumbsUpTo(segs, n, business, restaurant);
      var origins := Origins(segs, n, business, restaurant);
      && |crumbs| == |origins| <= n
      && (forall k :: 0 <= k < |origins| ==> origins[k] < n)
      && (forall k, l :: 0 <= k < l < |origins| ==> origins[k] < origins[l])
      && (forall k :: 0 <= k < |origins| ==> CrumbAt(segs, origins[k], business, restaurant) == Some(crumbs[k]))
  {
    if n > 0 {
      CrumbsFollowSegments(segs, n - 1, business, restaurant);
    }
  }

  /** generateBreadcrumbs({ pathname, business, restaurant }). */
  method GenerateBreadcrumbs(pathname: string, business: Option<Business>, restaurant: Option<Restaurant>)
    returns (breadcrumbs: seq<Crumb>)
    ensures var segs := Segments(pathname); breadcrumbs == CrumbsUpTo(segs, |segs|, business, restaurant)
    ensures |breadcrumbs| <= |Segments(pathname)|
  {
    var segments := Segments(pathname);
    breadcrumbs := [];
    for i := 0 to |segments|
      invariant breadcrumbs == CrumbsUpTo(segments, i, business, restaurant)
    {
      var segment := segments[i];
      var prev := if i > 0 then Some(segments[i - 1]) else None;
      var next := if i + 1 < |segments| then Some(segments[i + 1]) else None;
      if segment == "business" {
        if i == |segments| - 1 {
          breadcrumbs := breadcrumbs + [Crumb("Negócios", None)];
        } else if next == Some("create") {
          breadcrumbs := breadcrumbs + [Crumb("Negócios", Some("/business"))];
        } else {
          breadcrumbs := breadcrumbs + [Crumb("Negócios", Some("/business"))];
        }
      } else if segment == "create" {
        if prev == Some("business") {
          breadcrumbs := breadcrumbs + [Crumb("Criar Negócio", None)];
        } else if prev == Some("restaurant") {
          breadcrumbs := breadcrumbs + [Crumb("Criar Restaurante", None)];
        }
      } else if segment == "categories" {
        breadcrumbs := breadcrumbs + [Crumb("Categorias", None)];
      } else if segment == "ingredients" {
        breadcrumbs := breadcrumbs + [Crumb("Ingredientes", None)];
      } else if segment == "meals" {
        breadcrumbs := breadcrumbs + [Crumb("Refeições", None)];
      } else if segment == "menus" {
        breadcrumbs := breadcrumbs + [Crumb("Menus", None)];
      } else if segment == "restaurant" {
        if next == Some("create") {
        } else if next.Some? && next.value != "" {
          if restaurant.Some? {
            if i + 1 < |segments| - 1 {
              var href := "/business/" + BusinessIdText(business) + "/restaurant/" + IntToString(restaurant.value.id);
              breadcrumbs := breadcrumbs + [Crumb(restaurant.value.name, Some(href))];
            } else {
              breadcrumbs := breadcrumbs + [Crumb(restaurant.value.name, None)];
            }
          } else {
            breadcrumbs := breadcrumbs + [Crumb("Restaurante", None)];
          }
        }
      } else if segment == "tables" {
        breadcrumbs := breadcrumbs + [Crumb("Mesas", None)];
      } else if segment == "orders" {
        breadcrumbs := breadcrumbs + [Crumb("Pedidos", None)];
      } else if prev == Some("business") {
        if business.Some? {
          if i < |segments| - 1 {
            breadcrumbs := breadcrumbs + [Crumb(business.value.name, Some("/business/" + IntToString(business.value.id)))];
          } else {
            breadcrumbs := breadcrumbs + [Crumb(business.value.name, None)];
          }
        } else {
          breadcrumbs := breadcrumbs + [Crumb("Empresa", None)];
        }
      }
    }
    CrumbsFollowSegments(segments, |segments|, business, restaurant);
  }

  // ---------------------------------------------------------------------------
  // What each kind of segment contributes
  // ---------------------------------------------------------------------------

  /** "business" always gives "Negócios", linked to /business unless it is the last segment. */
  lemma BusinessSegmentCrumb(segs: seq<string>, i: nat, business: Option<Business>, restaurant: Option<Restaurant>)
    requires i < |segs| && segs[i] == "business"
    ensures CrumbAt(segs, i, business, restaurant)
      == Some(Crumb("Negócios", if i == |segs| - 1 then None else Some("/business")))
  {
  }

  /** "create" is labelled by the segment before it, and gives nothing elsewhere. */
  lemma CreateSegmentCrumb(segs: seq<string>, i: nat, business: Option<Business>, restaurant: Option<Restaurant>)
    requires i < |segs| && segs[i] == "create"
    ensures CrumbAt(segs, i, business, restaurant) ==
      if i > 0 && segs[i - 1] == "business" then Some(Crumb("Criar Negócio", None))
      else if i > 0 && segs[i - 1] == "restaurant" then Some(Crumb("Criar Restaurante", None))
      else None
  {
  }

  /** The section segments carry a fixed label and never a link. */
  lemma SectionSegmentCrumb(segs: seq<string>, i: nat, business: Option<Business>, restaurant: Option<Restaurant>)
    requires i < |segs|
    requires segs[i] in ["categories", "ingredients", "meals", "menus", "tables", "orders"]
    ensures var c := CrumbAt(segs, i, business, restaurant);
      c.Some? && c.value.href == None
      && c.value.caption == (match segs[i]
           case "categories" => "Categorias"
           case "ingredients" => "Ingredientes"
           case "meals" => "Refeições"
           case "menus" => "Menus"
           case "tables" => "Mesas"
           case _ => "Pedidos")
  {
  }

  /** "restaurant" gives nothing when it is last or followed by "create". */
  lemma RestaurantSegmentSilent(segs: seq<string>, i: nat, business: Option<Business>, restaurant: Option<Restaurant>)
    requires i < |segs| && segs[i] == "restaurant"
    requires i == |segs| - 1 || segs[i + 1] == "create"
    ensures CrumbAt(segs, i, business, restaurant) == None
  {
  }

  /**
   * Otherwise "restaurant" gives the restaurant's name (or "Restaurante"), linked to
   * /business/{bid}/restaurant/{rid} only when segments follow the restaurant id.
   */
  lemma RestaurantSegmentCrumb(segs: seq<string>, i: nat, business: Option<Business>, restaurant: Option<Restaurant>)
    requires forall k :: 0 <= k < |segs| ==> segs[k] != ""
    requires i + 1 < |segs| && segs[i] == "restaurant" && segs[i + 1] != "create"
    ensures var c := CrumbAt(segs, i, business, restaurant);
      && c.Some?
      && c.value.caption == (if restaurant.Some? then restaurant.value.name else "Restaurante")
      && (c.value.href.Some? <==> restaurant.Some? && i + 2 < |segs|)
      && (c.value.href.Some? ==>
            c.value.href.value == "/business/" + BusinessIdText(business) + "/restaurant/" + IntToString(restaurant.value.id))
  {
  }

  /** A segment right after "business" that is no keyword names the business. */
  lemma BusinessNameCrumb(segs: seq<string>, i: nat, business: Option<Business>, restaurant: Option<Restaurant>)
    requires 0 < i < |segs| && segs[i - 1] == "business"
    requires segs[i] !in ["business", "create", "categories", "ingredients", "meals", "menus", "restaurant", "tables", "orders"]
    ensures var c := CrumbAt(segs, i, business, restaurant);
      && c.Some?
      && c.value.caption == (if business.Some? then business.value.name else "Empresa")
      && (c.value.href.Some? <==> business.Some? && i < |segs| - 1)
      && (c.value.href.Some? ==> c.value.href.value == "/business/" + IntToString(business.value.id))
  {
  }

  /** Any other unknown segment gives nothing. */
  lemma UnknownSegmentSilent(segs: seq<string>, i: nat, business: Option<Business>, restaurant: Option<Restaurant>)
    requires i < |segs| && (i == 0 || segs[i - 1] != "business")
    requires segs[i] !in ["business", "create", "categories", "ingredients", "meals", "menus", "restaurant", "tables", "orders"]
    ensures CrumbAt(segs, i, business, restaurant) == None
  {
  }

  // ---------------------------------------------------------------------------
  // getPageConfig
  // ---------------------------------------------------------------------------

  datatype PageConfig = PageConfig(title: string, description: string)

  /** PAGE_CONFIGS. */
  const PageConfigs: map<string, PageConfig> := map[
    "/business" := PageConfig("Négocios", "Gerencie suas negócios"),
    "/business/create" := PageConfig("Criar Negócio", "Crie um novo negócio para gerenciar seus restaurantes"),
    "/business/[businessId]" := PageConfig("Painel do Negócio", "Visão geral e gestão do negócio"),
    "/business/[businessId]/categories" := PageConfig("Categorias", "Gerencie as categorias dos seus produtos"),
    "/business/[businessId]/ingredients" := PageConfig("Ingredientes", "Gerencie os ingredientes dos seus pratos"),
    "/business/[businessId]/meals" := PageConfig("Refeições", "Gerencie o cardápio e pratos do restaurante"),
    "/business/[businessId]/menus" := PageConfig("Menus", "Organize seus pratos em menus temáticos"),
    "/business/[businessId]/restaurant/create" := PageConfig("Criar Restaurante", "Adicione um novo restaurante ao seu negócio"),
    "/business/[businessId]/restaurant/[restaurantId]" := PageConfig("Restaurante", "Visão geral das operações do restaurante"),
    "/business/[businessId]/restaurant/[restaurantId]/tables" := PageConfig("Mesas", "Gerencie as mesas do seu restaurante"),
    "/business/[businessId]/restaurant/[restaurantId]/orders" := PageConfig("Pedidos", "Acompanhe e gerencie os pedidos do restaurante")
  ]

  const DefaultPageConfig := PageConfig("Página", "Gerenciamento do sistema")

  /** `s.replace(/<key>\d+/g, placeholder)`: every `key` followed by digits, left to right, without overlaps. */
  function ReplaceIdRuns(s: string, key: string, placeholder: string): string
    decreases |s|
  {
    if s == [] then []
    else if key <= s && DigitRun(s[|key|..]) > 0 then
      placeholder + ReplaceIdRuns(s[|key| + DigitRun(s[|key|..])..], key, placeholder)
    else [s[0]] + ReplaceIdRuns(s[1..], key, placeholder)
  }

  /** The route pattern of a concrete path: numeric ids become `[businessId]` and `[restaurantId]`. */
  function RoutePattern(pathname: string): string
  {
    ReplaceIdRuns(ReplaceIdRuns(pathname, "/business/", "/business/[businessId]"), "/restaurant/", "/restaurant/[restaurantId]")
  }

  /** getPageConfig(pathname): exact key, then route pattern, then the default. */
  function GetPageConfig(pathname: string): (r: PageConfig)
    ensures pathname in PageConfigs ==> r == PageConfigs[pathname]
    ensures pathname !in PageConfigs && RoutePattern(pathname) in PageConfigs ==> r == PageConfigs[RoutePattern(pathname)]
    ensures pathname !in PageConfigs && RoutePattern(pathname) !in PageConfigs ==> r == DefaultPageConfig
    ensures r == DefaultPageConfig || r in PageConfigs.Values
  {
    if pathname in PageConfigs then PageConfigs[pathname]
    else
      var patternPath := RoutePattern(pathname);
      if patternPath in PageConfigs then PageConfigs[patternPath] else DefaultPageConfig
  }

  /** `key` is no prefix of a string that lacks one of its characters. */
  lemma NotPrefixWithoutChar(s: string, key: string, c: char)
    requires c in key && c !in s
    ensures !(key <= s)
  {
    var j :| 0 <= j < |key| && key[j] == c;
    if j < |s| {
      assert s[j] in s;
    }
  }

  /** A string without some character of `key` holds no match and is left alone. */
  lemma {:induction false} ReplaceWithoutKeyChar(s: string, key: string, placeholder: string, c: char)
    requires c in key && c !in s
    ensures ReplaceIdRuns(s, key, placeholder) == s
  {
    if s != [] {
      NotPrefixWithoutChar(s, key, c);
      ReplaceWithoutKeyChar(s[1..], key, placeholder, c);
    }
  }

  /** A prefix in which no match starts is copied unchanged. */
  lemma {:induction false} ReplaceSkipsPrefix(p: string, s: string, key: string, placeholder: string)
    requires forall i :: 0 <= i < |p| ==> !(key <= (p + s)[i..])
    ensures ReplaceIdRuns(p + s, key, placeholder) == p + ReplaceIdRuns(s, key, placeholder)
  {
    if p != [] {
      assert !(key <= (p + s)[0..]);
      assert (p + s)[0..] == p + s;
      assert (p + s)[1..] == p[1..] + s;
      forall i | 0 <= i < |p[1..]| ensures !(key <= (p[1..] + s)[i..]) {
        assert (p[1..] + s)[i..] == (p + s)[i + 1..];
      }
      ReplaceSkipsPrefix(p[1..], s, key, placeholder);
    }
  }

  /** A match of `key` followed by a digit run ending before `rest` is replaced once. */
  lemma ReplaceMatch(key: string, digits: string, rest: string, placeholder: string)
    requires IsDigits(digits) && (rest == [] || !IsAsciiDigit(rest[0]))
    ensures ReplaceIdRuns(key + digits + rest, key, placeholder) == placeholder + ReplaceIdRuns(rest, key, placeholder)
  {
    var s := key + digits + rest;
    assert s[|key|..] == digits + rest;
    DigitRunOf(digits, rest);
    assert s[|key| + |digits|..] == rest;
  }

  lemma {:induction false} DigitRunOf(digits: string, rest: string)
    requires forall i :: 0 <= i < |digits| ==> IsAsciiDigit(digits[i])
    requires rest == [] || !IsAsciiDigit(rest[0])
    ensures DigitRun(digits + rest) == |digits|
  {
    if digits == [] {
      assert digits + rest == rest;
    } else {
      assert (digits + rest)[1..] == digits[1..] + rest;
      DigitRunOf(digits[1..], rest);
    }
  }

  /** Digits hold no letter. */
  lemma DigitsLackLetter(d: string, c: char)
    requires IsDigits(d) && !IsAsciiDigit(c)
    ensures c !in d
  {
  }

  /** The sections below a restaurant that have an entry of their own: its root, tables and orders. */
  predicate RestaurantSection(sec: string)
  {
    sec == "" || sec == "/tables" || sec == "/orders"
  }

  /** The sections below a business that have an entry of their own and hold no id. */
  predicate BusinessSection(sec: string)
  {
    sec == "" || sec == "/categories" || sec == "/ingredients" || sec == "/meals" || sec == "/menus"
  }

  /** First pass: the business id is replaced and the rest of the path is kept. */
  lemma RestaurantBusinessPass(b: string, r: string, sec: string)
    requires IsDigits(b) && IsDigits(r) && RestaurantSection(sec)
    ensures ReplaceIdRuns("/business/" + b + ("/restaurant/" + r + sec), "/business/", "/business/[businessId]")
         == "/business/[businessId]" + ("/restaurant/" + r + sec)
  {
    var tail := "/restaurant/" + r + sec;
    ReplaceMatch("/business/", b, tail, "/business/[businessId]");
    DigitsLackLetter(r, 'i');
    assert 'i' !in "/restaurant/" && 'i' !in sec;
    ReplaceWithoutKeyChar(tail, "/business/", "/business/[businessId]", 'i');
  }

  /** No match of "/restaurant/" starts inside "/business/[businessId]". */
  lemma BusinessPatternSkipped(tail: string)
    ensures ReplaceIdRuns("/business/[businessId]" + tail, "/restaurant/", "/restaurant/[restaurantId]")
         == "/business/[businessId]" + ReplaceIdRuns(tail, "/restaurant/", "/restaurant/[restaurantId]")
  {
    var p := "/business/[businessId]";
    forall i | 0 <= i < |p| ensures !("/restaurant/" <= (p + tail)[i..]) {
      NoRestaurantKeyAt(p, tail, i);
    }
    ReplaceSkipsPrefix(p, tail, "/restaurant/", "/restaurant/[restaurantId]");
  }

  /** Second pass: the restaurant id is replaced. */
  lemma RestaurantIdPass(r: string, sec: string)
    requires IsDigits(r) && RestaurantSection(sec)
    ensures ReplaceIdRuns("/business/[businessId]" + ("/restaurant/" + r + sec), "/restaurant/", "/restaurant/[restaurantId]")
         == "/business/[businessId]" + ("/restaurant/[restaurantId]" + sec)
  {
    var key, ph := "/restaurant/", "/restaurant/[restaurantId]";
    var p, tail := "/business/[businessId]", key + r + sec;
    assert ReplaceIdRuns(p + tail, key, ph) == p + ReplaceIdRuns(tail, key, ph) by {
      BusinessPatternSkipped(tail);
    }
    assert ReplaceIdRuns(tail, key, ph) == ph + sec by {
      ReplaceMatch(key, r, sec, ph);
      assert 'u' !in sec;
      ReplaceWithoutKeyChar(sec, key, ph, 'u');
    }
  }

  lemma NoRestaurantKeyAt(p: string, tail: string, i: nat)
    requires p == "/business/[businessId]" && i < |p|
    ensures !("/restaurant/" <= (p + tail)[i..])
  {
    var t := (p + tail)[i..];
    assert t[0] == p[i];
    if i + 1 < |p| {
      assert t[1] == p[i + 1];
    }
    assert p[i] != '/' || (i + 1 < |p| && p[i + 1] != 'r');
  }

  /** A path with a digit right after "/business/" is no key of PAGE_CONFIGS. */
  lemma NumericPathNotAKey(path: string)
    requires |path| > 10 && IsAsciiDigit(path[10])
    ensures path !in PageConfigs
  {
    assert path != "/business";
    assert path != "/business/create" by { assert "/business/create"[10] == 'c'; }
    assert path != "/business/[businessId]" by { assert "/business/[businessId]"[10] == '['; }
    assert path != "/business/[businessId]/categories" by { assert "/business/[businessId]/categories"[10] == '['; }
    assert path != "/business/[businessId]/ingredients" by { assert "/business/[businessId]/ingredients"[10] == '['; }
    assert path != "/business/[businessId]/meals" by { assert "/business/[businessId]/meals"[10] == '['; }
    assert path != "/business/[businessId]/menus" by { assert "/business/[businessId]/menus"[10] == '['; }
    assert path != "/business/[businessId]/restaurant/create" by {
      assert "/business/[businessId]/restaurant/create"[10] == '[';
    }
    assert path != "/business/[businessId]/restaurant/[restaurantId]" by {
      assert "/business/[businessId]/restaurant/[restaurantId]"[10] == '[';
    }
    assert path != "/business/[businessId]/restaurant/[restaurantId]/tables" by {
      assert "/business/[businessId]/restaurant/[restaurantId]/tables"[10] == '[';
    }
    assert path != "/business/[businessId]/restaurant/[restaurantId]/orders" by {
      assert "/business/[businessId]/restaurant/[restaurantId]/orders"[10] == '[';
    }
  }

  /** The route pattern of a concrete path below a restaurant. */
  lemma RestaurantRoutePattern(b: string, r: string, sec: string)
    requires IsDigits(b) && IsDigits(r) && RestaurantSection(sec)
    ensures RoutePattern("/business/" + b + "/restaurant/" + r + sec)
         == "/business/[businessId]/restaurant/[restaurantId]" + sec
  {
    var path := "/business/" + b + "/restaurant/" + r + sec;
    FirstPass(b, r, sec, path);
    SecondPass(r, sec, "/business/[businessId]" + ("/restaurant/" + r + sec));
  }

  lemma FirstPass(b: string, r: string, sec: string, path: string)
    requires IsDigits(b) && IsDigits(r) && RestaurantSection(sec)
    requires path == "/business/" + b + "/restaurant/" + r + sec
    ensures ReplaceIdRuns(path, "/business/", "/business/[businessId]")
         == "/business/[businessId]" + ("/restaurant/" + r + sec)
  {
    SeqAssoc("/business/", b, "/restaurant/", r, sec);
    RestaurantBusinessPass(b, r, sec);
  }

  lemma SecondPass(r: string, sec: string, once: string)
    requires IsDigits(r) && RestaurantSection(sec)
    requires once == "/business/[businessId]" + ("/restaurant/" + r + sec)
    ensures ReplaceIdRuns(once, "/restaurant/", "/restaurant/[restaurantId]")
         == "/business/[businessId]/restaurant/[restaurantId]" + sec
  {
    RestaurantIdPass(r, sec);
  }

  lemma SeqAssoc(x: string, b: string, y: string, r: string, z: string)
    ensures x + b + y + r + z == x + b + (y + r + z)
  {
  }

  /**
   * The pages of a restaurant (its root, tables and orders), whatever its numeric ids, get the
   * configuration of their route pattern.
   */
  lemma RestaurantPageConfig(b: string, r: string, sec: string)
    requires IsDigits(b) && IsDigits(r) && RestaurantSection(sec)
    ensures var pattern := "/business/[businessId]/restaurant/[restaurantId]" + sec;
      && pattern in PageConfigs
      && GetPageConfig("/business/" + b + "/restaurant/" + r + sec) == PageConfigs[pattern]
  {
    var path := "/business/" + b + "/restaurant/" + r + sec;
    var pattern := "/business/[businessId]/restaurant/[restaurantId]" + sec;
    if sec == "" {
      assert pattern == "/business/[businessId]/restaurant/[restaurantId]";
    } else if sec == "/tables" {
      assert pattern == "/business/[businessId]/restaurant/[restaurantId]/tables";
    } else {
      assert pattern == "/business/[businessId]/restaurant/[restaurantId]/orders";
    }
    RestaurantRoutePattern(b, r, sec);
    assert path[10] == b[0];
    NumericPathNotAKey(path);
  }

  /** The route pattern of a concrete path below a business that names no restaurant. */
  lemma BusinessRoutePattern(b: string, sec: string)
    requires IsDigits(b) && BusinessSection(sec)
    ensures RoutePattern("/business/" + b + sec) == "/business/[businessId]" + sec
  {
    var k1, ph1 := "/business/", "/business/[businessId]";
    var k2, ph2 := "/restaurant/", "/restaurant/[restaurantId]";
    assert ReplaceIdRuns(k1 + b + sec, k1, ph1) == ph1 + sec by {
      ReplaceMatch(k1, b, sec, ph1);
      assert 'b' !in sec;
      ReplaceWithoutKeyChar(sec, k1, ph1, 'b');
    }
    assert ReplaceIdRuns(ph1 + sec, k2, ph2) == ph1 + sec by {
      BusinessPatternSkipped(sec);
      var c := if sec == "/menus" then 't' else 'u';
      assert c in k2 && c !in sec;
      ReplaceWithoutKeyChar(sec, k2, ph2, c);
    }
  }

  lemma BusinessSectionEntry(sec: string)
    requires BusinessSection(sec)
    ensures "/business/[businessId]" + sec in PageConfigs
  {
    var pattern := "/business/[businessId]" + sec;
    if sec == "" {
      assert pattern == "/business/[businessId]";
    } else if sec == "/categories" {
      assert pattern == "/business/[businessId]/categories";
    } else if sec == "/ingredients" {
      assert pattern == "/business/[businessId]/ingredients";
    } else if sec == "/meals" {
      assert pattern == "/business/[businessId]/meals";
    } else {
      assert pattern == "/business/[businessId]/menus";
    }
  }

  /**
   * The pages of a business (its root, categories, ingredients, meals and menus), whatever its
   * numeric id, get the configuration of their route pattern.
   */
  lemma BusinessPageConfig(b: string, sec: string)
    requires IsDigits(b) && BusinessSection(sec)
    ensures var pattern := "/business/[businessId]" + sec;
      && pattern in PageConfigs
      && GetPageConfig("/business/" + b + sec) == PageConfigs[pattern]
  {
    var path := "/business/" + b + sec;
    BusinessSectionEntry(sec);
    BusinessRoutePattern(b, sec);
    assert path[10] == b[0];
    NumericPathNotAKey(path);
  }
}
