/**
 * The product listing of app/products/page.tsx: how an image path becomes a
 * URL, how the list is dug out of the answer to `GET /products`, the error
 * text for a failed load, and the effect that loads the list once and
 * ignores an answer that arrives after the page is gone.
 */
module AppProducts {
  import opened Wrappers
  import opened JsText
  import opened Json
  import opened Api

  /** The server that hosts uploaded images. */
  const ApiBaseUrl := "http://127.0.0.1:8080"
  const Placeholder := "https://via.placeholder.com/300x200?text=Produit"

  // ---------------------------------------------------------------------------
  // Image URLs
  // ---------------------------------------------------------------------------

  /** Starts with `http://` or `https://`. */
  predicate IsAbsolute(p: string) {
    "http://" <= p || "https://" <= p
  }

  /** `p` with its whole leading run of '/' removed. */
  function DropLeadingSlashes(p: string): (r: string)
    ensures |r| <= |p| && r == p[|p| - |r|..]
    ensures forall k | 0 <= k < |p| - |r| :: p[k] == '/'
    ensures r == [] || r[0] != '/'
  {
    if |p| > 0 && p[0] == '/' then DropLeadingSlashes(p[1..]) else p
  }

  /**
   * The URL `getImageUrl` gives for a product's `image`: the placeholder
   * when there is none (or it is empty), an absolute URL as it is, and
   * otherwise the trimmed path, rid of its leading slashes, under the image
   * server. Every answer is an absolute URL.
   */
  function ImageUrl(imagePath: Option<string>): (url: string)
    ensures IsAbsolute(url)
    ensures imagePath.Some? && IsAbsolute(imagePath.value) ==> url == imagePath.value
  {
    if imagePath.None? || imagePath.value == "" then
      assert "https://" <= Placeholder;
      Placeholder
    else if IsAbsolute(imagePath.value) then imagePath.value
    else
      var rest := DropLeadingSlashes(Trim(imagePath.value));
      UnderServerIsAbsolute(rest);
      ApiBaseUrl + "/" + rest
  }

  /** Whatever follows the image server's root, the URL is absolute. */
  lemma UnderServerIsAbsolute(rest: string)
    ensures IsAbsolute(ApiBaseUrl + "/" + rest)
  {
    var url := ApiBaseUrl + "/" + rest;
    assert url[..7] == "http://";
  }

  /** A relative path with no whitespace at either end is put under the server once rid of its slashes. */
  lemma RelativeImageUrl(s: string)
    requires s != "" && NoEdgeWhitespace(s) && !IsAbsolute(s)
    ensures ImageUrl(Some(s)) == ApiBaseUrl + "/" + DropLeadingSlashes(s)
  {
  }

  /** `getImageUrl`, whose loop strips the slashes one at a time. */
  method GetImageUrl(imagePath: Option<string>) returns (url: string)
    ensures url == ImageUrl(imagePath)
  {
    if imagePath.None? || imagePath.value == "" {
      return Placeholder;
    }
    var path := imagePath.value;
    if "http://" <= path || "https://" <= path {
      return path;
    }
    var cleanPath := Trim(path);
    while |cleanPath| > 0 && cleanPath[0] == '/'
      invariant DropLeadingSlashes(cleanPath) == DropLeadingSlashes(Trim(path))
      decreases |cleanPath|
    {
      cleanPath := cleanPath[1..];
    }
    url := ApiBaseUrl + "/" + cleanPath;
  }

  /** A URL the function produced comes back unchanged. */
  lemma ImageUrlIdempotent(imagePath: Option<string>)
    ensures ImageUrl(Some(ImageUrl(imagePath))) == ImageUrl(imagePath)
  {
  }

  /** However many slashes a relative path starts with, it names the same image. */
  lemma {:induction false} LeadingSlashesIgnored(p: string, n: nat)
    requires p != "" && p[0] != '/' && NoEdgeWhitespace(p) && !IsAbsolute(p)
    ensures ImageUrl(Some(seq(n, _ => '/') + p)) == ImageUrl(Some(p))
    ensures ImageUrl(Some(p)) == ApiBaseUrl + "/" + p
  {
    RelativeImageUrl(p);
    assert DropLeadingSlashes(p) == p;
    if n > 0 {
      var s := seq(n, _ => '/') + p;
      assert s[|s| - 1] == p[|p| - 1];
      assert s[0] == '/';
      assert !IsAbsolute(s) by {
        assert "http://"[0] != s[0] && "https://"[0] != s[0];
      }
      RelativeImageUrl(s);
      SlashesDropped(p, n);
    } else {
      assert seq(n, _ => '/') + p == p;
    }
  }

  /** Dropping the slashes of `n` slashes before a path that starts with none gives the path. */
  lemma {:induction false} SlashesDropped(p: string, n: nat)
    requires p == [] || p[0] != '/'
    ensures DropLeadingSlashes(seq(n, _ => '/') + p) == p
  {
    if n == 0 {
      assert seq(n, _ => '/') + p == p;
    } else {
      var s := seq(n, _ => '/') + p;
      assert s[1..] == seq(n - 1, _ => '/') + p;
      SlashesDropped(p, n - 1);
    }
  }

  /** A lone slash is not empty: it gives the bare image server, not the placeholder. */
  lemma LoneSlashGivesServerRoot()
    ensures ImageUrl(Some("/")) == ApiBaseUrl + "/"
    ensures ImageUrl(Some("")) == Placeholder
  {
    assert NoEdgeWhitespace("/");
  }

  /**
   * An absolute URL typed with a leading space is not recognised as one: it
   * is trimmed and then put under the image server like a relative path.
   */
  lemma SpaceBeforeSchemeMakesItRelative(u: string)
    requires IsAbsolute(u) && NoEdgeWhitespace(u)
    ensures ImageUrl(Some(" " + u)) == ApiBaseUrl + "/" + u
  {
    var s := " " + u;
    assert s[1..] == u;
    assert TrimStart(s) == u;
    assert !IsAbsolute(s) by {
      assert s[0] == ' ';
    }
    assert u[0] == 'h';
  }

  // ---------------------------------------------------------------------------
  // The list in the answer
  // ---------------------------------------------------------------------------

  /**
   * The list `fetchProducts` keeps from `res.data`: a bare array; else, when
   * `data` is truthy, `data` itself if it is an array or `data.data` if that
   * is, and nothing otherwise; else `products` if it is an array; else
   * nothing.
   */
  function NormaliseProducts(d: Json): (r: seq<Json>)
    ensures d.JArray? ==> r == d.items
    ensures !d.JArray? && Truthy(Member(Some(d), "data")) ==>
              r == (if IsArray(Member(Some(d), "data")) then Elements(Member(Some(d), "data"))
                    else Elements(Member(Member(Some(d), "data"), "data")))
    ensures !d.JArray? && !Truthy(Member(Some(d), "data")) ==> r == Elements(Member(Some(d), "products"))
    ensures r != [] ==>
              || r == Elements(Some(d))
              || r == Elements(Member(Some(d), "data"))
              || r == Elements(Member(Member(Some(d), "data"), "data"))
              || r == Elements(Member(Some(d), "products"))
  {
    var data := Member(Some(d), "data");
    var products := Member(Some(d), "products");
    if d.JArray? then d.items
    else if Truthy(data) then
      if IsArray(data) then Elements(data)
      else if Truthy(Member(data, "data")) && IsArray(Member(data, "data")) then Elements(Member(data, "data"))
      else []
    else if Truthy(products) && IsArray(products) then Elements(products)
    else []
  }

  /** The four shapes the page understands all give the same list. */
  lemma ListShapesAgree(items: seq<Json>)
    ensures NormaliseProducts(JArray(items)) == items
    ensures NormaliseProducts(JObject([("data", JArray(items))])) == items
    ensures NormaliseProducts(JObject([("data", JObject([("data", JArray(items))]))])) == items
    ensures NormaliseProducts(JObject([("products", JArray(items))])) == items
  {
  }

  /** A truthy `data` that holds no list hides `products`: the page shows none. */
  lemma TruthyDataHidesProducts(data: Json, items: seq<Json>)
    requires Truthy(Some(data)) && !data.JArray? && !IsArray(Member(Some(data), "data"))
    ensures NormaliseProducts(JObject([("data", data), ("products", JArray(items))])) == []
  {
    var fields := [("data", data), ("products", JArray(items))];
    assert fields[..1] == [("data", data)];
    assert "products"[0] != "data"[0];
    assert Lookup(fields, "data") == Some(data);
  }

  // ---------------------------------------------------------------------------
  // The error text
  // ---------------------------------------------------------------------------

  const NotFound := "Aucun produit trouvé"
  const ServerError := "Erreur serveur, réessayez plus tard"
  const MustLogIn := "Vous devez être connecté"
  const Unexpected := "Une erreur inattendue s'est produite"
  const CannotLoadPrefix := "Impossible de charger les produits ("
  const NetworkError := "Erreur réseau"

  /** `${err.response?.status || 'Erreur réseau'}`: a non-zero status rendered, else the network text. */
  function StatusText(e: HttpError): (t: string)
    ensures StatusOf(e).Some? && StatusOf(e).value != 0 ==> ParseInt(t) == StatusOf(e)
    ensures StatusOf(e).None? || StatusOf(e) == Some(0) ==> t == NetworkError
  {
    var status := StatusOf(e);
    if status.Some? && status.value != 0 then
      IntToStringRoundTrip(status.value);
      IntToString(status.value)
    else NetworkError
  }

  /**
   * The text shown when the load fails: for an axios error, a fixed text
   * for 404, 500 and 401, else the generic text with the status (or the
   * network text) in parentheses; for anything else the unexpected-error
   * text. Never empty.
   */
  function LoadErrorMessage(e: HttpError): (m: string)
    ensures m != ""
    ensures !e.isAxiosError ==> m == Unexpected
    ensures e.isAxiosError && StatusOf(e) == Some(404) ==> m == NotFound
    ensures e.isAxiosError && StatusOf(e) == Some(500) ==> m == ServerError
    ensures e.isAxiosError && StatusOf(e) == Some(401) ==> m == MustLogIn
    ensures e.isAxiosError && StatusOf(e) !in {Some(404), Some(500), Some(401)} ==>
              CannotLoadPrefix <= m && m[|m| - 1] == ')'
  {
    if !e.isAxiosError then Unexpected
    else
      var status := StatusOf(e);
      if status == Some(404) then NotFound
      else if status == Some(500) then ServerError
      else if status == Some(401) then MustLogIn
      else CannotLoadPrefix + StatusText(e) + ")"
  }

  /** The status in the generic text reads back as the status the server sent. */
  lemma StatusReadBack(e: HttpError)
    requires e.isAxiosError && StatusOf(e).Some?
    requires StatusOf(e).value !in {0, 404, 500, 401}
    ensures var m := LoadErrorMessage(e);
            ParseInt(m[|CannotLoadPrefix|..|m| - 1]) == StatusOf(e)
  {
    var m := LoadErrorMessage(e);
    assert m[|CannotLoadPrefix|..|m| - 1] == IntToString(StatusOf(e).value);
    IntToStringRoundTrip(StatusOf(e).value);
  }

  /** No response, or a zero status, is reported as a network error. */
  lemma NoStatusIsNetworkError(message: Option<string>)
    ensures LoadErrorMessage(HttpError(true, None, message)) == CannotLoadPrefix + NetworkError + ")"
    ensures LoadErrorMessage(HttpError(true, Some(ErrorResponse(Some(0), None, None)), message))
            == CannotLoadPrefix + NetworkError + ")"
  {
  }

  // ---------------------------------------------------------------------------
  // The page
  // ---------------------------------------------------------------------------

  /**
   * One run of the page's effect: the `ignore` flag its closure declares.
   * Each run starts with its own flag down, and only that run's cleanup
   * raises it.
   */
  class EffectRun {
    var ignore: bool

    constructor ()
      ensures !ignore
    {
      ignore := false;
    }
  }

  /** The `ProductsPage` component's state. */
  class ProductsPage {
    var products: seq<Json>
    var isLoading: bool
    var error: Option<string>

    /** The first render: no products, loading, no error. */
    constructor ()
      ensures products == [] && isLoading && error == None
    {
      products, isLoading, error := [], true, None;
    }

    /** The effect starts a new run with its own flag: loading raised, the error cleared, `GET /products` sent. */
    method Mount(api: ApiClient) returns (run: EffectRun, sent: Request)
      modifies this
      ensures fresh(run) && !run.ignore
      ensures isLoading && error == None && products == old(products)
      ensures sent == Send(api.State(), ProductsGetAll, [], None)
      ensures sent.route == Route(Get, "/products")
    {
      run := new EffectRun();
      isLoading := true;
      error := None;
      sent := Send(api.State(), ProductsGetAll, [], None);
    }

    /** The cleanup of one run: any answer still to come for that run is ignored. */
    method Unmount(run: EffectRun)
      modifies run
      ensures run.ignore
    {
      run.ignore := true;
    }

    /**
     * The answer of one run arrives. It passes the client's interceptor
     * whatever happens to the page. Once that run is cleaned up nothing of
     * the page changes; otherwise a success replaces the list, a failure
     * sets the error text, and loading is over.
     */
    method Settle(api: ApiClient, run: EffectRun, server: Outcome<Json>)
      modifies this, api
      ensures api.State() == AfterResponse(old(api.State()), server)
      ensures Coherent(old(api.State())) ==> Coherent(api.State())
      ensures run.ignore ==>
                products == old(products) && isLoading == old(isLoading) && error == old(error)
      ensures !run.ignore ==>
                && !isLoading
                && (server.Ok? ==> products == NormaliseProducts(server.body) && error == old(error))
                && (server.Fail? ==> products == old(products) && error == Some(LoadErrorMessage(server.error)))
    {
      var answer := api.Dispatch(server);
      if !run.ignore {
        match answer {
          case Ok(body) => products := NormaliseProducts(body);
          case Fail(e) => error := Some(LoadErrorMessage(e));
        }
      }
      if !run.ignore {
        isLoading := false;
      }
    }
  }

  /**
   * The development remount of a strict-mode page: the effect runs, is
   * cleaned up and runs again. The first run's answer, even when it comes
   * last but one, leaves the page alone; the page ends with the second
   * run's answer.
   */
  method RemountIgnoresFirstRun(api: ApiClient, first: Outcome<Json>, second: Json) returns (page: ProductsPage)
    modifies api
    ensures fresh(page)
    ensures page.products == NormaliseProducts(second) && !page.isLoading && page.error == None
    ensures api.State() == AfterResponse(AfterResponse(old(api.State()), first), Ok(second))
  {
    page := new ProductsPage();
    var run1, sent1 := page.Mount(api);
    page.Unmount(run1);
    var run2, sent2 := page.Mount(api);
    page.Settle(api, run1, first);
    assert page.products == [] && page.isLoading && page.error == None;
    page.Settle(api, run2, Ok(second));
  }
}
