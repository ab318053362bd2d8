/**
 * The older product listing of pages/products.tsx: the same page as
 * app/products/page.tsx with its own image-URL rule (images live under
 * `/storage/`), a shallower search for the list, and a generic error text.
 */
module PagesProducts {
  import opened Wrappers
  import opened JsText
  import opened Json
  import opened Api
  import AppProducts

  /** Where relative image paths are put. */
  const StorageRoot := AppProducts.ApiBaseUrl + "/storage/"

  // ---------------------------------------------------------------------------
  // Image URLs
  // ---------------------------------------------------------------------------

  /** One leading `/storage/` or `storage/` removed, if there is one. */
  function DropStoragePrefix(p: string): (r: string)
    ensures "/storage/" <= p ==> r == p[9..]
    ensures !("/storage/" <= p) && "storage/" <= p ==> r == p[8..]
    ensures |r| <= |p| && r == p[|p| - |r|..]
  {
    if "/storage/" <= p then p[9..]
    else if "storage/" <= p then p[8..]
    else p
  }

  /** One leading '/' removed, if there is one. */
  function DropOneSlash(p: string): (r: string)
    ensures "/" <= p ==> p == "/" + r
    ensures !("/" <= p) ==> r == p
  {
    if "/" <= p then p[1..] else p
  }

  /**
   * `getImageUrl`: the placeholder when there is no path (or it is empty),
   * anything that starts with "http" as it is, and otherwise the trimmed
   * path, rid of one storage prefix and then of one slash, under the
   * storage root. Every answer starts with "http".
   */
  function ImageUrl(imagePath: Option<string>): (url: string)
    ensures "http" <= url
    ensures imagePath.Some? && "http" <= imagePath.value ==> url == imagePath.value
    ensures imagePath.Some? && imagePath.value != "" && !("http" <= imagePath.value) ==> StorageRoot <= url
  {
    if imagePath.None? || imagePath.value == "" then
      assert "https://" <= AppProducts.Placeholder;
      assert "http" <= "https://";
      AppProducts.Placeholder
    else if "http" <= imagePath.value then imagePath.value
    else
      var url := StorageRoot + DropOneSlash(DropStoragePrefix(Trim(imagePath.value)));
      assert url[..|StorageRoot|] == StorageRoot;
      url
  }

  /** A URL the function produced comes back unchanged. */
  lemma ImageUrlIdempotent(imagePath: Option<string>)
    ensures ImageUrl(Some(ImageUrl(imagePath))) == ImageUrl(imagePath)
  {
  }

  /** The string begins with neither "/", "storage/" nor "http". */
  predicate IsBareName(p: string) {
    p != "" && p[0] != '/' && !("storage/" <= p) && !("http" <= p)
  }

  /** A relative path with no whitespace at either end goes through the two strip steps as it is. */
  lemma RelativeUrl(s: string)
    requires s != "" && NoEdgeWhitespace(s) && !("http" <= s)
    ensures ImageUrl(Some(s)) == StorageRoot + DropOneSlash(DropStoragePrefix(s))
  {
  }

  /** `a.png`, `/a.png`, `storage/a.png` and `/storage/a.png` name the same image. */
  lemma StorageSpellingsAgree(p: string)
    requires IsBareName(p) && NoEdgeWhitespace(p)
    ensures ImageUrl(Some(p)) == StorageRoot + p
    ensures ImageUrl(Some("/" + p)) == StorageRoot + p
    ensures ImageUrl(Some("storage/" + p)) == StorageRoot + p
    ensures ImageUrl(Some("/storage/" + p)) == StorageRoot + p
  {
    SpellingBare(p);
    SpellingSlash(p);
    SpellingStorage(p);
    SpellingSlashStorage(p);
  }

  lemma SpellingBare(p: string)
    requires IsBareName(p) && NoEdgeWhitespace(p)
    ensures ImageUrl(Some(p)) == StorageRoot + p
  {
    assert !("/storage/" <= p) by { assert p[0] != '/'; }
    assert !("/" <= p) by { assert p[0] != '/'; }
    RelativeUrl(p);
  }

  lemma SpellingSlash(p: string)
    requires IsBareName(p) && NoEdgeWhitespace(p)
    ensures ImageUrl(Some("/" + p)) == StorageRoot + p
  {
    var a := "/" + p;
    assert a[|a| - 1] == p[|p| - 1];
    assert !("http" <= a) by { assert a[0] == '/'; }
    assert !("/storage/" <= a);
    assert !("storage/" <= a) by { assert a[0] == '/'; }
    assert "/" <= a && a[1..] == p;
    RelativeUrl(a);
  }

  lemma SpellingStorage(p: string)
    requires IsBareName(p) && NoEdgeWhitespace(p)
    ensures ImageUrl(Some("storage/" + p)) == StorageRoot + p
  {
    var b := "storage/" + p;
    assert b[|b| - 1] == p[|p| - 1];
    assert !("http" <= b) by { assert b[0] == 's'; }
    assert !("/storage/" <= b) by { assert b[0] == 's'; }
    assert "storage/" <= b && b[8..] == p;
    assert !("/" <= p) by { assert p[0] != '/'; }
    RelativeUrl(b);
  }

  lemma SpellingSlashStorage(p: string)
    requires IsBareName(p) && NoEdgeWhitespace(p)
    ensures ImageUrl(Some("/storage/" + p)) == StorageRoot + p
  {
    var c := "/storage/" + p;
    assert c[|c| - 1] == p[|p| - 1];
    assert !("http" <= c) by { assert c[0] == '/'; }
    assert "/storage/" <= c && c[9..] == p;
    assert !("/" <= p) by { assert p[0] != '/'; }
    RelativeUrl(c);
  }

  /** Only one slash is removed: a path starting with two keeps one, and the URL gets a double slash. */
  lemma OnlyOneSlashDropped(p: string)
    requires NoEdgeWhitespace(p) && !("/" <= p)
    ensures ImageUrl(Some("//" + p)) == StorageRoot + ("/" + p)
  {
    var s := "//" + p;
    if p == [] {
      assert s == "//";
    } else {
      assert s[|s| - 1] == p[|p| - 1];
    }
    assert NoEdgeWhitespace(s);
    assert !("http" <= s) by { assert s[0] == '/'; }
    assert !("/storage/" <= s) by { assert s[1] == '/'; }
    assert !("storage/" <= s) by { assert s[0] == '/'; }
    assert DropStoragePrefix(s) == s;
    assert "/" <= s && s[1..] == "/" + p;
    assert DropOneSlash(s) == "/" + p;
    RelativeUrl(s);
  }

  // ---------------------------------------------------------------------------
  // The list in the answer
  // ---------------------------------------------------------------------------

  /**
   * The list `fetchProducts` keeps from `res.data`: a bare array; else
   * `data` if it is an array; else `products` if it is an array; else
   * nothing.
   */
  function NormaliseProducts(d: Json): (r: seq<Json>)
    ensures d.JArray? ==> r == d.items
    ensures !d.JArray? && IsArray(Member(Some(d), "data")) ==> r == Elements(Member(Some(d), "data"))
    ensures !d.JArray? && !IsArray(Member(Some(d), "data")) ==> r == Elements(Member(Some(d), "products"))
    ensures r != [] ==>
              || r == Elements(Some(d))
              || r == Elements(Member(Some(d), "data"))
              || r == Elements(Member(Some(d), "products"))
  {
    var data := Member(Some(d), "data");
    var products := Member(Some(d), "products");
    if d.JArray? then d.items
    else if Truthy(Some(d)) && IsArray(data) then Elements(data)
    else if Truthy(Some(d)) && Truthy(products) && IsArray(products) then Elements(products)
    else []
  }

  /** The three shapes the page understands all give the same list. */
  lemma ListShapesAgree(items: seq<Json>)
    ensures NormaliseProducts(JArray(items)) == items
    ensures NormaliseProducts(JObject([("data", JArray(items))])) == items
    ensures NormaliseProducts(JObject([("products", JArray(items))])) == items
  {
  }

  // ---------------------------------------------------------------------------
  // The error text
  // ---------------------------------------------------------------------------

  const CannotLoad := "Impossible de charger les produits"

  /**
   * The text shown when the load fails: for an axios error, a fixed text
   * for 404, 500 and 401 and the generic text otherwise; for anything else
   * the unexpected-error text.
   */
  function LoadErrorMessage(e: HttpError): (m: string)
    ensures m in {AppProducts.NotFound, AppProducts.ServerError, AppProducts.MustLogIn, CannotLoad, AppProducts.Unexpected}
    ensures !e.isAxiosError <==> m == AppProducts.Unexpected
    ensures e.isAxiosError && StatusOf(e) == Some(404) ==> m == AppProducts.NotFound
    ensures e.isAxiosError && StatusOf(e) == Some(500) ==> m == AppProducts.ServerError
    ensures e.isAxiosError && StatusOf(e) == Some(401) ==> m == AppProducts.MustLogIn
    ensures e.isAxiosError && StatusOf(e) !in {Some(404), Some(500), Some(401)} ==> m == CannotLoad
  {
    if !e.isAxiosError then AppProducts.Unexpected
    else
      var status := StatusOf(e);
      if status == Some(404) then AppProducts.NotFound
      else if status == Some(500) then AppProducts.ServerError
      else if status == Some(401) then AppProducts.MustLogIn
      else CannotLoad
  }

  // ---------------------------------------------------------------------------
  // The page
  // ---------------------------------------------------------------------------

  /** The `Products` component's state; each run of its effect has its own `AppProducts.EffectRun`. */
  class ProductsPage {
    var products: seq<Json>
    var isLoading: bool
    var error: Option<string>

    /** The first render: no products, loading, no error. */
    constructor ()
      ensures products == [] && isLoading && error == None
    {
      products, isLoading, error := [], true, None;
    }

    /** The effect starts a new run with its own flag: loading raised, the error cleared, `GET /products` sent. */
    method Mount(api: ApiClient) returns (run: AppProducts.EffectRun, sent: Request)
      modifies this
      ensures fresh(run) && !run.ignore
      ensures isLoading && error == None && products == old(products)
      ensures sent == Send(api.State(), ProductsGetAll, [], None)
      ensures sent.route == Route(Get, "/products")
    {
      run := new AppProducts.EffectRun();
      isLoading := true;
      error := None;
      sent := Send(api.State(), ProductsGetAll, [], None);
    }

    /** The cleanup of one run: any answer still to come for that run is ignored. */
    method Unmount(run: AppProducts.EffectRun)
      modifies run
      ensures run.ignore
    {
      run.ignore := true;
    }

    /**
     * The answer of one run arrives. It passes the client's interceptor
     * whatever happens to the page. Once that run is cleaned up nothing of
     * the page changes; otherwise a success replaces the list, a failure
     * sets the error text, and loading is over.
     */
    method Settle(api: ApiClient, run: AppProducts.EffectRun, server: Outcome<Json>)
      modifies this, api
      ensures api.State() == AfterResponse(old(api.State()), server)
      ensures Coherent(old(api.State())) ==> Coherent(api.State())
      ensures run.ignore ==>
                products == old(products) && isLoading == old(isLoading) && error == old(error)
      ensures !run.ignore ==>
                && !isLoading
                && (server.Ok? ==> products == NormaliseProducts(server.body) && error == old(error))
                && (server.Fail? ==> products == old(products) && error == Some(LoadErrorMessage(server.error)))
    {
      var answer := api.Dispatch(server);
      if !run.ignore {
        match answer {
          case Ok(body) => products := NormaliseProducts(body);
          case Fail(e) => error := Some(LoadErrorMessage(e));
        }
      }
      if !run.ignore {
        isLoading := false;
      }
    }
  }
}
