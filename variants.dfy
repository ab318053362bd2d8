/**
 * Where the storefront's duplicated pages part ways: the two product
 * listings (app/products/page.tsx and pages/products.tsx) and the two
 * readings of a rejected form (app/register/page.tsx and
 * app/login/page.tsx).
 */
module Variants {
  import opened Wrappers
  import opened JsText
  import opened Json
  import opened Api
  import AppProducts
  import PagesProducts
  import AppLogin
  import AppRegister

  // ---------------------------------------------------------------------------
  // The list in the answer
  // ---------------------------------------------------------------------------

  /** A bare array, `{data: [...]}` and `{products: [...]}` give both listings the same list. */
  lemma CommonShapesAgree(items: seq<Json>)
    ensures var d := JArray(items);
            AppProducts.NormaliseProducts(d) == PagesProducts.NormaliseProducts(d) == items
    ensures var d := JObject([("data", JArray(items))]);
            AppProducts.NormaliseProducts(d) == PagesProducts.NormaliseProducts(d) == items
    ensures var d := JObject([("products", JArray(items))]);
            AppProducts.NormaliseProducts(d) == PagesProducts.NormaliseProducts(d) == items
  {
    AppProducts.ListShapesAgree(items);
    PagesProducts.ListShapesAgree(items);
  }

  /** A list nested in `{data: {data: [...]}}` is found only by the app listing. */
  lemma NestedListOnlyInApp(items: seq<Json>)
    ensures var d := JObject([("data", JObject([("data", JArray(items))]))]);
            AppProducts.NormaliseProducts(d) == items && PagesProducts.NormaliseProducts(d) == []
  {
    AppProducts.ListShapesAgree(items);
  }

  /**
   * Beside a truthy `data` that holds no list, `products` is read only by
   * the pages listing; the app listing shows nothing.
   */
  lemma ProductsBesideDataOnlyInPages(data: Json, items: seq<Json>)
    requires Truthy(Some(data)) && !data.JArray? && !IsArray(Member(Some(data), "data"))
    ensures var d := JObject([("data", data), ("products", JArray(items))]);
            AppProducts.NormaliseProducts(d) == [] && PagesProducts.NormaliseProducts(d) == items
  {
    var fields := [("data", data), ("products", JArray(items))];
    assert fields[..1] == [("data", data)];
    assert "products"[0] != "data"[0];
    assert Lookup(fields, "data") == Some(data);
    AppProducts.TruthyDataHidesProducts(data, items);
  }

  // ---------------------------------------------------------------------------
  // Image URLs
  // ---------------------------------------------------------------------------

  /** A bare file name is put at the server's root by the app listing and under `/storage/` by the pages listing. */
  lemma BareNameUrlsDiffer(p: string)
    requires PagesProducts.IsBareName(p) && NoEdgeWhitespace(p)
    ensures AppProducts.ImageUrl(Some(p)) == AppProducts.ApiBaseUrl + "/" + p
    ensures PagesProducts.ImageUrl(Some(p)) == AppProducts.ApiBaseUrl + "/storage/" + p
  {
    assert !AppProducts.IsAbsolute(p) by {
      assert "http" <= "http://" && "http" <= "https://";
    }
    AppProducts.LeadingSlashesIgnored(p, 0);
    PagesProducts.StorageSpellingsAgree(p);
  }

  /**
   * A relative file whose name starts with "http" but not with a scheme is
   * returned as it is by the pages listing, while the app listing puts it
   * under the server.
   */
  lemma HttpNamedFile(p: string)
    requires "http" <= p && !AppProducts.IsAbsolute(p) && NoEdgeWhitespace(p)
    ensures PagesProducts.ImageUrl(Some(p)) == p
    ensures AppProducts.ImageUrl(Some(p)) == AppProducts.ApiBaseUrl + "/" + p
  {
    assert p[0] == 'h';
    AppProducts.LeadingSlashesIgnored(p, 0);
  }

  // ---------------------------------------------------------------------------
  // Error texts
  // ---------------------------------------------------------------------------

  /** The app listing's error text always begins with the pages listing's: equal for the fixed texts, longer by the status otherwise. */
  lemma LoadErrorTextsAgreeUpToStatus(e: HttpError)
    ensures PagesProducts.LoadErrorMessage(e) <= AppProducts.LoadErrorMessage(e)
    ensures e.isAxiosError && StatusOf(e) !in {Some(404), Some(500), Some(401)} ==>
              PagesProducts.LoadErrorMessage(e) != AppProducts.LoadErrorMessage(e)
  {
    if e.isAxiosError && StatusOf(e) !in {Some(404), Some(500), Some(401)} {
      var m := AppProducts.LoadErrorMessage(e);
      assert AppProducts.CannotLoadPrefix == PagesProducts.CannotLoad + " (";
      assert m == PagesProducts.CannotLoad + (" (" + AppProducts.StatusText(e) + ")");
    }
  }

  /**
   * On a 422 whose first field has a non-empty first message, the login
   * page shows exactly that message while the register page shows every
   * message, beginning with it.
   */
  lemma ValidationMessagesShownDifferently(
    axios: bool, message: Option<string>, own: Option<string>,
    field: string, first: string, rest: seq<string>, later: seq<(string, seq<string>)>)
    requires first != ""
    ensures var e := HttpError(axios, Some(ErrorResponse(Some(422), message, Some([(field, [first] + rest)] + later))), own);
            && AppLogin.LoginFailureMessage(e) == first
            && first <= AppRegister.RegistrationFailureMessage(e)
  {
    var errors := [(field, [first] + rest)] + later;
    AppLogin.OnlyFirstValidationMessageShown(axios, message, own, field, first, rest, later);
    var parts := seq(|errors|, i requires 0 <= i < |errors| => Join(errors[i].1, ", "));
    assert parts[0] == Join([first] + rest, ", ");
    assert first <= parts[0];
    assert parts[0] <= Join(parts, " ");
  }
}
