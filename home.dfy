/**
 * The `HomeScreen` component as an object: its state variables are fields
 * the handlers update step by step, and the module-level `page` counter is
 * a field as well. Every handler returns the `fetchImages` calls it makes;
 * the response to such a call is merged in later by `ApplyResponse`.
 */
module Home {
  import opened Wrappers
  import opened Fetch
  import HomeSpec

  class HomeScreen<Img> {
    var search: string
    var images: seq<Img>
    var activeCategory: Option<string>
    var filters: Option<Filters>
    /** The module-level `page` variable. */
    var page: int

    /** The fields as a value of the reference model. */
    function Snapshot(): HomeSpec.Screen<Img>
      reads this
    {
      HomeSpec.Screen(search, images, activeCategory, filters, page)
    }

    /** Mounting: the `useState` initial values, and `page` as the module initialises it. */
    constructor ()
      ensures search == "" && images == [] && activeCategory == None && filters == None
      ensures page == 1
      ensures Snapshot() == HomeSpec.Initial()
    {
      search := "";
      images := [];
      activeCategory := None;
      filters := None;
      page := 1;
    }

    /** The mount effect: `fetchImages()` with its default `{ page: 1 }` replace. */
    method OnMount() returns (reqs: seq<Request>)
      ensures reqs == [Request(map["page" := Num(1)], false)]
      ensures reqs == HomeSpec.Mount<Img>().requests
    {
      reqs := [Request(map["page" := Num(1)], false)];
    }

    /** `clearSearch`; clearing the text input widget has no state of its own. */
    method ClearSearch()
      modifies this`search
      ensures search == ""
      ensures Snapshot() == HomeSpec.ClearSearch(old(Snapshot()))
    {
      search := "";
    }

    /** `handleChangeCategory(cat)`. */
    method HandleChangeCategory(cat: Option<string>) returns (reqs: seq<Request>)
      modifies this
      ensures activeCategory == cat && search == "" && images == [] && page == 1
      ensures filters == old(filters)
      ensures |reqs| == 1 && FirstPageReplace(reqs[0]) && "q" !in reqs[0].params
      ensures "category" in reqs[0].params <==> IsTruthy(cat)
      ensures IsTruthy(cat) ==> reqs[0].params["category"] == Str(cat.value)
      ensures HomeSpec.Outcome(Snapshot(), reqs) == HomeSpec.HandleChangeCategory(old(Snapshot()), cat)
    {
      activeCategory := cat;
      ClearSearch();
      images := [];
      page := 1;
      var params: Params := map["page" := Num(page)];
      if IsTruthy(cat) {
        params := params["category" := Str(cat.value)];
      }
      reqs := [Request(params, false)];
    }

    /** `handleSearch(text)`, called with the settled text (debouncing is timing only). */
    method HandleSearch(text: string) returns (reqs: seq<Request>)
      modifies this
      ensures search == text && filters == old(filters) && |reqs| <= 1
      ensures |text| > 2 ==>
        && page == 1 && activeCategory == None && images == []
        && reqs == [Request(map["page" := Num(1), "q" := Str(text)], false)]
      ensures text == "" ==>
        && page == 1 && activeCategory == None && images == []
        && reqs == [Request(map["page" := Num(1)], false)]
      ensures 0 < |text| <= 2 ==>
        && reqs == [] && images == old(images) && page == old(page)
        && activeCategory == old(activeCategory)
      ensures HomeSpec.Outcome(Snapshot(), reqs) == HomeSpec.HandleSearch(old(Snapshot()), text)
    {
      search := text;
      reqs := [];
      if |text| > 2 {
        page := 1;
        images := [];
        reqs := reqs + [Request(map["page" := Num(page), "q" := Str(text)], false)];
        activeCategory := None;
      }
      if text == "" {
        page := 1;
        activeCategory := None;
        images := [];
        reqs := reqs + [Request(map["page" := Num(page)], false)];
      }
    }

    /** `resetFilters`: drops the applied filters; nothing is fetched. */
    method ResetFilters() returns (reqs: seq<Request>)
      modifies this`filters
      ensures filters == None && reqs == []
      ensures HomeSpec.Outcome(Snapshot(), reqs) == HomeSpec.HandleResetFilters(old(Snapshot()))
    {
      filters := None;
      reqs := [];
    }

    /** `applyFilters`: closes the filter sheet only; no state changes and nothing is fetched. */
    method ApplyFilters() returns (reqs: seq<Request>)
      ensures reqs == []
      ensures HomeSpec.HandleApplyFilters(Snapshot()) == HomeSpec.Outcome(Snapshot(), reqs)
    {
      reqs := [];
    }

    /** The continuation of `fetchImages(req.params, req.append)` once `apiCall` resolves to `res`. */
    method ApplyResponse(req: Request, res: Response<Img>)
      modifies this`images
      ensures !Usable(res) ==> images == old(images)
      ensures Usable(res) && !req.append ==> images == res.hits.value
      ensures Usable(res) && req.append ==> images == old(images) + res.hits.value
      ensures Snapshot() == HomeSpec.ApplyResponse(old(Snapshot()), req, res)
    {
      if res.success && res.hits.Some? {
        if req.append {
          images := images + res.hits.value;
        } else {
          images := res.hits.value;
        }
      }
    }
  }
}
