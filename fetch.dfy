/**
 * The boundary between the home screen and the image API: the parameter
 * object handed to `apiCall`, the replace/append flag of `fetchImages`, the
 * abstract response, and the new image list a response produces.
 */
module Fetch {
  import opened Wrappers

  /** A value stored under a key of the JavaScript parameter object. */
  datatype Value = Num(n: int) | Str(s: string)

  /** The parameter object `{ page, q?, category? }`, a dictionary of keys. */
  type Params = map<string, Value>

  /** One call `fetchImages(params, append)`: what is sent and how its hits are merged. */
  datatype Request = Request(params: Params, append: bool)

  /**
   * What `apiCall` resolves to, reduced to what the screen inspects:
   * `res.success` and `res.data.hits`, absent when `data` or `hits` is missing.
   */
  datatype Response<Img> = Response(success: bool, hits: Option<seq<Img>>)

  /** Applied attribute filters; `null` in the source is `None` in the state. */
  type Filters = map<string, string>

  /** JavaScript truthiness of the category argument: neither null nor "". */
  predicate IsTruthy(cat: Option<string>)
  {
    cat.Some? && cat.value != ""
  }

  /** The response carries a list of hits the screen accepts. */
  predicate Usable<Img>(res: Response<Img>)
  {
    res.success && res.hits.Some?
  }

  /**
   * The image list after `fetchImages` receives `res`: unchanged on failure
   * or missing hits, otherwise the hits alone (replace) or the old list
   * followed by the hits (append).
   */
  function NewImages<Img>(images: seq<Img>, res: Response<Img>, append: bool): (r: seq<Img>)
    ensures !Usable(res) ==> r == images
    ensures Usable(res) && !append ==> r == res.hits.value
    ensures Usable(res) && append ==> |r| == |images| + |res.hits.value|
    ensures Usable(res) && append ==> r[..|images|] == images && r[|images|..] == res.hits.value
  {
    if res.success && res.hits.Some? then
      if append then images + res.hits.value else res.hits.value
    else
      images
  }

  /**
   * The shape of every request the home screen issues: a replace of page 1,
   * keyed only by `page`, `q` and `category`, and never by both `q` and
   * `category`; filter keys never appear.
   */
  predicate FirstPageReplace(r: Request)
  {
    && !r.append
    && "page" in r.params && r.params["page"] == Num(1)
    && r.params.Keys <= {"page", "q", "category"}
    && !("q" in r.params && "category" in r.params)
  }
}
