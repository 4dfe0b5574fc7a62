# Home screen query state machine (wallpaper app)

This project models the home screen of a React Native wallpaper browser
(`app/home/index.js`). The screen keeps a search text, an active category,
the list of images on show, the applied filters and a module-level `page`
counter. Its event handlers update that state and start at most one
"fetch page" call each. A fetch call is a parameter object (`page`, an
optional `q`, an optional `category`) plus a replace/append flag. When the
image API answers, the response is merged into the image list.

Layout:

- `wrappers.dfy` (`Wrappers`): `Option`, used for JavaScript `null` and absent fields.
- `fetch.dfy` (`Fetch`): the parameter object as a `map<string, Value>`, the
  request and the abstract response (`success` and optional `hits`), JavaScript
  truthiness of a category, and `NewImages`, the new-list expression of `fetchImages`.
- `home_spec.dfy` (`HomeSpec`): the reference model. The state is a value
  `Screen`, and every handler is a function returning the new state and the
  list of fetch calls it made. A trace pairs each user event with the
  response its fetch receives. `Run` and `Issued` give the state after a
  trace and every request issued along it. The lemmas prove the
  properties of single handlers and of whole traces.
- `home.dfy` (`Home`): the component as a class `HomeScreen` whose fields are
  the state variables plus `page`. One method per handler updates the fields
  in the source's order. Each method states its effect outright and ties
  the new state and its fetch calls to the matching `HomeSpec` function.

The code has no id de-duplication, no query generations
and no stale-response guard. It has no "load more" path, no page increment
and no exhausted state. Filters never reach a request. Applying filters
fetches nothing.

## Model

| member | source | states |
|---|---|---|
| Fetch.NewImages | app/home/index.js:59-68 | the list is unchanged unless the response succeeded and carries hits; otherwise it is the hits alone when replacing, and the old list followed by the hits when appending |
| HomeSpec.Initial | app/home/index.js:20-30 | mounting starts with empty search, no images, no category, no filters and page 1 |
| HomeSpec.Mount | app/home/index.js:55-59 | the mount effect leaves the initial state and issues exactly one request, `{page: 1}`, as a replace |
| HomeSpec.ClearSearch | app/home/index.js:90-93 | the search text becomes empty and nothing else changes |
| HomeSpec.HandleChangeCategory | app/home/index.js:43-53 | the category becomes `cat`, search is emptied, the list is cleared, page is 1, filters stay; exactly one replace request of page 1, never with `q`, with `category` present exactly when `cat` is neither null nor "" and then equal to `cat` |
| HomeSpec.HandleSearch | app/home/index.js:71-88 | search becomes the text; text longer than 2 resets page, category and list and requests `{page: 1, q: text}`; the empty text resets them and requests `{page: 1}`; text of length 1 or 2 changes only search and requests nothing; exactly one request in the first two cases, none otherwise |
| HomeSpec.HandleResetFilters | app/home/index.js:37-41 | filters become null, nothing else changes, nothing is fetched |
| HomeSpec.HandleApplyFilters | app/home/index.js:33-36 | no state changes and nothing is fetched |
| HomeSpec.ApplyResponse | app/home/index.js:59-68 | only the image list changes, to the merge of the response under the request's append flag |
| HomeSpec.HandleIssuesAtMostOne | app/home/index.js:43-88 | every handler issues at most one request, exactly one for a category change, a search longer than 2 or an empty search, and each is a page-1 replace without filter keys |
| HomeSpec.HandleRequestsIgnoreState | app/home/index.js:43-88 | the requests a handler issues depend on the event only, not on any state, filters included |
| HomeSpec.HandleResetsQuery | app/home/index.js:43-88 | a handler that fetches leaves page 1 and an empty list before the response arrives |
| HomeSpec.HandleKeepsList | app/home/index.js:33-88 | a handler that does not fetch leaves the page counter and the list unchanged |
| HomeSpec.StepShowsResponse | app/home/index.js:43-88 | after a fetching handler and its response the list is exactly the hits (or empty on failure); after any other handler it is unchanged |
| HomeSpec.RunKeepsPageOne | app/home/index.js:20-88 | from page 1, page is 1 after every trace of events |
| HomeSpec.IssuedAreFirstPageReplaces | app/home/index.js:43-88 | every request of any trace is a replace of page 1 keyed only by `page`, `q`, `category`, never both `q` and `category` |
| HomeSpec.IssuedCount | app/home/index.js:43-88 | a trace issues exactly one request per fetching event, so no more requests than events |
| HomeSpec.IssuedIgnoresState | app/home/index.js:43-88 | the requests of a trace are the same from every starting state, so filters never contribute to a request |
| HomeSpec.ImagesAreLastQueryResult | app/home/index.js:43-88 | after any trace the list is exactly what the response to the last fetching event brought: its hits on success or empty otherwise, with no mixing of earlier results |
| HomeSpec.QuietTraceKeepsList | app/home/index.js:33-41 | a trace with no fetching event leaves the list and the page counter untouched |
| HomeSpec.SessionQueriesFirstPage | app/home/index.js:20-88 | in a session started by mounting, page is 1 and every request ever issued, the mount fetch included, is a page-1 replace |
| HomeSpec.SessionShowsMountUntilQuery | app/home/index.js:55-68 | until an event fetches, the list shows what the mount fetch brought |
| Home.HomeScreen.constructor | app/home/index.js:20-30 | the initial field values, equal to the reference initial state |
| Home.HomeScreen.OnMount | app/home/index.js:55-59 | the mount effect issues `{page: 1}` as a replace and changes nothing |
| Home.HomeScreen.ClearSearch | app/home/index.js:90-93 | only the search field changes, to "" |
| Home.HomeScreen.HandleChangeCategory | app/home/index.js:43-53 | the new fields and the single request, as the reference `HandleChangeCategory` |
| Home.HomeScreen.HandleSearch | app/home/index.js:71-88 | the new fields and the at most one request of each branch, as the reference `HandleSearch` |
| Home.HomeScreen.ResetFilters | app/home/index.js:37-41 | only filters change, to null; nothing is fetched |
| Home.HomeScreen.ApplyFilters | app/home/index.js:33-36 | nothing changes and nothing is fetched |
| Home.HomeScreen.ApplyResponse | app/home/index.js:59-68 | only the image list changes: unchanged on failure or missing hits, replaced by or extended with the hits on success |

## Left out

- Rendering, styles, safe-area padding, the image grid (which only shows the list as JSON) and the filter sheet's presentation: user-interface output with no state of the screen.
- `searchInputRef.current.clear()` and the filter sheet's `present`/`close` calls: widget side effects, taken as no-ops.
- `console.log` calls in the filter handlers: output only.
- The 400 ms `debounce` on the search input: timing from an external library; `HandleSearch` is called with the settled text.
- `apiCall` itself: it is not part of this model; its response is a parameter carrying `success` and optional `hits`, and the request half of `fetchImages` is the returned `Request`.
- Async interleaving: each handler's fetch and its response are one atomic step in traces; handlers running while a fetch is outstanding, responses out of order, and the stale `images` captured by the `fetchImages` closure and the memoised debounced callback are not modelled. An append merges into the current list instead of the captured one, which never matters because no handler appends.
- The module-level `page` variable is a field of the screen, so it is not shared across screen instances; every assignment to it stores 1 (index.js:47, 75, 82) and the mount fetch passes 1 itself, so no behaviour depends on the sharing.
- The filter setter passed to `FiltersModal` is never called: `CommonFilterRow`'s buttons have no press handler, so no operation sets filters to a value.
- Text length is counted in Unicode characters, not JavaScript UTF-16 code units; they differ only for characters outside the Basic Multilingual Plane.
