# Network request capture extension: a Dafny model

This project models the two scripts of a browser extension that captures the page's
network requests and lists them in a popup.

The **background page** (`background.js`) has a capture switch. While capture is on, three
`webRequest` listeners are registered:
- `onBeforeRequest` sends an *initiation fragment*: id, url, method, timestamp, type and
  request parameters. The parameters come from form data, a raw body or the URL's query string.
- `onBeforeSendHeaders` sends the flattened request headers.
- `onCompleted` sends the status and the flattened response headers.

Each fragment is published to the popup under the request's id. The three fragments share
that id only when the browser supplies a truthy `requestId`. Otherwise each listener calls
`generateId()` with its own clock reading and random suffix, and the popup keeps the
fragments of such a request as separate records.

The **popup page** (`popup.js`) keeps the capture store. This is the list of request
records, newest first. Each incoming fragment is merged into the store by id, null entries
are dropped, and the store is cut to the newest 200. The popup also shows the store:
- a filtered list of rows, filtered by url substring and by HTTP method;
- a selection;
- a detail panel with four tabs (overview, headers, params, response).

The Dafny modules follow that structure:

- `JsValue`: the JavaScript values the code handles and the operators it applies to them.
  These are truthiness, `||`, `===`, property access, `String(...)`, `toLowerCase` and `includes`.
- `RequestParams`: header flattening and `extractRequestParams`. Each is specified as a
  function, and a method with the source's loop is proved to compute it.
- `CaptureEngine`: the listener list that `startCapture` and `stopCapture` manipulate, the
  three fragments, and the class `Engine` holding the background page's state.
- `CaptureStore`: the popup's merge of a fragment into the store (`Merge`) and its
  properties: positions, fields, unique ids, the 200 cap.
- `Projection`: what the popup derives from the store without changing it. This covers the row
  filter, the lookup of the selected record and the classification behind each detail tab.
- `Popup`: the class `View` holding the popup page's state, with one method per event handler.

Library calls are parameters of the model: `TextDecoder`, `JSON.parse` and `new URL(...).searchParams`
are the fields of `RequestParams.Library`. So are `Date.now()` and the random suffix of
`generateId`. Writes to `chrome.storage.local` are recorded in ghost fields (`persisted`).
Messages are recorded as sent (`Engine.outbox`, `View.sent`) or taken as parameters (`View.OnMessage`).

Two behaviours of the popup's selection, as the code has them:

- Clicking a row selects it (popup.js:147-156). Clicking the selected row again does not
  deselect it, and clicking a row does not reset the active tab.
  `Popup.View.RowClicked` sets the selection unconditionally and leaves the active tab as it
  was, while the panel itself shows the overview.
- A tab click (popup.js:76-86) always makes the tab active, whether or not a record is
  selected. It redraws the panel only when the selected record is found.

## Model

| member | source | states |
|---|---|---|
| JsValue.SafeToString | popup.js:97-102 | null and undefined become '', a string is itself, a number gives a non-empty string |
| JsValue.ContainsEmpty | popup.js:119 | every url contains the empty filter text |
| RequestParams.FlattenHeaders | background.js:96-103 | the `forEach` loop builds exactly the header object `FlattenedHeaders` specifies, by a loop invariant over the prefix processed |
| RequestParams.HeaderMapKeys | background.js:98-102 | a name is a key of the header object iff some entry with a truthy name carries it |
| RequestParams.HeaderMapLastWins | background.js:100 | a repeated header name keeps the value of its last entry, `''` when that value is falsy |
| RequestParams.NonArrayHeadersAreEmpty | background.js:97 | a header field that is not an array yields an empty object |
| RequestParams.BuildQueryMap | background.js:177-180 | the search-parameter loop builds exactly `QueryMap` of the pairs |
| RequestParams.QueryMapKeys | background.js:178-180 | the keys of the query object are exactly the keys of the search parameters |
| RequestParams.QueryMapLastWins | background.js:179 | a repeated search parameter keeps its last value |
| RequestParams.ExtractRequestParams | background.js:140-189 | the early-return method computes exactly the decision `Params` specifies |
| RequestParams.NoDetailsNoParams | background.js:141 | absent details give `null` |
| RequestParams.FormDataFirst | background.js:143-147 | object-valued `formData` is returned as is, whatever the raw body and the URL |
| RequestParams.RawBytesFallback | background.js:150-170 | raw bytes give the parsed JSON, else the decoded text, else the binary-data placeholder when decoding fails |
| RequestParams.NoBodyUsesUrl | background.js:143-188 | without form data or a first raw chunk with bytes, the query-string branch decides |
| RequestParams.QueryParamsNullIff | background.js:174-188 | the URL branch gives `null` iff the url is falsy, unparseable or has no parameters; otherwise an object whose keys are the parameters' keys |
| CaptureEngine.RemoveListener | background.js:64-66 | `removeListener` removes that listener and keeps every other one; a list without repeats keeps none |
| CaptureEngine.StopClearsAll | background.js:63-69 | `stopCapture` on a list without repeats leaves no listener registered |
| CaptureEngine.StartRegistersEachOnce | background.js:36-60 | `startCapture` leaves the three listeners registered exactly once, in order |
| CaptureEngine.RepeatedStartIsIdempotent | background.js:36-38 | any number of consecutive starts still registers each listener exactly once |
| CaptureEngine.StopAfterStartsClears | background.js:63-69 | stopping after any number of starts leaves no listener |
| CaptureEngine.GenerateId | background.js:192-194 | a generated id is longer than 4 characters and starts with `req_` |
| CaptureEngine.ResolveId | background.js:79 | the fragment id is always truthy: the browser's `requestId` when it is truthy, else a `req_` id |
| CaptureEngine.InitiationFragment | background.js:78-85 | the initiation fragment has exactly its six keys; its id is the resolved id (the browser's `requestId` when truthy); a truthy url, method, type and timeStamp are carried over; url, method and type are always truthy; the params are the extracted ones |
| CaptureEngine.HeadersFragment | background.js:105-108 | the headers fragment has exactly `id` and `requestHeaders`; its id is the resolved id, the same as the initiation fragment's when `requestId` is truthy |
| CaptureEngine.CompletionFragment | background.js:128-133 | the completion fragment has exactly its four keys; its id is the resolved id; a truthy statusCode and timeStamp are carried over; the response headers are the flattened ones |
| CaptureEngine.SameRequestIdSameRecord | background.js:79-129 | with a truthy `requestId`, the initiation, headers and completion fragments all carry that id, whatever the clock and random suffix |
| CaptureEngine.GeneratedIdsDiffer | background.js:192-194 | without a `requestId`, two listeners drawing different random suffixes produce different ids, even at the same clock reading |
| CaptureEngine.Fallbacks | background.js:80-83 | missing url, method, type, timestamp and status fall back to '未知URL', 'GET', 'other', `Date.now()` and 0 |
| CaptureEngine.Engine.Load | background.js:6-13 | the restored store is the stored one or `[]`; when capture was on, the three listeners are registered |
| CaptureEngine.Engine.StartCapture | background.js:36-60 | the listener list becomes `Started` of the old one |
| CaptureEngine.Engine.StopCapture | background.js:63-69 | the listener list becomes `Stopped` of the old one |
| CaptureEngine.Engine.HandleMessage | background.js:16-33 | start registers each listener once, stop registers none, clear empties the store in memory and in storage, any other action changes nothing; registered listeners match the capture flag |
| CaptureEngine.Engine.SendToPopup | background.js:197-210 | a record is published iff it has a truthy id |
| CaptureEngine.Engine.OnBeforeRequest | background.js:72-89 | while capturing and given details, the initiation fragment with the extracted params is published; otherwise nothing |
| CaptureEngine.Engine.OnBeforeSendHeaders | background.js:92-112 | while capturing and given details, the headers fragment with the flattened request headers is published; otherwise nothing |
| CaptureEngine.Engine.OnCompleted | background.js:115-137 | while capturing and given details, the completion fragment with the flattened response headers is published; otherwise nothing |
| CaptureStore.AcceptedIsRecord | popup.js:305-308 | a request that passes the guard is an object with a truthy id |
| CaptureStore.FindIndex | popup.js:311 | the index of the first non-null entry whose id is `===` the given id, or none when no entry has it |
| CaptureStore.Overlay | popup.js:315-318 | the spread merge has the union of the keys, incoming values win, other existing values are kept |
| CaptureStore.Compact | popup.js:325 | no null entries remain, nothing new appears, and a store without nulls is unchanged |
| CaptureStore.CompactKeepsRecords | popup.js:325 | every record is kept as often as it occurs, and the kept entries are the store's in its order |
| CaptureStore.Merge | popup.js:311-330 | the merged store has no nulls, at most 200 entries, and is the newest prefix of the compacted upsert |
| CaptureStore.MergeExisting | popup.js:313-318 | a fragment with a stored id replaces that entry by the overlay at the same index; every other entry and the length are kept |
| CaptureStore.MergeNew | popup.js:319-330 | a fragment with a new id goes to index 0 and shifts the rest back in order; a full store evicts only its oldest entry |
| CaptureStore.MergeNewAnyStore | popup.js:319-330 | on any store, nulls included, a fragment with a new id is placed before the store's records in their order, then the newest 200 are kept |
| CaptureStore.MergeIsFieldWise | popup.js:315-318 | a merge keeps every stored field the fragment does not carry |
| CaptureStore.CompactKeepsUniqueIds | popup.js:325 | dropping null entries keeps ids unique |
| CaptureStore.UpsertKeepsUniqueIds | popup.js:311-322 | overlaying or prepending by id keeps ids unique |
| CaptureStore.MergeKeepsUniqueIds | popup.js:311-330 | unique ids before a merge imply unique ids after it |
| CaptureStore.FragmentsMergeIntoOne | popup.js:311-330 | on any store, nulls and a full store included, a first fragment with a new id followed by a fragment with the same id leave one overlaid record in front of the store's records, then the newest 200 are kept |
| Projection.Filter | popup.js:110-123 | at most as many rows as records, each row having a truthy url that contains the filter text (case-folded) and the chosen method |
| Projection.FilterCounts | popup.js:110-123 | an entry that passes the url and method tests is listed exactly as often as it occurs in the store; any other entry is not listed |
| Projection.FilterIsSubsequence | popup.js:110 | the rows are the store's entries in the store's order, some left out |
| Projection.FilterMembers | popup.js:110-123 | an entry is listed iff it is in the store and passes the url and method tests |
| Projection.FilterIdempotent | popup.js:110-123 | filtering the rows again with the same criteria changes nothing |
| Projection.EmptyFiltersShowEveryUrl | popup.js:112-122 | with both filters empty, exactly the records with a truthy url are listed |
| Projection.FindRequest | popup.js:341 | the null-guarded `find` finds a record iff some entry carries the id, and the record found is the first entry that carries it |
| Projection.FindRequestAsWritten | popup.js:82 | the unguarded `find` throws iff a null entry comes before the first entry carrying the id; when it does not throw it returns what the guarded lookup returns |
| Projection.FindRequestAsWrittenAgrees | popup.js:152 | on a store without nulls the unguarded `find` returns what the guarded one does |
| Projection.FindRequestAsWrittenThrows | popup.js:82 | a null entry before the selected record makes the unguarded `find` throw where the guarded one finds it |
| Projection.ShowDetailContent | popup.js:167-186 | each tab shows its own kind of content, and only that tab does; the content is that tab's render function applied to the record |
| Projection.OverviewCounts | popup.js:197-211 | each overview count is 'N/A' iff its field is not a truthy object, else that object's key count |
| Projection.ParamsClassification | popup.js:248-273 | falsy params and objects without entries show '无请求参数', a string is shown as is, an object with entries lists them |
| Projection.HeadersClassification | popup.js:228-245 | the headers tab lists entries iff the request headers are an object with at least one key |
| Projection.ResponseClassification | popup.js:276-299 | the response tab shows '无响应信息' iff there are neither response headers with keys nor a truthy body; otherwise the sections present |
| Projection.UrlParamsTab | popup.js:249-261 | a record whose params came from the url shows '无请求参数' iff the url is absent, unparseable or has no query parameters |
| Popup.View.Load | popup.js:18-24 | the store and capture flag come from storage (`[]` and false when absent), nothing is selected, and the list shows the filtered store |
| Popup.View.RenderRequests | popup.js:105-123 | the list shows exactly the filtered store |
| Popup.View.CaptureClicked | popup.js:27-33 | capture is on in memory and in storage, and `startCapture` is sent |
| Popup.View.PauseClicked | popup.js:36-42 | capture is off in memory and in storage, and `stopCapture` is sent |
| Popup.View.ClearClicked | popup.js:45-53 | the store is empty in memory and storage, nothing is selected, the panel is hidden, the list is empty and `clearRequests` is sent |
| Popup.View.FilterInput | popup.js:71 | the list is re-filtered with the new text |
| Popup.View.MethodChanged | popup.js:72 | the list is re-filtered with the new method |
| Popup.View.TabClicked | popup.js:76-86 | the tab becomes active; the selected record, when found, is shown on it, else the panel is unchanged |
| Popup.View.RowClicked | popup.js:147-156 | the row's id is selected; when its record is found the panel opens on its overview, else the panel is unchanged |
| Popup.View.MergeRequest | popup.js:311-330 | the in-place upsert, null filter and slice compute exactly `Merge` |
| Popup.View.OnMessage | popup.js:302-351 | only an accepted `newRequest` changes anything; the store becomes the merge (no nulls, at most 200, unique ids kept) and is persisted; while capturing the list is redrawn, and so is the panel when the fragment is the selected record's |

## Left out

- `updateCaptureState` (popup.js:90-94): only button labels and disabled flags, which are a direct display of the capture flag.
- The export button (popup.js:56-68): JSON serialisation, `Blob`, object URLs and the download link are browser I/O.
- Markup: the HTML strings, the `active` and status classes, `innerHTML`, and `toLocaleString` dates. The tab functions return which content is shown, not its markup. The entry lines and `JSON.stringify` of a response body are not rendered.
- Console logging, and the `.catch` on `sendMessage` when the popup is closed. Delivery of a published fragment is not modelled: `Engine.outbox` records it, and `View.OnMessage` takes the message as a parameter.
- Concurrency between the pages and the asynchronous storage callbacks. Each handler runs as one atomic step, and storage writes are recorded in ghost fields.
- `TextDecoder`, `JSON.parse` and `URL` parsing are parameters (`RequestParams.Library`). Their own behaviour is not part of this model.
- `Date.now()` and `Math.random()` are parameters. The base-36, nine-character format of the random suffix is not modelled.
- Numbers are integers: no fractions, NaN or exponent notation in `String(n)`.
- Object key order and the order of `Object.entries` are not modelled, because objects are maps.
- Special property names such as `__proto__` are not modelled.
- `toLowerCase` folds ASCII letters only.
- A stored `capturedRequests` that is not an array is not modelled (`Popup.View.Load` takes an optional store). Store entries are records or null.
- CaptureEngine.Engine.HandleMessage: takes the action as a string. A non-string action matches no case, which is the "any other action" branch.
- Popup.View.RowClicked: accepts any row id string, not only the ids of rows currently listed.
- CaptureStore.MergeExisting: stated only for a store without null entries and with at most 200 entries. With nulls, compaction shifts the updated entry's index; `CaptureStore.MergeNewAnyStore` covers a new id on any store.
- CaptureStore.MergeNew: stated only for a store without null entries, for the same reason; `CaptureStore.MergeNewAnyStore` states the case with nulls.
- CaptureStore.MergeIsFieldWise: stated only for a store without null entries and with at most 200 entries, for the same reason.

## Findings

| source | as written | input that shows it | evidently intended | confidence | as-written member | corrected member |
|---|---|---|---|---|---|---|
| popup.js:82 and popup.js:152 | `capturedRequests.find(req => req.id === ...)` has no null guard. The lookups at popup.js:311 and popup.js:341 do have one. | A stored store `[null, {id: "r1", url: "https://a.test/x"}]` is loaded at popup.js:19 without compaction. Then the row `r1` is clicked; the filter skips the null, so the row is listed. | The lookup skips null entries, as `req && req.id === ...` does, and finds `r1`. | not executed; the store must reach the popup holding a null, which only a stored array can do | Projection.FindRequestAsWritten (counterexample: Projection.FindRequestAsWrittenThrows) | Projection.FindRequest (used by Popup.View.TabClicked and Popup.View.RowClicked) |
