/**
  What the popup derives from its store without changing it (popup.js): the filtered list
  of rows, the lookup of the selected record, and the classification behind each detail tab.
 */
module Projection {
  import opened Wrappers
  import opened JsValue
  import opened CaptureStore
  import RequestParams

  // ---------------------------------------------------------------------------------------
  // The request list filter (popup.js:105-123)

  /**
    A row is listed when it is a record with a truthy url whose lower-cased text contains
    the lower-cased filter text, and whose method equals the method filter unless that is empty.
   */
  predicate Shown(entry: Option<Record>, filterText: string, methodFilter: string) {
    && entry.Some?
    && Truthy(Get(entry.value, "url"))
    && Contains(Lower(SafeToString(Get(entry.value, "url"))), Lower(filterText))
    && (methodFilter == "" || SafeToString(Get(entry.value, "method")) == methodFilter)
  }

  /** `capturedRequests.filter(...)` with the predicate above. */
  function Filter(s: Store, filterText: string, methodFilter: string): (r: Store)
    ensures |r| <= |s|
    ensures forall e :: e in r ==> Shown(e, filterText, methodFilter)
  {
    if s == [] then []
    else
      var rest := Filter(s[1..], filterText, methodFilter);
      if Shown(s[0], filterText, methodFilter) then [s[0]] + rest else rest
  }

  /** The listed rows are the store's entries in the store's order, some left out. */
  lemma {:induction false} FilterIsSubsequence(s: Store, filterText: string, methodFilter: string)
    ensures IsSubsequence(Filter(s, filterText, methodFilter), s)
  {
    if s != [] {
      FilterIsSubsequence(s[1..], filterText, methodFilter);
      var rest := Filter(s[1..], filterText, methodFilter);
      if Shown(s[0], filterText, methodFilter) {
        assert ([s[0]] + rest)[1..] == rest;
      }
    }
  }

  /** A row is listed exactly when it is in the store and meets the three conditions. */
  lemma {:induction false} FilterMembers(s: Store, filterText: string, methodFilter: string, e: Option<Record>)
    ensures e in Filter(s, filterText, methodFilter) <==> e in s && Shown(e, filterText, methodFilter)
  {
    if s != [] {
      FilterMembers(s[1..], filterText, methodFilter, e);
      assert s == [s[0]] + s[1..];
    }
  }

  /** A listed entry is listed as often as it occurs in the store; any other entry not at all. */
  lemma {:induction false} FilterCounts(s: Store, filterText: string, methodFilter: string, e: Option<Record>)
    ensures multiset(Filter(s, filterText, methodFilter))[e] ==
      if Shown(e, filterText, methodFilter) then multiset(s)[e] else 0
  {
    if s != [] {
      FilterCounts(s[1..], filterText, methodFilter, e);
      assert s == [s[0]] + s[1..];
    }
  }

  /** Filtering the listed rows again with the same criteria lists the same rows. */
  lemma {:induction false} FilterIdempotent(s: Store, filterText: string, methodFilter: string)
    ensures Filter(Filter(s, filterText, methodFilter), filterText, methodFilter) == Filter(s, filterText, methodFilter)
  {
    if s != [] {
      FilterIdempotent(s[1..], filterText, methodFilter);
      var rest := Filter(s[1..], filterText, methodFilter);
      if Shown(s[0], filterText, methodFilter) {
        assert ([s[0]] + rest)[1..] == rest;
      }
    }
  }

  /** With both filters empty, every record with a truthy url is listed. */
  lemma EmptyFiltersShowEveryUrl(entry: Option<Record>)
    ensures Shown(entry, "", "") <==> entry.Some? && Truthy(Get(entry.value, "url"))
  {
    if entry.Some? {
      ContainsEmpty(Lower(SafeToString(Get(entry.value, "url"))));
    }
  }

  // ---------------------------------------------------------------------------------------
  // Looking up the selected record (popup.js:82, 152 and 341)

  /** The first record whose id is `id`, skipping null entries. */
  function FindRequest(s: Store, id: Value): (r: Option<Record>)
    ensures r.Some? <==> exists i :: 0 <= i < |s| && HasId(s[i], id)
    ensures r.Some? ==> exists i :: 0 <= i < |s| && s[i] == Some(r.value) && HasId(s[i], id) &&
                                    forall j :: 0 <= j < i ==> !HasId(s[j], id)
  {
    match FindIndex(s, id)
    case Some(i) => Some(s[i].value)
    case None => None
  }

  /** The error `find(req => req.id === id)` throws when it reaches a null entry. */
  const NullEntryError: string := "TypeError: Cannot read properties of null (reading 'id')"

  /**
    `capturedRequests.find(req => req.id === id)` as popup.js:82 and 152 write it: the
    callback has no null guard, so a null entry before the match throws.
   */
  function FindRequestAsWritten(s: Store, id: Value): (r: Result<Option<Record>, string>)
    ensures r.Err? <==> exists i :: 0 <= i < |s| && s[i].None? && forall j :: 0 <= j < i ==> !HasId(s[j], id)
    ensures r.Ok? ==> r.value == FindRequest(s, id)
  {
    if s == [] then Ok(None)
    else if s[0].None? then Err(NullEntryError)
    else if StrictEq(Get(s[0].value, "id"), id) then Ok(Some(s[0].value))
    else FindRequestAsWritten(s[1..], id)
  }

  /** On a store without null entries the unguarded lookup is the guarded one. */
  lemma {:induction false} FindRequestAsWrittenAgrees(s: Store, id: Value)
    requires NoNulls(s)
    ensures FindRequestAsWritten(s, id) == Ok(FindRequest(s, id))
  {
    if s != [] && !HasId(s[0], id) {
      FindRequestAsWrittenAgrees(s[1..], id);
      assert FindIndex(s[1..], id).None? ==> FindIndex(s, id).None?;
      if FindIndex(s[1..], id).Some? {
        assert FindIndex(s, id) == Some(FindIndex(s[1..], id).value + 1);
      }
    }
  }

  /** A stored null before the clicked record makes the unguarded lookup throw. */
  lemma FindRequestAsWrittenThrows()
    ensures var s: Store := [None, Some(map["id" := Str("r1"), "url" := Str("https://a.test/x")])];
      && FindRequestAsWritten(s, Str("r1")).Err?
      && FindRequest(s, Str("r1")) == Some(map["id" := Str("r1"), "url" := Str("https://a.test/x")])
  {
    var s: Store := [None, Some(map["id" := Str("r1"), "url" := Str("https://a.test/x")])];
    assert HasId(s[1], Str("r1"));
  }

  // ---------------------------------------------------------------------------------------
  // The detail tabs (popup.js:166-299)

  datatype Tab = OverviewTab | HeadersTab | ParamsTab | ResponseTab

  /** An overview count: the number of keys, or 'N/A'. */
  datatype Count = NotAvailable | Count(n: nat)

  /** popup.js:197-211: the number of keys when `v` is a truthy object, 'N/A' otherwise. */
  function OverviewCount(v: Value): Count {
    if Truthy(v) && TypeofObject(v) then Count(KeyCount(v)) else NotAvailable
  }

  /** The fields `renderOverview` shows (popup.js:189-225); date formatting is not modelled. */
  datatype Overview = Overview(
    httpMethod: string, url: string, kind: string, status: Option<Value>, timestamp: Option<Value>,
    id: string, headerCount: Count, paramCount: Count, responseHeaderCount: Count)

  function RenderOverview(r: Record): Overview {
    Overview(
      SafeToString(Get(r, "method")),
      SafeToString(Get(r, "url")),
      SafeToString(Get(r, "type")),
      if Truthy(Get(r, "status")) then Some(Get(r, "status")) else None,
      if Truthy(Get(r, "timestamp")) then Some(Get(r, "timestamp")) else None,
      SafeToString(Get(r, "id")),
      OverviewCount(Get(r, "requestHeaders")),
      OverviewCount(Get(r, "requestParams")),
      OverviewCount(Get(r, "responseHeaders")))
  }

  /** The params tab (popup.js:248-273). */
  datatype ParamsView =
    | NoParams                 // '无请求参数'
    | ParamsText(text: string) // a string shown as it is
    | ParamsEntries(v: Value)  // one line per entry of the object
    | Unparseable              // '无法解析的请求参数'

  function RenderParams(r: Record): ParamsView {
    var params := Get(r, "requestParams");
    if !Truthy(params) then NoParams
    else if params.Str? then ParamsText(params.s)
    else if TypeofObject(params) then (if KeyCount(params) == 0 then NoParams else ParamsEntries(params))
    else Unparseable
  }

  /** The headers tab (popup.js:228-245). */
  datatype HeadersView = NoHeaders | HeaderEntries(v: Value)

  function RenderHeaders(r: Record): HeadersView {
    var headers := Get(r, "requestHeaders");
    if !Truthy(headers) || !TypeofObject(headers) || KeyCount(headers) == 0 then NoHeaders
    else HeaderEntries(headers)
  }

  /** The response tab (popup.js:276-299): headers and body sections, or '无响应信息' when both are absent. */
  datatype ResponseView = NoResponse | ResponseSections(headers: Option<Value>, body: Option<Value>)

  function RenderResponse(r: Record): ResponseView {
    var headers := Get(r, "responseHeaders");
    var body := Get(r, "responseBody");
    var headerSection := if Truthy(headers) && TypeofObject(headers) && KeyCount(headers) > 0 then Some(headers) else None;
    var bodySection := if Truthy(body) then Some(body) else None;
    if headerSection.None? && bodySection.None? then NoResponse
    else ResponseSections(headerSection, bodySection)
  }

  datatype Detail =
    | OverviewDetail(overview: Overview)
    | HeadersDetail(headers: HeadersView)
    | ParamsDetail(params: ParamsView)
    | ResponseDetail(response: ResponseView)

  /** `showDetailContent(request, tab)` (popup.js:167-186). */
  function ShowDetailContent(r: Record, tab: Tab): (d: Detail)
    ensures d.OverviewDetail? <==> tab == OverviewTab
    ensures d.HeadersDetail? <==> tab == HeadersTab
    ensures d.ParamsDetail? <==> tab == ParamsTab
    ensures d.ResponseDetail? <==> tab == ResponseTab
    ensures d.OverviewDetail? ==> d.overview == RenderOverview(r)
    ensures d.HeadersDetail? ==> d.headers == RenderHeaders(r)
    ensures d.ParamsDetail? ==> d.params == RenderParams(r)
    ensures d.ResponseDetail? ==> d.response == RenderResponse(r)
  {
    match tab
    case OverviewTab => OverviewDetail(RenderOverview(r))
    case HeadersTab => HeadersDetail(RenderHeaders(r))
    case ParamsTab => ParamsDetail(RenderParams(r))
    case ResponseTab => ResponseDetail(RenderResponse(r))
  }

  /** Each overview count is 'N/A' unless its field is a truthy object, else its number of keys. */
  lemma OverviewCounts(r: Record)
    ensures var o := RenderOverview(r);
      && (o.headerCount.NotAvailable? <==> !(Truthy(Get(r, "requestHeaders")) && TypeofObject(Get(r, "requestHeaders"))))
      && (o.paramCount.NotAvailable? <==> !(Truthy(Get(r, "requestParams")) && TypeofObject(Get(r, "requestParams"))))
      && (o.responseHeaderCount.NotAvailable? <==> !(Truthy(Get(r, "responseHeaders")) && TypeofObject(Get(r, "responseHeaders"))))
      && (o.headerCount.Count? ==> o.headerCount.n == KeyCount(Get(r, "requestHeaders")))
      && (o.paramCount.Count? ==> o.paramCount.n == KeyCount(Get(r, "requestParams")))
      && (o.responseHeaderCount.Count? ==> o.responseHeaderCount.n == KeyCount(Get(r, "responseHeaders")))
  {
  }

  /**
    The params tab: falsy params and objects without entries read '无请求参数', a string is
    shown verbatim, any other object lists its entries.
   */
  lemma ParamsClassification(r: Record)
    ensures var params := Get(r, "requestParams");
      && (!Truthy(params) ==> RenderParams(r) == NoParams)
      && (Truthy(params) && params.Str? ==> RenderParams(r) == ParamsText(params.s))
      && (Truthy(params) && TypeofObject(params) && KeyCount(params) == 0 ==> RenderParams(r) == NoParams)
      && (Truthy(params) && TypeofObject(params) && KeyCount(params) > 0 ==> RenderParams(r) == ParamsEntries(params))
  {
  }

  /** The headers tab lists entries exactly when the request headers are an object with at least one key. */
  lemma HeadersClassification(r: Record)
    ensures var headers := Get(r, "requestHeaders");
      && (RenderHeaders(r) == NoHeaders <==> !(Truthy(headers) && TypeofObject(headers) && KeyCount(headers) > 0))
      && (RenderHeaders(r) != NoHeaders ==> RenderHeaders(r) == HeaderEntries(headers))
  {
  }

  /**
    The response tab reads '无响应信息' exactly when there are neither response headers with
    at least one key nor a truthy response body; otherwise it shows the sections present.
   */
  lemma ResponseClassification(r: Record)
    ensures var headers := Get(r, "responseHeaders");
      var body := Get(r, "responseBody");
      var hasHeaders := Truthy(headers) && TypeofObject(headers) && KeyCount(headers) > 0;
      && (RenderResponse(r) == NoResponse <==> !hasHeaders && !Truthy(body))
      && (RenderResponse(r) != NoResponse ==>
            && (RenderResponse(r).headers == if hasHeaders then Some(headers) else None)
            && (RenderResponse(r).body == if Truthy(body) then Some(body) else None))
  {
  }

  /**
    A record whose params came from the URL (background.js:174-188) shows '无请求参数' exactly
    when the URL is absent, does not parse, or has no query parameters.
   */
  lemma UrlParamsTab(r: Record, url: Value, lib: RequestParams.Library)
    requires Get(r, "requestParams") == RequestParams.QueryParams(url, lib)
    ensures RenderParams(r) == NoParams <==>
      !Truthy(url) || lib.searchParams(ToStr(url)).None? || |lib.searchParams(ToStr(url)).value| == 0
  {
    RequestParams.QueryParamsNullIff(url, lib);
    var params := RequestParams.QueryParams(url, lib);
    if params != Null {
      var pairs := lib.searchParams(ToStr(url)).value;
      assert pairs[0].0 in params.fields;
    }
  }
}
