/**
  The background side of the extension (background.js): the capture switch, the listener
  registrations it controls, the three request listeners that turn browser payloads into
  request fragments, and the publishing of those fragments to the popup.
 */
module CaptureEngine {
  import opened Wrappers
  import opened JsValue
  import opened RequestParams

  /** The three request listeners background.js registers. */
  datatype Handler = BeforeRequest | BeforeSendHeaders | Completed

  /** The listener list after `startCapture`: each of the three registered once, in order. */
  const AllHandlers: seq<Handler> := [BeforeRequest, BeforeSendHeaders, Completed]

  /** The url reported when a payload has none ("unknown URL"). */
  const UnknownUrl: string := "未知URL"

  // ---------------------------------------------------------------------------------------
  // Listener registration

  /** No listener appears twice in the list. */
  predicate Distinct(listeners: seq<Handler>) {
    forall i, j :: 0 <= i < j < |listeners| ==> listeners[i] != listeners[j]
  }

  /** `removeListener(h)`: the first registration of `h`, if any, leaves the listener list. */
  function RemoveListener(listeners: seq<Handler>, h: Handler): (r: seq<Handler>)
    ensures forall x :: x in r ==> x in listeners
    ensures forall x :: x != h ==> (x in r <==> x in listeners)
    ensures Distinct(listeners) ==> Distinct(r) && h !in r
  {
    if listeners == [] then []
    else if listeners[0] == h then listeners[1..]
    else
      var rest := RemoveListener(listeners[1..], h);
      assert Distinct(listeners) ==> listeners[0] !in listeners[1..] && Distinct(listeners[1..]);
      [listeners[0]] + rest
  }

  /** The listener list after `stopCapture` (background.js:63-69). */
  function Stopped(listeners: seq<Handler>): seq<Handler> {
    RemoveListener(RemoveListener(RemoveListener(listeners, BeforeRequest), BeforeSendHeaders), Completed)
  }

  /** The listener list after `startCapture` (background.js:36-60): stop, then add each once. */
  function Started(listeners: seq<Handler>): seq<Handler> {
    Stopped(listeners) + [BeforeRequest] + [BeforeSendHeaders] + [Completed]
  }

  /** The listener list after `n` consecutive calls of `startCapture`. */
  function StartedTimes(listeners: seq<Handler>, n: nat): seq<Handler> {
    if n == 0 then listeners else Started(StartedTimes(listeners, n - 1))
  }

  /** Stopping when no listener is registered twice leaves none registered. */
  lemma StopClearsAll(listeners: seq<Handler>)
    requires Distinct(listeners)
    ensures Stopped(listeners) == []
  {
    var r := Stopped(listeners);
    if r != [] {
      match r[0]
      case BeforeRequest =>
      case BeforeSendHeaders =>
      case Completed =>
    }
  }

  /** Starting when no listener is registered twice leaves the three registered exactly once. */
  lemma StartRegistersEachOnce(listeners: seq<Handler>)
    requires Distinct(listeners)
    ensures Started(listeners) == AllHandlers
  {
    StopClearsAll(listeners);
  }

  /** However often capture is started, each listener is registered exactly once. */
  lemma {:induction false} RepeatedStartIsIdempotent(listeners: seq<Handler>, n: nat)
    requires Distinct(listeners)
    requires n >= 1
    ensures StartedTimes(listeners, n) == AllHandlers
  {
    if n == 1 {
      StartRegistersEachOnce(listeners);
    } else {
      RepeatedStartIsIdempotent(listeners, n - 1);
      StartRegistersEachOnce(AllHandlers);
    }
  }

  /** Stopping after any number of starts leaves no listener registered. */
  lemma StopAfterStartsClears(listeners: seq<Handler>, n: nat)
    requires Distinct(listeners)
    ensures Stopped(StartedTimes(listeners, n)) == []
  {
    if n >= 1 {
      RepeatedStartIsIdempotent(listeners, n);
    }
    StopClearsAll(StartedTimes(listeners, n));
  }

  // ---------------------------------------------------------------------------------------
  // Fragments

  /** `generateId()` (background.js:192-194), with `Date.now()` and the random suffix given. */
  function GenerateId(now: int, suffix: string): (id: string)
    ensures |id| > 4 && id[..4] == "req_"
  {
    "req_" + IntToString(now) + "_" + suffix
  }

  /** `details.requestId || generateId()`: never falsy, so a published fragment always has an id. */
  function ResolveId(details: Value, now: int, suffix: string): (id: Value)
    ensures Truthy(id)
    ensures Truthy(Prop(details, "requestId")) ==> id == Prop(details, "requestId")
    ensures !Truthy(Prop(details, "requestId")) ==> id.Str? && |id.s| > 4 && id.s[..4] == "req_"
  {
    Or(Prop(details, "requestId"), Str(GenerateId(now, suffix)))
  }

  /** The record `onBeforeRequest` builds (background.js:78-85). */
  function InitiationFragment(details: Value, params: Value, now: int, suffix: string): (r: Record)
    ensures r.Keys == {"id", "url", "method", "timestamp", "type", "requestParams"}
    ensures r["id"] == ResolveId(details, now, suffix)
    ensures Truthy(r["id"]) && Truthy(r["url"]) && Truthy(r["method"]) && Truthy(r["type"])
    ensures now != 0 ==> Truthy(r["timestamp"])
    ensures Truthy(Prop(details, "url")) ==> r["url"] == Prop(details, "url")
    ensures Truthy(Prop(details, "method")) ==> r["method"] == Prop(details, "method")
    ensures Truthy(Prop(details, "type")) ==> r["type"] == Prop(details, "type")
    ensures Truthy(Prop(details, "timeStamp")) ==> r["timestamp"] == Prop(details, "timeStamp")
    ensures r["requestParams"] == params
  {
    map[
      "id" := ResolveId(details, now, suffix),
      "url" := Or(Prop(details, "url"), Str(UnknownUrl)),
      "method" := Or(Prop(details, "method"), Str("GET")),
      "timestamp" := Or(Prop(details, "timeStamp"), Num(now)),
      "type" := Or(Prop(details, "type"), Str("other")),
      "requestParams" := params
    ]
  }

  /** The record `onBeforeSendHeaders` builds (background.js:105-108). */
  function HeadersFragment(details: Value, headers: map<string, Value>, now: int, suffix: string): (r: Record)
    ensures r.Keys == {"id", "requestHeaders"}
    ensures r["id"] == ResolveId(details, now, suffix)
    ensures Truthy(r["id"]) && r["requestHeaders"] == Obj(headers)
  {
    map["id" := ResolveId(details, now, suffix), "requestHeaders" := Obj(headers)]
  }

  /** The record `onCompleted` builds (background.js:128-133). */
  function CompletionFragment(details: Value, headers: map<string, Value>, now: int, suffix: string): (r: Record)
    ensures r.Keys == {"id", "status", "responseHeaders", "timestamp"}
    ensures r["id"] == ResolveId(details, now, suffix)
    ensures Truthy(r["id"]) && r["responseHeaders"] == Obj(headers)
    ensures now != 0 ==> Truthy(r["timestamp"])
    ensures Truthy(Prop(details, "statusCode")) ==> r["status"] == Prop(details, "statusCode")
    ensures Truthy(Prop(details, "timeStamp")) ==> r["timestamp"] == Prop(details, "timeStamp")
  {
    map[
      "id" := ResolveId(details, now, suffix),
      "status" := Or(Prop(details, "statusCode"), Num(0)),
      "responseHeaders" := Obj(headers),
      "timestamp" := Or(Prop(details, "timeStamp"), Num(now))
    ]
  }

  /** The fallbacks for missing or falsy payload fields. */
  lemma Fallbacks(details: Value, params: Value, headers: map<string, Value>, now: int, suffix: string)
    ensures var r := InitiationFragment(details, params, now, suffix);
      && (!Truthy(Prop(details, "url")) ==> r["url"] == Str(UnknownUrl))
      && (!Truthy(Prop(details, "method")) ==> r["method"] == Str("GET"))
      && (!Truthy(Prop(details, "type")) ==> r["type"] == Str("other"))
      && (!Truthy(Prop(details, "timeStamp")) ==> r["timestamp"] == Num(now))
    ensures var r := CompletionFragment(details, headers, now, suffix);
      && (!Truthy(Prop(details, "statusCode")) ==> r["status"] == Num(0))
      && (!Truthy(Prop(details, "timeStamp")) ==> r["timestamp"] == Num(now))
  {
  }

  /**
    With a truthy `requestId` the three fragments of one request carry the same id, whatever
    the clock and the random suffix were at each listener, so the popup merges them.
   */
  lemma SameRequestIdSameRecord(details: Value, params: Value, requestHeaders: map<string, Value>,
                                responseHeaders: map<string, Value>,
                                now1: int, suffix1: string, now2: int, suffix2: string, now3: int, suffix3: string)
    requires Truthy(Prop(details, "requestId"))
    ensures InitiationFragment(details, params, now1, suffix1)["id"] == Prop(details, "requestId")
    ensures HeadersFragment(details, requestHeaders, now2, suffix2)["id"] == Prop(details, "requestId")
    ensures CompletionFragment(details, responseHeaders, now3, suffix3)["id"] == Prop(details, "requestId")
  {
  }

  /**
    Without a `requestId` each listener generates its own id, and two different random
    suffixes give two different ids: such fragments become separate records.
   */
  lemma GeneratedIdsDiffer(details: Value, now1: int, suffix1: string, now2: int, suffix2: string)
    requires !Truthy(Prop(details, "requestId"))
    requires now1 == now2 && suffix1 != suffix2
    ensures ResolveId(details, now1, suffix1) != ResolveId(details, now2, suffix2)
  {
    var prefix := "req_" + IntToString(now1) + "_";
    var id1 := GenerateId(now1, suffix1);
    var id2 := GenerateId(now2, suffix2);
    assert id1 == prefix + suffix1 && id2 == prefix + suffix2;
    assert id1[|prefix|..] == suffix1 && id2[|prefix|..] == suffix2;
  }

  // ---------------------------------------------------------------------------------------
  // The background page's state

  class Engine {
    /** `isCapturing` */
    var capturing: bool
    /** `capturedRequests`: loaded from storage and only ever cleared here. */
    var captured: Value
    /** The browser's listener list for the three request events, in registration order. */
    var registered: seq<Handler>
    /** Every request message handed to `chrome.runtime.sendMessage`, oldest first. */
    var outbox: seq<Record>
    /** What this page last wrote to or read from the `capturedRequests` storage key. */
    ghost var persisted: Value

    ghost predicate Valid()
      reads this
    {
      && registered == (if capturing then AllHandlers else [])
      && forall r :: r in outbox ==> Truthy(Get(r, "id"))
    }

    /** The page's start-up (background.js:1-13): state restored from storage. */
    constructor Load(storedRequests: Value, storedCapturing: Value)
      ensures Valid()
      ensures captured == Or(storedRequests, Arr([])) && persisted == storedRequests
      ensures capturing == Truthy(storedCapturing)
      ensures outbox == []
    {
      capturing := Truthy(storedCapturing);
      captured := Or(storedRequests, Arr([]));
      registered := [];
      outbox := [];
      persisted := storedRequests;
      new;
      if capturing {
        StartCapture();
        StartRegistersEachOnce([]);
      }
    }

    /** `startCapture` (background.js:36-60). */
    method StartCapture()
      modifies this`registered
      ensures registered == Started(old(registered))
    {
      StopCapture();
      registered := registered + [BeforeRequest];
      registered := registered + [BeforeSendHeaders];
      registered := registered + [Completed];
    }

    /** `stopCapture` (background.js:63-69). */
    method StopCapture()
      modifies this`registered
      ensures registered == Stopped(old(registered))
    {
      registered := RemoveListener(registered, BeforeRequest);
      registered := RemoveListener(registered, BeforeSendHeaders);
      registered := RemoveListener(registered, Completed);
    }

    /** The message switch (background.js:16-33). */
    method HandleMessage(action: string)
      requires Valid()
      modifies this`capturing, this`registered, this`captured, this`persisted
      ensures Valid()
      ensures action == "startCapture" ==>
        capturing && registered == AllHandlers && captured == old(captured) && persisted == old(persisted)
      ensures action == "stopCapture" ==>
        !capturing && registered == [] && captured == old(captured) && persisted == old(persisted)
      ensures action == "clearRequests" ==>
        captured == Arr([]) && persisted == Arr([]) && capturing == old(capturing) && registered == old(registered)
      ensures action != "startCapture" && action != "stopCapture" && action != "clearRequests" ==>
        capturing == old(capturing) && registered == old(registered) && captured == old(captured) && persisted == old(persisted)
    {
      if action == "startCapture" {
        StartRegistersEachOnce(registered);
        capturing := true;
        StartCapture();
      } else if action == "stopCapture" {
        StopClearsAll(registered);
        capturing := false;
        StopCapture();
      } else if action == "clearRequests" {
        captured := Arr([]);
        persisted := Arr([]);
      }
    }

    /** `sendToPopup` (background.js:197-210): a record without an id is dropped. */
    method SendToPopup(request: Record)
      modifies this`outbox
      ensures outbox == if Truthy(Get(request, "id")) then old(outbox) + [request] else old(outbox)
    {
      if !Truthy(Get(request, "id")) {
        return;
      }
      outbox := outbox + [request];
    }

    /** `onBeforeRequest` (background.js:72-89). */
    method OnBeforeRequest(details: Value, lib: Library, now: int, suffix: string)
      requires Valid()
      modifies this`outbox
      ensures Valid()
      ensures outbox == if capturing && Truthy(details)
        then old(outbox) + [InitiationFragment(details, Params(details, lib), now, suffix)]
        else old(outbox)
    {
      if !capturing {
        return;
      }
      if !Truthy(details) {
        return;
      }
      var params := ExtractRequestParams(details, lib);
      var request := InitiationFragment(details, params, now, suffix);
      SendToPopup(request);
    }

    /** `onBeforeSendHeaders` (background.js:92-112). */
    method OnBeforeSendHeaders(details: Value, now: int, suffix: string)
      requires Valid()
      modifies this`outbox
      ensures Valid()
      ensures outbox == if capturing && Truthy(details)
        then old(outbox) + [HeadersFragment(details, FlattenedHeaders(Prop(details, "requestHeaders")), now, suffix)]
        else old(outbox)
    {
      if !capturing {
        return;
      }
      if !Truthy(details) {
        return;
      }
      var headers := FlattenHeaders(Prop(details, "requestHeaders"));
      var request := HeadersFragment(details, headers, now, suffix);
      SendToPopup(request);
    }

    /** `onCompleted` (background.js:115-137). */
    method OnCompleted(details: Value, now: int, suffix: string)
      requires Valid()
      modifies this`outbox
      ensures Valid()
      ensures outbox == if capturing && Truthy(details)
        then old(outbox) + [CompletionFragment(details, FlattenedHeaders(Prop(details, "responseHeaders")), now, suffix)]
        else old(outbox)
    {
      if !capturing {
        return;
      }
      if !Truthy(details) {
        return;
      }
      var headers := FlattenHeaders(Prop(details, "responseHeaders"));
      var request := CompletionFragment(details, headers, now, suffix);
      SendToPopup(request);
    }
  }
}
