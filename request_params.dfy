/**
  What background.js reads out of a browser request payload: the header arrays flattened
  into name -> value objects (background.js:96-103 and 119-126) and the request parameters
  chosen by `extractRequestParams` (background.js:140-189).
 */
module RequestParams {
  import opened Wrappers
  import opened JsValue

  /**
    The library calls the extension makes and whose behaviour is not visible here:
    `new TextDecoder('utf-8').decode(bytes)` (None when it throws), `JSON.parse(text)`
    (None when it throws) and `new URL(text).searchParams` as its list of (key, value)
    pairs in order (None when the URL constructor throws).
   */
  datatype Library = Library(
    decode: Value -> Option<string>,
    parseJson: string -> Option<Value>,
    searchParams: string -> Option<seq<(string, string)>>)

  /** The placeholder reported for a body that cannot be decoded ("binary data"). */
  const BinaryPlaceholder: string := "二进制数据"

  // ---------------------------------------------------------------------------------------
  // Header flattening

  /** `header && header.name`: the entries the flattening loop copies. */
  predicate Named(header: Value) {
    Truthy(header) && Truthy(Prop(header, "name"))
  }

  /** The property key `header.name` is converted to. */
  function HeaderKey(header: Value): string {
    ToStr(Prop(header, "name"))
  }

  /** `header.value || ''` */
  function HeaderValue(header: Value): Value {
    Or(Prop(header, "value"), Str(""))
  }

  /** The object built by assigning every named entry of `items` in turn. */
  function HeaderMap(items: seq<Value>): map<string, Value>
    decreases |items|
  {
    if |items| == 0 then map[]
    else
      var m := HeaderMap(items[..|items| - 1]);
      var h := items[|items| - 1];
      if Named(h) then m[HeaderKey(h) := HeaderValue(h)] else m
  }

  /** The header object of a payload field: empty unless the field is an array. */
  function FlattenedHeaders(headers: Value): map<string, Value> {
    if Truthy(headers) && headers.Arr? then HeaderMap(headers.items) else map[]
  }

  /** The `forEach` loop of background.js:96-103 (and 119-126). */
  method FlattenHeaders(headers: Value) returns (m: map<string, Value>)
    ensures m == FlattenedHeaders(headers)
  {
    m := map[];
    if Truthy(headers) && headers.Arr? {
      var items := headers.items;
      var i := 0;
      while i < |items|
        invariant 0 <= i <= |items|
        invariant m == HeaderMap(items[..i])
      {
        var header := items[i];
        if Truthy(header) && Truthy(Prop(header, "name")) {
          m := m[ToStr(Prop(header, "name")) := Or(Prop(header, "value"), Str(""))];
        }
        assert items[..i + 1][..i] == items[..i];
        i := i + 1;
      }
      assert items[..|items|] == items;
    }
  }

  /** The keys of the header object are exactly the names of the named entries. */
  lemma {:induction false} HeaderMapKeys(items: seq<Value>, k: string)
    ensures k in HeaderMap(items) <==>
      exists i :: 0 <= i < |items| && Named(items[i]) && HeaderKey(items[i]) == k
    decreases |items|
  {
    if |items| > 0 {
      var n := |items| - 1;
      var init := items[..n];
      HeaderMapKeys(init, k);
      assert forall i :: 0 <= i < n ==> init[i] == items[i];
      if k in HeaderMap(items) && k !in HeaderMap(init) {
        assert Named(items[n]) && HeaderKey(items[n]) == k;
      }
    }
  }

  /** A header keeps the value of the last entry that carries its name. */
  lemma {:induction false} HeaderMapLastWins(items: seq<Value>, i: nat)
    requires i < |items| && Named(items[i])
    requires forall j :: i < j < |items| && Named(items[j]) ==> HeaderKey(items[j]) != HeaderKey(items[i])
    ensures HeaderKey(items[i]) in HeaderMap(items)
    ensures HeaderMap(items)[HeaderKey(items[i])] == HeaderValue(items[i])
    decreases |items|
  {
    var n := |items| - 1;
    if i < n {
      var init := items[..n];
      assert forall j :: 0 <= j < n ==> init[j] == items[j];
      HeaderMapLastWins(init, i);
    }
  }

  /** background.js:97: a header field that is not an array yields an empty object. */
  lemma NonArrayHeadersAreEmpty(headers: Value)
    requires !headers.Arr?
    ensures FlattenedHeaders(headers) == map[]
  {
  }

  // ---------------------------------------------------------------------------------------
  // Query parameters

  /** The object built by `params[key] = value` for every search parameter in turn. */
  function QueryMap(pairs: seq<(string, string)>): map<string, Value>
    decreases |pairs|
  {
    if |pairs| == 0 then map[]
    else
      var last := pairs[|pairs| - 1];
      QueryMap(pairs[..|pairs| - 1])[last.0 := Str(last.1)]
  }

  /** The `forEach` loop of background.js:177-180. */
  method BuildQueryMap(pairs: seq<(string, string)>) returns (params: map<string, Value>)
    ensures params == QueryMap(pairs)
  {
    params := map[];
    var i := 0;
    while i < |pairs|
      invariant 0 <= i <= |pairs|
      invariant params == QueryMap(pairs[..i])
    {
      var (key, value) := pairs[i];
      params := params[key := Str(value)];
      assert pairs[..i + 1][..i] == pairs[..i];
      i := i + 1;
    }
    assert pairs[..|pairs|] == pairs;
  }

  /** The keys of the query object are exactly the keys of the search parameters. */
  lemma {:induction false} QueryMapKeys(pairs: seq<(string, string)>, k: string)
    ensures k in QueryMap(pairs) <==> exists i :: 0 <= i < |pairs| && pairs[i].0 == k
    decreases |pairs|
  {
    if |pairs| > 0 {
      var n := |pairs| - 1;
      QueryMapKeys(pairs[..n], k);
      assert forall i :: 0 <= i < n ==> pairs[..n][i] == pairs[i];
    }
  }

  /** A repeated search parameter keeps its last value. */
  lemma {:induction false} QueryMapLastWins(pairs: seq<(string, string)>, i: nat)
    requires i < |pairs|
    requires forall j :: i < j < |pairs| ==> pairs[j].0 != pairs[i].0
    ensures pairs[i].0 in QueryMap(pairs) && QueryMap(pairs)[pairs[i].0] == Str(pairs[i].1)
    decreases |pairs|
  {
    var n := |pairs| - 1;
    if i < n {
      assert forall j :: 0 <= j < n ==> pairs[..n][j] == pairs[j];
      QueryMapLastWins(pairs[..n], i);
    }
  }

  // ---------------------------------------------------------------------------------------
  // extractRequestParams

  /**
    The body branch of background.js:143-171 for a truthy `requestBody`: Some(result) when
    it returns, None when control falls through to the URL.
   */
  function BodyParams(body: Value, lib: Library): Option<Value> {
    var formData := Prop(body, "formData");
    var raw := Prop(body, "raw");
    if Truthy(formData) && TypeofObject(formData) then Some(formData)
    else if Truthy(raw) && raw.Arr? then
      var rawData := At(raw, 0);
      if Truthy(rawData) && Truthy(Prop(rawData, "bytes")) then
        match lib.decode(Prop(rawData, "bytes"))
        case None => Some(Str(BinaryPlaceholder))
        case Some(text) =>
          match lib.parseJson(text)
          case Some(parsed) => Some(parsed)
          case None => Some(Str(text))
      else None
    else None
  }

  /** The URL branch of background.js:174-188. */
  function QueryParams(url: Value, lib: Library): Value {
    if !Truthy(url) then Null
    else
      match lib.searchParams(ToStr(url))
      case None => Null
      case Some(pairs) =>
        var params := QueryMap(pairs);
        if |params| > 0 then Obj(params) else Null
  }

  /** The value `extractRequestParams(details)` returns. */
  function Params(details: Value, lib: Library): Value {
    if !Truthy(details) then Null
    else
      var body := Prop(details, "requestBody");
      var fromBody := if Truthy(body) then BodyParams(body, lib) else None;
      if fromBody.Some? then fromBody.value else QueryParams(Prop(details, "url"), lib)
  }

  /** `extractRequestParams` (background.js:140-189). */
  method ExtractRequestParams(details: Value, lib: Library) returns (params: Value)
    ensures params == Params(details, lib)
  {
    if !Truthy(details) {
      return Null;
    }
    var body := Prop(details, "requestBody");
    if Truthy(body) {
      var fromBody := BodyParams(body, lib);
      if fromBody.Some? {
        return fromBody.value;
      }
    }
    var url := Prop(details, "url");
    if Truthy(url) {
      var pairs := lib.searchParams(ToStr(url));
      if pairs.None? {
        return Null;
      }
      var query := BuildQueryMap(pairs.value);
      return if |query| > 0 then Obj(query) else Null;
    }
    return Null;
  }

  /** Absent details give `null`. */
  lemma NoDetailsNoParams(details: Value, lib: Library)
    requires !Truthy(details)
    ensures Params(details, lib) == Null
  {
  }

  /** `formData` is a truthy object (background.js:145). */
  predicate HasFormData(body: Value) {
    var formData := Prop(body, "formData");
    Truthy(formData) && TypeofObject(formData)
  }

  /** An object-valued `formData` is returned as it is, whatever the raw body and the URL. */
  lemma FormDataFirst(details: Value, lib: Library)
    requires Truthy(details)
    requires HasFormData(Prop(details, "requestBody"))
    ensures Params(details, lib) == Prop(Prop(details, "requestBody"), "formData")
  {
  }

  /** `raw[0].bytes`, when the body has a raw array whose first chunk carries bytes. */
  function RawBytes(body: Value): Option<Value> {
    var raw := Prop(body, "raw");
    var rawData := At(raw, 0);
    if Truthy(raw) && raw.Arr? && Truthy(rawData) && Truthy(Prop(rawData, "bytes"))
    then Some(Prop(rawData, "bytes")) else None
  }

  /**
    The three-way fallback for raw bytes: the parsed JSON when the text parses, else the
    decoded text, else the binary placeholder when decoding fails.
   */
  lemma RawBytesFallback(details: Value, lib: Library)
    requires Truthy(details)
    requires var body := Prop(details, "requestBody");
      Truthy(body) && !HasFormData(body) && RawBytes(body).Some?
    ensures var bytes := RawBytes(Prop(details, "requestBody")).value;
      match lib.decode(bytes)
      case None => Params(details, lib) == Str(BinaryPlaceholder)
      case Some(text) =>
        if lib.parseJson(text).Some? then Params(details, lib) == lib.parseJson(text).value
        else Params(details, lib) == Str(text)
  {
  }

  /** Without a usable body (no form data, no first raw chunk with bytes) the URL decides. */
  lemma NoBodyUsesUrl(details: Value, lib: Library)
    requires Truthy(details)
    requires var body := Prop(details, "requestBody");
      !Truthy(body) || (!HasFormData(body) && RawBytes(body).None?)
    ensures Params(details, lib) == QueryParams(Prop(details, "url"), lib)
  {
  }

  /**
    The URL branch gives `null` exactly when the URL is absent, does not parse, or has no
    search parameters; otherwise an object whose keys are exactly the parameters' keys.
   */
  lemma QueryParamsNullIff(url: Value, lib: Library)
    ensures QueryParams(url, lib) == Null <==>
      !Truthy(url) || lib.searchParams(ToStr(url)).None? || |lib.searchParams(ToStr(url)).value| == 0
    ensures QueryParams(url, lib) != Null ==>
      var pairs := lib.searchParams(ToStr(url)).value;
      QueryParams(url, lib).Obj? &&
      forall k :: k in QueryParams(url, lib).fields <==> exists i :: 0 <= i < |pairs| && pairs[i].0 == k
  {
    if Truthy(url) && lib.searchParams(ToStr(url)).Some? {
      var pairs := lib.searchParams(ToStr(url)).value;
      forall k {
        QueryMapKeys(pairs, k);
      }
      if |pairs| > 0 {
        assert pairs[0].0 in QueryMap(pairs);
      } else {
        assert QueryMap(pairs) == map[];
      }
    }
  }
}
