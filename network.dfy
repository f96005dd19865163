/** The request/response translator of `DefaultNetworkRequestService`: it builds
    the headers and encoded body of a request, sends it through an injected
    transport, and turns the transport's response into `{ data, total? }`.
    The transport, `localStorage` and `FormData` are not modelled as code: the
    stored token, the response and the form body are values handed in or out. */
module Network {
  import opened Common
  import opened Headers

  // ---------------------------------------------------------------------------
  // Vocabulary

  /** A token `{ type?, value }`, set in memory or read back from storage. */
  datatype AuthToken = AuthToken(tokenType: Option<string>, value: string)

  /** The operation kinds of the admin-panel data provider. */
  datatype RequestType =
    | GetList | GetOne | GetMany | GetManyReference
    | Create | Update | UpdateMany | Delete | DeleteMany

  predicate IsListType(t: RequestType) {
    t == GetList || t == GetManyReference
  }

  datatype HttpMethod = GET | POST | PUT | PATCH | DELETE

  /** How a request body is encoded; an absent body type is `None`. */
  datatype BodyType = FormUrlEncoded | FormData | Json

  /** How a list response reports the total number of records. */
  datatype GetListVariant = ContentRangeHeader

  /** A `File` handed in for upload: its name and opaque contents. */
  datatype File = File(name: string, contents: nat)

  /** One `FormData.append` call: a text field (the appended value as given)
      or a file field with its file name. */
  datatype FormEntry =
    | TextEntry(name: string, value: Value)
    | FileEntry(name: string, file: File, filename: string)

  /** A request body: a value passed through, or a `FormData` object given by
      the entries appended to it. */
  datatype RequestBody = Plain(value: Value) | Form(entries: seq<FormEntry>)

  datatype RequestProps = RequestProps(headers: Record, body: RequestBody)

  /** What `doRequest` hands to the transport's `send`; the URL is the base
      URL and the path segments, which `getRequestUrl` joins. */
  datatype SentRequest = SentRequest(
    baseUrl: string, paths: seq<string>, httpMethod: HttpMethod,
    params: Value, body: Option<RequestBody>, headers: Option<Record>)

  /** The transport's response: the status, the response headers (`None` when
      the transport gives none), what `json()` yields and what `blob()` yields. */
  datatype Response = Response(
    status: int, headers: Option<map<string, string>>, json: Value, blob: nat)

  /** The normalised result `{ data, total? }`. */
  datatype Converted = Converted(data: Value, total: Option<int>)

  const FORM_URL_ENCODED_CONTENT_TYPE := "application/x-www-form-urlencoded"
  const JSON_CONTENT_TYPE := "application/json"
  const OCTET_STREAM_CONTENT_TYPE := "application/octet-stream"
  const DEFAULT_SCHEME := "Bearer"

  const Unauthenticated :=
    AppError("[dataProvider][getAuthHeader] Invalid auth token to fetch!", Some(401))
  const InvalidBaseUrl :=
    AppError("[doRequest] Invalid baseUrl to send request!", None)
  const MissingContentRange :=
    AppError("Missing \"Content-Range\" header in the HTTP Response. The REST data provider expects responses for lists of resources to contain this header with the total number of results to build the pagination. In case CORS, did you declare Content-Range in the Access-Control-Expose-Headers header?", None)

  // ---------------------------------------------------------------------------
  // Authorization

  /** `type || 'Bearer'`: an absent or empty type falls back to Bearer. */
  function Scheme(tokenType: Option<string>): (s: string)
    ensures s != []
    ensures tokenType.Some? && tokenType.value != [] ==> s == tokenType.value
    ensures tokenType.None? || tokenType.value == [] ==> s == DEFAULT_SCHEME
  {
    match tokenType
    case Some(t) => if t != [] then t else DEFAULT_SCHEME
    case None => DEFAULT_SCHEME
  }

  /** The header a given token yields: 401 when its value is empty. */
  function TokenCredentials(t: AuthToken): (r: Result<string>)
    ensures r.Fail? <==> t.value == []
    ensures r.Fail? ==> r.error == Unauthenticated
    ensures r.Ok? ==> |r.value| == |Scheme(t.tokenType)| + 1 + |t.value|
    ensures r.Ok? ==> Scheme(t.tokenType) <= r.value && r.value[|r.value| - |t.value|..] == t.value
  {
    if t.value == [] then Fail(Unauthenticated) else Ok(Scheme(t.tokenType) + " " + t.value)
  }

  /** Splits an Authorization value at its first space into scheme and credentials. */
  function SplitCredentials(header: string): (string, string) {
    if header == [] then ([], [])
    else if header[0] == ' ' then ([], header[1..])
    else
      var (scheme, rest) := SplitCredentials(header[1..]);
      ([header[0]] + scheme, rest)
  }

  lemma {:induction false} SplitAfterScheme(scheme: string, rest: string)
    requires ' ' !in scheme
    ensures SplitCredentials(scheme + " " + rest) == (scheme, rest)
  {
    if scheme != [] {
      var header := scheme + " " + rest;
      assert header[0] == scheme[0] != ' ';
      assert header[1..] == scheme[1..] + " " + rest;
      assert ' ' !in scheme[1..] by {
        forall i | 0 <= i < |scheme[1..]| ensures scheme[1..][i] != ' ' {
          assert scheme[1..][i] == scheme[i + 1];
        }
      }
      SplitAfterScheme(scheme[1..], rest);
      assert [scheme[0]] + scheme[1..] == scheme;
    }
  }

  /** The Authorization value reads back as the token's scheme and value, as
      section 11.6.2 of RFC 9110 lays credentials out (`auth-scheme SP token`),
      whenever the token type itself holds no space. */
  lemma TokenCredentialsRoundTrip(t: AuthToken)
    requires t.value != []
    requires ' ' !in Scheme(t.tokenType)
    ensures TokenCredentials(t).Ok?
    ensures SplitCredentials(TokenCredentials(t).value) == (Scheme(t.tokenType), t.value)
  {
    SplitAfterScheme(Scheme(t.tokenType), t.value);
  }

  /** The form-data fields kept from the entries of a url-encoded body: the
      truthy ones, in iteration order, each appended under its own key. */
  function KeptFields(fs: seq<Field>): (r: seq<FormEntry>)
    ensures |r| <= |fs|
    ensures forall e :: e in r <==> e.TextEntry? && Field(e.name, e.value) in fs && Truthy(e.value)
  {
    if fs == [] then []
    else
      var last := fs[|fs| - 1];
      assert fs == fs[..|fs| - 1] + [last];
      KeptFields(fs[..|fs| - 1])
        + (if Truthy(last.val) then [TextEntry(last.key, last.val)] else [])
  }

  /** The `for...in` loop of the url-encoded branch: appends every entry whose
      value is truthy to an initially empty form, skipping the others. */
  method AppendTruthyFields(entries: seq<Field>) returns (form: seq<FormEntry>)
    ensures form == KeptFields(entries)
  {
    form := [];
    var i := 0;
    while i < |entries|
      invariant 0 <= i <= |entries|
      invariant form == KeptFields(entries[..i])
    {
      assert entries[..i + 1][..i] == entries[..i];
      if Truthy(entries[i].val) {
        form := form + [TextEntry(entries[i].key, entries[i].val)];
      }
      i := i + 1;
    }
    assert entries[..i] == entries;
  }

  /** Keeping fields respects order: the fields kept from `a + b` are those
      kept from `a` followed by those kept from `b`. */
  lemma {:induction false} KeptFieldsAppend(a: seq<Field>, b: seq<Field>)
    ensures KeptFields(a + b) == KeptFields(a) + KeptFields(b)
  {
    if b == [] {
      assert a + b == a;
    } else {
      var init := b[..|b| - 1];
      assert (a + b)[..|a + b| - 1] == a + init;
      assert (a + b)[|a + b| - 1] == b[|b| - 1];
      KeptFieldsAppend(a, init);
    }
  }

  /** The keys and values `for (const key in body)` visits: the fields of an
      object, the indices of an array or a string; nothing for any other value. */
  function ForInEntries(body: Value): (r: seq<Field>)
    ensures body.Obj? ==> r == body.fields
    ensures body.Arr? ==> |r| == |body.items| && forall i :: 0 <= i < |r| ==> r[i].val == body.items[i]
    ensures body.Str? ==> |r| == |body.s| && forall i :: 0 <= i < |r| ==> r[i].val == Str([body.s[i]])
    ensures !body.Obj? && !body.Arr? && !body.Str? ==> r == []
    ensures forall i :: 0 <= i < |r| && !body.Obj? ==> r[i].key == NatToString(i)
    ensures forall i :: 0 <= i < |r| && !body.Obj? ==> ParseInt(r[i].key) == Some(i)
  {
    assert forall i: nat :: ParseInt(NatToString(i)) == Some(i as int) by {
      forall i: nat ensures ParseInt(NatToString(i)) == Some(i as int) {
        ParseIntNatToString(i);
      }
    }
    match body
    case Obj(fs) => fs
    case Arr(items) => seq(|items|, i requires 0 <= i < |items| => Field(NatToString(i), items[i]))
    case Str(s) => seq(|s|, i requires 0 <= i < |s| => Field(NatToString(i), Str([s[i]])))
    case _ => []
  }

  /** The form for a multipart upload: the file under `'file'`, or nothing. */
  function FileFields(file: Option<File>): (r: seq<FormEntry>)
    ensures r != [] <==> file.Some?
    ensures |r| <= 1
    ensures forall e :: e in r ==> e.FileEntry? && e.name == "file" && e.file == file.value && e.filename == e.file.name
  {
    match file
    case Some(f) => [FileEntry("file", f, f.name)]
    case None => []
  }

  // ---------------------------------------------------------------------------
  // Content-Range

  /** `parseInt(contentRange.split('/').pop(), 10) || count`. */
  function ListTotal(contentRange: string, count: nat): (total: int)
    ensures total == 0 ==> count == 0
    ensures ParseInt(LastSegment(contentRange, '/')).None? ==> total == count
  {
    match ParseInt(LastSegment(contentRange, '/'))
    case Some(n) => if n != 0 then n else count
    case None => count
  }

  /** The value of a Content-Range header as section 14.4 of RFC 9110 lays it
      out: `unit first-last/complete` with a known or unknown (`*`) complete
      length, or `unit *` followed by `/complete` for an unsatisfied range. */
  datatype ContentRange =
    | Satisfied(unit: string, first: nat, last: nat, complete: Option<nat>)
    | Unsatisfied(unit: string, length: nat)

  /** The part before the slash: `unit first-last`, or `unit *`. */
  function RangeHead(c: ContentRange): string {
    match c
    case Satisfied(unit, first, last, _) => unit + " " + NatToString(first) + "-" + NatToString(last)
    case Unsatisfied(unit, _) => unit + " *"
  }

  /** The part after the slash: the complete length, or `*` when unknown. */
  function CompleteText(c: ContentRange): string {
    match c
    case Satisfied(_, _, _, complete) => if complete.Some? then NatToString(complete.value) else "*"
    case Unsatisfied(_, length) => NatToString(length)
  }

  function FormatContentRange(c: ContentRange): string {
    RangeHead(c) + "/" + CompleteText(c)
  }

  /** The complete length written in a Content-Range, when it is known. */
  function CompleteLength(c: ContentRange): Option<nat> {
    match c
    case Satisfied(_, _, _, complete) => complete
    case Unsatisfied(_, length) => Some(length)
  }

  /** The total read from a well-formed Content-Range is its complete length;
      an unknown or zero complete length gives the number of items instead. */
  lemma ListTotalOfContentRange(c: ContentRange, count: nat)
    ensures ListTotal(FormatContentRange(c), count) ==
      if CompleteLength(c).Some? && CompleteLength(c).value != 0 then CompleteLength(c).value else count
  {
    var tail := CompleteText(c);
    if CompleteLength(c).Some? {
      assert tail == NatToString(CompleteLength(c).value);
      assert forall i :: 0 <= i < |tail| ==> IsDigit(tail[i]);
      ParseIntNatToString(CompleteLength(c).value);
    } else {
      assert tail == "*";
    }
    assert '/' !in tail;
    assert FormatContentRange(c) == RangeHead(c) + ['/'] + tail;
    LastSegmentAfterSeparator(RangeHead(c), '/', tail);
  }

  /** `headers.get(name)` on a response header object, `null` when absent. */
  function GetHeader(m: map<string, string>, name: string): Option<string> {
    if name in m then Some(m[name]) else None
  }

  /** `[get('content-type'), get('Content-Type')].includes('application/octet-stream')`;
      without a header object both lookups give `undefined`. */
  predicate IsOctetStream(headers: Option<map<string, string>>)
    ensures IsOctetStream(headers) ==> headers.Some? && OCTET_STREAM_CONTENT_TYPE in headers.value.Values
    ensures headers.Some? && "content-type" !in headers.value && "Content-Type" !in headers.value ==> !IsOctetStream(headers)
  {
    headers.Some? &&
    (GetHeader(headers.value, "content-type") == Some(OCTET_STREAM_CONTENT_TYPE) ||
     GetHeader(headers.value, "Content-Type") == Some(OCTET_STREAM_CONTENT_TYPE))
  }

  // ---------------------------------------------------------------------------
  // The service

  class DefaultNetworkRequestService {
    const baseUrl: Option<string>
    const headers: Record
    const noAuthPaths: Option<seq<string>>
    const getListVariant: Option<GetListVariant>
    /** `App.TIMEZONE` and the string form of `App.TIMEZONE_OFFSET`. */
    const timezone: string
    const timezoneOffset: string
    var authToken: Option<AuthToken>

    /** The configured headers form an object, so their keys are distinct. */
    ghost predicate Valid() {
      DistinctNames(headers)
    }

    constructor (baseUrl: Option<string>, headers: Record, noAuthPaths: Option<seq<string>>,
                 getListVariant: Option<GetListVariant>, timezone: string, timezoneOffset: string)
      requires DistinctNames(headers)
      ensures Valid()
      ensures this.baseUrl == baseUrl && this.headers == headers && this.noAuthPaths == noAuthPaths
      ensures this.getListVariant == getListVariant
      ensures this.timezone == timezone && this.timezoneOffset == timezoneOffset
      ensures authToken == None
    {
      this.baseUrl := baseUrl;
      this.headers := headers;
      this.noAuthPaths := noAuthPaths;
      this.getListVariant := getListVariant;
      this.timezone := timezone;
      this.timezoneOffset := timezoneOffset;
      authToken := None;
    }

    /** `getRequestAuthorizationHeader`: the in-memory token, when one was set,
        decides alone, even when its value is empty; storage is read only when
        no token was set. */
    function AuthorizationHeader(stored: Option<AuthToken>): (r: Result<string>)
      reads this
      ensures authToken.Some? ==> r == TokenCredentials(authToken.value)
      ensures authToken.None? && stored.Some? ==> r == TokenCredentials(stored.value)
      ensures authToken.None? && stored.None? ==> r == Fail(Unauthenticated)
      ensures r.Fail? ==> r.error == Unauthenticated
      ensures r.Ok? ==> exists t :: (authToken == Some(t) || (authToken.None? && stored == Some(t)))
                                 && t.value != [] && r.value == Scheme(t.tokenType) + " " + t.value
    {
      var token := if authToken.Some? then authToken else stored;
      match token
      case None => Fail(Unauthenticated)
      case Some(t) => TokenCredentials(t)
    }

    method SetAuthToken(tokenType: Option<string>, value: string)
      modifies this
      ensures authToken == Some(AuthToken(tokenType, value))
      ensures forall stored :: AuthorizationHeader(stored) ==
                               (if value == [] then Fail(Unauthenticated)
                                else Ok(Scheme(tokenType) + " " + value))
    {
      authToken := Some(AuthToken(tokenType, value));
    }

    predicate IsNoAuthPath(resource: string)
      ensures IsNoAuthPath(resource) ==> noAuthPaths.Some?
      ensures noAuthPaths.Some? && resource !in noAuthPaths.value ==> !IsNoAuthPath(resource)
    {
      noAuthPaths.Some? && resource in noAuthPaths.value
    }

    /** The timezone headers with the configured headers spread over them. */
    function DefaultHeaders(): (r: Record)
      requires Valid()
      ensures DistinctNames(r)
      ensures |r| >= 2 && r[0].name == "Timezone" && r[1].name == "Timezone-Offset"
      ensures forall k :: Lookup(r, k) ==
                          (if k in Names(headers) then Lookup(headers, k)
                           else if k == "Timezone" then Some(timezone)
                           else if k == "Timezone-Offset" then Some(timezoneOffset)
                           else None)
    {
      var base := [Header("Timezone", timezone), Header("Timezone-Offset", timezoneOffset)];
      assert Names(base[1..]) == {"Timezone-Offset"} by {
        assert base[1..][1..] == [];
      }
      assert DistinctNames(base) by {
        assert base[1..][1..] == [];
      }
      forall k ensures Lookup(Spread(base, headers), k) ==
        if k in Names(headers) then Lookup(headers, k) else Lookup(base, k)
      {
        SpreadLookup(base, headers, k);
      }
      Spread(base, headers)
    }

    /** `getRequestHeader`: the default headers alone for a resource on the
        no-auth list, otherwise the default headers with the token-derived
        Authorization put over them, or the 401 error. */
    function RequestHeader(resource: string, stored: Option<AuthToken>): (r: Result<Record>)
      requires Valid()
      reads this
      ensures IsNoAuthPath(resource) ==> r == Ok(DefaultHeaders())
      ensures !IsNoAuthPath(resource) ==> (r.Fail? <==> AuthorizationHeader(stored).Fail?)
      ensures r.Fail? ==> r.error == Unauthenticated
      ensures !IsNoAuthPath(resource) && r.Ok? ==>
        && Lookup(r.value, "Authorization") == Some(AuthorizationHeader(stored).value)
        && (forall k :: k != "Authorization" ==> Lookup(r.value, k) == Lookup(DefaultHeaders(), k))
      ensures r.Ok? ==> DistinctNames(r.value)
    {
      var defaults := DefaultHeaders();
      if IsNoAuthPath(resource) then Ok(defaults)
      else
        match AuthorizationHeader(stored)
        case Fail(e) => Fail(e)
        case Ok(auth) => Ok(Put(defaults, "Authorization", auth))
    }

    /** `getRequestProps`: the request headers and the body, encoded by body type. */
    method GetRequestProps(resource: string, bodyType: Option<BodyType>, body: Value,
                           file: Option<File>, stored: Option<AuthToken>)
      returns (r: Result<RequestProps>)
      requires Valid()
      ensures RequestHeader(resource, stored).Fail? ==> r == Fail(RequestHeader(resource, stored).error)
      ensures RequestHeader(resource, stored).Ok? ==> r.Ok?
      ensures r.Ok? && bodyType == Some(FormUrlEncoded) ==>
        r.value == RequestProps(
          Put(RequestHeader(resource, stored).value, "Content-Type", FORM_URL_ENCODED_CONTENT_TYPE),
          Form(KeptFields(ForInEntries(body))))
      ensures r.Ok? && bodyType == Some(FormData) ==>
        r.value == RequestProps(RequestHeader(resource, stored).value, Form(FileFields(file)))
      ensures r.Ok? && bodyType != Some(FormUrlEncoded) && bodyType != Some(FormData) ==>
        r.value == RequestProps(
          Put(RequestHeader(resource, stored).value, "Content-Type", JSON_CONTENT_TYPE),
          Plain(body))
    {
      var h := RequestHeader(resource, stored);
      if h.Fail? {
        return Fail(h.error);
      }
      var headers := h.value;
      var props := RequestProps(headers, Plain(body));
      match bodyType {
        case Some(FormUrlEncoded) =>
          props := props.(headers := Put(headers, "Content-Type", FORM_URL_ENCODED_CONTENT_TYPE));
          var form := AppendTruthyFields(ForInEntries(body));
          props := props.(body := Form(form));
        case Some(FormData) =>
          props := props.(headers := headers);
          var form: seq<FormEntry> := [];
          if file.Some? {
            form := form + [FileEntry("file", file.value, file.value.name)];
          }
          assert form == FileFields(file);
          props := props.(body := Form(form));
        case _ =>
          props := props.(headers := Put(headers, "Content-Type", JSON_CONTENT_TYPE), body := Plain(body));
      }
      r := Ok(props);
    }

    /** `convertResponse`: list operations get an array and, under the
        Content-Range variant, a total; every other operation passes `data`
        through. Of the two header lookups only `get('content-range')` takes
        effect, since the second indexes the `get` function itself. */
    function ConvertResponse(data: Value, responseHeaders: Option<map<string, string>>, t: RequestType)
      : (r: Result<Converted>)
      ensures !IsListType(t) ==> r == Ok(Converted(data, None))
      ensures IsListType(t) && r.Ok? && data.Arr? ==> r.value.data == data
      ensures IsListType(t) && r.Ok? && !data.Arr? ==> r.value.data == Arr([data])
      ensures r.Fail? <==>
        && IsListType(t) && getListVariant == Some(ContentRangeHeader)
        && (responseHeaders.None? || GetHeader(responseHeaders.value, "content-range") in {None, Some("")})
      ensures r.Fail? ==> r.error == if responseHeaders.None? then TypeError else MissingContentRange
      ensures r.Ok? ==> (r.value.total.Some? <==> IsListType(t) && getListVariant == Some(ContentRangeHeader))
      ensures r.Ok? && r.value.total.Some? ==>
        r.value.total.value ==
          ListTotal(responseHeaders.value["content-range"], |r.value.data.items|)
    {
      if IsListType(t) then
        var items := if data.Arr? then data.items else [data];
        if getListVariant == Some(ContentRangeHeader) then
          match responseHeaders
          case None => Fail(TypeError)
          case Some(m) =>
            match GetHeader(m, "content-range")
            case None => Fail(MissingContentRange)
            case Some(contentRange) =>
              if contentRange == [] then Fail(MissingContentRange)
              else Ok(Converted(Arr(items), Some(ListTotal(contentRange, |items|))))
        else Ok(Converted(Arr(items), None))
      else Ok(Converted(data, None))
    }

    /** `doRequest`: validates the base URL, sends the request through the
        transport, which answers with `response`, and normalises the answer.
        `sent` is what reached the transport; `None` when nothing was sent. */
    method DoRequest(baseUrlOverride: Option<string>, t: RequestType, httpMethod: HttpMethod,
                     paths: seq<string>, body: Option<RequestBody>, headers: Option<Record>,
                     query: Value, response: Response)
      returns (sent: Option<SentRequest>, r: Result<Converted>)
      ensures var url := if baseUrlOverride.Some? then baseUrlOverride else baseUrl;
        && (sent.None? <==> url.None? || url.value == [])
        && (sent.Some? ==> sent.value == SentRequest(url.value, paths, httpMethod, query,
                                                      if httpMethod == GET then None else body, headers))
      ensures sent.None? ==> r == Fail(InvalidBaseUrl)
      ensures sent.Some? && Truthy(Property(response.json, "error")) ==>
        r == Fail(RemoteError(Property(response.json, "error")))
      ensures sent.Some? && !Truthy(Property(response.json, "error")) && response.status == 204 ==>
        r == ConvertResponse(Obj([]), response.headers, t)
      ensures sent.Some? && !Truthy(Property(response.json, "error")) && response.status != 204
              && IsOctetStream(response.headers) ==>
        r == ConvertResponse(BlobData(response.blob), response.headers, t)
      ensures sent.Some? && !Truthy(Property(response.json, "error")) && response.status != 204
              && !IsOctetStream(response.headers) ==>
        r == ConvertResponse(response.json, response.headers, t)
    {
      var url := if baseUrlOverride.Some? then baseUrlOverride else baseUrl;
      if url.None? || url.value == [] {
        return None, Fail(InvalidBaseUrl);
      }
      sent := Some(SentRequest(url.value, paths, httpMethod, query,
                               if httpMethod == GET then None else body, headers));
      var json := response.json;
      var error := Property(json, "error");
      if Truthy(error) {
        return sent, Fail(RemoteError(error));
      }
      var data := Obj([]);
      if response.status == 204 {
        data := Obj([]);
      } else if IsOctetStream(response.headers) {
        data := BlobData(response.blob);
      } else {
        data := json;
      }
      r := ConvertResponse(data, response.headers, t);
    }
  }

  /** The example of a single record fetched as a list: `{ id: 1 }` with
      `Content-Range: items 0-0/1` becomes `{ data: [{ id: 1 }], total: 1 }`. */
  lemma SingleRecordList(s: DefaultNetworkRequestService)
    requires s.getListVariant == Some(ContentRangeHeader)
    ensures var record := Obj([Field("id", Num(1))]);
      var contentRange := FormatContentRange(Satisfied("items", 0, 0, Some(1)));
      s.ConvertResponse(record, Some(map["content-range" := contentRange]), GetList)
        == Ok(Converted(Arr([record]), Some(1)))
  {
    var c := Satisfied("items", 0, 0, Some(1));
    assert FormatContentRange(c) != [];
    ListTotalOfContentRange(c, 1);
  }
}
