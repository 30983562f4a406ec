/** The room API client (`RoomService`): how requests to the backend are
    shaped (query parameters of the room listing, headers, image form
    fields) and how each answer's `{ success, message, data?, error? }`
    envelope is read.

    The backend is an oracle from the request sent to the reply received.
    Query parameters are (key, value) pairs; percent-encoding, the base URL
    and the JSON text of bodies are not modelled (a body is the value that
    would be serialised). */
module RoomService {
  import opened Wrappers
  import Text
  import Lists

  // ---------------------------------------------------------------------------
  // requests and replies

  datatype Verb = Get | Post | Put | Delete

  type Param = (string, string)

  /** One request as `fetch` receives it: `fetch` defaults to GET when no
      method is given, so the listing and lookups carry `Get`. */
  datatype Request<B> = Request(
    verb: Verb,
    path: string,
    query: seq<Param>,
    headers: map<string, string>,
    body: Option<B>)

  /** The `{ success, message, data?, error? }` envelope. */
  datatype ApiResponse<R> = ApiResponse(success: bool, message: string, data: Option<R>, error: Option<string>)

  /** What `fetch` produced: nothing, or an HTTP answer whose body is `None`
      when it is not JSON. */
  datatype Reply<R> =
    | NoResponse
    | Response(ok: bool, status: int, body: Option<ApiResponse<R>>)

  type Backend<!B, R> = Request<B> -> Reply<R>

  /** The errors the service throws. */
  datatype RoomError =
    | NetworkError
    | HttpError(status: int)
    | InvalidJson
    | Rejected(message: string)

  /** The options a method hands to `makeRequest`. */
  datatype RequestInit<B> = RequestInit(verb: Verb, body: Option<B>, headers: map<string, string>)

  // ---------------------------------------------------------------------------
  // headers

  /** The stored token is usable when it exists and is not empty. */
  predicate Truthy(token: Option<string>) {
    token.Some? && token.value != ""
  }

  /** The headers `makeRequest` sends: `Content-Type: application/json`
      always, `Authorization: Bearer <token>` only for a usable stored token,
      and the caller's own headers overriding both. */
  function RequestHeaders(token: Option<string>, caller: map<string, string>): (h: map<string, string>)
    ensures h.Keys == caller.Keys + {"Content-Type"} + (if Truthy(token) then {"Authorization"} else {})
    ensures forall k :: k in caller ==> h[k] == caller[k]
    ensures "Content-Type" !in caller ==> h["Content-Type"] == "application/json"
    ensures "Authorization" !in caller ==> ("Authorization" in h <==> Truthy(token))
    ensures "Authorization" !in caller && Truthy(token) ==> h["Authorization"] == "Bearer " + token.value
  {
    var defaults := map["Content-Type" := "application/json"];
    (if Truthy(token) then defaults["Authorization" := "Bearer " + token.value] else defaults) + caller
  }

  // ---------------------------------------------------------------------------
  // reading the reply

  /** The reply carries a JSON envelope that reports success. */
  predicate Accepted<R>(reply: Reply<R>) {
    reply.Response? && reply.ok && reply.body.Some? && reply.body.value.success
  }

  /** `response.error || <fallback>`. */
  function ErrorText<R>(env: ApiResponse<R>, fallback: string): (m: string)
    ensures env.error.Some? && env.error.value != "" ==> m == env.error.value
    ensures env.error.None? || env.error.value == "" ==> m == fallback
  {
    if env.error.Some? && env.error.value != "" then env.error.value else fallback
  }

  /** What `makeRequest` hands back: the envelope, or the error it throws. */
  function Received<R>(reply: Reply<R>): Result<ApiResponse<R>, RoomError> {
    match reply
    case NoResponse => Failure(NetworkError)
    case Response(ok, status, body) =>
      if !ok then Failure(HttpError(status))
      else if body.None? then Failure(InvalidJson)
      else Success(body.value)
  }

  /** What a CRUD method makes of a reply, given its default message: a
      non-ok status fails before the body is read, an envelope with
      `success` false fails with its `error` (or the default), and an
      accepted envelope yields its `data`. */
  function Outcome<R>(reply: Reply<R>, fallback: string): (r: Result<Option<R>, RoomError>)
    ensures r.Success? <==> Accepted(reply)
    ensures r.Success? ==> r.value == reply.body.value.data
    ensures reply.NoResponse? ==> r == Failure(NetworkError)
    ensures reply.Response? && !reply.ok ==> r == Failure(HttpError(reply.status))
    ensures reply.Response? && reply.ok && reply.body.None? ==> r == Failure(InvalidJson)
    ensures reply.Response? && reply.ok && reply.body.Some? && !reply.body.value.success ==>
      r == Failure(Rejected(ErrorText(reply.body.value, fallback)))
  {
    Unwrap(Received(reply), fallback)
  }

  // ---------------------------------------------------------------------------
  // makeRequest

  /** `makeRequest`: builds the headers (mutating the defaults), sends the
      request and reads the reply. */
  method MakeRequest<B, R>(backend: Backend<B, R>, token: Option<string>, path: string, query: seq<Param>, options: RequestInit<B>)
    returns (response: Result<ApiResponse<R>, RoomError>, sent: Request<B>)
    ensures sent == Request(options.verb, path, query, RequestHeaders(token, options.headers), options.body)
    ensures response == Received(backend(sent))
  {
    var defaultHeaders := map["Content-Type" := "application/json"];
    if token.Some? && token.value != "" {
      defaultHeaders := defaultHeaders["Authorization" := "Bearer " + token.value];
    }
    sent := Request(options.verb, path, query, defaultHeaders + options.headers, options.body);
    var reply := backend(sent);
    match reply {
      case NoResponse =>
        response := Failure(NetworkError);
      case Response(ok, status, body) =>
        if !ok {
          response := Failure(HttpError(status));
        } else if body.None? {
          response := Failure(InvalidJson);
        } else {
          response := Success(body.value);
        }
    }
  }

  // ---------------------------------------------------------------------------
  // the room listing's query

  /** A filter value as `Object.entries` yields it. */
  datatype FilterValue =
    | Undefined
    | Null
    | Str(s: string)
    | Num(n: int)
    | Bool(b: bool)
    | List(items: seq<string>)

  type Entry = (string, FilterValue)

  /** `undefined`, `null` and `''` are skipped; `0` and `false` are not. */
  predicate Skipped(v: FilterValue) {
    v.Undefined? || v.Null? || v == Str("")
  }

  /** `value.toString()` of a scalar filter value (integers only). */
  function ScalarText(v: FilterValue): string
    requires !Skipped(v) && !v.List?
  {
    match v
    case Str(s) => s
    case Num(n) => Text.IntToString(n)
    case Bool(b) => if b then "true" else "false"
  }

  /** One `(key, item)` pair per item, in order. */
  function ItemPairs(key: string, items: seq<string>): (r: seq<Param>)
    ensures |r| == |items|
    ensures forall k :: 0 <= k < |items| ==> r[k] == (key, items[k])
  {
    seq(|items|, k requires 0 <= k < |items| => (key, items[k]))
  }

  /** The pairs one filter entry contributes. */
  function EntryParams(e: Entry): seq<Param> {
    var (key, value) := e;
    if Skipped(value) then []
    else if value.List? then ItemPairs(key, value.items)
    else [(key, ScalarText(value))]
  }

  /** The pairs of all filter entries, entry by entry. */
  function FilterParams(entries: seq<Entry>): seq<Param> {
    if entries == [] then []
    else FilterParams(entries[..|entries| - 1]) + EntryParams(entries[|entries| - 1])
  }

  /** The whole query of the room listing: the filters' pairs, then `page`,
      then `limit`. */
  function QueryParams(filters: Option<seq<Entry>>, page: int, limit: int): seq<Param> {
    (if filters.Some? then FilterParams(filters.value) else [])
      + [("page", Text.IntToString(page)), ("limit", Text.IntToString(limit))]
  }

  /** The query building of `getRooms`: a loop over the filter entries and,
      for a list value, over its items. */
  method BuildQuery(filters: Option<seq<Entry>>, page: int, limit: int) returns (queryParams: seq<Param>)
    ensures queryParams == QueryParams(filters, page, limit)
  {
    queryParams := [];
    if filters.Some? {
      var entries := filters.value;
      var i := 0;
      while i < |entries|
        invariant 0 <= i <= |entries|
        invariant queryParams == FilterParams(entries[..i])
      {
        var (key, value) := entries[i];
        assert entries[..i + 1][..i] == entries[..i];
        if value != Undefined && value != Null && value != Str("") {
          if value.List? {
            var j := 0;
            while j < |value.items|
              invariant 0 <= j <= |value.items|
              invariant queryParams == FilterParams(entries[..i]) + ItemPairs(key, value.items[..j])
            {
              assert ItemPairs(key, value.items[..j + 1]) == ItemPairs(key, value.items[..j]) + [(key, value.items[j])];
              queryParams := queryParams + [(key, value.items[j])];
              j := j + 1;
            }
            assert value.items[..j] == value.items;
          } else {
            queryParams := queryParams + [(key, ScalarText(value))];
          }
        }
        i := i + 1;
      }
      assert entries[..i] == entries;
    }
    queryParams := queryParams + [("page", Text.IntToString(page))];
    queryParams := queryParams + [("limit", Text.IntToString(limit))];
  }

  /** Entries contribute in entry order. */
  lemma {:induction false} FilterParamsAppend(a: seq<Entry>, b: seq<Entry>)
    ensures FilterParams(a + b) == FilterParams(a) + FilterParams(b)
  {
    if b == [] {
      assert a + b == a;
    } else {
      var b' := b[..|b| - 1];
      assert (a + b)[..|a + b| - 1] == a + b';
      assert (a + b)[|a + b| - 1] == b[|b| - 1];
      FilterParamsAppend(a, b');
    }
  }

  lemma FilterParamsSingle(e: Entry)
    ensures FilterParams([e]) == EntryParams(e)
  {
    assert [e][..0] == [];
  }

  /** An entry whose value is `undefined`, `null` or `''` adds nothing. */
  lemma SkippedEntryAddsNothing(before: seq<Entry>, key: string, value: FilterValue, after: seq<Entry>)
    requires Skipped(value)
    ensures FilterParams(before + [(key, value)] + after) == FilterParams(before) + FilterParams(after)
  {
    FilterParamsAppend(before + [(key, value)], after);
    FilterParamsAppend(before, [(key, value)]);
    FilterParamsSingle((key, value));
  }

  /** A scalar entry, `0` and `false` included, adds exactly one pair in its place. */
  lemma ScalarEntryAddsOnePair(before: seq<Entry>, key: string, value: FilterValue, after: seq<Entry>)
    requires !Skipped(value) && !value.List?
    ensures FilterParams(before + [(key, value)] + after)
      == FilterParams(before) + [(key, ScalarText(value))] + FilterParams(after)
  {
    FilterParamsAppend(before + [(key, value)], after);
    FilterParamsAppend(before, [(key, value)]);
    FilterParamsSingle((key, value));
  }

  /** A list entry adds one pair per item, in item order, in its place; an
      empty list adds nothing. */
  lemma ListEntryAddsItemPairs(before: seq<Entry>, key: string, items: seq<string>, after: seq<Entry>)
    ensures FilterParams(before + [(key, List(items))] + after)
      == FilterParams(before) + ItemPairs(key, items) + FilterParams(after)
    ensures items == [] ==> ItemPairs(key, items) == []
  {
    FilterParamsAppend(before + [(key, List(items))], after);
    FilterParamsAppend(before, [(key, List(items))]);
    FilterParamsSingle((key, List(items)));
  }

  /** Zero and false are sent, rendered as '0' and 'false'. */
  lemma ZeroAndFalseAreSent(key: string)
    ensures EntryParams((key, Num(0))) == [(key, "0")]
    ensures EntryParams((key, Bool(false))) == [(key, "false")]
  {
  }

  /** The key of every filter pair is the key of some entry. */
  lemma {:induction false} FilterParamsKeys(entries: seq<Entry>, k: nat)
    requires k < |FilterParams(entries)|
    ensures exists e :: e in entries && e.0 == FilterParams(entries)[k].0
  {
    var init := entries[..|entries| - 1];
    var last := entries[|entries| - 1];
    assert FilterParams(entries) == FilterParams(init) + EntryParams(last);
    if k < |FilterParams(init)| {
      FilterParamsKeys(init, k);
      var e :| e in init && e.0 == FilterParams(init)[k].0;
      assert e in entries;
    } else {
      assert FilterParams(entries)[k] == EntryParams(last)[k - |FilterParams(init)|];
      assert last in entries;
    }
  }

  /** `page` and `limit` are always the last two pairs, and when no filter
      key is called `page` or `limit`, each occurs exactly once. */
  lemma PageAndLimitComeLast(filters: Option<seq<Entry>>, page: int, limit: int)
    ensures var q := QueryParams(filters, page, limit);
      |q| >= 2 && q[|q| - 2] == ("page", Text.IntToString(page)) && q[|q| - 1] == ("limit", Text.IntToString(limit))
    ensures filters.Some? && (forall e :: e in filters.value ==> e.0 != "page" && e.0 != "limit") ==>
      && |Lists.Filter(QueryParams(filters, page, limit), (p: Param) => p.0 == "page")| == 1
      && |Lists.Filter(QueryParams(filters, page, limit), (p: Param) => p.0 == "limit")| == 1
    ensures filters.None? ==> QueryParams(filters, page, limit) == [("page", Text.IntToString(page)), ("limit", Text.IntToString(limit))]
  {
    if filters.Some? && (forall e :: e in filters.value ==> e.0 != "page" && e.0 != "limit") {
      var fp := FilterParams(filters.value);
      var tail := [("page", Text.IntToString(page)), ("limit", Text.IntToString(limit))];
      forall k | 0 <= k < |fp| ensures fp[k].0 != "page" && fp[k].0 != "limit" {
        FilterParamsKeys(filters.value, k);
      }
      var isPage := (p: Param) => p.0 == "page";
      var isLimit := (p: Param) => p.0 == "limit";
      Lists.FilterAppend(fp, tail, isPage);
      Lists.FilterAppend(fp, tail, isLimit);
      Lists.FilterDropsAll(fp, isPage);
      Lists.FilterDropsAll(fp, isLimit);
      assert tail == [tail[0]] + [tail[1]];
      Lists.FilterAppend([tail[0]], [tail[1]], isPage);
      Lists.FilterAppend([tail[0]], [tail[1]], isLimit);
    }
  }

  // ---------------------------------------------------------------------------
  // the CRUD methods

  const NoHeaders: map<string, string> := map[]

  /** `createRoom`: POST /rooms with the room as body. */
  method CreateRoom<B, R>(backend: Backend<B, R>, token: Option<string>, roomData: B)
    returns (result: Result<Option<R>, RoomError>, sent: Request<B>)
    ensures sent == Request(Post, "/rooms", [], RequestHeaders(token, NoHeaders), Some(roomData))
    ensures result == Outcome(backend(sent), "Error al crear el cuarto")
  {
    var response;
    response, sent := MakeRequest(backend, token, "/rooms", [], RequestInit(Post, Some(roomData), NoHeaders));
    result := Unwrap(response, "Error al crear el cuarto");
  }

  /** `getRooms`: GET /rooms with the filter query; `page` defaults to 1 and
      `limit` to 10. */
  method GetRooms<B, R>(backend: Backend<B, R>, token: Option<string>, filters: Option<seq<Entry>>, page: Option<int>, limit: Option<int>)
    returns (result: Result<Option<R>, RoomError>, sent: Request<B>)
    ensures sent == Request(Get, "/rooms", QueryParams(filters, page.GetOr(1), limit.GetOr(10)), RequestHeaders(token, NoHeaders), None)
    ensures result == Outcome(backend(sent), "Error al obtener los cuartos")
  {
    var queryParams := BuildQuery(filters, page.GetOr(1), limit.GetOr(10));
    var response;
    response, sent := MakeRequest(backend, token, "/rooms", queryParams, RequestInit(Get, None, NoHeaders));
    result := Unwrap(response, "Error al obtener los cuartos");
  }

  /** `getRoomById`: GET /rooms/<id>. */
  method GetRoomById<B, R>(backend: Backend<B, R>, token: Option<string>, id: string)
    returns (result: Result<Option<R>, RoomError>, sent: Request<B>)
    ensures sent == Request(Get, "/rooms/" + id, [], RequestHeaders(token, NoHeaders), None)
    ensures result == Outcome(backend(sent), "Error al obtener el cuarto")
  {
    var response;
    response, sent := MakeRequest(backend, token, "/rooms/" + id, [], RequestInit(Get, None, NoHeaders));
    result := Unwrap(response, "Error al obtener el cuarto");
  }

  /** `updateRoom`: PUT /rooms/<id> with the changed fields as body. */
  method UpdateRoom<B, R>(backend: Backend<B, R>, token: Option<string>, id: string, roomData: B)
    returns (result: Result<Option<R>, RoomError>, sent: Request<B>)
    ensures sent == Request(Put, "/rooms/" + id, [], RequestHeaders(token, NoHeaders), Some(roomData))
    ensures result == Outcome(backend(sent), "Error al actualizar el cuarto")
  {
    var response;
    response, sent := MakeRequest(backend, token, "/rooms/" + id, [], RequestInit(Put, Some(roomData), NoHeaders));
    result := Unwrap(response, "Error al actualizar el cuarto");
  }

  /** `deleteRoom`: DELETE /rooms/<id>; `true` whenever the envelope reports
      success, whatever its data. */
  method DeleteRoom<B, R>(backend: Backend<B, R>, token: Option<string>, id: string)
    returns (result: Result<bool, RoomError>, sent: Request<B>)
    ensures sent == Request(Delete, "/rooms/" + id, [], RequestHeaders(token, NoHeaders), None)
    ensures result.Success? <==> Accepted(backend(sent))
    ensures result.Success? ==> result.value
    ensures result.Failure? ==> result.error == Outcome(backend(sent), "Error al eliminar el cuarto").error
  {
    var response;
    response, sent := MakeRequest(backend, token, "/rooms/" + id, [], RequestInit(Delete, None, NoHeaders));
    var outcome := Unwrap(response, "Error al eliminar el cuarto");
    if outcome.Failure? {
      result := Failure(outcome.error);
    } else {
      result := Success(true);
    }
  }

  /** `getUserRooms`: GET /users/<userId>/rooms. */
  method GetUserRooms<B, R>(backend: Backend<B, R>, token: Option<string>, userId: string)
    returns (result: Result<Option<R>, RoomError>, sent: Request<B>)
    ensures sent == Request(Get, "/users/" + userId + "/rooms", [], RequestHeaders(token, NoHeaders), None)
    ensures result == Outcome(backend(sent), "Error al obtener los cuartos del usuario")
  {
    var response;
    response, sent := MakeRequest(backend, token, "/users/" + userId + "/rooms", [], RequestInit(Get, None, NoHeaders));
    result := Unwrap(response, "Error al obtener los cuartos del usuario");
  }

  /** The success check each CRUD method applies to what `makeRequest`
      returned. */
  function Unwrap<R>(response: Result<ApiResponse<R>, RoomError>, fallback: string): Result<Option<R>, RoomError> {
    match response
    case Failure(e) => Failure(e)
    case Success(env) =>
      if !env.success then Failure(Rejected(ErrorText(env, fallback))) else Success(env.data)
  }

  // ---------------------------------------------------------------------------
  // image upload

  /** The form field that carries the image at `index`. */
  function ImageFieldName(index: nat): string {
    "image_" + Text.NatToString(index)
  }

  /** Distinct positions get distinct field names. */
  lemma ImageFieldNamesDistinct(i: nat, j: nat)
    requires i != j
    ensures ImageFieldName(i) != ImageFieldName(j)
  {
    Text.NatToStringInjective(i, j);
    assert ImageFieldName(i)[6..] == Text.NatToString(i);
    assert ImageFieldName(j)[6..] == Text.NatToString(j);
  }

  /** The multipart form of `uploadRoomImages`: `image_0` ... `image_<n-1>`,
      in list order, appended one by one. */
  method ImageFields<F>(images: seq<F>) returns (formData: seq<(string, F)>)
    ensures |formData| == |images|
    ensures forall k :: 0 <= k < |images| ==> formData[k] == (ImageFieldName(k), images[k])
  {
    formData := [];
    var index := 0;
    while index < |images|
      invariant 0 <= index <= |images|
      invariant |formData| == index
      invariant forall k :: 0 <= k < index ==> formData[k] == (ImageFieldName(k), images[k])
    {
      formData := formData + [(ImageFieldName(index), images[index])];
      index := index + 1;
    }
  }

  /** `localStorage.getItem('authToken')` inside a template: a missing token
      reads 'null'. */
  function TokenText(token: Option<string>): string {
    match token
    case Some(t) => t
    case None => "null"
  }

  /** `uploadRoomImages`: POST /rooms/<roomId>/images with the images as form
      fields; it sends only an `Authorization` header, even when no token is
      stored, and reads the reply as the CRUD methods do. */
  method UploadRoomImages<F, R>(backend: Backend<seq<(string, F)>, R>, token: Option<string>, roomId: string, images: seq<F>)
    returns (result: Result<Option<R>, RoomError>, sent: Request<seq<(string, F)>>)
    ensures sent.verb == Post && sent.path == "/rooms/" + roomId + "/images" && sent.query == []
    ensures sent.headers == map["Authorization" := "Bearer " + TokenText(token)]
    ensures sent.body.Some? && |sent.body.value| == |images|
    ensures forall k :: 0 <= k < |images| ==> sent.body.value[k] == (ImageFieldName(k), images[k])
    ensures result == Outcome(backend(sent), "Error al subir las imágenes")
  {
    var formData := ImageFields(images);
    sent := Request(Post, "/rooms/" + roomId + "/images", [], map["Authorization" := "Bearer " + TokenText(token)], Some(formData));
    var reply := backend(sent);
    result := Unwrap(Received(reply), "Error al subir las imágenes");
  }
}
