/**
 * The client's API wrapper: request headers, error messages, query strings,
 * endpoint paths and the body chosen for tool uploads.
 */
module ApiClient {
  import opened Wrappers
  import Text
  import ClientUtils

  const ContentType: string := "Content-Type"
  const Authorization: string := "Authorization"
  const JsonType: string := "application/json"

  /** A request body: none, a JSON string, or multipart form fields. */
  datatype Body = NoBody | JsonText(text: string) | Form(fields: seq<(string, string)>)

  /** A header is set when it is present with a non-empty value. */
  predicate HeaderSet(h: map<string, string>, k: string)
  {
    k in h && h[k] != ""
  }

  /**
   * `APIClient.request` up to the `fetch`: the URL is the base followed by
   * the endpoint; the caller's headers are copied, a JSON content type is
   * added unless the body is form data or the caller set one, and a bearer
   * token is added when one is given.
   */
  method Prepare(baseUrl: string, endpoint: string, given: map<string, string>, body: Body, token: Option<string>)
    returns (url: string, headers: map<string, string>)
    ensures url == baseUrl + endpoint
    ensures forall k :: k in given && k != ContentType && k != Authorization ==> k in headers && headers[k] == given[k]
    ensures headers.Keys <= given.Keys + {ContentType, Authorization}
    ensures !body.Form? && !HeaderSet(given, ContentType) ==> ContentType in headers && headers[ContentType] == JsonType
    ensures body.Form? || HeaderSet(given, ContentType) ==>
      (ContentType in headers <==> ContentType in given) && (ContentType in given ==> headers[ContentType] == given[ContentType])
    ensures Given(token) ==> Authorization in headers && headers[Authorization] == "Bearer " + token.value
    ensures !Given(token) ==>
      (Authorization in headers <==> Authorization in given) && (Authorization in given ==> headers[Authorization] == given[Authorization])
  {
    headers := given;
    if !body.Form? && !HeaderSet(headers, ContentType) {
      headers := headers[ContentType := JsonType];
    }
    if Given(token) {
      headers := headers[Authorization := "Bearer " + token.value];
    }
    url := baseUrl + endpoint;
  }

  /** What a failed response's body parsed to: nothing parsable, JSON `null`, or a JSON value. */
  datatype ErrorBody =
    | Unparsable
    | JsonNull
      /** `detail` is the value's truthy `detail` field, if any; `serialized` is `JSON.stringify` of the value. */
    | JsonValue(detail: Option<string>, serialized: string)

  /** The error thrown for a failed response: a message, or a TypeError when the body is `null`. */
  datatype Failure = Message(text: string) | TypeError

  /**
   * The message of the error `request` throws: `detail` when present, else
   * the whole serialised body; "Request failed" when the body does not
   * parse. Reading `detail` of a `null` body throws a TypeError instead.
   */
  function ErrorMessage(body: ErrorBody, status: string): (f: Failure)
    ensures body.Unparsable? ==> f == Message("Request failed")
    ensures body.JsonNull? ==> f == TypeError
    ensures body.JsonValue? && Given(body.detail) ==> f == Message(body.detail.value)
    ensures body.JsonValue? && !Given(body.detail) && body.serialized != "" ==> f == Message(body.serialized)
    ensures f.Message? ==> f.text != "" || (body.JsonValue? && body.serialized == "" && status == "")
  {
    match body
    case Unparsable => Message("Request failed")
    case JsonNull => TypeError
    case JsonValue(detail, serialized) =>
      if Given(detail) then Message(detail.value)
      else if serialized != "" then Message(serialized)
      else Message("HTTP " + status)
  }

  /** `URLSearchParams(params).toString()`, without percent-encoding. */
  function Encode(params: seq<(string, string)>): (q: string)
    ensures params == [] <==> q == ""
    ensures params != [] ==> Text.StartsWith(q, params[0].0 + "=" + params[0].1)
  {
    if params == [] then ""
    else
      var first := params[0].0 + "=" + params[0].1;
      if |params| == 1 then first else first + "&" + Encode(params[1..])
  }

  /** `params ? '?' + … : ''`: a query string whenever params are given, even empty ones. */
  function Query(params: Option<seq<(string, string)>>): (q: string)
    ensures params.None? <==> q == ""
    ensures params.Some? ==> Text.StartsWith(q, "?") && q[1..] == Encode(params.value)
    ensures params == Some([]) ==> q == "?"
  {
    if params.Some? then "?" + Encode(params.value) else ""
  }

  /**
   * `getTools` / `getShops`: the listing of `collection` ("tools" or
   * "shops"), with the query string when params are given.
   */
  function ListPath(collection: string, params: Option<seq<(string, string)>>): (p: string)
    ensures Text.StartsWith(p, "/api/" + collection + "/") && p[|"/api/" + collection + "/"|..] == Query(params)
    ensures params.None? ==> p == "/api/" + collection + "/"
  {
    "/api/" + collection + "/" + Query(params)
  }

  /** The radius a nearby lookup uses when the caller gives none. */
  const DefaultRadius: string := "10"

  /** `getNearbyTools` / `getNearbyShops`: `collection` is "tools" or "shops"; numbers are already formatted. */
  function NearbyPath(collection: string, lat: string, lng: string, radius: Option<string>): (p: string)
    ensures radius.None? ==> p == "/api/" + collection + "/nearby/?lat=" + lat + "&lng=" + lng + "&radius=10"
    ensures Text.EndsWith(p, "&radius=" + radius.GetOr(DefaultRadius))
  {
    var p := "/api/" + collection + "/nearby/?lat=" + lat + "&lng=" + lng + "&radius=" + radius.GetOr(DefaultRadius);
    assert p[|p| - |"&radius=" + radius.GetOr(DefaultRadius)|..] == "&radius=" + radius.GetOr(DefaultRadius);
    p
  }

  /** The data handed to `createTool`/`updateTool`: a FormData or a plain object, given as its JSON text. */
  datatype ToolData = FormData(fields: seq<(string, string)>) | PlainObject(json: string)

  /**
   * `createTool` (no `id`) and `updateTool`: form data is sent unchanged
   * with no headers of its own, so no content type is set and the browser
   * supplies the multipart one; an object is sent as JSON with the JSON
   * content type.
   */
  method ToolRequest(baseUrl: string, token: string, id: Option<string>, data: ToolData)
    returns (url: string, headers: map<string, string>, body: Body)
    ensures id.None? ==> url == baseUrl + "/api/tools/"
    ensures id.Some? ==> url == baseUrl + "/api/tools/" + id.value + "/"
    ensures data.FormData? ==> body == Form(data.fields) && ContentType !in headers
    ensures data.PlainObject? ==> body == JsonText(data.json) && ContentType in headers && headers[ContentType] == JsonType
    ensures token != "" ==> Authorization in headers && headers[Authorization] == "Bearer " + token
  {
    var given: map<string, string>;
    if data.FormData? {
      body := Form(data.fields);
      given := map[];
    } else {
      body := JsonText(data.json);
      given := map[ContentType := JsonType];
    }
    var endpoint := if id.Some? then "/api/tools/" + id.value + "/" else "/api/tools/";
    url, headers := Prepare(baseUrl, endpoint, given, body, Some(token));
  }

  /** A list response: a bare array, or a page whose `results` may be missing. */
  datatype Listing<T> = Items(items: seq<T>) | Page(results: Option<seq<T>>)

  /** `Array.isArray(data) ? data : data.results || []`. */
  function Normalise<T>(l: Listing<T>): (r: seq<T>)
    ensures l.Items? ==> r == l.items
    ensures l.Page? && l.results.Some? ==> r == l.results.value
    ensures l.Page? && l.results.None? ==> r == []
  {
    match l
    case Items(items) => items
    case Page(results) => if results.Some? then results.value else []
  }
}
