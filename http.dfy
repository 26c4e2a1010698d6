/** The HTTP side of the system, as plain values: JSON bodies, requests,
    responses and headers, and the HTTP client collaborator as an object
    that records every request it is asked to send. */
module Http {
  import opened Common

  /** A decoded JSON body (numbers restricted to integers). */
  datatype Json =
    | JNull
    | JBool(b: bool)
    | JInt(i: int)
    | JStr(s: string)
    | JArray(items: seq<Json>)
    | JObject(fields: map<string, Json>)

  /** Python truthiness of a decoded JSON value. */
  predicate JsonTruthy(j: Json) {
    match j
    case JNull => false
    case JBool(b) => b
    case JInt(i) => i != 0
    case JStr(s) => s != ""
    case JArray(items) => items != []
    case JObject(fields) => fields != map[]
  }

  /** Python's `d.get(key)` on a JSON object: the value, or `None` (here `JNull`). */
  function GetOrNull(fields: map<string, Json>, key: string): Json {
    if key in fields then fields[key] else JNull
  }

  /** The body as a JSON object, the way `response.json().get(...)` needs it:
      a body that does not decode raises `JSONDecodeError`, and a decoded
      value that is not an object has no `.get` and raises `AttributeError`. */
  function BodyFields(response: Response): (r: Result<map<string, Json>>)
    ensures response.json.None? ==> r == Err(JsonDecodeError)
    ensures response.json.Some? && !response.json.value.JObject? ==> r == Err(AttributeError)
    ensures r.Ok? <==> response.json.Some? && response.json.value.JObject?
  {
    match response.json
    case None => Err(JsonDecodeError)
    case Some(JObject(fields)) => Ok(fields)
    case Some(_) => Err(AttributeError)
  }

  /** A request answered with `201 Created` (section 15.3.2 of RFC 9110);
      `None` stands for a request that raised instead. */
  predicate Created(response: Option<Response>) {
    response.Some? && response.value.status == 201
  }

  type Headers = map<string, string>

  /** A multipart form part: the field name and the file sent under it. */
  datatype FormPart = FormPart(field: string, file: MediaFile)

  datatype Request =
    | Post(url: string, headers: Headers, form: Option<FormPart>, timeout: Option<int>)
    | Put(url: string, headers: Headers, content: Bytes)
    | Get(url: string, headers: Headers)

  /** A file argument of the REST adapters, as annotated: a `MediaFile`, or
      raw `bytes`, an `io.BytesIO` or a path `str`, which those adapters pass
      on unconverted and which have no `MediaFile` methods. */
  datatype UploadInput = MediaInput(file: MediaFile) | BytesInput(data: Bytes) | StreamInput(data: Bytes) | PathInput(path: string)

  /** A response: the status code, the raw body, and the body decoded as JSON
      (`None` when `response.json()` would raise). */
  datatype Response = Response(status: int, content: Bytes, json: Option<Json>)

  /** `response.text`, taken as decoding each byte as the character with its
      code (ISO-8859-1); httpx decodes with the Content-Type charset, or else
      its default encoding. */
  function ResponseText(content: Bytes): (text: string)
    ensures |text| == |content|
    ensures forall k :: 0 <= k < |content| ==> text[k] as int == content[k] as int
  {
    seq(|content|, k requires 0 <= k < |content| => (content[k] as int) as char)
  }

  /** The HTTP client collaborator. `reply` is the remote side: the response a
      request receives, or `None` when the client raises instead (connection
      failure, timeout, a URL it cannot send to). `sent` is the request trace. */
  class Transport {
    const reply: Request -> Option<Response>
    var sent: seq<Request>

    constructor (reply: Request -> Option<Response>)
      ensures this.reply == reply && sent == []
    {
      this.reply := reply;
      sent := [];
    }

    /** Issue one request: it is appended to the trace and answered by `reply`. */
    method Send(request: Request) returns (response: Option<Response>)
      modifies this
      ensures sent == old(sent) + [request]
      ensures response == reply(request)
    {
      sent := sent + [request];
      response := reply(request);
    }
  }
}
