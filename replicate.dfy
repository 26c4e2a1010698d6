/** The response validator of `ReplicateUploadAPI`
    (fastCloud/core/api_providers/replicate.py): only `200 OK` is a success,
    and the file URL is the truthy value at `urls.get` of the JSON body. */
module ReplicateApi {
  import opened Common
  import opened Http

  /** The upload endpoint the constructor defaults to. */
  const ReplicateEndpoint := "https://api.replicate.com/v1/files"

  /** `data.get("urls", {})`: the `urls` member, or an empty object when it is absent. */
  function UrlsMember(fields: map<string, Json>): Json {
    if "urls" in fields then fields["urls"] else JObject(map[])
  }

  /** `_process_upload_response`: any status but 200 raises; the body must be
      a JSON object whose `urls` member, when present, is an object; a falsy
      or missing `get` member raises. */
  function ParseReplicateResponse(response: Response): (r: Result<Json>)
    ensures response.status != 200 ==> r.Err? && r.error.UploadFailed?
    ensures r.Ok? <== && response.status == 200
                      && response.json.Some? && response.json.value.JObject?
                      && "urls" in response.json.value.fields
                      && response.json.value.fields["urls"].JObject?
                      && "get" in response.json.value.fields["urls"].fields
                      && JsonTruthy(response.json.value.fields["urls"].fields["get"])
    ensures r.Ok? ==> && response.status == 200
                      && response.json.Some? && response.json.value.JObject?
                      && "urls" in response.json.value.fields
                      && response.json.value.fields["urls"].JObject?
                      && "get" in response.json.value.fields["urls"].fields
                      && r.value == response.json.value.fields["urls"].fields["get"]
                      && JsonTruthy(r.value)
  {
    if response.status != 200 then
      Err(UploadFailed("Failed to upload to Replicate. " + ResponseText(response.content)))
    else
      match BodyFields(response)
      case Err(e) => Err(e)
      case Ok(fields) =>
        match UrlsMember(fields)
        case JObject(urls) =>
          var fileUrl := GetOrNull(urls, "get");
          if !JsonTruthy(fileUrl) then Err(UploadFailed("Failed to get file URL from Replicate response."))
          else Ok(fileUrl)
        case _ => Err(AttributeError)
  }

  /** The body Replicate answers an upload with: `{"urls": {"get": url}}`. */
  function FileBody(url: string): Json {
    JObject(map["urls" := JObject(map["get" := JStr(url)])])
  }

  /** A `200 OK` carrying a non-empty file URL at `urls.get` yields exactly that URL. */
  lemma ReplicateAcceptsFileUrl(url: string, content: Bytes)
    requires url != ""
    ensures ParseReplicateResponse(Response(200, content, Some(FileBody(url)))) == Ok(JStr(url))
  {
    var fields := FileBody(url).fields;
    assert UrlsMember(fields) == JObject(map["get" := JStr(url)]);
  }

  /** Whether a file URL comes back, and which, depends on the status and the
      decoded body only; the raw body shows only in the message of a
      rejected status. */
  lemma ReplicateIgnoresRawBody(status: int, a: Bytes, b: Bytes, json: Option<Json>)
    ensures var ra, rb := ParseReplicateResponse(Response(status, a, json)), ParseReplicateResponse(Response(status, b, json));
            && ra.Ok? == rb.Ok?
            && (ra.Ok? ==> ra.value == rb.value)
            && (status == 200 ==> ra == rb)
  {
    assert BodyFields(Response(status, a, json)) == BodyFields(Response(status, b, json));
  }

  /** A rejected status reports the raw body as text, as Python formats it. */
  lemma ReplicateRejectionQuotesBody(status: int, content: Bytes, json: Option<Json>)
    requires status != 200
    ensures var r := ParseReplicateResponse(Response(status, content, json));
            && r.Err? && r.error.UploadFailed?
            && |r.error.reason| == |"Failed to upload to Replicate. "| + |content|
            && r.error.reason[|"Failed to upload to Replicate. "|..] == ResponseText(content)
  {
    var prefix := "Failed to upload to Replicate. ";
    assert (prefix + ResponseText(content))[|prefix|..] == ResponseText(content);
  }

  /** A body without `urls`, or whose `urls` has no `get`, raises instead of
      giving `None`. */
  lemma ReplicateMissingUrlRaises(content: Bytes, fields: map<string, Json>)
    requires "urls" !in fields || (fields["urls"].JObject? && "get" !in fields["urls"].fields)
    ensures ParseReplicateResponse(Response(200, content, Some(JObject(fields)))).Err?
  {
  }

  /** An empty file URL raises too: every success is truthy. */
  lemma ReplicateEmptyUrlRaises(content: Bytes)
    ensures ParseReplicateResponse(Response(200, content, Some(FileBody("")))) == Err(UploadFailed("Failed to get file URL from Replicate response."))
  {
    var fields := FileBody("").fields;
    assert UrlsMember(fields) == JObject(map["get" := JStr("")]);
  }
}
