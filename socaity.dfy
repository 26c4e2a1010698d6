/** The response validator and the direct PUT of `SocaityUploadAPI`
    (fastCloud/core/api_providers/socaity.py): `200` and `201` both count
    as success, and the upload URL is read without being checked. */
module SocaityApi {
  import opened Common
  import opened Http
  import ReplicateApi

  /** The upload endpoint the constructor defaults to. */
  const SocaityEndpoint := "https://socaity.ai.api/v1/files"

  /** The headers of the PUT to the temporary URL: a block blob, and no
      overwriting of an existing one. */
  const TempUploadHeaders: Headers := map["x-ms-blob-type" := "BlockBlob", "x-ms-if-none-match" := "*"]

  /** `_process_upload_response`: a status other than 200 or 201 raises;
      otherwise the body's `upload_url`, `None` (here `JNull`) when absent. */
  function ParseSocaityResponse(response: Response): (r: Result<Json>)
    ensures response.status != 200 && response.status != 201 ==> r.Err? && r.error.UploadFailed?
    ensures r.Ok? <==> && (response.status == 200 || response.status == 201)
                       && response.json.Some? && response.json.value.JObject?
    ensures r.Ok? ==> r.value == if "upload_url" in response.json.value.fields
                                 then response.json.value.fields["upload_url"] else JNull
  {
    if response.status != 200 && response.status != 201 then
      Err(UploadFailed("Failed to get temporary upload URL"))
    else
      match BodyFields(response)
      case Err(e) => Err(e)
      case Ok(fields) => Ok(GetOrNull(fields, "upload_url"))
  }

  /** An object body without `upload_url` is a success carrying `None`. */
  lemma SocaityMissingUrlIsNull(status: int, content: Bytes, fields: map<string, Json>)
    requires status == 200 || status == 201
    requires "upload_url" !in fields
    ensures ParseSocaityResponse(Response(status, content, Some(JObject(fields)))) == Ok(JNull)
  {
  }

  /** The Socaity validator is the more lenient of the two: every response
      the Replicate validator accepts, it accepts too. */
  lemma ReplicateStricterThanSocaity(response: Response)
    requires ReplicateApi.ParseReplicateResponse(response).Ok?
    ensures ParseSocaityResponse(response).Ok?
  {
  }

  /** And strictly so: `201 Created` with an empty object is a Socaity success
      (with `None`) but a Replicate failure. */
  lemma LenienceExample(content: Bytes)
    ensures ParseSocaityResponse(Response(201, content, Some(JObject(map[])))) == Ok(JNull)
    ensures ReplicateApi.ParseReplicateResponse(Response(201, content, Some(JObject(map[])))).Err?
  {
  }

  /** The PUT request of the second phase: the raw file bytes to the temporary URL. */
  function TempUploadRequest(sasUrl: string, file: MediaFile): Request {
    Put(sasUrl, TempUploadHeaders, file.data)
  }

  /** The message of a rejected PUT: the URL and the response text. */
  function TempUploadFailure(sasUrl: string, response: Response): string {
    "Failed to upload to temporary URL " + sasUrl + ". Response: " + ResponseText(response.content)
  }

  /** `_upload_to_temporary_url` with the upload URL the validator returned:
      a raw file argument raises `AttributeError` at `file.to_bytes()`
      before anything is sent; a URL that is not a string is one the client
      refuses; otherwise one PUT, and any status but 201 raises with the URL
      and the response text, as does a PUT the client cannot complete. */
  method UploadToTemporaryUrl(client: Transport, sasUrl: Json, file: UploadInput) returns (r: Outcome)
    modifies client
    ensures !file.MediaInput? ==> r == Fail(AttributeError) && client.sent == old(client.sent)
    ensures file.MediaInput? && !sasUrl.JStr? ==> r == Fail(InvalidUrl) && client.sent == old(client.sent)
    ensures file.MediaInput? && sasUrl.JStr? ==>
              var put := TempUploadRequest(sasUrl.s, file.file);
              && client.sent == old(client.sent) + [put]
              && (r.Pass? <==> Created(client.reply(put)))
              && (client.reply(put).None? ==> r == Fail(TransportError))
              && (client.reply(put).Some? && r.Fail? ==>
                    r == Fail(UploadFailed(TempUploadFailure(sasUrl.s, client.reply(put).value))))
  {
    if !file.MediaInput? {
      return Fail(AttributeError);
    }
    if !sasUrl.JStr? {
      return Fail(InvalidUrl);
    }
    var response := client.Send(TempUploadRequest(sasUrl.s, file.file));
    if response.None? {
      return Fail(TransportError);
    }
    if response.value.status != 201 {
      return Fail(UploadFailed(TempUploadFailure(sasUrl.s, response.value)));
    }
    r := Pass;
  }
}
