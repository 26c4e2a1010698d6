/** The REST upload adapters (fastCloud/core/api_providers/i_upload_api.py
    and its two providers): a template method that POSTs the file and hands
    the response to the provider's validator, the bearer header of section
    2.1 of RFC 6750, and Socaity's two-phase non-blocking upload. */
module RestUpload {
  import opened Common
  import opened Http
  import opened ReplicateApi
  import opened SocaityApi

  /** The `Authorization` header: `Bearer` and the API key. */
  function AuthHeaders(apiKey: string): Headers {
    map["Authorization" := "Bearer " + apiKey]
  }

  /** The header carries the key and nothing else: it is the only entry, and
      the key is what follows `Bearer `. */
  lemma AuthHeadersCarryKey(apiKey: string)
    ensures AuthHeaders(apiKey).Keys == {"Authorization"}
    ensures |AuthHeaders(apiKey)["Authorization"]| == 7 + |apiKey|
    ensures AuthHeaders(apiKey)["Authorization"][..7] == "Bearer "
    ensures AuthHeaders(apiKey)["Authorization"][7..] == apiKey
  {
    var value := "Bearer " + apiKey;
    assert value[7..] == apiKey;
  }

  /** Different keys give different headers. */
  lemma AuthHeadersInjective(a: string, b: string)
    requires AuthHeaders(a) == AuthHeaders(b)
    ensures a == b
  {
    AuthHeadersCarryKey(a);
    AuthHeadersCarryKey(b);
  }

  /** The provider behind an adapter; it picks the response validator. */
  datatype Provider = Replicate | Socaity

  /** The template's hook `_process_upload_response`, dispatched on the provider. */
  function ProcessUploadResponse(provider: Provider, response: Response): (r: Result<Json>)
    ensures response.status != 200 && response.status != 201 ==> r.Err? && r.error.UploadFailed?
    ensures provider == Replicate && r.Ok? ==> response.status == 200 && JsonTruthy(r.value)
  {
    match provider
    case Replicate => ParseReplicateResponse(response)
    case Socaity => ParseSocaityResponse(response)
  }

  /** The multipart POST of `upload`: the file under field `content`, the
      auth headers, a 60 second timeout. */
  function UploadRequest(endpoint: string, apiKey: string, file: MediaFile): (req: Request)
    ensures req.Post? && req.url == endpoint && req.form == Some(FormPart("content", file))
    ensures req.headers.Keys == {"Authorization"}
    ensures |req.headers["Authorization"]| == 7 + |apiKey| && req.headers["Authorization"][7..] == apiKey
  {
    AuthHeadersCarryKey(apiKey);
    Post(endpoint, AuthHeaders(apiKey), Some(FormPart("content", file)), Some(60))
  }

  /** The first phase of Socaity's non-blocking upload: a POST with only the
      auth headers, no body and the client's default timeout. */
  function UploadUrlRequest(endpoint: string, apiKey: string): Request {
    Post(endpoint, AuthHeaders(apiKey), None, None)
  }

  /** What the template returns for a reply: the provider's verdict, or the
      client's exception when the request raised. Nothing is caught. */
  function TemplateResult(provider: Provider, reply: Option<Response>): (r: Result<Json>)
    ensures reply.None? ==> r == Err(TransportError)
    ensures reply.Some? ==> r == ProcessUploadResponse(provider, reply.value)
  {
    if reply.None? then Err(TransportError) else ProcessUploadResponse(provider, reply.value)
  }

  /** A Replicate upload succeeds only on `200 OK` with a truthy file URL. */
  lemma ReplicateUploadSucceedsOnlyOn200(reply: Option<Response>)
    requires TemplateResult(Replicate, reply).Ok?
    ensures reply.Some? && reply.value.status == 200
    ensures JsonTruthy(TemplateResult(Replicate, reply).value)
  {
  }

  /** The constructor arguments of `BaseUploadAPI.__init__(api_key, upload_endpoint)`. */
  datatype BaseArgs = BaseArgs(apiKey: string, uploadEndpoint: Option<string>)

  /** What `ReplicateUploadAPI.__init__` passes on, as written: its two
      arguments positionally, endpoint first, so they land in swapped slots. */
  function ReplicateBaseArgsAsWritten(apiKey: string, uploadEndpoint: string): (args: BaseArgs)
    ensures args.apiKey == uploadEndpoint && args.uploadEndpoint == Some(apiKey)
  {
    BaseArgs(uploadEndpoint, Some(apiKey))
  }

  /** What it evidently means to pass on: the key as the key, the endpoint as the endpoint. */
  function ReplicateBaseArgs(apiKey: string, uploadEndpoint: string): (args: BaseArgs)
    ensures args.apiKey == apiKey && args.uploadEndpoint == Some(uploadEndpoint)
  {
    BaseArgs(apiKey := apiKey, uploadEndpoint := Some(uploadEndpoint))
  }

  /** As written, `ReplicateUploadAPI("r8_abc")` sends the file to the URL
      `r8_abc` and the endpoint URL as its bearer token. */
  lemma ReplicateSwapExample(file: MediaFile)
    ensures var args := ReplicateBaseArgsAsWritten("r8_abc", ReplicateEndpoint);
            UploadRequest(args.uploadEndpoint.value, args.apiKey, file)
            == Post("r8_abc", map["Authorization" := "Bearer https://api.replicate.com/v1/files"],
                    Some(FormPart("content", file)), Some(60))
    ensures ReplicateBaseArgsAsWritten("r8_abc", ReplicateEndpoint) != ReplicateBaseArgs("r8_abc", ReplicateEndpoint)
  {
    assert "Bearer " + ReplicateEndpoint == "Bearer https://api.replicate.com/v1/files";
  }

  /** Corrected, the upload goes to the endpoint and carries the key. */
  lemma ReplicateArgsReachEndpoint(apiKey: string, uploadEndpoint: string, file: MediaFile)
    ensures var args := ReplicateBaseArgs(apiKey, uploadEndpoint);
            var request := UploadRequest(args.uploadEndpoint.value, args.apiKey, file);
            request.url == uploadEndpoint && request.headers["Authorization"][7..] == apiKey
  {
    AuthHeadersCarryKey(apiKey);
  }

  /** A REST upload adapter. */
  class UploadApi {
    const provider: Provider
    const apiKey: string
    const uploadEndpoint: Option<string>
    /** The HTTP client the adapter's client manager hands out. */
    const http: Transport

    /** `BaseUploadAPI.__init__`: both arguments are stored unchanged. */
    constructor (provider: Provider, args: BaseArgs, http: Transport)
      ensures this.provider == provider && this.http == http
      ensures apiKey == args.apiKey && uploadEndpoint == args.uploadEndpoint
    {
      this.provider := provider;
      apiKey := args.apiKey;
      uploadEndpoint := args.uploadEndpoint;
      this.http := http;
    }

    /** `ReplicateUploadAPI.__init__` as written: the key becomes the endpoint
        and the endpoint becomes the key. */
    constructor ReplicateAsWritten(apiKey: string, http: Transport, uploadEndpoint: string := ReplicateEndpoint)
      ensures provider == Provider.Replicate && this.http == http
      ensures this.apiKey == uploadEndpoint && this.uploadEndpoint == Some(apiKey)
    {
      provider := Provider.Replicate;
      this.apiKey := ReplicateBaseArgsAsWritten(apiKey, uploadEndpoint).apiKey;
      this.uploadEndpoint := ReplicateBaseArgsAsWritten(apiKey, uploadEndpoint).uploadEndpoint;
      this.http := http;
    }

    /** `ReplicateUploadAPI.__init__` with its arguments passed on by name. */
    constructor Replicate(apiKey: string, http: Transport, uploadEndpoint: string := ReplicateEndpoint)
      ensures provider == Provider.Replicate && this.http == http
      ensures this.apiKey == apiKey && this.uploadEndpoint == Some(uploadEndpoint)
    {
      provider := Provider.Replicate;
      this.apiKey := ReplicateBaseArgs(apiKey, uploadEndpoint).apiKey;
      this.uploadEndpoint := ReplicateBaseArgs(apiKey, uploadEndpoint).uploadEndpoint;
      this.http := http;
    }

    /** `SocaityUploadAPI.__init__`: the key and the endpoint, by name. */
    constructor Socaity(apiKey: string, http: Transport, uploadEndpoint: Option<string> := Some(SocaityEndpoint))
      ensures provider == Provider.Socaity && this.http == http
      ensures this.apiKey == apiKey && this.uploadEndpoint == uploadEndpoint
    {
      provider := Provider.Socaity;
      this.apiKey := apiKey;
      this.uploadEndpoint := uploadEndpoint;
      this.http := http;
    }

    /** `upload`: exactly one multipart POST to the endpoint, and the
        validator's verdict on its response, exceptions included. A raw file
        argument raises `AttributeError` at `file.to_httpx_send_able_tuple()`
        before the POST; a missing endpoint is a URL the client refuses
        before sending anything. */
    method Upload(file: UploadInput) returns (r: Result<Json>)
      modifies http
      ensures !file.MediaInput? ==> r == Err(AttributeError) && http.sent == old(http.sent)
      ensures file.MediaInput? && uploadEndpoint.None? ==> r == Err(InvalidUrl) && http.sent == old(http.sent)
      ensures file.MediaInput? && uploadEndpoint.Some? ==>
                var request := UploadRequest(uploadEndpoint.value, apiKey, file.file);
                && http.sent == old(http.sent) + [request]
                && r == TemplateResult(provider, http.reply(request))
    {
      if !file.MediaInput? {
        return Err(AttributeError);
      }
      if uploadEndpoint.None? {
        return Err(InvalidUrl);
      }
      var response := http.Send(UploadRequest(uploadEndpoint.value, apiKey, file.file));
      if response.None? {
        return Err(TransportError);
      }
      r := ProcessUploadResponse(provider, response.value);
    }

    /** `upload_async`: the template's single POST for Replicate; for Socaity
        the override: a bare POST for an upload URL, validated, then one PUT
        of the bytes to that URL, and that URL as the result. A failed
        validation sends no PUT. Once the URL is granted, a raw file argument
        raises `AttributeError` and an upload URL that is not a string is one
        the client refuses; neither sends the PUT. */
    method UploadAsync(file: UploadInput) returns (r: Result<Json>)
      modifies http
      ensures provider.Replicate? && !file.MediaInput? ==> r == Err(AttributeError) && http.sent == old(http.sent)
      ensures (provider.Socaity? || file.MediaInput?) && uploadEndpoint.None? ==>
                r == Err(InvalidUrl) && http.sent == old(http.sent)
      ensures provider.Replicate? && file.MediaInput? && uploadEndpoint.Some? ==>
                var request := UploadRequest(uploadEndpoint.value, apiKey, file.file);
                && http.sent == old(http.sent) + [request]
                && r == TemplateResult(provider, http.reply(request))
      ensures provider.Socaity? && uploadEndpoint.Some? ==>
                var post := UploadUrlRequest(uploadEndpoint.value, apiKey);
                var granted := TemplateResult(Provider.Socaity, http.reply(post));
                && (granted.Err? ==> r == granted && http.sent == old(http.sent) + [post])
                && (granted.Ok? && !file.MediaInput? ==> r == Err(AttributeError) && http.sent == old(http.sent) + [post])
                && (granted.Ok? && file.MediaInput? && !granted.value.JStr? ==>
                      r == Err(InvalidUrl) && http.sent == old(http.sent) + [post])
                && (granted.Ok? && file.MediaInput? && granted.value.JStr? ==>
                      var put := TempUploadRequest(granted.value.s, file.file);
                      && http.sent == old(http.sent) + [post, put]
                      && (r.Ok? <==> Created(http.reply(put)))
                      && (r.Ok? ==> r.value == granted.value))
    {
      if provider.Replicate? {
        r := Upload(file);
        return;
      }
      if uploadEndpoint.None? {
        return Err(InvalidUrl);
      }
      var post := UploadUrlRequest(uploadEndpoint.value, apiKey);
      var response := http.Send(post);
      if response.None? {
        return Err(TransportError);
      }
      var granted := ParseSocaityResponse(response.value);
      if granted.Err? {
        return granted;
      }
      var outcome := UploadToTemporaryUrl(http, granted.value, file);
      if outcome.Fail? {
        return Err(outcome.error);
      }
      r := granted;
    }

    /** `download`: one GET of the URL with the auth headers; the file, or the
        save path unchanged when one is given. */
    method Download(url: string, savePath: Option<string> := None) returns (r: Result<Downloaded>)
      modifies http
      ensures http.sent == old(http.sent) + [Get(url, AuthHeaders(apiKey))]
      ensures http.reply(Get(url, AuthHeaders(apiKey))).None? ==> r == Err(TransportError)
      ensures http.reply(Get(url, AuthHeaders(apiKey))).Some? ==>
                r == Ok(if savePath.None? then File(MediaFile(http.reply(Get(url, AuthHeaders(apiKey))).value.content))
                        else SavedTo(savePath.value))
    {
      var response := http.Send(Get(url, AuthHeaders(apiKey)));
      if response.None? {
        return Err(TransportError);
      }
      var file := MediaFile(response.value.content);
      if savePath.None? {
        return Ok(File(file));
      }
      r := Ok(SavedTo(savePath.value));
    }
  }
}
