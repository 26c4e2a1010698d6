/** The blob-container adapter `AzureBlobStorage`
    (fastCloud/core/storage_providers/azure_storage.py).

    The Azure SDK is the collaborator object `BlobSdk`: the calls that reach
    the storage account (upload, download, delete a blob, sign a SAS token)
    are appended to its trace `calls` and answered by its reply functions.
    The adapter itself holds the two lazily created service clients, one for
    blocking and one for non-blocking use. */
module AzureStorage {
  import opened Common
  import opened Http
  import opened BatchNames
  import opened BlobUrls

  /** The credential a service client is built from. */
  datatype Credential = SasUrl(url: string) | ConnectionString(text: string)

  /** The credential `_get_blob_service_client` builds from: the SAS URL when
      it is truthy, else the connection string when that is truthy, else none. */
  function ChooseCredential(sasAccessToken: Option<string>, connectionString: Option<string>): (c: Option<Credential>)
    ensures c.None? <==> !Truthy(sasAccessToken) && !Truthy(connectionString)
    ensures Truthy(sasAccessToken) ==> c == Some(SasUrl(sasAccessToken.value))
    ensures !Truthy(sasAccessToken) && c.Some? ==> c == Some(ConnectionString(connectionString.value))
  {
    if Truthy(sasAccessToken) then Some(SasUrl(sasAccessToken.value))
    else if Truthy(connectionString) then Some(ConnectionString(connectionString.value))
    else None
  }

  /** The permissions a SAS token grants (`BlobSasPermissions`). */
  datatype SasPermissions = SasPermissions(read: bool, add: bool, create: bool, write: bool, delete: bool)

  /** `BlobSasPermissions(write=True)`. */
  const WriteOnly := SasPermissions(false, false, false, true, false)

  /** One call that reaches the storage account through the SDK. */
  datatype SdkCall =
    | UploadCall(asyncMode: bool, container: string, blob: string, data: Bytes, overwrite: bool)
    | DownloadCall(container: string, blob: string)
    | DeleteCall(asyncMode: bool, container: string, blob: string)
    | SignCall(container: string, blob: string, permission: SasPermissions, expiry: int)

  /** How `download_blob` ends: the blob's bytes, `ResourceNotFoundError`, or another exception. */
  datatype Fetch = Fetched(data: Bytes) | FetchNotFound | FetchFailed

  /** How `delete_blob` ends: done, `ResourceNotFoundError`, or another exception. */
  datatype Removal = Removed | RemoveNotFound | RemoveFailed

  /** The Azure SDK together with the storage account behind it. */
  class BlobSdk {
    /** The `.url` of every service client built from the adapter's credential:
        the ownership test of `_parse_and_validate_url` looks for it. */
    const clientUrl: string
    /** The root of the URLs of the account's blobs, `{root}/{container}/{blob_name}`. */
    const accountUrl: string
    const uploadAccepted: SdkCall -> bool
    const fetched: SdkCall -> Fetch
    const removed: SdkCall -> Removal
    /** The SAS token `generate_blob_sas` returns, or `None` when it raises. */
    const signed: SdkCall -> Option<string>
    var calls: seq<SdkCall>

    constructor (clientUrl: string, accountUrl: string, uploadAccepted: SdkCall -> bool, fetched: SdkCall -> Fetch,
                 removed: SdkCall -> Removal, signed: SdkCall -> Option<string>)
      ensures this.clientUrl == clientUrl && this.accountUrl == accountUrl && this.uploadAccepted == uploadAccepted
      ensures this.fetched == fetched && this.removed == removed && this.signed == signed
      ensures calls == []
    {
      this.clientUrl := clientUrl;
      this.accountUrl := accountUrl;
      this.uploadAccepted := uploadAccepted;
      this.fetched := fetched;
      this.removed := removed;
      this.signed := signed;
      calls := [];
    }

    /** `upload_blob`: true when it returns, false when it raises. */
    method UploadBlob(asyncMode: bool, container: string, blob: string, data: Bytes, overwrite: bool) returns (ok: bool)
      modifies this
      ensures calls == old(calls) + [UploadCall(asyncMode, container, blob, data, overwrite)]
      ensures ok == uploadAccepted(UploadCall(asyncMode, container, blob, data, overwrite))
    {
      var call := UploadCall(asyncMode, container, blob, data, overwrite);
      calls := calls + [call];
      ok := uploadAccepted(call);
    }

    method DownloadBlob(container: string, blob: string) returns (f: Fetch)
      modifies this
      ensures calls == old(calls) + [DownloadCall(container, blob)]
      ensures f == fetched(DownloadCall(container, blob))
    {
      calls := calls + [DownloadCall(container, blob)];
      f := fetched(DownloadCall(container, blob));
    }

    method DeleteBlob(asyncMode: bool, container: string, blob: string) returns (d: Removal)
      modifies this
      ensures calls == old(calls) + [DeleteCall(asyncMode, container, blob)]
      ensures d == removed(DeleteCall(asyncMode, container, blob))
    {
      calls := calls + [DeleteCall(asyncMode, container, blob)];
      d := removed(DeleteCall(asyncMode, container, blob));
    }

    method GenerateSas(container: string, blob: string, permission: SasPermissions, expiry: int) returns (token: Option<string>)
      modifies this
      ensures calls == old(calls) + [SignCall(container, blob, permission, expiry)]
      ensures token == signed(SignCall(container, blob, permission, expiry))
    {
      calls := calls + [SignCall(container, blob, permission, expiry)];
      token := signed(SignCall(container, blob, permission, expiry));
    }
  }

  /** A blob service client (`BlobServiceClient` or its non-blocking twin). */
  class ServiceClient {
    const asyncMode: bool
    const credential: Credential
    const url: string

    constructor (asyncMode: bool, credential: Credential, url: string)
      ensures this.asyncMode == asyncMode && this.credential == credential && this.url == url
    {
      this.asyncMode := asyncMode;
      this.credential := credential;
      this.url := url;
    }
  }

  /** A cache slot, once filled, keeps its client. */
  predicate CacheKept(before: ServiceClient?, after: ServiceClient?) {
    before != null ==> after == before
  }

  /** The upload calls for files paired with names, file k with name k, always overwriting. */
  function UploadCalls(asyncMode: bool, container: string, files: seq<MediaFile>, names: seq<string>): seq<SdkCall>
    requires |files| == |names|
  {
    seq(|files|, k requires 0 <= k < |files| => UploadCall(asyncMode, container, names[k], files[k].data, true))
  }

  /** The URL of each named blob in a container. */
  function UrlsFor(root: string, container: string, names: seq<string>): seq<string> {
    seq(|names|, k requires 0 <= k < |names| => BlobUrl(root, container, names[k]))
  }

  /** The index of the first call the account rejects, or the number of calls. */
  function FirstRejected(calls: seq<SdkCall>, accepted: SdkCall -> bool): (i: nat)
    ensures i <= |calls|
    ensures forall k :: 0 <= k < i ==> accepted(calls[k])
    ensures i < |calls| ==> !accepted(calls[i])
    decreases |calls|
  {
    if calls == [] || !accepted(calls[0]) then 0 else 1 + FirstRejected(calls[1..], accepted)
  }

  /** The delete call `_delete_single_blob_*` issues for `url`: none when the
      path has no container segment or the URL does not contain the client
      URL (both raise inside the `try` and end as `False`). */
  function DeleteAttempt(url: string, clientUrl: string, asyncMode: bool): (attempt: Option<SdkCall>)
    ensures attempt.Some? <==> ParseBlobUrl(url).Ok? && Contains(url, clientUrl)
    ensures attempt.Some? ==> attempt.value.DeleteCall? && attempt.value.asyncMode == asyncMode
                              && (attempt.value.container, attempt.value.blob) == ParseBlobUrl(url).value
  {
    match ParseBlobUrl(url)
    case Err(_) => None
    case Ok((container, blob)) =>
      if Contains(url, clientUrl) then Some(DeleteCall(asyncMode, container, blob)) else None
  }

  function AttemptCalls(attempt: Option<SdkCall>): seq<SdkCall> {
    match attempt
    case None => []
    case Some(call) => [call]
  }

  /** What deleting one URL returns: true exactly when a delete call was
      issued and the account removed the blob. */
  function DeleteVerdict(url: string, clientUrl: string, asyncMode: bool, removed: SdkCall -> Removal): (ok: bool)
    ensures ok ==> ParseBlobUrl(url).Ok? && Contains(url, clientUrl)
  {
    var attempt := DeleteAttempt(url, clientUrl, asyncMode);
    attempt.Some? && removed(attempt.value) == Removed
  }

  /** The calls `attempt` makes for the URLs from index `i` on, in order. */
  function CallsFrom(urls: seq<string>, i: nat, attempt: string -> Option<SdkCall>): seq<SdkCall>
    decreases |urls| - i
  {
    if |urls| <= i then [] else AttemptCalls(attempt(urls[i])) + CallsFrom(urls, i + 1, attempt)
  }

  /** The verdicts of `verdict` for the URLs from index `i` on, in order. */
  function VerdictsFrom(urls: seq<string>, i: nat, verdict: string -> bool): (oks: seq<bool>)
    ensures |oks| == if i <= |urls| then |urls| - i else 0
    decreases |urls| - i
  {
    if |urls| <= i then [] else [verdict(urls[i])] + VerdictsFrom(urls, i + 1, verdict)
  }

  /** Verdict k of the list from `i` on is the verdict for URL `i + k`. */
  lemma {:induction false} VerdictsFromAt(urls: seq<string>, i: nat, verdict: string -> bool, k: nat)
    requires i + k < |urls|
    ensures VerdictsFrom(urls, i, verdict)[k] == verdict(urls[i + k])
    decreases k
  {
    if 0 < k {
      VerdictsFromAt(urls, i + 1, verdict, k - 1);
    }
  }

  function AttemptFor(clientUrl: string, asyncMode: bool): string -> Option<SdkCall> {
    url => DeleteAttempt(url, clientUrl, asyncMode)
  }

  function VerdictFor(clientUrl: string, asyncMode: bool, removed: SdkCall -> Removal): string -> bool {
    url => DeleteVerdict(url, clientUrl, asyncMode, removed)
  }

  /** The delete calls for a list of URLs, in order. */
  function DeleteCalls(urls: seq<string>, clientUrl: string, asyncMode: bool): seq<SdkCall> {
    CallsFrom(urls, 0, AttemptFor(clientUrl, asyncMode))
  }

  /** The verdicts for a list of URLs, in order. */
  function DeleteVerdicts(urls: seq<string>, clientUrl: string, asyncMode: bool, removed: SdkCall -> Removal): (oks: seq<bool>)
    ensures |oks| == |urls|
  {
    VerdictsFrom(urls, 0, VerdictFor(clientUrl, asyncMode, removed))
  }

  /** Verdict k of a list is the verdict for URL k alone. */
  lemma DeleteVerdictsAt(urls: seq<string>, clientUrl: string, asyncMode: bool, removed: SdkCall -> Removal, k: nat)
    requires k < |urls|
    ensures DeleteVerdicts(urls, clientUrl, asyncMode, removed)[k] == DeleteVerdict(urls[k], clientUrl, asyncMode, removed)
  {
    VerdictsFromAt(urls, 0, VerdictFor(clientUrl, asyncMode, removed), k);
  }

  /** Each URL adds at most one call. */
  lemma {:induction false} CallsFromLength(urls: seq<string>, i: nat, attempt: string -> Option<SdkCall>)
    requires i <= |urls|
    ensures |CallsFrom(urls, i, attempt)| <= |urls| - i
    decreases |urls| - i
  {
    if i < |urls| {
      CallsFromLength(urls, i + 1, attempt);
    }
  }

  /** Deleting a list issues at most one delete per URL. */
  lemma DeleteCallsAtMostOnePerUrl(urls: seq<string>, clientUrl: string, asyncMode: bool)
    ensures |DeleteCalls(urls, clientUrl, asyncMode)| <= |urls|
  {
    CallsFromLength(urls, 0, AttemptFor(clientUrl, asyncMode));
  }

  /** Regrouping a concatenation; the loop step of `DeleteEach` needs it. */
  lemma AppendAssoc<T>(a: seq<T>, b: seq<T>, c: seq<T>)
    ensures (a + b) + c == a + (b + c)
  {
  }

  /** The empty tail of a concatenation; the exit of the `DeleteEach` loop needs it. */
  lemma AppendEmpty<T>(a: seq<T>)
    ensures a + [] == a
  {
  }

  /** A URL outside the account is reported as `False`, like a missing blob,
      and no delete call reaches the account. */
  lemma ForeignUrlIsNotDeleted(url: string, clientUrl: string, asyncMode: bool, removed: SdkCall -> Removal)
    requires !Contains(url, clientUrl)
    ensures DeleteAttempt(url, clientUrl, asyncMode) == None
    ensures !DeleteVerdict(url, clientUrl, asyncMode, removed)
  {
  }

  /** Deleting the URL of a blob of this account deletes exactly that blob,
      provided the client URL is a prefix of the account root followed by `/`
      (for a client URL `scheme://host/` this is the root `scheme://host`). */
  lemma OwnBlobUrlIsDeleted(clientUrl: string, scheme: string, host: string, container: string, blob: string, asyncMode: bool)
    requires IsServiceRoot(scheme, host)
    requires clientUrl <= scheme + "://" + host + "/"
    requires NoneOf(container, {'/', '?', '#', ';'})
    requires NoneOf(blob, {'?', '#', ';'})
    ensures DeleteAttempt(BlobUrl(scheme + "://" + host, container, blob), clientUrl, asyncMode)
            == Some(DeleteCall(asyncMode, container, blob))
  {
    var url := BlobUrl(scheme + "://" + host, container, blob);
    BlobUrlParsesBack(scheme, host, container, blob, "");
    assert url + "" == url;
    BlobUrlIsOwned(clientUrl, scheme + "://" + host, container, blob, "");
  }

  /** A client URL that carries a SAS query, `root/?token` as a client built
      from a SAS token has, never occurs in the account's own blob URL with
      that query: deleting the blob is refused although the URL parses to it. */
  lemma SasClientUrlRefusesOwnBlob(scheme: string, host: string, container: string, blob: string, token: string,
                                   asyncMode: bool)
    requires IsServiceRoot(scheme, host)
    requires NoneOf(container, {'/', '?', '#', ';'})
    requires NoneOf(blob, {'?', '#', ';'}) && blob != [] && blob[|blob| - 1] != '/'
    requires NoneOf(token, {'?'})
    ensures var url := BlobUrl(scheme + "://" + host, container, blob) + "?" + token;
            var clientUrl := scheme + "://" + host + "/?" + token;
            && ParseBlobUrl(url) == Ok((container, blob))
            && !Contains(url, clientUrl)
            && DeleteAttempt(url, clientUrl, asyncMode) == None
  {
    var root := scheme + "://" + host;
    var url := BlobUrl(root, container, blob) + "?" + token;
    var clientUrl := root + "/?" + token;
    assert url == BlobUrl(root, container, blob) + ("?" + token);
    BlobUrlParsesBack(scheme, host, container, blob, "?" + token);
    SasQueryDoesNotOccur(root, container, blob, token);
    ContainsIffOccurs(url, clientUrl);
  }

  /** The only `?` of `root/c/b?token` follows the last character of `b`,
      while in `root/?token` it follows a `/`. */
  lemma SasQueryDoesNotOccur(root: string, container: string, blob: string, token: string)
    requires NoneOf(root, {'?'}) && NoneOf(container, {'?'}) && NoneOf(token, {'?'})
    requires NoneOf(blob, {'?'}) && blob != [] && blob[|blob| - 1] != '/'
    ensures forall i: nat :: !OccursAt(BlobUrl(root, container, blob) + "?" + token, root + "/?" + token, i)
  {
    var url := BlobUrl(root, container, blob) + "?" + token;
    var needle := root + "/?" + token;
    var p := |root| + 1 + |container| + 1 + |blob|;
    assert url == root + "/" + container + "/" + blob + "?" + token;
    forall k | 0 <= k < |url| && k != p ensures url[k] != '?' {
      if k < |root| {
        assert url[k] == root[k];
      } else if k == |root| || k == |root| + 1 + |container| {
      } else if k < |root| + 1 + |container| {
        assert url[k] == container[k - |root| - 1];
      } else if k < p {
        assert url[k] == blob[k - |root| - 2 - |container|];
      } else if k > p {
        assert url[k] == token[k - p - 1];
      }
    }
    assert url[p - 1] == blob[|blob| - 1];
    forall i: nat ensures !OccursAt(url, needle, i) {
      if i + |needle| <= |url| {
        var j := |root| + 1;
        if i + j == p {
          assert url[i..i + |needle|][j - 1] != needle[j - 1];
        } else {
          assert url[i..i + |needle|][j] != needle[j];
        }
      }
    }
  }

  /** The ownership test is a substring test: a client URL without its
      trailing `/` also admits the URL of every host that extends the
      account's host, such as `{host}.evil.example`. The delete call then
      goes to this account, for the container and blob named in that URL's
      path. A client URL the SDK builds ends in `/`, so this applies only to
      one formed otherwise. */
  lemma LookalikeHostPassesBareRoot(scheme: string, host: string, suffix: string, container: string, blob: string,
                                    asyncMode: bool)
    requires IsServiceRoot(scheme, host + suffix)
    requires NoneOf(container, {'/', '?', '#', ';'})
    requires NoneOf(blob, {'?', '#', ';'})
    ensures var url := BlobUrl(scheme + "://" + (host + suffix), container, blob);
            && Contains(url, scheme + "://" + host)
            && DeleteAttempt(url, scheme + "://" + host, asyncMode) == Some(DeleteCall(asyncMode, container, blob))
  {
    var bare := scheme + "://" + host;
    var root := scheme + "://" + (host + suffix);
    assert (root + "/")[..|bare|] == bare by {
      assert root + "/" == bare + (suffix + "/");
    }
    OwnBlobUrlIsDeleted(bare, scheme, host + suffix, container, blob, asyncMode);
  }

  /** The `url` argument of `delete`: `None`, a string, a list of strings, or any other value. */
  datatype DeleteArg = NoUrl | OneUrl(url: string) | ManyUrls(urls: seq<string>) | NotUrls

  /** Python falsiness of the `url` argument. */
  predicate Falsy(arg: DeleteArg) {
    arg == NoUrl || arg == OneUrl("") || arg == ManyUrls([])
  }

  /** What `delete` returns: one bool, or one bool per URL. */
  datatype DeleteResult = Deleted(ok: bool) | DeletedEach(oks: seq<bool>)

  /** The value `blob_name` holds when signing starts: a string, or the
      `uuid.UUID` object that line 344 draws as the default, which is not one. */
  datatype BlobNameArg = NameText(text: string) | UuidObject(hex: string)

  /** The default of `create_temporary_upload_link` as written: the UUID
      object itself, not its text. */
  function DefaultBlobNameAsWritten(blobName: Option<string>, uuid: string): (arg: BlobNameArg)
    ensures arg.UuidObject? <==> blobName.None?
  {
    match blobName
    case None => UuidObject(uuid)
    case Some(name) => NameText(name)
  }

  /** The name `generate_blob_sas` can sign: only a string; it joins the name
      to the container with `+`, which raises `TypeError` on a UUID object. */
  function SignableName(arg: BlobNameArg): (name: Option<string>)
    ensures name.None? <==> arg.UuidObject?
    ensures name.Some? ==> name.value == arg.text
  {
    match arg
    case NameText(name) => Some(name)
    case UuidObject(_) => None
  }

  /** As written, the default name never reaches signing, while every given
      name does. */
  lemma DefaultNameIsNeverSigned(blobName: Option<string>, uuid: string)
    ensures SignableName(DefaultBlobNameAsWritten(blobName, uuid)) == blobName
  {
  }

  /** The link `create_temporary_upload_link` returns: the blob URL, `?` and
      the SAS token; `None` when signing raised. */
  function TemporaryLink(root: string, container: string, blob: string, token: Option<string>): (link: Option<string>)
    ensures link.Some? <==> token.Some?
    ensures link.Some? ==> |link.value| == |BlobUrl(root, container, blob)| + 1 + |token.value|
                           && link.value[..|BlobUrl(root, container, blob)|] == BlobUrl(root, container, blob)
  {
    match token
    case None => None
    case Some(t) => Some(BlobUrl(root, container, blob) + "?" + t)
  }

  /** A temporary link addresses the container and blob it was made for, and
      its query string is the SAS token. */
  lemma TemporaryLinkAddressesBlob(scheme: string, host: string, container: string, blob: string, token: string)
    requires IsServiceRoot(scheme, host)
    requires NoneOf(container, {'/', '?', '#', ';'})
    requires NoneOf(blob, {'?', '#', ';'})
    ensures var link := TemporaryLink(scheme + "://" + host, container, blob, Some(token)).value;
            && ParseBlobUrl(link) == Ok((container, blob))
            && link[|BlobUrl(scheme + "://" + host, container, blob)| + 1..] == token
  {
    var base := BlobUrl(scheme + "://" + host, container, blob);
    assert base + "?" + token == base + ("?" + token);
    BlobUrlParsesBack(scheme, host, container, blob, "?" + token);
  }

  /** The headers of the blocking direct upload to a SAS URL. */
  const SasPutHeaders: Headers := map["x-ms-blob-type" := "BlockBlob"]

  /** The headers of the non-blocking direct upload: it also refuses to overwrite. */
  const SasPutHeadersNoOverwrite: Headers := map["x-ms-blob-type" := "BlockBlob", "x-ms-if-none-match" := "*"]

  /** The loop of `upload`: upload file k under name k, collecting URLs,
      until an upload raises. */
  method UploadEachUntilRejected(sdk: BlobSdk, root: string, container: string, files: seq<MediaFile>, names: seq<string>)
    returns (urls: seq<string>, accepted: bool)
    requires |files| == |names|
    modifies sdk
    ensures var calls := UploadCalls(false, container, files, names);
            var stop := FirstRejected(calls, sdk.uploadAccepted);
            && (accepted <==> stop == |calls|)
            && (accepted ==> sdk.calls == old(sdk.calls) + calls && urls == UrlsFor(root, container, names))
            && (!accepted ==> sdk.calls == old(sdk.calls) + calls[..stop + 1])
  {
    ghost var calls := UploadCalls(false, container, files, names);
    urls := [];
    var i := 0;
    while i < |files|
      invariant 0 <= i <= |files|
      invariant urls == UrlsFor(root, container, names)[..i]
      invariant sdk.calls == old(sdk.calls) + calls[..i]
      invariant forall k :: 0 <= k < i ==> sdk.uploadAccepted(calls[k])
    {
      var ok := sdk.UploadBlob(false, container, names[i], files[i].data, true);
      assert calls[..i + 1] == calls[..i] + [calls[i]];
      if !ok {
        assert FirstRejected(calls, sdk.uploadAccepted) == i;
        return urls, false;
      }
      urls := urls + [BlobUrl(root, container, names[i])];
      i := i + 1;
    }
    assert calls[..i] == calls;
    accepted := true;
  }

  /** The loop of `upload_async`: every upload is started, all URLs are
      collected, and the batch fails when any upload raised. */
  method UploadEachConcurrently(sdk: BlobSdk, root: string, container: string, files: seq<MediaFile>, names: seq<string>)
    returns (urls: seq<string>, accepted: bool)
    requires |files| == |names|
    modifies sdk
    ensures var calls := UploadCalls(true, container, files, names);
            && sdk.calls == old(sdk.calls) + calls
            && urls == UrlsFor(root, container, names)
            && (accepted <==> forall k :: 0 <= k < |calls| ==> sdk.uploadAccepted(calls[k]))
  {
    ghost var calls := UploadCalls(true, container, files, names);
    urls := [];
    accepted := true;
    var i := 0;
    while i < |files|
      invariant 0 <= i <= |files|
      invariant urls == UrlsFor(root, container, names)[..i]
      invariant sdk.calls == old(sdk.calls) + calls[..i]
      invariant accepted <==> forall k :: 0 <= k < i ==> sdk.uploadAccepted(calls[k])
    {
      var ok := sdk.UploadBlob(true, container, names[i], files[i].data, true);
      assert calls[..i + 1] == calls[..i] + [calls[i]];
      accepted := accepted && ok;
      urls := urls + [BlobUrl(root, container, names[i])];
      i := i + 1;
    }
    assert calls[..i] == calls;
  }

  class AzureBlobStorage {
    const sasAccessToken: Option<string>
    const connectionString: Option<string>
    const sdk: BlobSdk
    var blobClient: ServiceClient?
    var asyncBlobClient: ServiceClient?

    /** A client built for `asyncMode` from this adapter's preferred credential. */
    predicate Fits(c: ServiceClient, asyncMode: bool) {
      && c.asyncMode == asyncMode
      && ChooseCredential(sasAccessToken, connectionString) == Some(c.credential)
      && c.url == sdk.clientUrl
    }

    ghost predicate Valid()
      reads this
    {
      && ChooseCredential(sasAccessToken, connectionString).Some?
      && (blobClient != null ==> Fits(blobClient, false))
      && (asyncBlobClient != null ==> Fits(asyncBlobClient, true))
    }

    constructor (sasAccessToken: Option<string>, connectionString: Option<string>, sdk: BlobSdk)
      requires Truthy(sasAccessToken) || Truthy(connectionString)
      ensures Valid()
      ensures this.sasAccessToken == sasAccessToken && this.connectionString == connectionString
      ensures this.sdk == sdk && blobClient == null && asyncBlobClient == null
    {
      this.sasAccessToken := sasAccessToken;
      this.connectionString := connectionString;
      this.sdk := sdk;
      blobClient := null;
      asyncBlobClient := null;
    }

    /** `__init__`: a `ValueError` when both credentials are falsy; otherwise
        both are stored as given and neither client exists yet. */
    static method Create(sasAccessToken: Option<string>, connectionString: Option<string>, sdk: BlobSdk)
      returns (r: Result<AzureBlobStorage>)
      ensures r.Err? <==> !Truthy(sasAccessToken) && !Truthy(connectionString)
      ensures r.Err? ==> r.error.ValueError?
      ensures r.Ok? ==> && fresh(r.value) && r.value.Valid()
                        && r.value.sasAccessToken == sasAccessToken
                        && r.value.connectionString == connectionString
                        && r.value.sdk == sdk
                        && r.value.blobClient == null && r.value.asyncBlobClient == null
    {
      if !Truthy(sasAccessToken) && !Truthy(connectionString) {
        return Err(ValueError("Either a sas_access_token or a connection_string must be provided"));
      }
      var storage := new AzureBlobStorage(sasAccessToken, connectionString, sdk);
      r := Ok(storage);
    }

    /** `_get_blob_service_client`: the slot for the requested mode is filled
        on first use from the preferred credential and returned unchanged
        afterwards; the other slot is never touched. */
    method GetBlobServiceClient(asyncMode: bool := false) returns (c: ServiceClient)
      requires Valid()
      modifies this
      ensures Valid() && Fits(c, asyncMode)
      ensures asyncMode ==> && asyncBlobClient == c && blobClient == old(blobClient)
                            && (old(asyncBlobClient) != null ==> c == old(asyncBlobClient))
                            && (old(asyncBlobClient) == null ==> fresh(c))
      ensures !asyncMode ==> && blobClient == c && asyncBlobClient == old(asyncBlobClient)
                             && (old(blobClient) != null ==> c == old(blobClient))
                             && (old(blobClient) == null ==> fresh(c))
    {
      var credential := ChooseCredential(sasAccessToken, connectionString).value;
      if asyncMode {
        if asyncBlobClient == null {
          asyncBlobClient := new ServiceClient(true, credential, sdk.clientUrl);
        }
        c := asyncBlobClient;
      } else {
        if blobClient == null {
          blobClient := new ServiceClient(false, credential, sdk.clientUrl);
        }
        c := blobClient;
      }
    }

    /** `upload`: a `ValueError` before anything else when no container is
        given; otherwise one overwriting upload per file, file k under name k,
        stopping at the first upload that raises; on success the URLs in
        input order, collapsed to a bare URL for exactly one file. */
    method Upload(files: FileArg, names: NameArg, folder: Option<string>, uuid: nat -> string)
      returns (r: Result<UploadResult>)
      requires Valid()
      modifies this, sdk
      ensures Valid()
      ensures CacheKept(old(blobClient), blobClient) && asyncBlobClient == old(asyncBlobClient)
      ensures folder.None? ==> && r.Err? && r.error.ValueError?
                               && sdk.calls == old(sdk.calls) && blobClient == old(blobClient)
      ensures folder.Some? ==>
                var fs := FileEntries(files);
                var ns := SyncNames(|fs|, names, uuid);
                var calls := UploadCalls(false, folder.value, fs, ns);
                var stop := FirstRejected(calls, sdk.uploadAccepted);
                && blobClient != null
                && (r.Ok? <==> stop == |calls|)
                && (r.Ok? ==> sdk.calls == old(sdk.calls) + calls
                              && r.value == Collapse(UrlsFor(sdk.accountUrl, folder.value, ns)))
                && (r.Err? ==> sdk.calls == old(sdk.calls) + calls[..stop + 1] && r.error == SdkError)
    {
      if folder.None? {
        return Err(ValueError("Folder aka container name must be provided for Azure Blob upload"));
      }
      var container := folder.value;
      var fs := FileEntries(files);
      var ns := SyncNames(|fs|, names, uuid);
      var client := GetBlobServiceClient(false);
      var urls, accepted := UploadEachUntilRejected(sdk, sdk.accountUrl, container, fs, ns);
      if !accepted {
        return Err(SdkError);
      }
      r := Ok(Collapse(urls));
    }

    /** `upload_async`: the same checks and shape, with `file_name_{i}` for
        missing names; every upload is started before any is awaited, so all
        of them reach the account, and the call fails if any one of them
        raised. */
    method UploadAsync(files: FileArg, names: NameArg, folder: Option<string>, uuid: nat -> string)
      returns (r: Result<UploadResult>)
      requires Valid()
      modifies this, sdk
      ensures Valid()
      ensures CacheKept(old(asyncBlobClient), asyncBlobClient) && blobClient == old(blobClient)
      ensures folder.None? ==> && r.Err? && r.error.ValueError?
                               && sdk.calls == old(sdk.calls) && asyncBlobClient == old(asyncBlobClient)
      ensures folder.Some? ==>
                var fs := FileEntries(files);
                var ns := AsyncNames(|fs|, names, uuid);
                var calls := UploadCalls(true, folder.value, fs, ns);
                && asyncBlobClient != null
                && sdk.calls == old(sdk.calls) + calls
                && (r.Ok? <==> forall k :: 0 <= k < |calls| ==> sdk.uploadAccepted(calls[k]))
                && (r.Ok? ==> r.value == Collapse(UrlsFor(sdk.accountUrl, folder.value, ns)))
                && (r.Err? ==> r.error == SdkError)
    {
      if folder.None? {
        return Err(ValueError("Folder aka container name must be provided for Azure Blob upload"));
      }
      var container := folder.value;
      var fs := FileEntries(files);
      var ns := AsyncNames(|fs|, names, uuid);
      var client := GetBlobServiceClient(true);
      var urls, allAccepted := UploadEachConcurrently(sdk, sdk.accountUrl, container, fs, ns);
      if !allAccepted {
        return Err(SdkError);
      }
      r := Ok(Collapse(urls));
    }

    /** `download`: container and blob come from the URL path (an `IndexError`
        escapes when there is none; the URL is not checked against the
        account); a missing blob gives `None`; otherwise the file, or the save
        path when one is given. */
    method Download(url: string, savePath: Option<string> := None) returns (r: Result<Option<Downloaded>>)
      requires Valid()
      modifies this, sdk
      ensures Valid()
      ensures CacheKept(old(blobClient), blobClient) && asyncBlobClient == old(asyncBlobClient)
      ensures ParseBlobUrl(url).Err? ==> r == Err(IndexError) && sdk.calls == old(sdk.calls) && blobClient == old(blobClient)
      ensures ParseBlobUrl(url).Ok? ==>
                var call := DownloadCall(ParseBlobUrl(url).value.0, ParseBlobUrl(url).value.1);
                && sdk.calls == old(sdk.calls) + [call]
                && r == match sdk.fetched(call)
                        case Fetched(data) =>
                          Ok(Some(if savePath.None? then File(MediaFile(data)) else SavedTo(savePath.value)))
                        case FetchNotFound => Ok(None)
                        case FetchFailed => Err(SdkError)
    {
      var parsed := ParseBlobUrl(url);
      if parsed.Err? {
        return Err(IndexError);
      }
      var (container, blob) := parsed.value;
      var _ := GetBlobServiceClient(false);
      var fetch := sdk.DownloadBlob(container, blob);
      match fetch
      case FetchNotFound => r := Ok(None);
      case FetchFailed => r := Err(SdkError);
      case Fetched(data) =>
        if savePath.None? {
          r := Ok(Some(File(MediaFile(data))));
        } else {
          r := Ok(Some(SavedTo(savePath.value)));
        }
    }

    /** `_parse_and_validate_url`: container and blob from the path, then a
        `ValueError` unless the blocking client's URL is a substring of `url`. */
    method ParseAndValidateUrl(url: string) returns (r: Result<(string, string)>)
      requires Valid()
      modifies this
      ensures Valid()
      ensures CacheKept(old(blobClient), blobClient) && asyncBlobClient == old(asyncBlobClient)
      ensures ParseBlobUrl(url).Err? ==> r == Err(IndexError) && blobClient == old(blobClient)
      ensures ParseBlobUrl(url).Ok? ==>
                && blobClient != null
                && r == if Contains(url, sdk.clientUrl) then ParseBlobUrl(url)
                        else Err(ValueError("File does not belong to this storage provider."))
    {
      r := ParseBlobUrl(url);
      if r.Err? {
        return;
      }
      var client := GetBlobServiceClient(false);
      if !Contains(url, client.url) {
        r := Err(ValueError("File does not belong to this storage provider."));
      }
    }

    /** `_delete_single_blob_sync` and `_delete_single_blob_async`: every
        exception, including a foreign URL, ends as `False`. */
    method DeleteSingleBlob(url: string, asyncMode: bool) returns (ok: bool)
      requires Valid()
      modifies this, sdk
      ensures Valid()
      ensures CacheKept(old(blobClient), blobClient) && CacheKept(old(asyncBlobClient), asyncBlobClient)
      ensures !asyncMode ==> asyncBlobClient == old(asyncBlobClient)
      ensures ok == DeleteVerdict(url, sdk.clientUrl, asyncMode, sdk.removed)
      ensures sdk.calls == old(sdk.calls) + AttemptCalls(DeleteAttempt(url, sdk.clientUrl, asyncMode))
    {
      var parsed := ParseAndValidateUrl(url);
      if parsed.Err? {
        return false;
      }
      var (container, blob) := parsed.value;
      var _ := GetBlobServiceClient(asyncMode);
      var removal := sdk.DeleteBlob(asyncMode, container, blob);
      ok := removal == Removed;
    }

    /** `delete` and `delete_async`: a falsy argument or one that is neither a
        string nor a list gives `False` without touching anything; a string
        gives one verdict; a list gives one verdict per URL, in order. */
    method Delete(arg: DeleteArg, asyncMode: bool := false) returns (r: DeleteResult)
      requires Valid()
      modifies this, sdk
      ensures Valid()
      ensures CacheKept(old(blobClient), blobClient) && CacheKept(old(asyncBlobClient), asyncBlobClient)
      ensures Falsy(arg) || arg.NotUrls? ==>
                && r == Deleted(false) && sdk.calls == old(sdk.calls)
                && blobClient == old(blobClient) && asyncBlobClient == old(asyncBlobClient)
      ensures arg.OneUrl? && arg.url != "" ==>
                && r == Deleted(DeleteVerdict(arg.url, sdk.clientUrl, asyncMode, sdk.removed))
                && sdk.calls == old(sdk.calls) + AttemptCalls(DeleteAttempt(arg.url, sdk.clientUrl, asyncMode))
      ensures arg.ManyUrls? && arg.urls != [] ==>
                && r == DeletedEach(DeleteVerdicts(arg.urls, sdk.clientUrl, asyncMode, sdk.removed))
                && sdk.calls == old(sdk.calls) + DeleteCalls(arg.urls, sdk.clientUrl, asyncMode)
    {
      if Falsy(arg) {
        return Deleted(false);
      }
      match arg
      case OneUrl(url) =>
        var ok := DeleteSingleBlob(url, asyncMode);
        r := Deleted(ok);
      case ManyUrls(urls) =>
        var oks := DeleteEach(urls, asyncMode);
        r := DeletedEach(oks);
      case _ =>
        r := Deleted(false);
    }

    /** The list branch of `delete`: one verdict per URL, in order. */
    method DeleteEach(urls: seq<string>, asyncMode: bool) returns (oks: seq<bool>)
      requires Valid()
      modifies this, sdk
      ensures Valid()
      ensures CacheKept(old(blobClient), blobClient) && CacheKept(old(asyncBlobClient), asyncBlobClient)
      ensures oks == DeleteVerdicts(urls, sdk.clientUrl, asyncMode, sdk.removed)
      ensures sdk.calls == old(sdk.calls) + DeleteCalls(urls, sdk.clientUrl, asyncMode)
    {
      oks := [];
      var i := 0;
      while i < |urls|
        invariant 0 <= i <= |urls|
        invariant Valid()
        invariant CacheKept(old(blobClient), blobClient) && CacheKept(old(asyncBlobClient), asyncBlobClient)
        invariant oks + VerdictsFrom(urls, i, VerdictFor(sdk.clientUrl, asyncMode, sdk.removed))
                  == DeleteVerdicts(urls, sdk.clientUrl, asyncMode, sdk.removed)
        invariant sdk.calls + CallsFrom(urls, i, AttemptFor(sdk.clientUrl, asyncMode))
                  == old(sdk.calls) + DeleteCalls(urls, sdk.clientUrl, asyncMode)
      {
        AppendAssoc(sdk.calls, AttemptCalls(DeleteAttempt(urls[i], sdk.clientUrl, asyncMode)),
                    CallsFrom(urls, i + 1, AttemptFor(sdk.clientUrl, asyncMode)));
        var ok := DeleteSingleBlob(urls[i], asyncMode);
        AppendAssoc(oks, [ok], VerdictsFrom(urls, i + 1, VerdictFor(sdk.clientUrl, asyncMode, sdk.removed)));
        oks := oks + [ok];
        i := i + 1;
      }
      AppendEmpty(oks);
      AppendEmpty(sdk.calls);
    }

    /** `create_temporary_upload_link` with the default name corrected to the
        text of a fresh UUID (`str(uuid.uuid4())`);
        the token grants write only and expires `timeLimit` minutes after
        `now` (seconds); the link is the blob URL, `?` and the token, or
        `None` when signing raised. */
    method CreateTemporaryUploadLink(now: int, uuid: string, timeLimit: int := 20, container: string := "upload",
                                     blobName: Option<string> := None)
      returns (link: Option<string>)
      requires Valid()
      modifies this, sdk
      ensures Valid()
      ensures CacheKept(old(blobClient), blobClient) && blobClient != null && asyncBlobClient == old(asyncBlobClient)
      ensures var call := SignCall(container, blobName.GetOr(uuid), WriteOnly, now + 60 * timeLimit);
              && sdk.calls == old(sdk.calls) + [call]
              && link == TemporaryLink(sdk.accountUrl, container, blobName.GetOr(uuid), sdk.signed(call))
    {
      var blob := blobName.GetOr(uuid);
      var client := GetBlobServiceClient(false);
      var token := sdk.GenerateSas(container, blob, WriteOnly, now + 60 * timeLimit);
      if token.None? {
        return None;
      }
      link := Some(BlobUrl(sdk.accountUrl, container, blob) + "?" + token.value);
    }

    /** `create_temporary_upload_link` as written: without a `blob_name` the
        default UUID object makes signing raise, so the link is `None` and
        no signing call reaches the SDK; with a name it is the method above. */
    method CreateTemporaryUploadLinkAsWritten(now: int, uuid: string, timeLimit: int := 20, container: string := "upload",
                                              blobName: Option<string> := None)
      returns (link: Option<string>)
      requires Valid()
      modifies this, sdk
      ensures Valid()
      ensures CacheKept(old(blobClient), blobClient) && blobClient != null && asyncBlobClient == old(asyncBlobClient)
      ensures blobName.None? ==> link == None && sdk.calls == old(sdk.calls)
      ensures blobName.Some? ==>
                var call := SignCall(container, blobName.value, WriteOnly, now + 60 * timeLimit);
                && sdk.calls == old(sdk.calls) + [call]
                && link == TemporaryLink(sdk.accountUrl, container, blobName.value, sdk.signed(call))
    {
      var arg := DefaultBlobNameAsWritten(blobName, uuid);
      var client := GetBlobServiceClient(false);
      var name := SignableName(arg);
      if name.None? {
        return None;
      }
      var token := sdk.GenerateSas(container, name.value, WriteOnly, now + 60 * timeLimit);
      if token.None? {
        return None;
      }
      link := Some(BlobUrl(sdk.accountUrl, container, name.value) + "?" + token.value);
    }

    /** `upload_with_temporary_upload_link`: one PUT of the file's bytes with
        the block-blob header; `True` exactly on `201 Created`. */
    static method UploadWithTemporaryUploadLink(http: Transport, sasUrl: string, file: MediaFile) returns (ok: bool)
      modifies http
      ensures http.sent == old(http.sent) + [Put(sasUrl, SasPutHeaders, file.data)]
      ensures ok == Created(http.reply(Put(sasUrl, SasPutHeaders, file.data)))
    {
      var response := http.Send(Put(sasUrl, SasPutHeaders, file.data));
      ok := Created(response);
    }

    /** `async_upload_with_temporary_upload_link`: the same, with the header
        that refuses to overwrite an existing blob. */
    static method AsyncUploadWithTemporaryUploadLink(http: Transport, sasUrl: string, file: MediaFile) returns (ok: bool)
      modifies http
      ensures http.sent == old(http.sent) + [Put(sasUrl, SasPutHeadersNoOverwrite, file.data)]
      ensures ok == Created(http.reply(Put(sasUrl, SasPutHeadersNoOverwrite, file.data)))
    {
      var response := http.Send(Put(sasUrl, SasPutHeadersNoOverwrite, file.data));
      ok := Created(response);
    }
  }
}
