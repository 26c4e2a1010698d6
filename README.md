# fastCloud storage and upload adapters in Dafny

This project models the core of fastCloud, a library that stores media files in the cloud and hands back URLs for them. It covers two parts.

- The blob-container adapter `AzureBlobStorage`. It validates credentials and keeps two lazily created service clients, one blocking and one non-blocking. It normalises a batch of files and names and uploads them, returning one URL bare or several as a list. It parses blob URLs into container and blob name and checks that a URL belongs to the account. It deletes one URL or a list, turning every failure into `False`. It builds and uses temporary SAS upload links.
- The REST upload adapters `BaseUploadAPI`, `ReplicateUploadAPI` and `SocaityUploadAPI`. Upload is a template method: POST the file, then hand the response to the provider's validator. The adapters send an `Authorization: Bearer` header (section 2.1 of RFC 6750). Socaity's non-blocking upload has two phases: a POST asks for a write URL, then a PUT sends the bytes, and only `201 Created` counts as success (section 15.3.2 of RFC 9110).

The project has one module per file:

- `Common`: options, results carrying the Python exception that escapes, and `str(n)`.
- `Http`: JSON values, requests, responses, and the HTTP client as a `Transport` object that records each request it sends.
- `BatchNames`: the name normaliser and the result-shape rule.
- `BlobUrls`: the path component the way Python's `urlparse` gives it, the container/blob split, and the substring ownership test.
- `AzureStorage`: the adapter itself. The Azure SDK and its storage account are the `BlobSdk` object. Each call that reaches the account is appended to its `calls` trace and answered by its reply functions.
- `ReplicateApi` and `SocaityApi`: the two response validators and Socaity's direct PUT.
- `RestUpload`: the template, the bearer header and the provider constructors.

How the external parts are represented:

- A UUID supply is the parameter `uuid: nat -> string`. `uuid(i)` is the UUID drawn for slot `i`.
- The current time is a parameter `now`, counted in seconds.
- A file is an opaque `MediaFile` holding its bytes.
- An exception the HTTP client raises is a reply of `None`.

## Model

| member | source | states |
|---|---|---|
| Common.DecimalString | fastCloud/core/storage_providers/azure_storage.py:176 | `str(i)` is a non-empty string of decimal digits with no leading zero, one digit exactly for `i < 10` |
| Common.DecimalStringInjective | fastCloud/core/storage_providers/azure_storage.py:176 | different indices give different decimal strings |
| Http.BodyFields | fastCloud/core/api_providers/replicate.py:37-38 | `response.json().get` succeeds exactly on an object body; a body that is not JSON raises a decode error, any other JSON value an `AttributeError` |
| Http.Transport.Send | fastCloud/core/api_providers/i_upload_api.py:81-86 | one request is appended to the trace and answered by the remote side |
| BatchNames.SyncNames | fastCloud/core/storage_providers/azure_storage.py:95-118 | as many names as files; a string name below the file count is kept as given (`""` included); `None` or a non-string becomes that slot's UUID; extra names are dropped; missing slots get UUIDs |
| BatchNames.AsyncNames | fastCloud/core/storage_providers/azure_storage.py:158-178 | the same, except that a missing slot `i` becomes exactly `"file_name_" + str(i)` |
| BatchNames.SyncNamesDistinct | fastCloud/core/storage_providers/azure_storage.py:107-118 | with distinct given names and a fresh UUID supply, every file gets its own blob name |
| BatchNames.NoneThenNamedExample | fastCloud/core/storage_providers/azure_storage.py:108-111 | `[None, "a"]` for two files gives a UUID, then `"a"` |
| BatchNames.PlaceholdersDistinct | fastCloud/core/storage_providers/azure_storage.py:174-178 | the `file_name_{i}` placeholders never repeat among themselves |
| BatchNames.AsyncPlaceholderCanCollide | fastCloud/core/storage_providers/azure_storage.py:174-178 | a given name `"file_name_1"` and the placeholder for slot 1 coincide, so two files go to one blob |
| BatchNames.SyncAsyncAgreeWithoutPadding | fastCloud/core/storage_providers/azure_storage.py:168-178 | when no padding is needed, both paths give the same names |
| BatchNames.Collapse | fastCloud/core/storage_providers/azure_storage.py:130-133 | the result is a bare URL exactly when there is one URL; otherwise it is the list, `[]` included; no URL is lost, added or reordered |
| BlobUrls.PrefixUntilStops | fastCloud/core/storage_providers/azure_storage.py:198 | the cut `urlparse` makes at `?` and `#`: a prefix of the input free of the stop characters, followed by a stop unless it is the whole input |
| BlobUrls.PrefixUntilIs | fastCloud/core/storage_providers/azure_storage.py:198 | that prefix is the only one with those properties |
| BlobUrls.PrefixUntilPast | fastCloud/core/storage_providers/azure_storage.py:198 | a path free of `?` and `#` followed by a query is cut exactly at the query |
| BlobUrls.SkipUntilPast | fastCloud/core/storage_providers/azure_storage.py:198 | the authority ends at the first `/`, `?` or `#`: skipping a host free of them lands on what follows it |
| BlobUrls.AfterAuthorityOf | fastCloud/core/storage_providers/azure_storage.py:198 | `//host` followed by a path is stripped to the path |
| BlobUrls.ScanSchemeOf | fastCloud/core/storage_providers/azure_storage.py:198 | scheme characters up to the first `:` split off as the lower-cased scheme and the rest |
| BlobUrls.SplitSchemeOf | fastCloud/core/storage_providers/azure_storage.py:198 | a scheme that starts with a letter is split off, lower-cased, with the rest after the `:` |
| BlobUrls.CutParamsIsPrefix | fastCloud/core/storage_providers/azure_storage.py:198 | removing `;params` only ever removes a tail of the path |
| BlobUrls.CutParamsWithoutSemicolon | fastCloud/core/storage_providers/azure_storage.py:198 | a path with no `;` is not cut |
| BlobUrls.CutParamsOfPlainSegment | fastCloud/core/storage_providers/azure_storage.py:198 | a last segment free of `;` is not cut, whatever earlier segments hold |
| BlobUrls.CutParamsAtSemicolon | fastCloud/core/storage_providers/azure_storage.py:198 | the path ends before the first `;` of its last segment |
| BlobUrls.CutParamsOfBlobPath | fastCloud/core/storage_providers/azure_storage.py:198 | the path `/c/x;y` is cut to `/c/x` |
| BlobUrls.UrlPathHasNoQuery | fastCloud/core/storage_providers/azure_storage.py:198 | the path never contains the query or the fragment |
| BlobUrls.UrlPathOf | fastCloud/core/storage_providers/azure_storage.py:198 | a path free of `?`, `#` and `;` after the authority, followed by a query, is the path |
| BlobUrls.Split | fastCloud/core/storage_providers/azure_storage.py:199 | `split('/')` gives at least one piece, and exactly one when there is no separator |
| BlobUrls.JoinSplit | fastCloud/core/storage_providers/azure_storage.py:200 | joining the pieces of a split gives the string back |
| BlobUrls.SplitPieceHasNoSeparator | fastCloud/core/storage_providers/azure_storage.py:199 | no piece of a split holds the separator |
| BlobUrls.UrlPath | fastCloud/core/storage_providers/azure_storage.py:198 | the `.path` of `urlparse(url)`: scheme split off, authority skipped after `//`, cut at `?` or `#`, and `;params` of the last segment cut for the schemes that use them (its properties are the `UrlPath*`, `CutParams*` and `BlobUrlPath` lemmas) |
| BlobUrls.ParsePath | fastCloud/core/storage_providers/azure_storage.py:199-200 | `IndexError` exactly when the path has no `/`; the container never holds a `/` |
| BlobUrls.ParsePathOfBlobPath | fastCloud/core/storage_providers/azure_storage.py:199-200 | the path `"/" + c + "/" + b`, with no `/` in `c`, parses to container `c` and blob `b`, even when `b` holds `/` |
| BlobUrls.BlobUrlPath | fastCloud/core/storage_providers/azure_storage.py:198 | the path of `scheme://host/c/b`, with or without a query string, is `/c/b` |
| BlobUrls.BlobUrlParsesBack | fastCloud/core/storage_providers/azure_storage.py:198-200 | a blob URL `scheme://host/c/b`, with an unencoded name, plain host and optional query, parses back to its container and blob |
| BlobUrls.ParamsAreCut | fastCloud/core/storage_providers/azure_storage.py:198-200 | for http, https and the other schemes with params, a blob named `x;y` is addressed as the blob `x`, even when the container holds a `;` |
| BlobUrls.ParseBlobUrl | fastCloud/core/storage_providers/azure_storage.py:197-200 | the container and blob of a URL: `ParsePath` of its `urlparse` path, so `IndexError` exactly when that path has no `/` (round trip in `BlobUrlParsesBack`) |
| BlobUrls.Contains | fastCloud/core/storage_providers/azure_storage.py:235 | Python's `needle in hay`: a prefix of the haystack or of one of its suffixes (equivalence with an occurrence index in `ContainsIffOccurs`) |
| BlobUrls.ContainsIffOccurs | fastCloud/core/storage_providers/azure_storage.py:235 | `needle in hay` holds exactly when the needle occurs at some index, in both directions |
| BlobUrls.BlobUrlIsOwned | fastCloud/core/storage_providers/azure_storage.py:235 | a blob URL under root `r` passes the ownership test against any client URL that is a prefix of `r + "/"` |
| AzureStorage.ChooseCredential | fastCloud/core/storage_providers/azure_storage.py:52-70 | a truthy SAS URL always wins; otherwise a truthy connection string is used; with neither, no credential |
| AzureStorage.FirstRejected | fastCloud/core/storage_providers/azure_storage.py:122-128 | the index of the first upload that raises: every earlier one was accepted |
| AzureStorage.DeleteAttempt | fastCloud/core/storage_providers/azure_storage.py:276-284 | a delete call exactly when the URL parses and contains the client URL, and then for the parsed container and blob in the requested mode |
| AzureStorage.DeleteVerdict | fastCloud/core/storage_providers/azure_storage.py:250-264 | `True` only for a URL that parses and contains the client URL |
| AzureStorage.DeleteVerdicts | fastCloud/core/storage_providers/azure_storage.py:309 | one verdict per URL |
| AzureStorage.VerdictsFromAt | fastCloud/core/storage_providers/azure_storage.py:309 | entry `k` of a list comprehension from index `i` on is the verdict for element `i + k` |
| AzureStorage.DeleteVerdictsAt | fastCloud/core/storage_providers/azure_storage.py:309 | verdict `k` of a list is the verdict for URL `k` alone, so order and length are kept |
| AzureStorage.CallsFromLength | fastCloud/core/storage_providers/azure_storage.py:309 | each URL of the list adds at most one call to the account |
| AzureStorage.DeleteCallsAtMostOnePerUrl | fastCloud/core/storage_providers/azure_storage.py:309 | deleting a list issues at most one delete per URL |
| AzureStorage.ForeignUrlIsNotDeleted | fastCloud/core/storage_providers/azure_storage.py:235-236 | a URL outside the account yields `False` and no delete call reaches the account |
| AzureStorage.OwnBlobUrlIsDeleted | fastCloud/core/storage_providers/azure_storage.py:276-284 | when the client URL is a prefix of the account root plus `/`, deleting the URL of a blob of this account issues exactly one delete, for that container and blob |
| AzureStorage.SasClientUrlRefusesOwnBlob | fastCloud/core/storage_providers/azure_storage.py:235-236 | for any plain root, container, blob not ending in `/` and token, the client URL `root/?token` is not a substring of the blob URL `root/c/b?token`, so deleting that blob is refused although the URL parses to it |
| AzureStorage.LookalikeHostPassesBareRoot | fastCloud/core/storage_providers/azure_storage.py:235-236 | against a client URL `scheme://host` without its trailing `/`, the blob URL of any host extending `host` passes the substring test, and the delete call goes to this account for the container and blob named in that URL's path (an SDK-built client URL ends in `/`, so this needs one formed otherwise) |
| AzureStorage.TemporaryLink | fastCloud/core/storage_providers/azure_storage.py:357-358 | a link exactly when signing gave a token; the link starts with the blob URL and is one `?` and the token longer |
| AzureStorage.SignableName | fastCloud/core/storage_providers/azure_storage.py:348-355 | nothing exactly when the name is a UUID object; otherwise the name's text |
| AzureStorage.TemporaryLinkAddressesBlob | fastCloud/core/storage_providers/azure_storage.py:357-358 | the temporary link parses to its container and blob, and its query string is the SAS token |
| AzureStorage.BlobSdk.UploadBlob | fastCloud/core/storage_providers/azure_storage.py:127 | one upload call is appended to the trace and answered by the account |
| AzureStorage.BlobSdk.DownloadBlob | fastCloud/core/storage_providers/azure_storage.py:205 | one download call is appended and answered |
| AzureStorage.BlobSdk.DeleteBlob | fastCloud/core/storage_providers/azure_storage.py:283 | one delete call is appended and answered |
| AzureStorage.BlobSdk.GenerateSas | fastCloud/core/storage_providers/azure_storage.py:348-355 | one signing call is appended; its token, or `None` when signing raises |
| AzureStorage.UploadEachUntilRejected | fastCloud/core/storage_providers/azure_storage.py:122-128 | file `k` is uploaded under name `k` with overwrite; the loop stops right after the first upload that raises; on success the URLs are in input order |
| AzureStorage.UploadEachConcurrently | fastCloud/core/storage_providers/azure_storage.py:180-190 | every upload is issued; the batch succeeds exactly when all are accepted; the URLs are in input order |
| AzureStorage.AzureBlobStorage.constructor | fastCloud/core/storage_providers/azure_storage.py:40-44 | both credentials are stored as given; both client slots start empty |
| AzureStorage.AzureBlobStorage.Create | fastCloud/core/storage_providers/azure_storage.py:37-44 | `ValueError` exactly when both credentials are falsy; otherwise a fresh adapter with empty slots |
| AzureStorage.AzureBlobStorage.GetBlobServiceClient | fastCloud/core/storage_providers/azure_storage.py:50-70 | the slot for the requested mode is filled once, from the preferred credential, and then returned unchanged; the other slot is untouched |
| AzureStorage.AzureBlobStorage.Upload | fastCloud/core/storage_providers/azure_storage.py:92-133 | `ValueError` with no client and no call when there is no container; otherwise the normalised names, one overwriting upload per file until the first failure, and the collapsed URLs |
| AzureStorage.AzureBlobStorage.UploadAsync | fastCloud/core/storage_providers/azure_storage.py:155-195 | the same checks and shape with the non-blocking names; every upload reaches the account, and the call fails if any one raised |
| AzureStorage.AzureBlobStorage.Download | fastCloud/core/storage_providers/azure_storage.py:197-215 | `IndexError` for a path without a container segment; otherwise one download call for the parsed container and blob; `None` for a missing blob; the file, or the save path unchanged |
| AzureStorage.AzureBlobStorage.ParseAndValidateUrl | fastCloud/core/storage_providers/azure_storage.py:230-238 | the container and blob, or `ValueError` when the blocking client's URL is not a substring of the URL |
| AzureStorage.AzureBlobStorage.DeleteSingleBlob | fastCloud/core/storage_providers/azure_storage.py:240-290 | never raises; `True` exactly when a delete was issued for an owned, parseable URL and the account removed the blob |
| AzureStorage.AzureBlobStorage.Delete | fastCloud/core/storage_providers/azure_storage.py:302-331 | falsy or non-string, non-list input gives `False` with no call; a string gives one verdict; a list gives one verdict per URL in order |
| AzureStorage.AzureBlobStorage.DeleteEach | fastCloud/core/storage_providers/azure_storage.py:308-309 | the verdict list and the delete calls for a list of URLs, in list order |
| AzureStorage.AzureBlobStorage.CreateTemporaryUploadLink | fastCloud/core/storage_providers/azure_storage.py:343-362 | corrected: the blob name defaults to the text of a fresh UUID; one write-only signing call expiring `time_limit` minutes after now; the blob URL, `?` and the token, or `None` when signing raised |
| AzureStorage.AzureBlobStorage.CreateTemporaryUploadLinkAsWritten | fastCloud/core/storage_providers/azure_storage.py:343-362 | as written: without a blob name the signing call raises before any SAS is produced, the link is `None`, and the model records no call; with a name, the same link as the corrected method |
| AzureStorage.DefaultBlobNameAsWritten | fastCloud/core/storage_providers/azure_storage.py:343-344 | the default is the UUID object exactly when no name is given |
| AzureStorage.DefaultNameIsNeverSigned | fastCloud/core/storage_providers/azure_storage.py:344-355 | as written, the signable name is the given name, and nothing when the default is used |
| AzureStorage.AzureBlobStorage.UploadWithTemporaryUploadLink | fastCloud/core/storage_providers/azure_storage.py:373-380 | one PUT of the bytes with the block-blob header; `True` exactly on `201` |
| AzureStorage.AzureBlobStorage.AsyncUploadWithTemporaryUploadLink | fastCloud/core/storage_providers/azure_storage.py:391-399 | the same, with the header that refuses to overwrite |
| ReplicateApi.ParseReplicateResponse | fastCloud/core/api_providers/replicate.py:34-41 | any status but 200 (201 included) raises; the result is a success exactly when the status is 200, the body and its `urls` are objects and `urls.get` is truthy, and then it is that value |
| ReplicateApi.ReplicateAcceptsFileUrl | fastCloud/core/api_providers/replicate.py:37-41 | `200` with `{"urls": {"get": url}}` and a non-empty URL yields exactly that URL |
| ReplicateApi.ReplicateIgnoresRawBody | fastCloud/core/api_providers/replicate.py:34-41 | success and the returned URL depend on the status and the decoded body only; for status 200 the whole result does |
| ReplicateApi.ReplicateRejectionQuotesBody | fastCloud/core/api_providers/replicate.py:34-35 | a rejected status raises with the message followed by the body's text |
| ReplicateApi.ReplicateMissingUrlRaises | fastCloud/core/api_providers/replicate.py:38-40 | a missing `urls` or a missing `get` raises instead of giving `None` |
| ReplicateApi.ReplicateEmptyUrlRaises | fastCloud/core/api_providers/replicate.py:39-40 | an empty URL raises |
| SocaityApi.ParseSocaityResponse | fastCloud/core/api_providers/socaity.py:62-64 | raises unless the status is 200 or 201 and the body is an object; then the value of `upload_url`, or `None` when it is absent |
| SocaityApi.SocaityMissingUrlIsNull | fastCloud/core/api_providers/socaity.py:64 | an object body without `upload_url` is a success carrying `None` |
| SocaityApi.ReplicateStricterThanSocaity | fastCloud/core/api_providers/socaity.py:62-64 | every response the Replicate validator accepts, the Socaity validator accepts too |
| SocaityApi.LenienceExample | fastCloud/core/api_providers/socaity.py:62-64 | `201` with `{}` passes Socaity's validator and fails Replicate's |
| SocaityApi.UploadToTemporaryUrl | fastCloud/core/api_providers/socaity.py:25-48 | a `bytes`, `BytesIO` or path argument raises `AttributeError` and a non-string URL is refused, both with nothing sent; otherwise exactly one PUT of the bytes to the URL with the two blob headers, success exactly on `201`, and any other status raises with the URL and the response text |
| RestUpload.AuthHeaders | fastCloud/core/api_providers/i_upload_api.py:31-37 | the `Authorization: Bearer {api_key}` header map of `get_auth_headers` (its contents in `AuthHeadersCarryKey`, injectivity in `AuthHeadersInjective`) |
| RestUpload.AuthHeadersCarryKey | fastCloud/core/api_providers/i_upload_api.py:37 | a one-entry map, `Authorization` to `Bearer ` followed by the key |
| RestUpload.AuthHeadersInjective | fastCloud/core/api_providers/i_upload_api.py:37 | different keys give different headers |
| RestUpload.ProcessUploadResponse | fastCloud/core/api_providers/i_upload_api.py:87 | the provider's `_process_upload_response`: a status other than 200 and 201 raises for both providers; a Replicate success has status 200 and a truthy URL |
| RestUpload.UploadRequest | fastCloud/core/api_providers/i_upload_api.py:81-86 | a POST to the endpoint with the file under `content` and a single `Authorization` header carrying the key after `Bearer ` |
| RestUpload.TemplateResult | fastCloud/core/api_providers/i_upload_api.py:80-87 | the provider's verdict on the response, unchanged and uncaught; the client's exception when the request raised |
| RestUpload.ReplicateUploadSucceedsOnlyOn200 | fastCloud/core/api_providers/replicate.py:34-41 | a Replicate upload succeeds only on `200 OK`, with a truthy URL |
| RestUpload.ReplicateBaseArgsAsWritten | fastCloud/core/api_providers/replicate.py:19-20 | as written, the key lands in the endpoint slot and the endpoint in the key slot |
| RestUpload.ReplicateBaseArgs | fastCloud/core/api_providers/replicate.py:19-20 | the corrected constructor passes the key as the key and the endpoint as the endpoint |
| RestUpload.ReplicateSwapExample | fastCloud/core/api_providers/replicate.py:19-20 | as written, `ReplicateUploadAPI("r8_abc")` POSTs to `r8_abc` with the endpoint URL as its bearer token |
| RestUpload.ReplicateArgsReachEndpoint | fastCloud/core/api_providers/replicate.py:19-20 | corrected, the upload goes to the endpoint and carries the key |
| RestUpload.UploadApi.constructor | fastCloud/core/api_providers/i_upload_api.py:26-29 | the key and the endpoint are stored unchanged |
| RestUpload.UploadApi.ReplicateAsWritten | fastCloud/core/api_providers/replicate.py:19-20 | as written, the key lands in the endpoint field and the endpoint in the key field |
| RestUpload.UploadApi.Replicate | fastCloud/core/api_providers/replicate.py:19-20 | the corrected constructor, with the Replicate default endpoint |
| RestUpload.UploadApi.Socaity | fastCloud/core/api_providers/socaity.py:22-23 | the key and the endpoint by name, with the Socaity default endpoint |
| RestUpload.UploadApi.Upload | fastCloud/core/api_providers/i_upload_api.py:71-87 | a `bytes`, `BytesIO` or path argument raises `AttributeError` with nothing sent, since it is not converted to a `MediaFile`; otherwise exactly one POST to the endpoint, with the file under `content`, the auth headers and a 60 s timeout; the result is the validator's, exceptions included |
| RestUpload.UploadApi.UploadAsync | fastCloud/core/api_providers/socaity.py:66-85 | Replicate behaves as the blocking upload, raw arguments included; Socaity POSTs with only the auth headers and sends no PUT when validation fails; after a granted POST a raw argument raises `AttributeError` with no PUT; otherwise it PUTs the bytes to the URL it got back and returns that URL unchanged on `201` |
| RestUpload.UploadApi.Download | fastCloud/core/api_providers/i_upload_api.py:54-69 | one GET with the auth headers; the file, or the save path unchanged |

## Left out

- The Azure SDK itself (service and blob clients, uploads, downloads, deletes, SAS signing) is the `BlobSdk` object. Its replies are arbitrary fixed functions of the call. Token contents and signing are not modelled.
- The SDK's blob URL is `account root + "/" + container + "/" + blob`. Percent-encoding and the SAS query that the SDK may append are not modelled. The client URL (`service_client.url`) is a separate constant, `BlobSdk.clientUrl`; its relation to the account root is not modelled and is a hypothesis where a lemma needs it.
- AzureStorage.OwnBlobUrlIsDeleted: holds only under the hypothesis that the client URL is a prefix of the root plus `/`. A client built from a SAS token has a URL `root/?token`, which does not occur in a blob URL `root/c/b?token` whose name does not end in `/`, so deleting such blobs of the account returns `False` (`AzureStorage.SasClientUrlRefusesOwnBlob`).
- BlobUrls.BlobUrlIsOwned: the ownership test is a substring test, so it also admits foreign URLs that contain the client URL anywhere; a client URL without a trailing `/` admits URLs on lookalike hosts, whose container and blob are then deleted in this account (`AzureStorage.LookalikeHostPassesBareRoot`). An SDK-built client URL ends in `/`.
- BlobUrls.BlobUrlParsesBack: the name is taken unencoded. The SDK percent-encodes blob names (a space as `%20`, `;` as `%3B`) and the parser does not decode them, so for such names the parsed blob is the encoded text.
- BlobUrls.ParamsAreCut: an SDK-formed URL encodes `;`, so the cut applies to URLs written by hand with a raw `;`.
- ReplicateApi.ParseReplicateResponse: the message for a missing URL is constant; the source appends the decoded body (`data`). `response.text` is taken as ISO-8859-1 for every body; httpx decodes it with the Content-Type charset, or else its default encoding.
- The HTTP client is the `Transport` object, and any exception it raises is the single `TransportError`. The client manager, context managers and client lifetimes are not modelled.
- A response body is the decoded JSON, or none when it does not decode. JSON numbers are integers only; floating point is left out.
- The Azure adapter's `MediaFile().from_any` conversion of `bytes`, `BytesIO` and path arguments is left out: its methods take the converted `MediaFile`. The REST adapters do not convert, and their raw arguments are modelled (`Http.UploadInput`). `from_url`, `save` and how a `MediaFile` serialises itself are left out: a file is its bytes. Writing a downloaded blob to disk is left out.
- Logging, `print` and the `@requires` and `try: import` guards are left out.
- UUID randomness and `datetime.utcnow()` are parameters.
- The abstract storage interface in fastCloud/core/storage_providers/i_cloud_storage.py and the package exports in fastCloud/core/__init__.py are not part of this model. They hold no behaviour.
- Client construction is assumed to succeed for any truthy credential. The SDK's rejection of a malformed SAS URL or connection string is not modelled.
- `BlobUrls.UrlPath` does not strip leading control characters or spaces, and does not remove tab and newline characters, as Python's `urlsplit` does. It also does not reject malformed bracketed hosts. It does not apply `_checknetloc`, which raises `ValueError` when the NFKC normalisation of a non-ASCII network location introduces `/`, `?`, `#`, `@` or `:`.
- AzureStorage.AzureBlobStorage.UploadAsync: the uploads are issued one after another in list order. `asyncio.gather` interleaves them, and the order in which the account sees them is not modelled.
- AzureStorage.AzureBlobStorage.Delete: the list branch of `delete_async` deletes in list order. The concurrent order under `gather` is not modelled, but the verdicts are the same.
- RestUpload.UploadApi.Download: a response of any status is taken as the file's content. What `MediaFile.from_url` does with an error status is not visible here.
- RestUpload.UploadApi.Upload: a missing endpoint is modelled as a URL the client refuses before sending. Both providers always pass a string, so this arises only when `None` is passed explicitly.
- The code and its documentation disagree in two places, and the model follows the code. Deleting a URL outside the account is documented to raise, but the code reports `False` (`AzureStorage.ForeignUrlIsNotDeleted`). Missing names are documented as padded with UUIDs, but the non-blocking upload pads them with `file_name_{i}` (`BatchNames.AsyncNames`).

## Findings

| source | as written | input that shows it | evidently intended | confidence | as-written member | corrected member |
|---|---|---|---|---|---|---|
| fastCloud/core/api_providers/replicate.py:19-20 | `super().__init__(upload_endpoint, api_key)` passes the arguments positionally into `BaseUploadAPI.__init__(api_key, upload_endpoint)`, so the key and the endpoint swap places | `ReplicateUploadAPI("r8_abc")` POSTs the file to the URL `r8_abc` with `Authorization: Bearer https://api.replicate.com/v1/files` | the key is stored as the key and the endpoint as the endpoint, so uploads go to the Replicate endpoint with the caller's key | high (not executed) | RestUpload.ReplicateSwapExample | RestUpload.ReplicateArgsReachEndpoint |
| fastCloud/core/storage_providers/azure_storage.py:344 | the default blob name is `uuid.uuid4()`, a `UUID` object, passed as `blob_name` to `generate_blob_sas`, which joins it to the container name with `+` and raises `TypeError`; the `except` turns that into `None` | `create_temporary_upload_link()` with no `blob_name` returns `None` | the default is the text of a fresh UUID, `str(uuid.uuid4())`, so the call returns a write-only link for that blob | medium: the SDK's signer is not part of this model (not executed) | AzureStorage.DefaultNameIsNeverSigned | AzureStorage.TemporaryLinkAddressesBlob |
