# NextcloudKit chunked upload and unified-search decoding, in Dafny

This project models two parts of NextcloudKit, the Swift client library for
Nextcloud servers.

**`NextcloudKit.uploadChunk`** sends a large file as a sequence of chunk files
into a staging folder under the WebDAV `uploads/` tree. It then assembles them
with a MOVE of the staging folder's `.file` marker onto the destination (a
WebDAV MOVE, section 9.9 of RFC 4918), and confirms the result with a read of
the destination. The pipeline runs in this order:

1. It builds the staging-folder and destination URLs and sets the
   `Destination` and `OC-Total-Length` headers in the request options.
2. It runs the free-space preflight.
3. It makes sure the staging folder exists (the nested `createFolder`).
4. It obtains the chunk list.
5. It uploads the chunks one at a time, stopping at the first failure.
6. It sets the timestamp headers and the assembly timeout.
7. It issues the MOVE, then the verifying read.

**The unified-search response types.** These are the failable initializers of
`NKSearchProvider`, `NKSearchEntry` and `NKSearchResult` over SwiftyJSON
values, the `factory` functions built on `compactMap`, `NKSearchEntry.fileId`
and `filePath`, and the endpoint text that `searchProvider` requests.

Modules:

- `Maybe`: `Option`.
- `Decimal`: Swift `String(n)` and the failable `Int(text)` for 64-bit
  `Int`, with the round trip proved.
- `Json`: a JSON value and the SwiftyJSON accessors the initializers use.
  - `.string` and `.bool` accept only that JSON type.
  - `.int` accepts a number, truncated toward zero, and also `true`/`false`
    as 1/0.
  - `json[key]` is `null` for a missing key or a non-object.
  - `.array` and `.dictionaryObject` accept only arrays and objects.
- `Search`: the search types, their validators and factories, and the
  endpoint builder.
- `ChunkedUpload`: the upload pipeline.
  - The network is an oracle. Each request the pipeline issues is answered
    by a `Server` value and recorded in a trace of `Call`s that the method
    returns, so "no MOVE is issued" and "chunk `i+1` is never attempted"
    are statements about that trace.
  - The device is an oracle too: the platform, the free-space query,
    `getFileSize` and `chunkedFile`.
  - `NKRequestOptions` is a class, because the pipeline updates its
    `customHeader` and `timeout` in place.

Notes on the code's own behaviour, which the model follows:

- **Free-space check.** The 4× comparison of free space with the file size
  runs only on iOS and visionOS (NextcloudKit.swift:374-380). On macOS the
  upload stops only when the file-system query itself throws; the free
  size it reads is never compared. On other platforms there is no check.
  `Preflight` models exactly this.
- **Empty chunk list.** The chunk list is obtained only after the staging
  folder has been read (and perhaps created), so `UploadChunk` reports
  `ChunkFilesNull` after the staging requests, not before any request.
- **Remaining chunks.** Not every failure reports a resumable list:
  - a chunk whose local file is empty (size 0) ends the upload with a nil
    remaining list and `explicitlyCancelled`;
  - an assembly failure reports the working list, which is then empty.
- **Chunk sizes.** The doc comment of `uploadChunk`
  (NextcloudKit.swift:320-321) gives chunk sizes as running totals, not
  per-chunk lengths. No modelled decision reads them.

## Model

| member | source | states |
|---|---|---|
| ChunkedUpload.UploadChunk | Sources/NextcloudKit/NextcloudKit.swift:324-487 | Stage by stage, the completion and the exact request trace. A preflight failure issues no request. A staging failure returns `chunkCreateFolder` with the staging error's description after only the staging requests. An empty chunk list returns `chunkFilesNull` and issues no upload or MOVE. A stop at chunk `k` returns that chunk's completion after the uploads of chunks `0..k` (or `0..k-1` when chunk `k`'s file is empty). Full success issues the MOVE of `<staging>/.file` onto the destination with overwrite on, the timestamped headers and the computed timeout, then a read of the destination (only when the MOVE succeeded). The callback `uploaded` receives exactly the chunks before the stop. The new options hold the base headers, plus the timestamps and the assembly timeout exactly when the MOVE is reached. |
| ChunkedUpload.RequestOptions.SetUploadHeaders | Sources/NextcloudKit/NextcloudKit.swift:348-352 | A nil header dictionary becomes empty. Then `Destination` is set to the destination URL and `OC-Total-Length` to the decimal text of the local size. The timeout is unchanged. |
| ChunkedUpload.BaseHeaders | Sources/NextcloudKit/NextcloudKit.swift:348-352 | The headers after that step: the keys are the old keys plus `Destination` and `OC-Total-Length`, with those two values, and every other header is kept. |
| ChunkedUpload.Preflight | Sources/NextcloudKit/NextcloudKit.swift:354-380 | On iOS and visionOS, the check fails (`chunkNoEnoughMemory`, "_chunk_enough_memory_") iff free space, taken as 0 when unknown, is below 4 × size. On macOS it fails iff the file-system query fails. Elsewhere it never fails. |
| ChunkedUpload.PreflightMonotone | Sources/NextcloudKit/NextcloudKit.swift:374-380 | On iOS and visionOS, if the check passes, it still passes with more free space or a smaller file. |
| ChunkedUpload.Staging | Sources/NextcloudKit/NextcloudKit.swift:382-395 | The folder is always read first. A create request is issued iff the read answered 404, and is then the only other request. The result is success iff the read succeeded, or it answered 404 and the create succeeded. On 404 the create's error is returned. Any other read error is returned unchanged. |
| ChunkedUpload.UploadChunks | Sources/NextcloudKit/NextcloudKit.swift:413-453 | With `k` the first chunk whose local file is empty or whose upload fails: the working list ends as `chunks[k..]`, so it is `[]` when every chunk uploads and still holds the failed chunk otherwise. The chunks reported as uploaded are `chunks[..k]`. The requests are the uploads of chunks `0..k`, in order, and never one after `k`. The stop completion is `chunkFileNull` with a nil list for an empty file, or `chunkFileUpload` with `chunks[k..]`, the upload's AFError and its description. |
| ChunkedUpload.FirstStop | Sources/NextcloudKit/NextcloudKit.swift:413-449 | The stopping position: every chunk before it uploads, and the chunk at it (if any) fails. |
| ChunkedUpload.AttemptedInOrder | Sources/NextcloudKit/NextcloudKit.swift:413-449 | The upload requests up to a stop at `k` number `k` or `k+1`, and the `j`-th is the upload of chunk `j` into the staging folder. |
| ChunkedUpload.UploadCallsOrder | Sources/NextcloudKit/NextcloudKit.swift:415-427 | The `j`-th upload request is the PUT of chunk `j`'s local file to `<staging>/<chunk name>`. |
| ChunkedUpload.AssembleTimeout | Sources/NextcloudKit/NextcloudKit.swift:466-470 | The timeout lies in [60, 1800] seconds. It is 60 for files up to 1/3 GB and 1800 from 10 GB. For sizes strictly between 1/3 GB and 10 GB it is exactly 180 s per GB. |
| ChunkedUpload.AssembleTimeoutMonotone | Sources/NextcloudKit/NextcloudKit.swift:466-470 | A larger file never gets a shorter timeout. |
| ChunkedUpload.RequestOptions.SetAssembleOptions | Sources/NextcloudKit/NextcloudKit.swift:458-470 | The headers become the timestamped headers and the timeout the assembly timeout. |
| ChunkedUpload.WithTimestamps | Sources/NextcloudKit/NextcloudKit.swift:458-464 | `X-OC-CTime`/`X-OC-MTime` are set to the seconds' text only for a present, strictly positive time. Otherwise that header is left as it was. Every other header is unchanged. |
| ChunkedUpload.TimestampTextRoundTrip | Sources/NextcloudKit/NextcloudKit.swift:458-464 | The timestamp header text, without its `.0`, reads back as the seconds. |
| ChunkedUpload.Assembled | Sources/NextcloudKit/NextcloudKit.swift:472-483 | Success iff the MOVE succeeded and the verifying read succeeded with at least one file. In that case the first file is reported, with the read's error. A failed MOVE gives `chunkMoveFile` with the MOVE's description. A failed or empty read gives `chunkMoveFile` with the read's description. The working list is passed through. |
| ChunkedUpload.UploadEtag | Sources/NextcloudKit/NextcloudKit.swift:290-297 | The etag is absent iff both headers are absent. Otherwise it is `oc-etag` when present, else `etag`, and has no quotes. |
| ChunkedUpload.StripQuotes | Sources/NextcloudKit/NextcloudKit.swift:295-297 | The result has no `"`, keeps exactly the other characters of the input, and is the input itself when it had no quote. |
| ChunkedUpload.StripQuotesIdempotent | Sources/NextcloudKit/NextcloudKit.swift:295-297 | Stripping twice equals stripping once. |
| ChunkedUpload.StripQuotesAppend | Sources/NextcloudKit/NextcloudKit.swift:295-297 | Stripping distributes over concatenation. |
| Search.ProviderInit | Sources/NextcloudKit/NextcloudKit+Search.swift:243-251 | A provider is built iff `id` and `name` are strings and `order` reads as an Int. Its fields are those members. |
| Search.ProviderFactory | Sources/NextcloudKit/NextcloudKit+Search.swift:253-256 | Nil iff the input is not an array. Otherwise the result is exactly the valid providers in input order, so it is no longer than the input. |
| Search.CompactMapExact | Sources/NextcloudKit/NextcloudKit+Search.swift:233-236 | The `k`-th result of `compactMap` is the image of the `k`-th position where the transform succeeds. There are as many results as such positions. |
| Search.EntryInit | Sources/NextcloudKit/NextcloudKit+Search.swift:215-231 | An entry is built iff `thumbnailUrl`, `title`, `subline`, `resourceUrl` and `icon` are strings and `rounded` is a bool. The fields are those members. `attributes` is present iff the member is an object, and is then that object's members. |
| Search.AttributesNeverFatal | Sources/NextcloudKit/NextcloudKit+Search.swift:230 | Replacing or removing `attributes` never changes whether an entry is built. |
| Search.EntryFactory | Sources/NextcloudKit/NextcloudKit+Search.swift:233-236 | Nil iff the input is not an array. Otherwise the result is exactly the valid entries in input order. |
| Search.FileId | Sources/NextcloudKit/NextcloudKit+Search.swift:207-210 | A file id exists only when `attributes["fileId"]` is a string. When it is a string, the file id is exactly what `Int(_:)` makes of it (a 64-bit value, or none). |
| Search.FileIdOfText | Sources/NextcloudKit/NextcloudKit+Search.swift:207-210 | Any `fileId` text that `Int(_:)` accepts, including a sign or leading zeros, gives that Int. |
| Search.FileIdOfShow | Sources/NextcloudKit/NextcloudKit+Search.swift:207-210 | The decimal text of a 64-bit Int gives that Int back. |
| Search.FileIdNeedsText | Sources/NextcloudKit/NextcloudKit+Search.swift:207-210 | A missing or non-string (e.g. numeric) `fileId` gives no file id. |
| Search.FilePath | Sources/NextcloudKit/NextcloudKit+Search.swift:211-213 | A path exists iff `attributes["path"]` is a string, and it is that string. |
| Search.ResultInit | Sources/NextcloudKit/NextcloudKit+Search.swift:187-197 | A result is built iff `isPaginated` is a bool, `name` a string and `entries` an array. Its entries are the entry factory of `entries`. Its cursor is present iff `cursor` reads as an Int, and is then that Int. Its id is the provider id given. |
| Search.ResultKeepsValidEntries | Sources/NextcloudKit/NextcloudKit+Search.swift:187-197 | An invalid element of `entries` does not make the result fail. A valid one appears among the entries at its valid position. |
| Search.DecodeSearchResponse | Sources/NextcloudKit/NextcloudKit+Search.swift:164-169 | With `d` the `ocs.data` member of the response: a result is decoded iff `d` has a bool `isPaginated`, a string `name` and an array `entries`. The decoded result carries the requested id, `d`'s name and paging flag, and the entry factory of `d`'s entries. |
| Search.SearchEndpoint | Sources/NextcloudKit/NextcloudKit+Search.swift:126-136 | Nil iff the term cannot be URL-encoded. Otherwise the endpoint is `ocs/v2.php/search/providers/<id>/search?` followed by `term=<term>`, then `limit=<n>` only for a limit, then `cursor=<n>` only for a cursor, joined by `&` in that order. |
| Search.EndpointQueryRoundTrip | Sources/NextcloudKit/NextcloudKit+Search.swift:130-136 | Splitting the endpoint's query at `&` gives back the parameters. Looking them up recovers the term, and the limit and cursor exactly when given, whose texts read back as the numbers. This needs the id to have no `?` and the encoded term no `&`. |
| Search.SplitJoin | Sources/NextcloudKit/NextcloudKit+Search.swift:130-136 | Parameters joined with `&` split back into the same parameters when none contains `&`. |
| Decimal.ParseShow | Sources/NextcloudKit/NextcloudKit+Search.swift:209 | `Int(String(n)) == n` for every 64-bit `n`. |

## Left out

- Callbacks with no bearing on the outcome: the progress and task callbacks of `uploadChunk` and `upload`, including the fraction `Double(size) / Double(total)`, which reads the cumulative chunk sizes; `numChunks`, `counterChunk`, `start` and `requestHandler`. The `account` argument of every completion is left out too.
- Concurrency: the `DispatchSemaphore` wait and the callback queues. Each upload is modelled as a call that returns its reply before the next chunk.
- Platform and library code that is not visible, taken as oracles:
  - the free-space queries `attributesOfFileSystem` and `volumeAvailableCapacityForImportantUsage`;
  - `getFileSize`, `chunkedFile` and `returnPathfromServerUrl`;
  - the server's replies to `readFileOrFolder`, `createFolder`, `upload` and `moveFileOrFolder`.
- Alamofire request execution inside `upload`: URL conversion failure, the `oc-fileid`/`fileid` lookup, date parsing (`invalidDate`) and response validation. An upload's outcome is its `UploadReply`, which can carry any of those errors.
- `getStandardHeaders`: a request's headers are recorded as the custom headers of the options it is sent with.
- The error codes of `NKError` and its default descriptions: an error with no description given carries `None`. `NKError` is not part of this model beyond comparing errors by code.
- ChunkedUpload.WithTimestamps: also stands for the same rule in `upload` (NextcloudKit.swift:263-269), except that `HTTPHeaders.update` there matches header names regardless of case while the model's map is case-sensitive. Times are whole epoch seconds and the header text is the seconds followed by `.0`. This matches Swift's printing of an integral `Double` below 10^16, but fractional seconds and Swift's exponent notation above that are not modelled.
- ChunkedUpload.AssembleTimeout: computed in exact real arithmetic rather than `Double`, so rounding is not modelled.
- ChunkedUpload.Preflight: `4 × size` is unbounded here; the trap on 64-bit overflow of that product is not modelled.
- Search.SearchEndpoint: the encoding itself (`urlEncoded`, `addingPercentEncoding` with a Foundation character set) is a parameter, `nil` when encoding fails. `createStandardUrl`, the `URLRequest` construction and the request are not modelled.
- `unifiedSearch`: it queries the providers concurrently through a dispatch group.
- JSON numbers that do not fit a 64-bit `Int` are truncated without the overflow behaviour of SwiftyJSON's `.int`.
- Session setup, reachability, the authentication challenge, logging and the single-shot `download`/`upload` plumbing are not modelled.
- NextcloudKit/NextcloudKit.swift is an older copy without the chunked upload and is not part of this model.
