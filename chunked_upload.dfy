/**
 * The chunked upload of `NextcloudKit.uploadChunk`: preflight disk check,
 * staging-folder ensure, chunk uploads in order, then assembly by a WebDAV
 * MOVE of the `.file` marker onto the destination (section 9.9 of RFC 4918)
 * and a verifying read.
 *
 * Every network request is answered by a `Server` oracle and recorded in a
 * trace of `Call`s; the device (platform, free disk, local file sizes and
 * the chunk splitter) is a `Device`/`Common` oracle.
 */
module ChunkedUpload {
  import opened Maybe
  import opened Decimal

  // ---------------------------------------------------------------------
  // Errors and values
  // ---------------------------------------------------------------------

  type NonZero = n: int | n != 0 witness 1

  /** The error codes the pipeline distinguishes; `Status` is any other non-zero code (e.g. an HTTP status). */
  datatype ErrorCode =
    | Success
    | Status(status: NonZero)
    | ChunkNoEnoughMemory
    | ChunkCreateFolder
    | ChunkFilesNull
    | ChunkFileNull
    | ChunkFileUpload
    | ChunkMoveFile

  /**
   * An `NKError`: a code and its description. `None` stands for the default
   * description the library attaches to a code when none is given.
   */
  datatype NKError = NKError(code: ErrorCode, description: Option<string>) {
    /** `error == .success`: errors are compared by code. */
    predicate IsSuccess() {
      code == Success
    }
  }

  const NOT_FOUND: NonZero := 404

  datatype AFError = ExplicitlyCancelled | RequestFailed(reason: string)

  /** One chunk file: its name in the local directory and its cumulative size. */
  datatype Chunk = Chunk(fileName: string, size: int)

  datatype NKFile = NKFile(ocId: string, etag: string, size: int)

  /** The arguments of the completion handler (the account is left out). */
  datatype Completion = Completion(
    filesChunk: Option<seq<Chunk>>,
    file: Option<NKFile>,
    afError: Option<AFError>,
    error: NKError)

  function Failure(error: NKError): Completion {
    Completion(None, None, None, error)
  }

  // ---------------------------------------------------------------------
  // Oracles and the request trace
  // ---------------------------------------------------------------------

  /** A network request; `headers` are the custom headers of the request options it was sent with. */
  datatype Call =
    | Read(path: string, headers: Option<map<string, string>>)
    | CreateFolder(path: string, headers: Option<map<string, string>>)
    | Upload(remotePath: string, localPath: string, headers: Option<map<string, string>>)
    | Move(source: string, destination: string, overwrite: bool,
           headers: Option<map<string, string>>, timeout: real)

  datatype UploadReply = UploadReply(afError: Option<AFError>, error: NKError)

  datatype ReadReply = ReadReply(error: NKError, files: seq<NKFile>)

  /**
   * The server's answers: to the staging-folder read and create, to the
   * upload of the chunk at each position of the list, to the MOVE and to the
   * verifying read of the destination.
   */
  datatype Server = Server(
    readFolder: NKError,
    createFolder: NKError,
    upload: nat -> UploadReply,
    move: NKError,
    verify: ReadReply)

  datatype Platform = MacOS | IOS | VisionOS | OtherPlatform

  /**
   * The device: its platform, the free-space query and `chunkedFile`, which
   * splits the file (directory, file name, chunk size, chunks already known)
   * into chunk files. `freeDisk` is `None` only when the query throws; on
   * macOS a query that reports no free size counts as `Some(0)`. On iOS and
   * visionOS a throwing query and an unreported capacity both leave the free
   * space at 0, which `Preflight` reads as `freeDisk.GetOr(0)`.
   */
  datatype Device = Device(
    platform: Platform,
    freeDisk: Option<int>,
    chunkedFile: (string, string, int, seq<Chunk>) -> seq<Chunk>)

  /** The account data and helpers of the common instance. */
  datatype Common = Common(
    urlBase: string,
    dav: string,
    userId: string,
    getFileSize: string -> int,
    returnPathfromServerUrl: string -> string)

  function LocalPath(directory: string, fileName: string): string {
    directory + "/" + fileName
  }

  function ChunkFolderUrl(common: Common, chunkFolder: string): string {
    common.urlBase + "/" + common.dav + "/uploads/" + common.userId + "/" + chunkFolder
  }

  function DestinationUrl(common: Common, serverUrl: string, fileName: string): string {
    common.urlBase + "/" + common.dav + "/files/" + common.userId
      + common.returnPathfromServerUrl(serverUrl) + "/" + fileName
  }

  // ---------------------------------------------------------------------
  // Headers
  // ---------------------------------------------------------------------

  /** The custom headers once `Destination` and `OC-Total-Length` are set (a nil dictionary starts empty). */
  function BaseHeaders(custom: Option<map<string, string>>, destination: string, size: int): (h: map<string, string>)
    ensures h.Keys == custom.GetOr(map[]).Keys + {"Destination", "OC-Total-Length"}
    ensures h["Destination"] == destination
    ensures h["OC-Total-Length"] == Show(size)
    ensures forall k :: k in custom.GetOr(map[]) && k != "Destination" && k != "OC-Total-Length" ==>
      h[k] == custom.value[k]
  {
    custom.GetOr(map[])["Destination" := destination]["OC-Total-Length" := Show(size)]
  }

  /** `"\(interval)"` of a whole number of seconds: Swift prints an integral `Double` with a trailing `.0`. */
  function TimestampText(seconds: int): (text: string)
    ensures |text| >= 3 && text[|text| - 2..] == ".0"
  {
    Show(seconds) + ".0"
  }

  /** The seconds of a timestamp header read back from its text. */
  lemma TimestampTextRoundTrip(seconds: int)
    requires InInt64(seconds)
    ensures var text := TimestampText(seconds); ParseInt(text[..|text| - 2]) == Some(seconds)
  {
    var text := TimestampText(seconds);
    assert text[..|text| - 2] == Show(seconds);
    ParseShow(seconds);
  }

  function SetTimestamp(headers: map<string, string>, name: string, time: Option<int>): map<string, string> {
    if time.Some? && time.value > 0 then headers[name := TimestampText(time.value)] else headers
  }

  /**
   * `X-OC-CTime` and `X-OC-MTime` are set from the creation and modification
   * times only when these exist and are after the epoch; nothing else changes.
   */
  function WithTimestamps(headers: map<string, string>, creation: Option<int>, modification: Option<int>)
    : (h: map<string, string>)
    ensures creation.Some? && creation.value > 0 ==> "X-OC-CTime" in h && h["X-OC-CTime"] == TimestampText(creation.value)
    ensures modification.Some? && modification.value > 0 ==>
      "X-OC-MTime" in h && h["X-OC-MTime"] == TimestampText(modification.value)
    ensures !(creation.Some? && creation.value > 0) ==>
      ("X-OC-CTime" in h <==> "X-OC-CTime" in headers) &&
      ("X-OC-CTime" in headers ==> h["X-OC-CTime"] == headers["X-OC-CTime"])
    ensures !(modification.Some? && modification.value > 0) ==>
      ("X-OC-MTime" in h <==> "X-OC-MTime" in headers) &&
      ("X-OC-MTime" in headers ==> h["X-OC-MTime"] == headers["X-OC-MTime"])
    ensures forall k :: k != "X-OC-CTime" && k != "X-OC-MTime" ==>
      (k in h <==> k in headers) && (k in headers ==> h[k] == headers[k])
  {
    SetTimestamp(SetTimestamp(headers, "X-OC-CTime", creation), "X-OC-MTime", modification)
  }

  /** `etag.replacingOccurrences(of: "\"", with: "")`. */
  function StripQuotes(s: string): (r: string)
    ensures |r| <= |s|
    ensures '"' !in r
    ensures forall c :: c in r <==> c in s && c != '"'
    ensures '"' !in s ==> r == s
  {
    if s == [] then []
    else
      var rest := StripQuotes(s[..|s| - 1]);
      var last := s[|s| - 1];
      assert forall c :: c in s <==> c in s[..|s| - 1] || c == last;
      if last == '"' then rest else rest + [last]
  }

  /** Stripping quotes twice is stripping them once. */
  lemma {:induction false} StripQuotesIdempotent(s: string)
    ensures StripQuotes(StripQuotes(s)) == StripQuotes(s)
  {
    var r := StripQuotes(s);
    assert '"' !in r;
  }

  /**
   * Removing quotes from the concatenation is removing them from each part;
   * an etag split anywhere is cleaned the same.
   */
  lemma {:induction false} StripQuotesAppend(a: string, b: string)
    ensures StripQuotes(a + b) == StripQuotes(a) + StripQuotes(b)
    decreases |b|
  {
    if b == [] {
      assert a + b == a;
    } else {
      var front := b[..|b| - 1];
      assert (a + b)[..|a + b| - 1] == a + front;
      assert (a + b)[|a + b| - 1] == b[|b| - 1];
      StripQuotesAppend(a, front);
    }
  }

  /** The etag an upload reports: `oc-etag` when the response has it, else `etag`, without quotes. */
  function UploadEtag(ocEtag: Option<string>, etag: Option<string>): (r: Option<string>)
    ensures r.None? <==> ocEtag.None? && etag.None?
    ensures r.Some? ==> '"' !in r.value
    ensures ocEtag.Some? ==> r == Some(StripQuotes(ocEtag.value))
    ensures ocEtag.None? && etag.Some? ==> r == Some(StripQuotes(etag.value))
  {
    if ocEtag.Some? then Some(StripQuotes(ocEtag.value))
    else if etag.Some? then Some(StripQuotes(etag.value))
    else None
  }

  // ---------------------------------------------------------------------
  // Preflight and staging
  // ---------------------------------------------------------------------

  /**
   * The free-space check. On macOS only a failed file-system query stops the
   * upload; on iOS and visionOS the upload stops when the free space
   * (0 when unknown) is less than four times the file size; elsewhere there
   * is no check.
   */
  function Preflight(platform: Platform, freeDisk: Option<int>, size: int): (e: Option<NKError>)
    ensures e.Some? ==> e.value.code == ChunkNoEnoughMemory
    ensures platform == MacOS ==> (e.Some? <==> freeDisk.None?) && (e.Some? ==> e.value.description.None?)
    ensures (platform == IOS || platform == VisionOS) ==>
      (e.Some? <==> freeDisk.GetOr(0) < 4 * size) &&
      (e.Some? ==> e.value.description == Some("_chunk_enough_memory_"))
    ensures platform == OtherPlatform ==> e.None?
  {
    match platform
    case MacOS => if freeDisk.None? then Some(NKError(ChunkNoEnoughMemory, None)) else None
    case IOS | VisionOS =>
      if freeDisk.GetOr(0) < 4 * size then Some(NKError(ChunkNoEnoughMemory, Some("_chunk_enough_memory_")))
      else None
    case OtherPlatform => None
  }

  /** On iOS and visionOS, more free space never makes the check fail and a smaller file never does either. */
  lemma PreflightMonotone(platform: Platform, disk1: int, disk2: int, size1: int, size2: int)
    requires platform == IOS || platform == VisionOS
    requires disk1 <= disk2 && size2 <= size1
    ensures Preflight(platform, Some(disk1), size1).None? ==> Preflight(platform, Some(disk2), size2).None?
  {
  }

  datatype Staged = Staged(error: NKError, calls: seq<Call>)

  /**
   * The nested `createFolder`: read the staging folder; if it is missing
   * (404) create it and report the create's result; any other read error is
   * reported as is.
   */
  function Staging(folder: string, headers: map<string, string>, server: Server): (r: Staged)
    ensures 1 <= |r.calls| <= 2 && r.calls[0] == Read(folder, Some(headers))
    ensures CreateFolder(folder, Some(headers)) in r.calls <==> server.readFolder.code == Status(NOT_FOUND)
    ensures |r.calls| == 2 <==> server.readFolder.code == Status(NOT_FOUND)
    ensures r.error.IsSuccess() <==>
      server.readFolder.IsSuccess() ||
      (server.readFolder.code == Status(NOT_FOUND) && server.createFolder.IsSuccess())
    ensures server.readFolder.code == Status(NOT_FOUND) ==> r.error == server.createFolder
    ensures !server.readFolder.IsSuccess() && server.readFolder.code != Status(NOT_FOUND) ==>
      r.error == server.readFolder
  {
    var read := Read(folder, Some(headers));
    if server.readFolder.IsSuccess() then Staged(NKError(Success, None), [read])
    else if server.readFolder.code == Status(NOT_FOUND) then
      Staged(server.createFolder, [read, CreateFolder(folder, Some(headers))])
    else Staged(server.readFolder, [read])
  }

  // ---------------------------------------------------------------------
  // The chunk loop
  // ---------------------------------------------------------------------

  /** What each chunk upload needs: paths, the request headers, local sizes and the server's replies. */
  datatype UploadContext = UploadContext(
    directory: string,
    folder: string,
    headers: map<string, string>,
    getFileSize: string -> int,
    replies: nat -> UploadReply)

  function UploadCall(chunk: Chunk, ctx: UploadContext): Call {
    Upload(ctx.folder + "/" + chunk.fileName, LocalPath(ctx.directory, chunk.fileName), Some(ctx.headers))
  }

  /** The upload requests of `chunks`, in order. */
  function UploadCalls(chunks: seq<Chunk>, ctx: UploadContext): (r: seq<Call>)
    ensures |r| == |chunks|
  {
    if chunks == [] then []
    else UploadCalls(chunks[..|chunks| - 1], ctx) + [UploadCall(chunks[|chunks| - 1], ctx)]
  }

  /** The `j`-th request is the upload of the `j`-th chunk. */
  lemma {:induction false} UploadCallsOrder(chunks: seq<Chunk>, ctx: UploadContext, j: nat)
    requires j < |chunks|
    ensures UploadCalls(chunks, ctx)[j] == UploadCall(chunks[j], ctx)
    decreases |chunks|
  {
    if j < |chunks| - 1 {
      UploadCallsOrder(chunks[..|chunks| - 1], ctx, j);
    }
  }

  /** The local file of the chunk at position `j` is empty (or unreadable). */
  predicate EmptyChunk(chunks: seq<Chunk>, ctx: UploadContext, j: nat)
    requires j < |chunks|
  {
    ctx.getFileSize(LocalPath(ctx.directory, chunks[j].fileName)) == 0
  }

  /** The chunk at position `j` stops the loop: its local file is empty or its upload fails. */
  predicate ChunkFails(chunks: seq<Chunk>, ctx: UploadContext, j: nat)
    requires j < |chunks|
  {
    EmptyChunk(chunks, ctx, j) || !ctx.replies(j).error.IsSuccess()
  }

  /** The first position at or after `from` whose chunk stops the loop, or `|chunks|` when none does. */
  function FirstStop(chunks: seq<Chunk>, ctx: UploadContext, from: nat): (k: nat)
    requires from <= |chunks|
    ensures from <= k <= |chunks|
    ensures forall j :: from <= j < k ==> !ChunkFails(chunks, ctx, j)
    ensures k < |chunks| ==> ChunkFails(chunks, ctx, k)
    decreases |chunks| - from
  {
    if from == |chunks| || ChunkFails(chunks, ctx, from) then from
    else FirstStop(chunks, ctx, from + 1)
  }

  /** The completion reported when the loop stops at position `k`. */
  function StopAt(chunks: seq<Chunk>, ctx: UploadContext, k: nat): Completion
    requires k < |chunks|
  {
    if EmptyChunk(chunks, ctx, k) then
      Completion(None, None, Some(ExplicitlyCancelled), NKError(ChunkFileNull, Some("_chunk_file_null_")))
    else
      Completion(Some(chunks[k..]), None, ctx.replies(k).afError,
                 NKError(ChunkFileUpload, ctx.replies(k).error.description))
  }

  /** The requests the loop issues when it stops at `k`: every chunk before it, and chunk `k` itself unless its file is empty. */
  function AttemptedCalls(chunks: seq<Chunk>, ctx: UploadContext, k: nat): seq<Call>
    requires k <= |chunks|
  {
    if k < |chunks| && !EmptyChunk(chunks, ctx, k) then UploadCalls(chunks[..k + 1], ctx)
    else UploadCalls(chunks[..k], ctx)
  }

  /**
   * When the loop stops at `k`, the chunks were attempted one at a time in
   * list order, and none after `k` was attempted.
   */
  lemma AttemptedInOrder(chunks: seq<Chunk>, ctx: UploadContext, k: nat)
    requires k <= |chunks|
    ensures var calls := AttemptedCalls(chunks, ctx, k);
      && |calls| == (if k < |chunks| && !EmptyChunk(chunks, ctx, k) then k + 1 else k)
      && forall j :: 0 <= j < |calls| ==> calls[j] == UploadCall(chunks[j], ctx)
  {
    var n := if k < |chunks| && !EmptyChunk(chunks, ctx, k) then k + 1 else k;
    forall j | 0 <= j < n
      ensures UploadCalls(chunks[..n], ctx)[j] == UploadCall(chunks[j], ctx)
    {
      UploadCallsOrder(chunks[..n], ctx, j);
    }
  }

  /**
   * The `for` loop over the chunk list. The working list `remaining` loses
   * its head after each successful upload; the loop stops at the first chunk
   * whose local file is empty or whose upload fails.
   */
  method UploadChunks(chunks: seq<Chunk>, ctx: UploadContext)
    returns (stop: Option<Completion>, remaining: seq<Chunk>, calls: seq<Call>, uploaded: seq<Chunk>)
    ensures var k := FirstStop(chunks, ctx, 0);
      && (k == |chunks| ==> stop.None? && remaining == [])
      && (k < |chunks| ==> stop == Some(StopAt(chunks, ctx, k)))
      && remaining == chunks[k..]
      && uploaded == chunks[..k]
      && calls == AttemptedCalls(chunks, ctx, k)
  {
    ghost var k := FirstStop(chunks, ctx, 0);
    remaining := chunks;
    calls := [];
    uploaded := [];
    var uploadError := NKError(Success, None);
    var uploadAFError: Option<AFError> := None;
    var i := 0;
    while i < |chunks|
      invariant 0 <= i <= k
      invariant remaining == chunks[i..]
      invariant uploaded == chunks[..i]
      invariant calls == UploadCalls(chunks[..i], ctx)
      invariant uploadError.IsSuccess()
    {
      var chunk := chunks[i];
      var localPath := LocalPath(ctx.directory, chunk.fileName);
      if ctx.getFileSize(localPath) == 0 {
        assert ChunkFails(chunks, ctx, i);
        stop := Some(Completion(None, None, Some(ExplicitlyCancelled), NKError(ChunkFileNull, Some("_chunk_file_null_"))));
        return;
      }
      calls := calls + [Upload(ctx.folder + "/" + chunk.fileName, localPath, Some(ctx.headers))];
      assert chunks[..i + 1][..i] == chunks[..i];
      var reply := ctx.replies(i);
      if reply.error.IsSuccess() {
        remaining := remaining[1..];
        uploaded := uploaded + [chunk];
      }
      uploadAFError := reply.afError;
      uploadError := reply.error;
      if !uploadError.IsSuccess() {
        assert ChunkFails(chunks, ctx, i);
        break;
      }
      assert !ChunkFails(chunks, ctx, i);
      i := i + 1;
    }
    if !uploadError.IsSuccess() {
      stop := Some(Completion(Some(remaining), None, uploadAFError,
                              NKError(ChunkFileUpload, uploadError.description)));
    } else {
      stop := None;
    }
  }

  // ---------------------------------------------------------------------
  // Assembly
  // ---------------------------------------------------------------------

  /**
   * The assembly timeout in seconds: three minutes per gigabyte of the whole
   * file, but never under one minute nor over thirty.
   */
  function AssembleTimeout(size: int): (t: real)
    ensures 60.0 <= t <= 1800.0
    ensures 3 * size <= 1_000_000_000 ==> t == 60.0
    ensures size >= 10_000_000_000 ==> t == 1800.0
    ensures 1_000_000_000 < 3 * size && size < 10_000_000_000 ==> t == 180.0 * (size as real / 1_000_000_000.0)
  {
    var perGB: real := 3.0 * 60.0;
    var minimum: real := 60.0;
    var maximum: real := 30.0 * 60.0;
    var scaled := perGB * (size as real / 1_000_000_000.0);
    var capped := if scaled < maximum then scaled else maximum;
    if minimum < capped then capped else minimum
  }

  /** A larger file never gets a shorter assembly timeout. */
  lemma AssembleTimeoutMonotone(size1: int, size2: int)
    requires size1 <= size2
    ensures AssembleTimeout(size1) <= AssembleTimeout(size2)
  {
    assert size1 as real / 1_000_000_000.0 <= size2 as real / 1_000_000_000.0;
  }

  /**
   * The completion after the MOVE: success only when the MOVE succeeds and
   * the verifying read succeeds with at least one file, which is reported.
   */
  function Assembled(remaining: seq<Chunk>, move: NKError, verify: ReadReply): (c: Completion)
    ensures c.filesChunk == Some(remaining) && c.afError.None?
    ensures c.error.IsSuccess() <==> move.IsSuccess() && verify.error.IsSuccess() && |verify.files| > 0
    ensures c.file.Some? <==> c.error.IsSuccess()
    ensures c.error.IsSuccess() ==> c.file == Some(verify.files[0]) && c.error == verify.error
    ensures !move.IsSuccess() ==> c.error == NKError(ChunkMoveFile, move.description)
    ensures move.IsSuccess() && !c.error.IsSuccess() ==> c.error == NKError(ChunkMoveFile, verify.error.description)
  {
    if !move.IsSuccess() then
      Completion(Some(remaining), None, None, NKError(ChunkMoveFile, move.description))
    else if !verify.error.IsSuccess() || |verify.files| == 0 then
      Completion(Some(remaining), None, None, NKError(ChunkMoveFile, verify.error.description))
    else
      Completion(Some(remaining), Some(verify.files[0]), None, verify.error)
  }

  // ---------------------------------------------------------------------
  // The pipeline
  // ---------------------------------------------------------------------

  /** The request options the pipeline updates in place. */
  class RequestOptions {
    var customHeader: Option<map<string, string>>
    var timeout: real

    constructor (customHeader: Option<map<string, string>>, timeout: real)
      ensures this.customHeader == customHeader && this.timeout == timeout
    {
      this.customHeader := customHeader;
      this.timeout := timeout;
    }

    /** Sets `Destination` and `OC-Total-Length`, creating the dictionary when it is nil. */
    method SetUploadHeaders(destination: string, size: int)
      modifies this
      ensures customHeader == Some(BaseHeaders(old(customHeader), destination, size))
      ensures timeout == old(timeout)
    {
      if customHeader.None? {
        customHeader := Some(map[]);
      }
      customHeader := Some(customHeader.value["Destination" := destination]);
      customHeader := Some(customHeader.value["OC-Total-Length" := Show(size)]);
    }

    /** Before the MOVE: the timestamp headers and the assembly timeout. */
    method SetAssembleOptions(creation: Option<int>, modification: Option<int>, size: int)
      requires customHeader.Some?
      modifies this
      ensures customHeader == Some(WithTimestamps(old(customHeader).value, creation, modification))
      ensures timeout == AssembleTimeout(size)
    {
      var headers := customHeader.value;
      if creation.Some? && creation.value > 0 {
        headers := headers["X-OC-CTime" := TimestampText(creation.value)];
      }
      if modification.Some? && modification.value > 0 {
        headers := headers["X-OC-MTime" := TimestampText(modification.value)];
      }
      customHeader := Some(headers);
      timeout := AssembleTimeout(size);
    }
  }

  /** The pipeline reaches the MOVE: the preflight passes, the staging folder exists, and every chunk uploads. */
  predicate ReachesAssembly(preflight: Option<NKError>, staging: Staged, chunks: seq<Chunk>, ctx: UploadContext) {
    preflight.None? && staging.error.IsSuccess() && chunks != [] && FirstStop(chunks, ctx, 0) == |chunks|
  }

  method UploadChunk(common: Common, directory: string, fileName: string, date: Option<int>,
                     creationDate: Option<int>, serverUrl: string, chunkFolder: string,
                     filesChunk: seq<Chunk>, chunkSize: int, options: RequestOptions,
                     device: Device, server: Server)
    returns (result: Completion, calls: seq<Call>, uploaded: seq<Chunk>)
    modifies options
    ensures var size := common.getFileSize(LocalPath(directory, fileName));
            var folder := ChunkFolderUrl(common, chunkFolder);
            var dest := DestinationUrl(common, serverUrl, fileName);
            var headers := BaseHeaders(old(options.customHeader), dest, size);
            var preflight := Preflight(device.platform, device.freeDisk, size);
            var staging := Staging(folder, headers, server);
            var chunks := device.chunkedFile(directory, fileName, chunkSize, filesChunk);
            var ctx := UploadContext(directory, folder, headers, common.getFileSize, server.upload);
            var k := FirstStop(chunks, ctx, 0);
            && (preflight.Some? ==> result == Failure(preflight.value) && calls == [] && uploaded == [])
            && (preflight.None? && !staging.error.IsSuccess() ==>
                  result == Failure(NKError(ChunkCreateFolder, staging.error.description)) &&
                  calls == staging.calls && uploaded == [])
            && (preflight.None? && staging.error.IsSuccess() && chunks == [] ==>
                  result == Failure(NKError(ChunkFilesNull, Some("_chunk_files_null_"))) &&
                  calls == staging.calls && uploaded == [])
            && (preflight.None? && staging.error.IsSuccess() && chunks != [] ==> uploaded == chunks[..k])
            && (preflight.None? && staging.error.IsSuccess() && chunks != [] && k < |chunks| ==>
                  result == StopAt(chunks, ctx, k) && calls == staging.calls + AttemptedCalls(chunks, ctx, k))
            && (ReachesAssembly(preflight, staging, chunks, ctx) ==>
                  var assembleHeaders := WithTimestamps(headers, creationDate, date);
                  var move := Move(folder + "/.file", dest, true, Some(assembleHeaders), AssembleTimeout(size));
                  result == Assembled([], server.move, server.verify) &&
                  calls == staging.calls + UploadCalls(chunks, ctx) + [move] +
                           (if server.move.IsSuccess() then [Read(dest, None)] else []))
    ensures var size := common.getFileSize(LocalPath(directory, fileName));
            var folder := ChunkFolderUrl(common, chunkFolder);
            var dest := DestinationUrl(common, serverUrl, fileName);
            var headers := BaseHeaders(old(options.customHeader), dest, size);
            var preflight := Preflight(device.platform, device.freeDisk, size);
            var staging := Staging(folder, headers, server);
            var chunks := device.chunkedFile(directory, fileName, chunkSize, filesChunk);
            var ctx := UploadContext(directory, folder, headers, common.getFileSize, server.upload);
            if ReachesAssembly(preflight, staging, chunks, ctx) then
              options.customHeader == Some(WithTimestamps(headers, creationDate, date)) &&
              options.timeout == AssembleTimeout(size)
            else
              options.customHeader == Some(headers) && options.timeout == old(options.timeout)
  {
    var size := common.getFileSize(LocalPath(directory, fileName));
    var folder := ChunkFolderUrl(common, chunkFolder);
    var dest := DestinationUrl(common, serverUrl, fileName);
    options.SetUploadHeaders(dest, size);
    var headers := options.customHeader.value;
    uploaded := [];

    var preflight := Preflight(device.platform, device.freeDisk, size);
    if preflight.Some? {
      return Failure(preflight.value), [], [];
    }

    var staging := Staging(folder, headers, server);
    calls := staging.calls;
    if !staging.error.IsSuccess() {
      result := Failure(NKError(ChunkCreateFolder, staging.error.description));
      return;
    }

    var chunks := device.chunkedFile(directory, fileName, chunkSize, filesChunk);
    if chunks == [] {
      result := Failure(NKError(ChunkFilesNull, Some("_chunk_files_null_")));
      return;
    }

    var ctx := UploadContext(directory, folder, headers, common.getFileSize, server.upload);
    var stop, remaining, uploadCalls;
    stop, remaining, uploadCalls, uploaded := UploadChunks(chunks, ctx);
    calls := calls + uploadCalls;
    assert chunks[..|chunks|] == chunks;
    if stop.Some? {
      result := stop.value;
      return;
    }

    var source := folder + "/.file";
    options.SetAssembleOptions(creationDate, date, size);
    calls := calls + [Move(source, dest, true, options.customHeader, options.timeout)];
    if server.move.IsSuccess() {
      calls := calls + [Read(dest, None)];
    }
    result := Assembled(remaining, server.move, server.verify);
  }
}
