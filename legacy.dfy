/**
 * The older `YOPStorage` client of yop-cloud-sdk/main.py. It uploads single
 * files only (a directory is refused), into a destination directory under an
 * optional new name; it downloads into a destination directory it creates
 * first. Its header dictionary starts empty and nothing changes it. Reads go
 * in 8192-byte slices.
 *
 * As for the newer client, `upload` and `download` are specified by
 * functions of the file system and the server's answers; the methods of
 * `Storage` are proved to do exactly that.
 */
module Legacy {
  import opened Results
  import opened Chunking
  import opened Paths
  import opened LocalIo
  import opened Protocol

  /** Bytes per read when a file is streamed to the server, and per chunk of a download. */
  const ChunkSize: nat := 8192

  /** Where an upload leaves things: it changes no file, so only the requests and the result. */
  datatype UploadRun = UploadRun(requests: seq<Request>, outcome: Outcome)

  /** Where a download leaves things. */
  datatype DownloadRun = DownloadRun(files: FileMap, requests: seq<Request>, outcome: Outcome)

  /**
   * `generate_chunks_from_file`: reads the rest of the file in 8192-byte
   * slices, bumping the progress bar by each slice. The slices put together
   * are the bytes read, and the bar grows by their number.
   */
  method GenerateChunksFromFile(file: ReadableFile, pbar: ProgressBar) returns (chunks: seq<seq<byte>>)
    requires file.Valid()
    modifies file, pbar
    ensures file.Valid() && file.Remaining() == []
    ensures chunks == Chunks(old(file.Remaining()), ChunkSize)
    ensures Concat(chunks) == old(file.Remaining())
    ensures pbar.n == old(pbar.n) + |old(file.Remaining())|
  {
    chunks := ReadInChunks(file, pbar, ChunkSize);
    ConcatChunks(old(file.Remaining()), ChunkSize);
  }

  /** Python's `name or fallback` on an optional string: a missing or empty name gives way. */
  function NameOr(name: Option<string>, fallback: string): (r: string)
    ensures name.Some? && name.value != "" ==> r == name.value
    ensures name == None || name == Some("") ==> r == fallback
  {
    if name.Some? && name.value != "" then name.value else fallback
  }

  /**
   * The server path an upload names: `join(dst_dir, dst_file_name or
   * basename(src))`. An absolute name replaces the destination directory;
   * any other name is appended to it.
   */
  function UploadDestination(src: string, dstDir: string, name: Option<string>): (dst: string)
    ensures var chosen := NameOr(name, Basename(src));
            chosen != "" && chosen[0] == '/' ==> dst == chosen
    ensures var chosen := NameOr(name, Basename(src));
            !(chosen != "" && chosen[0] == '/') ==>
              |dstDir| + |chosen| <= |dst| && dst[..|dstDir|] == dstDir && dst[|dst| - |chosen|..] == chosen
  {
    Join(dstDir, NameOr(name, Basename(src)))
  }

  /**
   * Without a name the file keeps its own base name; a name without '/'
   * puts it directly in the destination directory, under that name.
   */
  lemma UploadDestinationSplit(src: string, dstDir: string, name: Option<string>)
    ensures NameOr(name, "") == "" ==> Split(UploadDestination(src, dstDir, name)) == (TrimHead(dstDir), Basename(src))
    ensures Slashless(NameOr(name, "")) ==>
      Split(UploadDestination(src, dstDir, name)) == (TrimHead(dstDir), NameOr(name, Basename(src)))
  {
    var chosen := NameOr(name, Basename(src));
    BasenameSlashless(src);
    if Slashless(chosen) {
      SplitOfJoin(dstDir, chosen);
    }
  }

  /**
   * The local path a download writes: `join(dst_dir, dst_file_name or
   * src)`. Without a name the whole server path, not its base name, is
   * appended to the destination directory; an absolute server path replaces
   * the destination directory altogether.
   */
  function DownloadDestination(src: string, dstDir: string, name: Option<string>): (dst: string)
    ensures NameOr(name, "") != "" ==> dst == Join(dstDir, NameOr(name, ""))
    ensures NameOr(name, "") == "" && src != "" && src[0] == '/' ==> dst == src
    ensures NameOr(name, "") == "" && !(src != "" && src[0] == '/') ==>
      |dstDir| + |src| <= |dst| && dst[..|dstDir|] == dstDir && dst[|dst| - |src|..] == src
  {
    Join(dstDir, NameOr(name, src))
  }

  /** `upload(src, dst_dir, dst_file_name)` as a function of the file system and the server's answer. */
  function UploadSpec(files: FileMap, headers: Headers, src: string, dstDir: string, name: Option<string>, status: int)
    : (run: UploadRun)
    // a missing source or a directory raises before anything is sent
    ensures src !in files ==> run == UploadRun([], Failure(LocalNotFound(src)))
    ensures src in files && files[src].Dir? ==> run == UploadRun([], Failure(CannotUploadDirectory))
    // a regular file is sent in chunks that put together are its bytes, to the joined destination
    ensures src in files && files[src].File? ==>
      && |run.requests| == 1 && run.requests[0].Post?
      && run.requests[0] == Post(UploadEndpoint, UploadHeaders(headers, UploadDestination(src, dstDir, name), false),
                                 run.requests[0].body)
      && run.requests[0].body == Chunks(files[src].data, ChunkSize)
      && Concat(run.requests[0].body) == files[src].data
    ensures run.outcome.Success? <==> run.requests != [] && status == 200
    ensures run.requests != [] && status != 200 ==> run.outcome == Failure(UploadFailed(status))
  {
    if src !in files then UploadRun([], Failure(LocalNotFound(src)))
    else if files[src].Dir? then UploadRun([], Failure(CannotUploadDirectory))
    else
      var data := files[src].data;
      ConcatChunks(data, ChunkSize);
      var dst := UploadDestination(src, dstDir, name);
      UploadRun([Post(UploadEndpoint, UploadHeaders(headers, dst, false), Chunks(data, ChunkSize))], UploadStatus(status))
  }

  /**
   * `download(src, dst_dir, dst_file_name)` as a function of the file system
   * and the server's answer. `os.path.exists("")` is false and
   * `os.makedirs("")` raises, so an empty destination directory fails
   * before any request. What it promises is stated by the lemmas below.
   */
  function DownloadSpec(files: FileMap, headers: Headers, src: string, dstDir: string, name: Option<string>,
                        body: BodyResponse): (run: DownloadRun)
    ensures |run.requests| <= 1
    ensures run.outcome.Success? <==> dstDir != "" && body.status == 200
  {
    if dstDir == "" then DownloadRun(files, [], Failure(MakeDirsFailed(dstDir)))
    else
      var prepared := WithDirectory(files, dstDir);
      var requests := [Get(DownloadEndpoint(src), headers)];
      var status := DownloadStatus(src, body.status);
      if status.Failure? then DownloadRun(prepared, requests, status)
      else DownloadRun(prepared[DownloadDestination(src, dstDir, name) := File(Concat(body.chunks))], requests, Success)
  }

  /**
   * An empty destination directory raises before any request; any other is
   * there afterwards, made before the one request is sent, even when the
   * download then fails. Success exactly when the server answered 200.
   */
  lemma DownloadMakesDirectoryFirst(files: FileMap, headers: Headers, src: string, dstDir: string,
                                    name: Option<string>, body: BodyResponse)
    ensures var run := DownloadSpec(files, headers, src, dstDir, name, body);
            && (dstDir == "" ==> run == DownloadRun(files, [], Failure(MakeDirsFailed(dstDir))))
            && (dstDir != "" ==> run.requests == [Get(DownloadEndpoint(src), headers)] && dstDir in run.files)
            && (run.outcome.Success? <==> dstDir != "" && body.status == 200)
  {
  }

  /**
   * A download the server refuses raises as `DownloadStatus` says and writes
   * no file; it may leave the destination directory and its missing ancestors.
   */
  lemma DownloadFailureWritesNothing(files: FileMap, headers: Headers, src: string, dstDir: string,
                                     name: Option<string>, body: BodyResponse)
    requires dstDir != "" && body.status != 200
    ensures var run := DownloadSpec(files, headers, src, dstDir, name, body);
            && run.outcome == DownloadStatus(src, body.status)
            && (forall q :: q in files ==> q in run.files && run.files[q] == files[q])
            && (forall q :: q in run.files && q !in files ==> run.files[q] == Dir && q <= dstDir)
  {
    WithDirectoryAddsPrefixes(files, dstDir);
  }

  /**
   * On 200 the destination holds the body's chunks in order, nothing else
   * that existed changes, and the only other entries added are directories
   * on the way to the destination directory.
   */
  lemma DownloadWritesBody(files: FileMap, headers: Headers, src: string, dstDir: string,
                           name: Option<string>, body: BodyResponse)
    requires dstDir != "" && body.status == 200
    ensures var run := DownloadSpec(files, headers, src, dstDir, name, body);
            var dst := DownloadDestination(src, dstDir, name);
            && run.outcome == Success
            && dst in run.files && run.files[dst] == File(Concat(body.chunks))
            && (forall q :: q in files && q != dst ==> q in run.files && run.files[q] == files[q])
            && (forall q :: q in run.files && q !in files && q != dst ==> run.files[q] == Dir && q <= dstDir)
  {
    WithDirectoryAddsPrefixes(files, dstDir);
  }

  /**
   * With the empty headers the older client keeps, an upload request carries
   * exactly one header, the `Content-Disposition` naming the destination:
   * never the folder flag.
   */
  lemma UploadSendsOnlyDisposition(files: FileMap, src: string, dstDir: string, name: Option<string>, status: int)
    requires src in files && files[src].File?
    ensures var run := UploadSpec(files, map[], src, dstDir, name, status);
            run.requests[0].headers == map[ContentDisposition := AttachmentValue(UploadDestination(src, dstDir, name))]
  {
    var h := UploadSpec(files, map[], src, dstDir, name, status).requests[0].headers;
    assert h.Keys == {ContentDisposition};
  }

  /** The older client: headers that start empty and stay so, and the log of requests it sent. */
  class Storage {
    const hostUrl: string
    const token: string
    const headers: Headers
    var sent: seq<Request>

    constructor (hostUrl: string, token: string)
      ensures this.hostUrl == hostUrl && this.token == token
      ensures headers == map[] && sent == []
    {
      this.hostUrl := hostUrl;
      this.token := token;
      headers := map[];
      sent := [];
    }

    /** `_do_upload`: posts the chunks with the headers plus `Content-Disposition`; anything but 200 raises. */
    method DoUpload(chunks: seq<seq<byte>>, dst: string, status: int) returns (r: Result<Response, Error>)
      modifies this`sent
      ensures sent == old(sent) + [Post(UploadEndpoint, UploadHeaders(headers, dst, false), chunks)]
      ensures r.Ok? <==> status == 200
      ensures r.Ok? ==> r.value == Response(status)
      ensures r.Err? ==> r.error == UploadFailed(status)
    {
      var requestHeaders := UploadHeaders(headers, dst, false);
      sent := sent + [Post(UploadEndpoint, requestHeaders, chunks)];
      var checked := UploadStatus(status);
      if checked.Failure? {
        return Err(checked.error);
      }
      return Ok(Response(status));
    }

    /** `_do_download`: maps the status and, on 200, writes the body chunk by chunk to `dst`. */
    method DoDownload(fs: FileSystem, src: string, dst: string, response: BodyResponse) returns (outcome: Outcome)
      modifies this`sent, fs
      ensures sent == old(sent) + [Get(DownloadEndpoint(src), headers)]
      ensures outcome == DownloadStatus(src, response.status)
      ensures fs.files == if outcome.Success? then old(fs.files)[dst := File(Concat(response.chunks))] else old(fs.files)
    {
      sent := sent + [Get(DownloadEndpoint(src), headers)];
      outcome := DownloadStatus(src, response.status);
      if outcome.Failure? {
        return;
      }
      var pbar := new ProgressBar();
      WriteChunks(fs, dst, response.chunks, pbar);
    }

    /** `upload(src, dst_dir, dst_file_name)`: does what `UploadSpec` says and changes no file. */
    method Upload(fs: FileSystem, src: string, dstDir: string, name: Option<string>, status: int) returns (outcome: Outcome)
      modifies this`sent
      ensures var run := UploadSpec(fs.files, headers, src, dstDir, name, status);
              sent == old(sent) + run.requests && outcome == run.outcome
    {
      if !fs.Exists(src) {
        return Failure(LocalNotFound(src));
      }
      if fs.files[src].Dir? {
        return Failure(CannotUploadDirectory);
      }
      var dst := UploadDestination(src, dstDir, name);
      var file := new ReadableFile(fs.files[src].data);
      var pbar := new ProgressBar();
      var chunks := GenerateChunksFromFile(file, pbar);
      var response := DoUpload(chunks, dst, status);
      assert UploadSpec(fs.files, headers, src, dstDir, name, status)
        == UploadRun([Post(UploadEndpoint, UploadHeaders(headers, dst, false), chunks)], UploadStatus(status));
      outcome := if response.Ok? then Success else Failure(response.error);
    }

    /** `download(src, dst_dir, dst_file_name)`: does what `DownloadSpec` says. */
    method Download(fs: FileSystem, src: string, dstDir: string, name: Option<string>, body: BodyResponse)
      returns (outcome: Outcome)
      modifies this`sent, fs
      ensures var run := DownloadSpec(old(fs.files), headers, src, dstDir, name, body);
              fs.files == run.files && sent == old(sent) + run.requests && outcome == run.outcome
    {
      ghost var files0 := fs.files;
      if dstDir == "" {
        return Failure(MakeDirsFailed(dstDir));
      }
      if !fs.Exists(dstDir) {
        fs.MakeDirs(dstDir);
      }
      ghost var prepared := fs.files;
      assert prepared == WithDirectory(files0, dstDir);
      var dst := DownloadDestination(src, dstDir, name);
      outcome := DoDownload(fs, src, dst, body);
      assert fs.files == if outcome.Success? then prepared[dst := File(Concat(body.chunks))] else prepared;
    }
  }
}
