/**
 * The `YOPStorage` client of yop_cloud_sdk/sdk.py. Uploading a directory
 * packs it into a hidden archive named after it, sends that and, once it
 * is packed, removes it on every way out; downloading asks the server
 * whether the path is a directory, streams the body to disk and, for a
 * directory, unpacks it and removes the archive even when unpacking fails.
 *
 * Each of `upload` and `download` is specified by a function from the
 * file system, the client's headers and the answers of the outside world (tar
 * and the server) to what the call leaves behind; the methods of `Storage`
 * are proved to do exactly that, and the properties the client promises are
 * proved of the functions.
 */
module Sdk {
  import opened Results
  import opened Chunking
  import opened Paths
  import opened LocalIo
  import opened Protocol

  /** Bytes per read when a file is streamed to the server, and per chunk of a download. */
  const ChunkSize: nat := 64 * 1024

  /** What `tar -cz` did: wrote the archive, or failed, perhaps leaving part of one behind. */
  datatype Packing = Packed(archive: seq<byte>) | PackFailed(leftover: Option<seq<byte>>)

  /** What `tar -xf` did: the entries it wrote, and whether it succeeded. */
  datatype Unpacking = Unpacking(written: FileMap, ok: bool)

  /** Where an upload leaves things: the file system, the requests sent, and what the call returns or raises. */
  datatype UploadRun = UploadRun(files: FileMap, requests: seq<Request>, outcome: Outcome)

  /** Where a download leaves things; the client's headers are part of it, as the call may change them. */
  datatype DownloadRun = DownloadRun(files: FileMap, headers: Headers, requests: seq<Request>, outcome: Outcome)

  /**
   * `generate_chunks_from_file`: reads the rest of the file in 64 KiB slices,
   * bumping the progress bar by each slice. The slices put together are the
   * bytes read, and the bar grows by their number.
   */
  method GenerateChunksFromFile(file: ReadableFile, pbar: ProgressBar) returns (chunks: seq<seq<byte>>)
    requires file.Valid()
    modifies file, pbar
    ensures file.Valid() && file.Remaining() == []
    ensures chunks == Chunks(old(file.Remaining()), ChunkSize)
    ensures Concat(chunks) == old(file.Remaining())
    ensures pbar.n == old(pbar.n) + |old(file.Remaining())|
  {
    chunks := ReadInChunks(file, pbar, ChunkSize);
    ConcatChunks(old(file.Remaining()), ChunkSize);
  }

  /**
   * `upload(src, dst)` as a function of the file system, the client's
   * headers, what tar does and the status the server answers.
   */
  function UploadSpec(files: FileMap, headers: Headers, src: string, dst: string, pack: Packing, status: int): (run: UploadRun)
    // a missing source raises before anything else happens
    ensures src !in files ==> run == UploadRun(files, [], Failure(LocalNotFound(src)))
    // a regular file is sent as it is, in chunks, and no file is removed
    ensures src in files && files[src].File? ==>
      && run.files == files
      && |run.requests| == 1 && run.requests[0].Post?
      && run.requests[0].body == Chunks(files[src].data, ChunkSize)
      && Concat(run.requests[0].body) == files[src].data
    // a directory that tar fails to pack raises, and nothing is sent
    ensures src in files && files[src].Dir? && pack.PackFailed? ==>
      run.requests == [] && run.outcome == Failure(ArchiveFailed)
    // a packed directory: its archive is sent, and is gone afterwards whatever the server said
    ensures src in files && files[src].Dir? && pack.Packed? ==>
      && ArchivePath(src) !in run.files
      && run.files == files - {ArchivePath(src)}
      && |run.requests| == 1 && run.requests[0].Post?
      && Concat(run.requests[0].body) == pack.archive
    // the request: a copy of the client headers, naming the destination, flagged when a directory is sent
    ensures run.requests != [] ==>
      && src in files && run.requests[0].Post?
      && run.requests[0] == Post(UploadEndpoint, UploadHeaders(headers, dst, files[src].Dir?), run.requests[0].body)
    ensures run.outcome.Success? <==> run.requests != [] && status == 200
    ensures run.requests != [] && status != 200 ==> run.outcome == Failure(UploadFailed(status))
  {
    if src !in files then UploadRun(files, [], Failure(LocalNotFound(src)))
    else if files[src].File? then
      var data := files[src].data;
      ConcatChunks(data, ChunkSize);
      UploadRun(files, [Post(UploadEndpoint, UploadHeaders(headers, dst, false), Chunks(data, ChunkSize))], UploadStatus(status))
    else
      var archivePath := ArchivePath(src);
      match pack
      case PackFailed(leftover) =>
        var left := if leftover.Some? then files[archivePath := File(leftover.value)] else files;
        UploadRun(left, [], Failure(ArchiveFailed))
      case Packed(archive) =>
        ConcatChunks(archive, ChunkSize);
        var body := Chunks(archive, ChunkSize);
        UploadRun(files - {archivePath}, [Post(UploadEndpoint, UploadHeaders(headers, dst, true), body)], UploadStatus(status))
  }

  /**
   * A directory upload: when tar fails, nothing but the archive path may
   * change (it holds what tar left behind, if anything); when it succeeds,
   * the archive is sent in 64 KiB chunks, like any file.
   */
  lemma UploadOfDirectory(files: FileMap, headers: Headers, src: string, dst: string, pack: Packing, status: int)
    requires src in files && files[src].Dir?
    ensures var run := UploadSpec(files, headers, src, dst, pack, status);
            && (pack.PackFailed? ==> run.files - {ArchivePath(src)} == files - {ArchivePath(src)})
            && (pack.PackFailed? && pack.leftover.None? ==> run.files == files)
            && (pack.Packed? ==> run.requests[0].body == Chunks(pack.archive, ChunkSize))
  {
  }

  /**
   * Where `download(src, dst)` writes: for a file, `dst` itself inside its
   * parent directory; for a directory, `dst` is the directory to create and
   * the body goes to its hidden sibling archive.
   */
  function DownloadPaths(dst: string, isDir: bool): (r: (string, string))
    ensures isDir ==> r.0 == dst && r.1 == ArchivePath(dst) && r.1 != dst
    ensures !isDir ==> r.1 == dst && r.0 == Split(dst).0
  {
    if isDir then ArchivePathIsNotSource(dst); (dst, ArchivePath(dst))
    else (Split(dst).0, dst)
  }

  /**
   * `_do_download` into `target` and, for a directory, the unpacking and the
   * `finally` that follows, once the directory to write into exists. A
   * refused download raises and writes nothing. A file ends up holding the
   * body. For a directory, what tar wrote is there, the archive is gone
   * whether or not tar succeeded, and a failed unpack raises. No other path
   * goes away.
   */
  function FetchAndUnpack(prepared: FileMap, src: string, target: string, isDir: bool,
                          body: BodyResponse, unpack: Unpacking): (r: (FileMap, Outcome))
    ensures body.status != 200 ==> r == (prepared, DownloadStatus(src, body.status))
    ensures r.1.Success? ==> body.status == 200
    ensures body.status == 200 && !isDir ==>
      && r.1 == Success && target in r.0 && r.0[target] == File(Concat(body.chunks))
      && (forall q :: q in prepared && q != target ==> q in r.0 && r.0[q] == prepared[q])
    ensures body.status == 200 && isDir ==>
      && target !in r.0
      && (forall q :: q in unpack.written && q != target ==> q in r.0 && r.0[q] == unpack.written[q])
      && r.1 == (if unpack.ok then Success else Failure(UnpackFailed))
      && (forall q :: q in prepared && q !in unpack.written && q != target ==> q in r.0 && r.0[q] == prepared[q])
    ensures forall q :: q in prepared && q != target ==> q in r.0
  {
    var status := DownloadStatus(src, body.status);
    if status.Failure? then (prepared, status)
    else
      var written := prepared[target := File(Concat(body.chunks))];
      if !isDir then (written, Success)
      else ((written + unpack.written) - {target}, if unpack.ok then Success else Failure(UnpackFailed))
  }

  /**
   * `download(src, dst)` as a function of the file system, the client's
   * headers, the listing and download answers and what tar does. What it
   * promises is stated by the lemmas below.
   */
  function DownloadSpec(files: FileMap, headers: Headers, src: string, dst: string,
                        ls: ListResponse, body: BodyResponse, unpack: Unpacking): (run: DownloadRun)
    ensures 1 <= |run.requests| <= 2 && run.requests[0] == Get(ListEndpoint(src), headers)
    ensures run.outcome.Success? ==> ls.status == 200 && body.status == 200
  {
    var listed := Get(ListEndpoint(src), headers);
    var kind := ClassifyRemote(src, ls);
    if kind.Err? then DownloadRun(files, headers, [listed], Failure(kind.error))
    else
      var isDir := kind.value;
      var paths := DownloadPaths(dst, isDir);
      var sentHeaders := if isDir then headers[FolderFlag := "true"] else headers;
      var fetched := FetchAndUnpack(WithDirectory(files, paths.0), src, paths.1, isDir, body, unpack);
      DownloadRun(fetched.0, sentHeaders, [listed, Get(DownloadEndpoint(src), sentHeaders)], fetched.1)
  }

  /**
   * The listing request comes first, and a failed listing raises before any
   * directory is made or any download is asked for. Otherwise the download
   * request follows, with `X-Is-Folder: true` added to the client's own
   * headers for a directory; it raises as `DownloadStatus` says, and the call
   * succeeds only when both answers were 200.
   */
  lemma DownloadListsFirst(files: FileMap, headers: Headers, src: string, dst: string,
                           ls: ListResponse, body: BodyResponse, unpack: Unpacking)
    ensures var run := DownloadSpec(files, headers, src, dst, ls, body, unpack);
            var kind := ClassifyRemote(src, ls);
            && |run.requests| >= 1 && run.requests[0] == Get(ListEndpoint(src), headers)
            && (kind.Err? ==> run == DownloadRun(files, headers, [Get(ListEndpoint(src), headers)], Failure(kind.error)))
            && (kind.Ok? ==> |run.requests| == 2 && run.requests[1] == Get(DownloadEndpoint(src), run.headers))
            && (kind == Ok(true) ==> run.headers == headers[FolderFlag := "true"])
            && (kind == Ok(false) ==> run.headers == headers)
            && (run.outcome.Success? ==> ls.status == 200 && body.status == 200)
            && (kind.Ok? && body.status != 200 ==> run.outcome == DownloadStatus(src, body.status))
  {
    var kind := ClassifyRemote(src, ls);
    if kind.Ok? {
      var paths := DownloadPaths(dst, kind.value);
      var fetched := FetchAndUnpack(WithDirectory(files, paths.0), src, paths.1, kind.value, body, unpack);
      assert fetched.1.Success? ==> body.status == 200;
    }
  }

  /** Once the path is classified, the directory to write into exists afterwards, even when the download failed. */
  lemma DownloadMakesDirectory(files: FileMap, headers: Headers, src: string, dst: string,
                               ls: ListResponse, body: BodyResponse, unpack: Unpacking)
    requires ClassifyRemote(src, ls).Ok?
    requires DownloadPaths(dst, ClassifyRemote(src, ls).value).0 != ""
    ensures DownloadPaths(dst, ClassifyRemote(src, ls).value).0 in DownloadSpec(files, headers, src, dst, ls, body, unpack).files
  {
    if ClassifyRemote(src, ls).value {
      ArchivePathIsNotSource(dst);
    }
  }

  /**
   * A file: on 200 the destination holds the body's chunks in order and
   * nothing else that existed changes; a refused download raises before the
   * destination is opened, so every existing entry stays as it was. Either
   * way the only other entries added are directories on the way to `dst`.
   */
  lemma DownloadOfFile(files: FileMap, headers: Headers, src: string, dst: string,
                       ls: ListResponse, body: BodyResponse, unpack: Unpacking)
    requires ClassifyRemote(src, ls) == Ok(false)
    ensures var run := DownloadSpec(files, headers, src, dst, ls, body, unpack);
            && (body.status == 200 ==> run.outcome == Success && dst in run.files && run.files[dst] == File(Concat(body.chunks)))
            && (forall q :: q in files && q != dst ==> q in run.files && run.files[q] == files[q])
            && (forall q :: q in run.files && q !in files && q != dst ==> run.files[q] == Dir && q <= Split(dst).0)
            && (body.status != 200 ==>
                && (forall q :: q in files ==> q in run.files && run.files[q] == files[q])
                && (forall q :: q in run.files && q !in files ==> run.files[q] == Dir && q <= Split(dst).0))
  {
    WithDirectoryAddsPrefixes(files, Split(dst).0);
  }

  /**
   * A directory: on 200 what tar unpacked is there, the archive is gone
   * whether or not tar succeeded, and a failed unpack is reported; when the
   * download fails no archive or other file is written: existing entries stay
   * as they were. Either way the only other entries added are `dst` and the
   * directories on the way to it.
   */
  lemma DownloadOfDirectory(files: FileMap, headers: Headers, src: string, dst: string,
                            ls: ListResponse, body: BodyResponse, unpack: Unpacking)
    requires ClassifyRemote(src, ls) == Ok(true)
    ensures var run := DownloadSpec(files, headers, src, dst, ls, body, unpack);
            && (body.status == 200 ==>
                && ArchivePath(dst) !in run.files
                && (forall q :: q in unpack.written && q != ArchivePath(dst) ==> q in run.files && run.files[q] == unpack.written[q])
                && run.outcome == (if unpack.ok then Success else Failure(UnpackFailed))
                && (forall q :: q in files && q !in unpack.written && q != ArchivePath(dst) ==> q in run.files && run.files[q] == files[q])
                && (forall q :: q in run.files && q !in files && q !in unpack.written ==> run.files[q] == Dir && q <= dst))
            && (body.status != 200 ==>
                && (forall q :: q in files ==> q in run.files && run.files[q] == files[q])
                && (forall q :: q in run.files && q !in files ==> run.files[q] == Dir && q <= dst))
  {
    WithDirectoryAddsPrefixes(files, dst);
  }

  /**
   * The quirk of `_do_download`: the flag it sets lands in the client's
   * shared headers, so a regular file uploaded after a directory download is
   * sent flagged as a directory archive.
   */
  lemma FolderFlagLeaksIntoLaterUpload(files: FileMap, headers: Headers, src: string, dst: string,
                                       ls: ListResponse, body: BodyResponse, unpack: Unpacking,
                                       later: FileMap, file: string, target: string, pack: Packing, status: int)
    requires ClassifyRemote(src, ls) == Ok(true)
    requires file in later && later[file].File?
    ensures var after := DownloadSpec(files, headers, src, dst, ls, body, unpack).headers;
            var upload := UploadSpec(later, after, file, target, pack, status);
            |upload.requests| == 1 && FolderFlag in upload.requests[0].headers
            && upload.requests[0].headers[FolderFlag] == "true"
  {
  }

  /** The same leak reaches later downloads: a regular file fetched afterwards is asked for with the flag. */
  lemma FolderFlagLeaksIntoLaterDownload(files: FileMap, headers: Headers, src: string, dst: string,
                                         ls: ListResponse, body: BodyResponse, unpack: Unpacking,
                                         later: FileMap, src2: string, dst2: string,
                                         ls2: ListResponse, body2: BodyResponse, unpack2: Unpacking)
    requires ClassifyRemote(src, ls) == Ok(true)
    requires ClassifyRemote(src2, ls2) == Ok(false)
    ensures var after := DownloadSpec(files, headers, src, dst, ls, body, unpack).headers;
            var next := DownloadSpec(later, after, src2, dst2, ls2, body2, unpack2);
            FolderFlag in next.requests[1].headers && next.requests[1].headers[FolderFlag] == "true"
  {
  }

  /** The client, with the header dictionary it shares between its calls and the log of requests it sent. */
  class Storage {
    const hostUrl: string
    const token: string
    const headers: HeaderDict
    var sent: seq<Request>

    constructor (hostUrl: string, token: string)
      ensures this.hostUrl == hostUrl && this.token == token && fresh(headers)
      ensures headers.entries == map["Authorization" := "Bearer " + token]
      ensures sent == []
    {
      this.hostUrl := hostUrl;
      this.token := token;
      headers := new HeaderDict(map["Authorization" := "Bearer " + token]);
      sent := [];
    }

    /**
     * `_do_upload`: posts the chunk stream with a copy of the client headers
     * plus `Content-Disposition` and, for a directory, `X-Is-Folder`; the
     * client's own headers are left alone. Anything but 200 raises.
     */
    method DoUpload(chunks: seq<seq<byte>>, dst: string, isDir: bool, status: int) returns (r: Result<Response, Error>)
      modifies this`sent
      ensures sent == old(sent) + [Post(UploadEndpoint, UploadHeaders(headers.entries, dst, isDir), chunks)]
      ensures r.Ok? <==> status == 200
      ensures r.Ok? ==> r.value == Response(status)
      ensures r.Err? ==> r.error == UploadFailed(status)
    {
      var requestHeaders := UploadHeaders(headers.entries, dst, isDir);
      sent := sent + [Post(UploadEndpoint, requestHeaders, chunks)];
      var checked := UploadStatus(status);
      if checked.Failure? {
        return Err(checked.error);
      }
      return Ok(Response(status));
    }

    /**
     * `_do_download`: binds the client's header dictionary itself, not a
     * copy, so a directory flag set here stays for every later call. Then
     * maps the status and, on 200, writes the body chunk by chunk to `dst`.
     */
    method DoDownload(fs: FileSystem, src: string, dst: string, isDir: bool, response: BodyResponse) returns (outcome: Outcome)
      modifies this`sent, headers, fs
      ensures headers.entries == if isDir then old(headers.entries)[FolderFlag := "true"] else old(headers.entries)
      ensures sent == old(sent) + [Get(DownloadEndpoint(src), headers.entries)]
      ensures outcome == DownloadStatus(src, response.status)
      ensures fs.files == if outcome.Success? then old(fs.files)[dst := File(Concat(response.chunks))] else old(fs.files)
    {
      var shared := headers;
      if isDir {
        shared.Put(FolderFlag, "true");
      }
      sent := sent + [Get(DownloadEndpoint(src), headers.entries)];
      outcome := DownloadStatus(src, response.status);
      if outcome.Failure? {
        return;
      }
      var pbar := new ProgressBar();
      WriteChunks(fs, dst, response.chunks, pbar);
    }

    /** `_is_file_on_server_dir`: lists the path on the server and classifies it. */
    method IsFileOnServerDir(src: string, response: ListResponse) returns (r: Result<bool, Error>)
      modifies this`sent
      ensures sent == old(sent) + [Get(ListEndpoint(src), headers.entries)]
      ensures r == ClassifyRemote(src, response)
    {
      sent := sent + [Get(ListEndpoint(src), headers.entries)];
      r := ClassifyRemote(src, response);
    }

    /** `upload(src, dst)`: does what `UploadSpec` says, and leaves the client's headers alone. */
    method Upload(fs: FileSystem, src: string, dst: string, pack: Packing, status: int) returns (outcome: Outcome)
      modifies this`sent, fs
      ensures headers.entries == old(headers.entries)
      ensures var run := UploadSpec(old(fs.files), old(headers.entries), src, dst, pack, status);
              fs.files == run.files && sent == old(sent) + run.requests && outcome == run.outcome
    {
      if src !in fs.files {
        return Failure(LocalNotFound(src));
      }
      var isDir := fs.files[src].Dir?;
      var path := src;
      if isDir {
        path := ArchivePath(src);
        match pack {
          case PackFailed(leftover) =>
            if leftover.Some? {
              fs.Write(path, leftover.value);
            }
            return Failure(ArchiveFailed);
          case Packed(archive) =>
            fs.Write(path, archive);
        }
      }
      var file := new ReadableFile(fs.files[path].data);
      var pbar := new ProgressBar();
      var chunks := GenerateChunksFromFile(file, pbar);
      var response := DoUpload(chunks, dst, isDir, status);
      // the `finally` block: the archive goes whatever the server answered
      if isDir {
        fs.Remove(path);
        assert fs.files == old(fs.files) - {path};
      }
      outcome := if response.Ok? then Success else Failure(response.error);
    }

    /** `download(src, dst)`: does what `DownloadSpec` says. */
    method Download(fs: FileSystem, src: string, dst: string, ls: ListResponse, body: BodyResponse, unpack: Unpacking)
      returns (outcome: Outcome)
      modifies this`sent, headers, fs
      ensures var run := DownloadSpec(old(fs.files), old(headers.entries), src, dst, ls, body, unpack);
              fs.files == run.files && headers.entries == run.headers
              && sent == old(sent) + run.requests && outcome == run.outcome
    {
      ghost var run := DownloadSpec(fs.files, headers.entries, src, dst, ls, body, unpack);
      ghost var files0, sent0 := fs.files, sent;
      var dstDir := Split(dst).0;
      var kind := IsFileOnServerDir(src, ls);
      if kind.Err? {
        return Failure(kind.error);
      }
      var isDir := kind.value;
      var target := dst;
      if isDir {
        dstDir := dst;
        target := ArchivePath(dst);
      }
      assert (dstDir, target) == DownloadPaths(dst, isDir);
      if dstDir != "" && !fs.Exists(dstDir) {
        fs.MakeDirs(dstDir);
      }
      ghost var prepared := fs.files;
      assert prepared == WithDirectory(files0, dstDir);
      outcome := DoDownload(fs, src, target, isDir, body);
      assert sent == sent0 + run.requests;
      assert headers.entries == run.headers;
      if outcome.Success? && isDir {
        fs.Extract(unpack.written);
        // the `finally` block: the archive goes whether or not unpacking worked
        fs.Remove(target);
        outcome := if unpack.ok then Success else Failure(UnpackFailed);
      }
      assert (fs.files, outcome) == FetchAndUnpack(prepared, src, target, isDir, body, unpack);
      assert fs.files == run.files;
    }
  }
}
