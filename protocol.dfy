/**
 * What the client says to the storage server and how it reads the answers:
 * request headers, the requests themselves (kept as a log so that "no request
 * was sent" can be stated), the responses it is handed, the error kinds it
 * raises, and the rules that turn a status code or a listing into an outcome.
 */
module Protocol {
  import opened Results
  import opened Chunking
  import opened Paths

  type Headers = map<string, string>

  const ContentDisposition: string := "Content-Disposition"
  const FolderFlag: string := "X-Is-Folder"

  /** A header dictionary object: every name bound to it sees its updates. */
  class HeaderDict {
    var entries: Headers

    constructor (entries: Headers)
      ensures this.entries == entries
    {
      this.entries := entries;
    }

    /** `d[name] = value`. */
    method Put(name: string, value: string)
      modifies this
      ensures entries == old(entries)[name := value]
    {
      entries := entries[name := value];
    }
  }

  datatype Endpoint = UploadEndpoint | DownloadEndpoint(path: string) | ListEndpoint(path: string)

  /** A request as the server receives it; an upload's body is the chunk stream it was sent as. */
  datatype Request =
    | Post(endpoint: Endpoint, headers: Headers, body: seq<seq<byte>>)
    | Get(endpoint: Endpoint, headers: Headers)

  /** An upload answer: only its status matters to the client. */
  datatype Response = Response(status: int)

  /** One record of a listing; the client reads only its `file_name`. */
  datatype ListingEntry = ListingEntry(fileName: string)

  datatype ListResponse = ListResponse(status: int, listing: seq<ListingEntry>)

  /** A download answer: the status and the body as the chunks it streams in. */
  datatype BodyResponse = BodyResponse(status: int, chunks: seq<seq<byte>>)

  /** What the client raises; the comment names the Python exception class. */
  datatype Error =
    | LocalNotFound(path: string)     // RuntimeError: the local source does not exist
    | CannotUploadDirectory           // RuntimeError: the older client refuses directories
    | ArchiveFailed                   // RuntimeError: tar could not pack the directory
    | UnpackFailed                    // RuntimeError: tar could not unpack the download
    | UploadFailed(status: int)       // RuntimeError: upload answered other than 200
    | RemoteNotFound(path: string)    // FileNotFoundError: the server answered 404
    | DownloadFailed(status: int)     // Exception: download answered other than 200 or 404
    | BrowseFailed(status: int)       // Exception: listing answered other than 200 or 404
    | MakeDirsFailed(path: string)    // FileNotFoundError: os.makedirs("")

  datatype Outcome = Success | Failure(error: Error)

  const AttachmentPrefix: string := "attachment; filename=\""

  /** The `Content-Disposition` value naming `dst`: the prefix, `dst` as it is, a closing quote. */
  function AttachmentValue(dst: string): (v: string)
    ensures |v| == |AttachmentPrefix| + |dst| + 1
    ensures v[..|AttachmentPrefix|] == AttachmentPrefix && v[|AttachmentPrefix|..|v| - 1] == dst && v[|v| - 1] == '"'
  {
    AttachmentPrefix + dst + "\""
  }

  /** Different destinations give different `Content-Disposition` values. */
  lemma AttachmentValueInjective(a: string, b: string)
    requires AttachmentValue(a) == AttachmentValue(b)
    ensures a == b
  {
  }

  /**
   * The headers of an upload request: a copy of the client's headers with a
   * `Content-Disposition` naming the destination, and `X-Is-Folder: true`
   * when a directory archive is sent. The flag is present exactly when the
   * source is a directory or the client's own headers already carry it.
   */
  function UploadHeaders(client: Headers, dst: string, isDir: bool): (h: Headers)
    ensures ContentDisposition in h && h[ContentDisposition] == AttachmentValue(dst)
    ensures isDir ==> FolderFlag in h && h[FolderFlag] == "true"
    ensures FolderFlag in h <==> isDir || FolderFlag in client
    ensures h.Keys == client.Keys + {ContentDisposition} + (if isDir then {FolderFlag} else {})
    ensures forall k :: k in client && k != ContentDisposition && !(isDir && k == FolderFlag) ==> h[k] == client[k]
  {
    var h := client[ContentDisposition := AttachmentValue(dst)];
    if isDir then h[FolderFlag := "true"] else h
  }

  /** An upload succeeds on 200 and raises on every other status. */
  function UploadStatus(status: int): (r: Outcome)
    ensures r.Success? <==> status == 200
    ensures r.Failure? ==> r.error == UploadFailed(status)
  {
    if status != 200 then Failure(UploadFailed(status)) else Success
  }

  /** A download raises not-found on 404, a generic error on any other status but 200, and succeeds on 200. */
  function DownloadStatus(src: string, status: int): (r: Outcome)
    ensures r.Success? <==> status == 200
    ensures r == Failure(RemoteNotFound(src)) <==> status == 404
    ensures r.Failure? && status != 404 ==> r.error == DownloadFailed(status)
  {
    if status == 404 then Failure(RemoteNotFound(src))
    else if status != 200 then Failure(DownloadFailed(status))
    else Success
  }

  /**
   * The remote classification rule: a path is a file exactly when its
   * listing is one entry named like the path's base name; zero entries,
   * several entries, or one entry with another name all mean a directory.
   */
  function IsDirListing(listing: seq<ListingEntry>, baseName: string): (isDir: bool)
    ensures !isDir <==> listing == [ListingEntry(baseName)]
  {
    !(|listing| == 1 && baseName == listing[0].fileName)
  }

  /**
   * `_is_file_on_server_dir` once the listing has come back: 404 raises
   * not-found, any other status but 200 a browse error, and 200 yields
   * whether the path is a directory.
   */
  function ClassifyRemote(src: string, response: ListResponse): (r: Result<bool, Error>)
    ensures r.Ok? <==> response.status == 200
    ensures r == Err(RemoteNotFound(src)) <==> response.status == 404
    ensures response.status != 200 && response.status != 404 ==> r == Err(BrowseFailed(response.status))
    ensures r.Ok? ==> (r.value <==> response.listing != [ListingEntry(Basename(src))])
  {
    var baseName := Basename(src);
    if response.status == 404 then Err(RemoteNotFound(src))
    else if response.status != 200 then Err(BrowseFailed(response.status))
    else Ok(IsDirListing(response.listing, baseName))
  }

  /** An empty listing is a directory, not a missing path. */
  lemma EmptyListingIsDirectory(src: string)
    ensures ClassifyRemote(src, ListResponse(200, [])) == Ok(true)
  {
  }

  /** A single entry whose name differs from the base name is a directory too. */
  lemma MismatchedSingleEntryIsDirectory(src: string, name: string)
    requires name != Basename(src)
    ensures ClassifyRemote(src, ListResponse(200, [ListingEntry(name)])) == Ok(true)
  {
  }
}
