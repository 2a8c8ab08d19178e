# YOPStorage client, modelled in Dafny

This project models the two Python clients of the YOP cloud storage service.

- `YOPStorage` in `yop_cloud_sdk/sdk.py` is the current client, modelled in module `Sdk`.
- `YOPStorage` in `yop-cloud-sdk/main.py` is the older client, modelled in module `Legacy`.

Both clients upload a local file to the server and download a server path to disk. They stream the bytes in fixed-size chunks and bump a progress counter by each chunk's length.

The current client also transfers directories, using a hidden sibling archive named `.<base>.tar.gz`:

- **Upload.** It packs the directory into the archive, sends the archive with `X-Is-Folder: true`, and, once it is packed, removes the archive on every way out.
- **Download.** It first lists the path on the server. The path counts as a regular file only when the listing is exactly one entry named like its base name. For a directory, it writes the body to the archive, unpacks it into the destination, and removes the archive whether or not unpacking worked.

The modules follow the program's parts:

| module | file | what it holds |
|---|---|---|
| `Results` | `results.dfy` | `Option` and `Result` |
| `Chunking` | `chunking.dfy` | bytes, the chunks a read loop produces, their concatenation |
| `Paths` | `paths.dfy` | `os.path.split`, `join` and `basename` on `/`-separated paths; the archive path |
| `LocalIo` | `local_io.dfy` | the file system, a file opened for reading, the progress counter, `os.makedirs`, the read and write loops |
| `Protocol` | `protocol.dfy` | header dictionaries, requests and responses, the error kinds, the status rules, the classification rule |
| `Sdk` | `sdk.dfy` | the current client |
| `Legacy` | `legacy.dfy` | the older client |

The outside world enters as parameters:

- **Server.** Each call receives the server's answers: a status, a listing, or the body as chunks. Each client object keeps the requests it sent in a `sent` log, so "nothing was sent" and "exactly this was sent" can be stated.
- **tar.** What `tar` did is a `Packing` or `Unpacking` value.
- **Local disk.** The disk is a `FileSystem` object holding a map from path to entry.

Each `upload` and `download` is specified by a pure function, `UploadSpec` or `DownloadSpec`. The function maps the file system, the client's headers and the outside world's answers to what the call leaves behind: the files, the headers, the requests, and the outcome or error raised. The imperative methods of `Storage` are proved to do exactly what that function says. The client's promises are proved as the functions' postconditions and as lemmas.

The current client's header dictionary has a quirk:

- `_do_download` binds the client's own header dictionary rather than a copy before it adds `X-Is-Folder` (`yop_cloud_sdk/sdk.py:120-122`).
- After one directory download, every later request the client sends therefore carries the flag, including the upload of a plain file.
- The model keeps this behaviour as the code has it: `Storage.headers` is a `HeaderDict` object, and `DoDownload` updates that object.
- `Sdk.FolderFlagLeaksIntoLaterUpload` and `Sdk.FolderFlagLeaksIntoLaterDownload` state the consequence.

## Model

| member | source | states |
|---|---|---|
| `Chunking.Chunks` | yop_cloud_sdk/sdk.py:13-16 | the slices a read loop takes: none exactly for empty data, each non-empty and at most `size` bytes, all but the last exactly `size` |
| `Chunking.ConcatChunks` | yop_cloud_sdk/sdk.py:13-16 | putting the chunks back together gives the data, in order |
| `Chunking.ChunksTotalLength` | yop_cloud_sdk/sdk.py:14-15 | the lengths the progress bar is bumped by add up to the size of the data |
| `Chunking.TotalLengthIsConcatLength` | yop_cloud_sdk/sdk.py:134-136 | a counter bumped by each chunk's length ends at the number of bytes in the stream |
| `Chunking.ConcatAppend` | yop_cloud_sdk/sdk.py:134-135 | writing one more chunk appends exactly its bytes |
| `Chunking.ConcatCons` | yop_cloud_sdk/sdk.py:13-16 | a chunk in front of a stream puts its bytes in front of the concatenation |
| `Paths.LastSlash` | yop_cloud_sdk/sdk.py:40 | the position `split` cuts at holds a `/`, or is -1 |
| `Paths.LastSlashBefore` | yop_cloud_sdk/sdk.py:40 | the position found among the first `n` characters holds a `/`, or is -1 |
| `Paths.NoSlashAfterLast` | yop_cloud_sdk/sdk.py:40 | no `/` comes after the one found among the first `n` characters |
| `Paths.LastSlashIsLast` | yop_cloud_sdk/sdk.py:40 | no `/` comes after the position `split` cuts at |
| `Paths.LastSlashAt` | yop_cloud_sdk/sdk.py:40 | any `/` followed only by other characters is the position `split` cuts at |
| `Paths.LastSlashNone` | yop_cloud_sdk/sdk.py:40 | a path without `/` has no cut position |
| `Paths.RStrip` | yop_cloud_sdk/sdk.py:40 | a prefix of the head that is empty or does not end in `/` |
| `Paths.RStripDropsSlashes` | yop_cloud_sdk/sdk.py:40 | what the strip removes is slashes only |
| `Paths.TrimHead` | yop_cloud_sdk/sdk.py:40 | the cleaned head is no longer than the raw one |
| `Paths.TrimHeadCases` | yop_cloud_sdk/sdk.py:40 | a head of only slashes (or empty) is kept whole; any other loses its trailing slashes and is not empty |
| `Paths.TrimHeadIsClean` | yop_cloud_sdk/sdk.py:40 | the cleaned head is empty, only slashes, or does not end in `/` |
| `Paths.TrimHeadOfClean` | yop_cloud_sdk/sdk.py:40 | cleaning a clean head changes nothing |
| `Paths.Basename` | yop_cloud_sdk/sdk.py:140 | the base name is no longer than the path, and is the whole path when it has no `/` |
| `Paths.BasenameSlashless` | yop_cloud_sdk/sdk.py:140 | the base name contains no `/` |
| `Paths.SlashlessAfter` | yop_cloud_sdk/sdk.py:140 | what follows a position past which there is no `/` contains no `/` |
| `Paths.Split` | yop_cloud_sdk/sdk.py:69 | the tail is the base name, and head and tail together are no longer than the path |
| `Paths.SplitHeadIsClean` | yop_cloud_sdk/sdk.py:69 | the head `split` returns is empty, only slashes, or does not end in `/` |
| `Paths.SplitHeadIsPrefix` | yop_cloud_sdk/sdk.py:69 | the head `split` returns is a prefix of the path |
| `Paths.Join` | yop_cloud_sdk/sdk.py:41 | an absolute second part replaces the first; otherwise the result starts with the first part and ends with the second |
| `Paths.SplitOfJoin` | yop-cloud-sdk/main.py:31 | splitting `join(dir, name)` gives back `name` and `dir` in clean form when `name` has no `/` |
| `Paths.JoinOfSplit` | yop_cloud_sdk/sdk.py:40-41 | joining the two parts of a split gives back any path without a doubled `/` |
| `Paths.ArchiveName` | yop_cloud_sdk/sdk.py:41 | the archive name is the base name unchanged between a leading `.` (hidden) and a trailing `.tar.gz` |
| `Paths.ArchivePath` | yop_cloud_sdk/sdk.py:40-41 | `join(parent, ".<base>.tar.gz")`; what it promises is stated by `ArchiveIsSibling`, `ArchivePathIsNotSource` and `ArchiveOfTrailingSlash` |
| `Paths.ArchiveNameSlashless` | yop_cloud_sdk/sdk.py:41 | the archive name of a base name has no `/` |
| `Paths.ArchiveIsSibling` | yop_cloud_sdk/sdk.py:40-41 | the archive lies in the directory's parent under the name `.<base>.tar.gz` |
| `Paths.ArchivePathIsNotSource` | yop_cloud_sdk/sdk.py:39-41 | the archive path never equals the directory's own path |
| `Paths.SplitOfTrailingSlash` | yop_cloud_sdk/sdk.py:74 | a path ending in `/` splits into itself without the slashes and an empty base name |
| `Paths.ArchiveOfTrailingSlash` | yop_cloud_sdk/sdk.py:74-75 | for a directory written with a trailing `/`, the archive is `..tar.gz` inside the directory itself |
| `Paths.JoinArchiveName` | yop_cloud_sdk/sdk.py:75 | joining a parent with the archive name of an empty base name adds `/..tar.gz` |
| `LocalIo.MakeDirsParent` | yop_cloud_sdk/sdk.py:78 | the parent `os.makedirs` recurses on is shorter than the path whenever the path has a name |
| `LocalIo.MakeDirsResult` | yop_cloud_sdk/sdk.py:77-78 | after `os.makedirs(p)`, `p` is a directory, nothing that existed changed, and everything added is a directory; `MakeDirsAddsPrefixes` bounds what is added |
| `LocalIo.MakeDirsBelow` | yop_cloud_sdk/sdk.py:78 | the same for one step, and the parent, when there is one, exists afterwards too |
| `LocalIo.WithDirectory` | yop_cloud_sdk/sdk.py:77-78 | afterwards a non-empty directory path exists, nothing that existed changed, and everything added is a directory; `WithDirectoryAddsPrefixes` bounds what is added |
| `LocalIo.MakeDirsAddsPrefixes` | yop_cloud_sdk/sdk.py:78 | `os.makedirs(p)` adds only `p` and its ancestors: every new entry is a prefix of `p` |
| `LocalIo.WithDirectoryAddsPrefixes` | yop_cloud_sdk/sdk.py:77-78 | the guarded `makedirs(dir)` adds only prefixes of `dir` |
| `LocalIo.FileSystem.constructor` | yop_cloud_sdk/sdk.py:34 | the file system starts with the given entries |
| `LocalIo.FileSystem.Exists` | yop_cloud_sdk/sdk.py:34 | `os.path.exists`: true exactly when an entry, file or directory, is at the path |
| `LocalIo.FileSystem.Write` | yop_cloud_sdk/sdk.py:132 | opening for writing replaces the file's bytes and changes nothing else |
| `LocalIo.FileSystem.Append` | yop_cloud_sdk/sdk.py:135 | one write appends the chunk to the file and changes nothing else |
| `LocalIo.FileSystem.Remove` | yop_cloud_sdk/sdk.py:60 | `os.remove` takes out exactly that path |
| `LocalIo.FileSystem.MakeDirs` | yop_cloud_sdk/sdk.py:77-78 | the file system becomes `MakeDirsResult` of the old one |
| `LocalIo.FileSystem.Extract` | yop_cloud_sdk/sdk.py:83 | unpacking lays the written entries over what was there |
| `LocalIo.ReadableFile.constructor` | yop_cloud_sdk/sdk.py:53 | a file opened for reading has all its bytes left to read |
| `LocalIo.ReadableFile.Read` | yop_cloud_sdk/sdk.py:14 | `read(size)` returns the next `size` bytes (fewer at the end) and moves past them |
| `LocalIo.ProgressBar.constructor` | yop_cloud_sdk/sdk.py:54 | the progress counter starts at zero |
| `LocalIo.ProgressBar.Update` | yop_cloud_sdk/sdk.py:15 | `update(k)` adds `k` to the counter |
| `LocalIo.ReadInChunks` | yop_cloud_sdk/sdk.py:13-16 | the loop reads the file to its end, yields `Chunks` of what was left, and bumps the counter by that many bytes |
| `LocalIo.WriteChunks` | yop_cloud_sdk/sdk.py:132-136 | the destination ends up holding the concatenated chunks, the counter grows by their byte count, and no other file changes |
| `Protocol.HeaderDict.constructor` | yop_cloud_sdk/sdk.py:24 | the header dictionary holds the given entries |
| `Protocol.HeaderDict.Put` | yop_cloud_sdk/sdk.py:122 | setting a header changes that key only, and every holder of the dictionary sees it |
| `Protocol.AttachmentValue` | yop_cloud_sdk/sdk.py:100 | the `Content-Disposition` value is `attachment; filename="`, the destination as it is, and a closing quote |
| `Protocol.AttachmentValueInjective` | yop_cloud_sdk/sdk.py:100 | different destinations give different `Content-Disposition` values, so the header names the destination unambiguously |
| `Protocol.UploadHeaders` | yop_cloud_sdk/sdk.py:100-102 | the upload headers copy the client's headers, add `Content-Disposition` naming the destination, and add `X-Is-Folder: true` exactly for a directory; nothing else changes |
| `Protocol.UploadStatus` | yop_cloud_sdk/sdk.py:105-106 | an upload succeeds exactly on 200 and raises an upload error carrying the status otherwise |
| `Protocol.DownloadStatus` | yop_cloud_sdk/sdk.py:125-128 | a download succeeds exactly on 200, raises not-found exactly on 404, and raises a generic error otherwise |
| `Protocol.IsDirListing` | yop_cloud_sdk/sdk.py:146 | a path is a file exactly when its listing is one entry named like its base name |
| `Protocol.ClassifyRemote` | yop_cloud_sdk/sdk.py:138-146 | 404 raises not-found; another non-200 status raises a browse error; 200 yields "directory" exactly when the listing is not one entry named like the base name |
| `Protocol.EmptyListingIsDirectory` | yop_cloud_sdk/sdk.py:146 | an empty listing counts as a directory, not a missing path |
| `Protocol.MismatchedSingleEntryIsDirectory` | yop_cloud_sdk/sdk.py:146 | a single entry with another name counts as a directory |
| `Sdk.GenerateChunksFromFile` | yop_cloud_sdk/sdk.py:13-16 | the generator yields 64 KiB slices whose concatenation is the file's bytes, and the counter reaches the file size |
| `Sdk.UploadSpec` | yop_cloud_sdk/sdk.py:26-60 | a missing source raises before anything else; a file is sent whole in chunks and no file changes; a failed pack raises and sends nothing; a packed archive is sent and is gone afterwards whatever the server answered; headers as `UploadHeaders`; success exactly when something was sent and the server answered 200; `UploadOfDirectory` adds what a directory upload leaves and sends |
| `Sdk.UploadOfDirectory` | yop_cloud_sdk/sdk.py:37-60 | a failed `tar` changes nothing but the archive path, and nothing at all when it left no archive; a packed archive is sent in 64 KiB chunks |
| `Sdk.DownloadPaths` | yop_cloud_sdk/sdk.py:69-75 | a file is written at `dst` itself, in the head of its split; for a directory `dst` is the directory to make and the body goes to the archive path, which is never `dst` |
| `Sdk.DownloadSpec` | yop_cloud_sdk/sdk.py:62-87 | the listing request comes first, at most one download follows, and success needs both answers to be 200; the rest of its contract is stated by `DownloadListsFirst`, `DownloadMakesDirectory`, `DownloadOfFile`, `DownloadOfDirectory` and the `FolderFlagLeaks` lemmas |
| `Sdk.FetchAndUnpack` | yop_cloud_sdk/sdk.py:80-87 | a refused download raises and writes nothing; a file ends up holding the body and nothing else changes; for a directory what tar wrote is there, the archive is gone whether or not tar succeeded, every other entry tar did not write keeps its value, and a failed unpack raises; no other path goes away |
| `Sdk.DownloadListsFirst` | yop_cloud_sdk/sdk.py:69-80 | the listing comes first and a failed listing stops everything; otherwise one download request follows, with `X-Is-Folder` left in the client's own headers for a directory; success needs both answers to be 200 |
| `Sdk.DownloadMakesDirectory` | yop_cloud_sdk/sdk.py:72-78 | the directory written into exists afterwards, even when the download failed |
| `Sdk.DownloadOfFile` | yop_cloud_sdk/sdk.py:125-136 | a file: on 200 the destination holds the body's chunks in order; nothing else that existed changes either way; every other entry added is a directory that is a prefix of `dst`'s parent |
| `Sdk.DownloadOfDirectory` | yop_cloud_sdk/sdk.py:81-87 | a directory: on 200 the unpacked entries are there, the archive is gone, entries tar did not write keep their values, and a failed unpack is reported; a refused download leaves existing entries as they were; every other entry added that tar did not write is a directory that is a prefix of `dst` |
| `Sdk.FolderFlagLeaksIntoLaterUpload` | yop_cloud_sdk/sdk.py:120-122 | after a directory download, a later upload of a plain file is sent with `X-Is-Folder: true` |
| `Sdk.FolderFlagLeaksIntoLaterDownload` | yop_cloud_sdk/sdk.py:120-123 | after a directory download, a later download of a plain file is requested with `X-Is-Folder: true` |
| `Sdk.Storage.constructor` | yop_cloud_sdk/sdk.py:20-24 | the client keeps the host URL and the token, starts with only `Authorization: Bearer <token>` in a fresh header dictionary, and has sent nothing |
| `Sdk.Storage.DoUpload` | yop_cloud_sdk/sdk.py:89-108 | posts the chunks once with the upload headers, leaves the client's headers alone, and succeeds exactly on 200 |
| `Sdk.Storage.DoDownload` | yop_cloud_sdk/sdk.py:110-136 | sets the flag in the client's own headers for a directory; sends one request; on 200 writes the concatenated body to `dst`; otherwise leaves the files alone |
| `Sdk.Storage.IsFileOnServerDir` | yop_cloud_sdk/sdk.py:138-151 | sends one listing request and returns `ClassifyRemote` of the answer |
| `Sdk.Storage.Upload` | yop_cloud_sdk/sdk.py:26-60 | leaves the files, the request log and the outcome exactly as `UploadSpec` says, and the client's headers unchanged |
| `Sdk.Storage.Download` | yop_cloud_sdk/sdk.py:62-87 | leaves the files, the client's headers, the request log and the outcome exactly as `DownloadSpec` says, the function the `Download` lemmas describe |
| `Legacy.GenerateChunksFromFile` | yop-cloud-sdk/main.py:11-14 | the generator yields 8192-byte slices whose concatenation is the file's bytes, and the counter reaches the file size |
| `Legacy.NameOr` | yop-cloud-sdk/main.py:31 | Python's `name or fallback`: a given non-empty name wins; a missing or empty one gives the fallback |
| `Legacy.UploadDestination` | yop-cloud-sdk/main.py:30-31 | the chosen name (the given one when non-empty, else the source's base name) replaces the destination directory when absolute, and otherwise is appended to it |
| `Legacy.UploadDestinationSplit` | yop-cloud-sdk/main.py:30-31 | without a name the file keeps its base name, and a name without `/` is placed directly inside the destination directory under that name |
| `Legacy.DownloadDestination` | yop-cloud-sdk/main.py:43 | a non-empty name is joined to the directory; otherwise the whole server path is appended (an absolute one replaces the directory) |
| `Legacy.UploadSpec` | yop-cloud-sdk/main.py:24-37 | a missing source or a directory raises and sends nothing; a file is sent whole in 8192-byte chunks to the joined destination; success exactly on 200 |
| `Legacy.UploadSendsOnlyDisposition` | yop-cloud-sdk/main.py:22 | with the client's empty headers, an upload carries only `Content-Disposition` |
| `Legacy.DownloadSpec` | yop-cloud-sdk/main.py:39-44 | at most one request is sent, and success exactly when the directory path is non-empty and the server answered 200; the rest of its contract is stated by `DownloadMakesDirectoryFirst`, `DownloadFailureWritesNothing` and `DownloadWritesBody` |
| `Legacy.DownloadMakesDirectoryFirst` | yop-cloud-sdk/main.py:39-44 | an empty directory path makes `makedirs` raise before any request; any other directory exists afterwards, and one request is sent; success exactly on 200 |
| `Legacy.DownloadFailureWritesNothing` | yop-cloud-sdk/main.py:57-64 | a refused download raises as the status says, changes no existing entry, and adds only directories that are prefixes of the destination directory |
| `Legacy.DownloadWritesBody` | yop-cloud-sdk/main.py:66-72 | on 200 the destination holds the body's chunks in order, and nothing else that existed changes; every other entry added is a directory that is a prefix of the destination directory |
| `Legacy.Storage.constructor` | yop-cloud-sdk/main.py:18-22 | the client keeps the host URL and the token, starts with empty headers, and has sent nothing |
| `Legacy.Storage.DoUpload` | yop-cloud-sdk/main.py:46-55 | posts the chunks once with the headers plus `Content-Disposition`, and succeeds exactly on 200 |
| `Legacy.Storage.DoDownload` | yop-cloud-sdk/main.py:57-72 | sends one request; on 200 writes the concatenated body to `dst`; otherwise raises as `DownloadStatus` and leaves the files alone |
| `Legacy.Storage.Upload` | yop-cloud-sdk/main.py:24-37 | the request log and the outcome are exactly as `UploadSpec` says, and no file changes |
| `Legacy.Storage.Download` | yop-cloud-sdk/main.py:39-44 | the files, the request log and the outcome are exactly as `DownloadSpec` says, the function the `Download` lemmas describe |

## Left out

- HTTP transport is left out. URLs (`urljoin` of the host with `upload/`, `download/<path>` or the bare path), streaming, `response.text` and connection errors are not modelled. A request is its endpoint kind, its path, its headers and its body.
- Request and response bodies are whole chunk sequences. Laziness is not modelled: the generator is drained into the request before the status is looked at, just as `requests.post` consumes it.
- The `tar` format and its command-line flags are left out. Packing and unpacking are values handed to the call: the archive's bytes, or a failure with perhaps a partial archive; the entries unpacked and whether `tar` succeeded.
- A failed pack may leave a partial archive. The code never removes it, and `Sdk.UploadSpec` leaves it in place too.
- Progress bar rendering, its `total` (file size or `Content-Length`) and its description are left out. Only the counter is modelled. `Upload` and `Download` do not expose the count; the loops they call state it.
- Both clients keep the host URL and the token as fields, as the source does; neither is read, because URLs are not modelled and the token's one use is the newer client's `Authorization` header, which its constructor builds.
- Operating-system errors are left out. The model does not capture the errors of `open`, `os.remove`, `os.path.getsize` or `os.makedirs` (apart from `makedirs("")`). Examples are a missing parent directory for a download destination, a path that exists as a file where a directory is wanted, and permissions.
- Paths are compared as strings. `os.path` does no normalisation, so neither does the model. The file system does not link `a/b` to `a`, except through `os.makedirs`.
- Exception message texts are left out. Each raise is an `Error` value naming its kind.
- Concurrency and interleaving with other processes touching the same files are left out.
- Preflight checks, a file-size header and an overwrite flag are not part of either client's code, so they are not part of this model.

## Trailing slashes

`os.path.split` of a path ending in `/` gives an empty base name. For a directory given as `dir/`, the current client's archive path is therefore `dir/..tar.gz`, inside the directory rather than beside it. `Paths.ArchiveOfTrailingSlash` states this. `Sdk.UploadSpec` and `Sdk.DownloadSpec` cover such paths like any other.
