/**
 * The local side of a transfer: a file system as a map from path to entry,
 * a file opened for reading with its cursor, the progress counter a transfer
 * bumps, and the two loops that move bytes through them (reading a file in
 * chunks, writing a chunk stream to a file).
 */
module LocalIo {
  import opened Chunking
  import opened Paths

  datatype Entry = File(data: seq<byte>) | Dir

  type FileMap = map<string, Entry>

  /**
   * `os.path.split` as `os.makedirs` uses it: a path ending in '/' has an
   * empty tail, so the head is split once more.
   */
  function MakeDirsParent(p: string): (r: (string, string))
    ensures r.1 != "" ==> |r.0| < |p|
  {
    if Split(p).1 == "" then Split(Split(p).0) else Split(p)
  }

  /**
   * The file system after `os.makedirs(p)` on a path that does not exist:
   * missing ancestors first (found by splitting, stopping at the first one
   * that exists), then `p` itself. Nothing already present changes and
   * everything added is a directory.
   */
  function MakeDirsResult(files: FileMap, p: string): (r: FileMap)
    requires p != "" && p !in files
    ensures p in r && r[p] == Dir
    ensures files.Keys <= r.Keys
    ensures forall q :: q in files ==> r[q] == files[q]
    ensures forall q :: q in r && q !in files ==> r[q] == Dir
    decreases |p|, 1
  {
    var parent := MakeDirsParent(p);
    MakeDirsBelow(files, p, parent.0, parent.0 != "" && parent.1 != "")
  }

  /**
   * The step of `os.makedirs(p)` once the parent is known: the parent, when
   * there is one and it is missing, is made first, then `p`.
   */
  function MakeDirsBelow(files: FileMap, p: string, parent: string, hasParent: bool): (r: FileMap)
    requires p != "" && p !in files
    requires hasParent ==> parent != "" && |parent| < |p|
    ensures p in r && r[p] == Dir
    ensures hasParent ==> parent in r
    ensures files.Keys <= r.Keys
    ensures forall q :: q in files ==> r[q] == files[q]
    ensures forall q :: q in r && q !in files ==> r[q] == Dir
    decreases |p|, 0
  {
    if hasParent && parent !in files then MakeDirsResult(files, parent)[p := Dir] else files[p := Dir]
  }

  /**
   * `if dir and not os.path.exists(dir): os.makedirs(dir)`: afterwards a
   * non-empty `dir` exists, nothing that existed changed, and everything
   * added is a directory.
   */
  function WithDirectory(files: FileMap, dir: string): (r: FileMap)
    ensures dir != "" ==> dir in r
    ensures forall q :: q in files ==> q in r && r[q] == files[q]
    ensures forall q :: q in r && q !in files ==> r[q] == Dir
  {
    if dir != "" && dir !in files then MakeDirsResult(files, dir) else files
  }

  /**
   * `os.makedirs(p)` adds nothing but `p` and ancestors of it: every
   * directory it makes is a prefix of `p`.
   */
  lemma {:induction false} MakeDirsAddsPrefixes(files: FileMap, p: string)
    requires p != "" && p !in files
    ensures forall q :: q in MakeDirsResult(files, p) && q !in files ==> q <= p
    decreases |p|
  {
    var parent := MakeDirsParent(p);
    SplitHeadIsPrefix(p);
    SplitHeadIsPrefix(Split(p).0);
    if parent.0 != "" && parent.1 != "" && parent.0 !in files {
      MakeDirsAddsPrefixes(files, parent.0);
    }
  }

  /** The guarded `makedirs(dir)` adds only prefixes of `dir`. */
  lemma WithDirectoryAddsPrefixes(files: FileMap, dir: string)
    ensures forall q :: q in WithDirectory(files, dir) && q !in files ==> q <= dir
  {
    if dir != "" && dir !in files {
      MakeDirsAddsPrefixes(files, dir);
    }
  }

  /** The local file system: every path that exists, with its entry. */
  class FileSystem {
    var files: FileMap

    constructor (files: FileMap)
      ensures this.files == files
    {
      this.files := files;
    }

    /** `os.path.exists`. */
    predicate Exists(p: string)
      reads this
    {
      p in files
    }

    /** Creates or truncates `p` and fills it with `data` (`open(p, 'wb')` and one write, or tar writing an archive). */
    method Write(p: string, data: seq<byte>)
      modifies this
      ensures files == old(files)[p := File(data)]
    {
      files := files[p := File(data)];
    }

    /** One `f.write(chunk)` on a file opened for writing. */
    method Append(p: string, chunk: seq<byte>)
      requires p in files && files[p].File?
      modifies this
      ensures files == old(files)[p := File(old(files)[p].data + chunk)]
    {
      files := files[p := File(files[p].data + chunk)];
    }

    /** `os.remove`. */
    method Remove(p: string)
      requires p in files
      modifies this
      ensures files == old(files) - {p}
    {
      files := files - {p};
    }

    /** `os.makedirs` on a path that does not exist yet. */
    method MakeDirs(p: string)
      requires p != "" && p !in files
      modifies this
      ensures files == MakeDirsResult(old(files), p)
    {
      files := MakeDirsResult(files, p);
    }

    /** What an extraction run leaves behind: the entries it wrote, over whatever was there. */
    method Extract(written: FileMap)
      modifies this
      ensures files == old(files) + written
    {
      files := files + written;
    }
  }

  /** A file opened for reading: its bytes and the read cursor. */
  class ReadableFile {
    const content: seq<byte>
    var cursor: nat

    ghost predicate Valid()
      reads this
    {
      cursor <= |content|
    }

    /** The bytes not read yet. */
    function Remaining(): seq<byte>
      reads this
      requires Valid()
    {
      content[cursor..]
    }

    constructor (content: seq<byte>)
      ensures Valid() && this.content == content && cursor == 0
    {
      this.content := content;
      cursor := 0;
    }

    /** `read(size)`: the next `size` bytes, fewer at the end of the file, none once it is reached. */
    method Read(size: nat) returns (chunk: seq<byte>)
      requires Valid()
      modifies this
      ensures Valid()
      ensures chunk == old(Remaining())[..if size < |old(Remaining())| then size else |old(Remaining())|]
      ensures Remaining() == old(Remaining())[|chunk|..]
    {
      var end := if cursor + size < |content| then cursor + size else |content|;
      chunk := content[cursor..end];
      cursor := end;
    }
  }

  /** The progress bar, reduced to its counter. */
  class ProgressBar {
    var n: nat

    constructor ()
      ensures n == 0
    {
      n := 0;
    }

    /** `pbar.update(k)`. */
    method Update(k: nat)
      modifies this
      ensures n == old(n) + k
    {
      n := n + k;
    }
  }

  /**
   * Reads `file` to its end in slices of `size` bytes, bumping `pbar` by each
   * slice's length: the slices are `Chunks` of what was left to read, and the
   * counter grows by exactly that many bytes.
   */
  method ReadInChunks(file: ReadableFile, pbar: ProgressBar, size: nat) returns (chunks: seq<seq<byte>>)
    requires file.Valid() && size > 0
    modifies file, pbar
    ensures file.Valid() && file.Remaining() == []
    ensures chunks == Chunks(old(file.Remaining()), size)
    ensures pbar.n == old(pbar.n) + |old(file.Remaining())|
  {
    chunks := [];
    while true
      invariant file.Valid()
      invariant chunks + Chunks(file.Remaining(), size) == Chunks(old(file.Remaining()), size)
      invariant pbar.n + |file.Remaining()| == old(pbar.n) + |old(file.Remaining())|
      decreases |file.Remaining()|
    {
      ghost var rest := file.Remaining();
      var chunk := file.Read(size);
      if chunk == [] {
        break;
      }
      if |rest| <= size {
        assert chunk == rest[..|rest|] == rest;
      }
      assert Chunks(rest, size) == [chunk] + Chunks(file.Remaining(), size);
      pbar.Update(|chunk|);
      chunks := chunks + [chunk];
    }
  }

  /**
   * Opens `path` for writing and writes `chunks` one after another, bumping
   * `pbar` by each chunk's length: the file ends up holding the concatenated
   * chunks, and the counter grows by the number of bytes written.
   */
  method WriteChunks(fs: FileSystem, path: string, chunks: seq<seq<byte>>, pbar: ProgressBar)
    modifies fs, pbar
    ensures fs.files == old(fs.files)[path := File(Concat(chunks))]
    ensures pbar.n == old(pbar.n) + |Concat(chunks)|
  {
    fs.Write(path, []);
    for i := 0 to |chunks|
      invariant fs.files == old(fs.files)[path := File(Concat(chunks[..i]))]
      invariant pbar.n == old(pbar.n) + |Concat(chunks[..i])|
    {
      fs.Append(path, chunks[i]);
      pbar.Update(|chunks[i]|);
      assert chunks[..i + 1] == chunks[..i] + [chunks[i]];
      ConcatAppend(chunks[..i], chunks[i]);
    }
    assert chunks[..|chunks|] == chunks;
  }
}
