/**
 * '/'-separated paths as Python's posixpath handles them: `Split` cuts at the
 * last '/', `Join` puts one '/' between two parts, `Basename` is what follows
 * the last '/'. On top of these, the name of the temporary archive that stands
 * in for a directory during a transfer. Nothing here looks at a file system.
 */
module Paths {
  predicate Slashless(s: string)
  {
    forall i :: 0 <= i < |s| ==> s[i] != '/'
  }

  predicate AllSlashes(s: string)
  {
    forall i :: 0 <= i < |s| ==> s[i] == '/'
  }

  /** No '/' directly follows another '/'. */
  predicate NoDoubleSlash(s: string)
  {
    forall i :: 0 <= i < |s| - 1 ==> !(s[i] == '/' && s[i + 1] == '/')
  }

  /** A head in the form `Split` returns it: empty, nothing but slashes, or not ending in '/'. */
  predicate IsCleanHead(h: string)
  {
    h == "" || AllSlashes(h) || h[|h| - 1] != '/'
  }

  /** The index of the last '/' in `p`, or -1 when there is none (`str.rfind`). */
  function LastSlash(p: string): (i: int)
    ensures -1 <= i < |p|
    ensures i >= 0 ==> p[i] == '/'
  {
    LastSlashBefore(p, |p|)
  }

  /** The index of the last '/' among the first `n` characters of `p`, or -1. */
  function LastSlashBefore(p: string, n: nat): (i: int)
    requires n <= |p|
    ensures -1 <= i < n
    ensures i >= 0 ==> p[i] == '/'
  {
    if n == 0 then -1
    else if p[n - 1] == '/' then n - 1
    else LastSlashBefore(p, n - 1)
  }

  /** No '/' comes after the one `LastSlashBefore` finds. */
  lemma {:induction false} NoSlashAfterLast(p: string, n: nat)
    requires n <= |p|
    ensures forall j :: LastSlashBefore(p, n) < j < n ==> p[j] != '/'
  {
    if n > 0 && p[n - 1] != '/' {
      NoSlashAfterLast(p, n - 1);
    }
  }

  /** No '/' comes after the one `LastSlash` finds. */
  lemma LastSlashIsLast(p: string)
    ensures forall j :: LastSlash(p) < j < |p| ==> p[j] != '/'
  {
    NoSlashAfterLast(p, |p|);
  }

  /** `LastSlash` is the position of the last slash: any '/' followed only by other characters. */
  lemma LastSlashAt(p: string, k: int)
    requires 0 <= k < |p| && p[k] == '/'
    requires forall j :: k < j < |p| ==> p[j] != '/'
    ensures LastSlash(p) == k
  {
    LastSlashIsLast(p);
    var i := LastSlash(p);
    assert !(i > k) by { assert p[i] == '/'; }
    assert !(i < k);
  }

  lemma LastSlashNone(p: string)
    requires Slashless(p)
    ensures LastSlash(p) == -1
  {
  }

  /** `str.rstrip('/')`: the longest prefix of `s` that does not end in '/'. */
  function RStrip(s: string): (r: string)
    ensures |r| <= |s| && r == s[..|r|]
    ensures r == "" || r[|r| - 1] != '/'
  {
    if s != [] && s[|s| - 1] == '/' then RStrip(s[..|s| - 1]) else s
  }

  /** `RStrip` removes slashes and nothing else. */
  lemma {:induction false} RStripDropsSlashes(s: string)
    ensures AllSlashes(s[|RStrip(s)|..])
  {
    if s != [] && s[|s| - 1] == '/' {
      var r := RStrip(s[..|s| - 1]);
      RStripDropsSlashes(s[..|s| - 1]);
      assert s[|r|..] == s[..|s| - 1][|r|..] + [s[|s| - 1]];
    }
  }

  /** The clean-up `Split` gives its head: trailing slashes go unless the head is only slashes. */
  function TrimHead(h: string): (r: string)
    ensures |r| <= |h|
  {
    if RStrip(h) == "" then h else RStrip(h)
  }

  /** A head made only of slashes (or empty) stays as it is; any other loses its trailing slashes. */
  lemma TrimHeadCases(h: string)
    ensures h == "" || AllSlashes(h) ==> TrimHead(h) == h
    ensures h != "" && !AllSlashes(h) ==> TrimHead(h) == RStrip(h) != ""
  {
    var r := RStrip(h);
    RStripDropsSlashes(h);
    if r == "" {
      assert h[|r|..] == h;
    }
  }

  lemma TrimHeadIsClean(h: string)
    ensures IsCleanHead(TrimHead(h))
  {
    TrimHeadCases(h);
  }

  lemma TrimHeadOfClean(h: string)
    requires IsCleanHead(h)
    ensures TrimHead(h) == h
  {
    TrimHeadCases(h);
  }

  /** What follows the last '/' (`os.path.basename`). */
  function Basename(p: string): (name: string)
    ensures |name| <= |p|
    ensures LastSlash(p) == -1 ==> name == p
  {
    p[LastSlash(p) + 1..]
  }

  /** A base name has no '/'. */
  lemma BasenameSlashless(p: string)
    ensures Slashless(Basename(p))
  {
    LastSlashIsLast(p);
    SlashlessAfter(p, LastSlash(p));
  }

  /** What follows a position past which `p` has no '/' has no '/'. */
  lemma SlashlessAfter(p: string, i: int)
    requires -1 <= i < |p|
    requires forall j :: i < j < |p| ==> p[j] != '/'
    ensures Slashless(p[i + 1..])
  {
    var name := p[i + 1..];
    forall j | 0 <= j < |name|
      ensures name[j] != '/'
    {
      assert name[j] == p[i + 1 + j];
    }
  }

  /**
   * `os.path.split`: the head up to the last '/', cleaned by `TrimHead`, and
   * the tail after it.
   */
  function Split(p: string): (r: (string, string))
    ensures r.1 == Basename(p)
    ensures |r.0| + |r.1| <= |p|
  {
    var i := LastSlash(p) + 1;
    (TrimHead(p[..i]), p[i..])
  }

  /** The head `Split` returns is a prefix of the path. */
  lemma SplitHeadIsPrefix(p: string)
    ensures Split(p).0 <= p
  {
    var h := p[..LastSlash(p) + 1];
    assert RStrip(h) == h[..|RStrip(h)|];
  }

  /** The head `Split` returns is empty, only slashes, or does not end in '/'. */
  lemma SplitHeadIsClean(p: string)
    ensures IsCleanHead(Split(p).0)
  {
    TrimHeadIsClean(p[..LastSlash(p) + 1]);
  }

  /**
   * `os.path.join` of two parts: an absolute second part replaces the first;
   * otherwise one '/' goes between them unless the first is empty or already
   * ends in '/'.
   */
  function Join(a: string, b: string): (r: string)
    ensures |b| <= |r| && r[|r| - |b|..] == b
    ensures (b != "" && b[0] == '/') ==> r == b
    ensures !(b != "" && b[0] == '/') ==> |a| <= |r| && r[..|a|] == a
  {
    if b != "" && b[0] == '/' then b
    else if a == "" || a[|a| - 1] == '/' then a + b
    else a + "/" + b
  }

  /**
   * Splitting a join gives back the parts: the name as it was and the
   * directory in the clean form `Split` returns.
   */
  lemma SplitOfJoin(dir: string, name: string)
    requires Slashless(name)
    ensures Split(Join(dir, name)) == (TrimHead(dir), name)
  {
    var p := Join(dir, name);
    if dir == "" {
      LastSlashNone(name);
    } else if dir[|dir| - 1] == '/' {
      assert p == dir + name;
      assert p[|dir|..] == name;
      LastSlashAt(p, |dir| - 1);
      assert p[..|dir|] == dir;
    } else {
      assert p == dir + "/" + name;
      assert p[|dir| + 1..] == name;
      LastSlashAt(p, |dir|);
      var head := p[..|dir| + 1];
      assert head == dir + "/";
      assert !AllSlashes(head) by { assert head[|dir| - 1] != '/'; }
      assert head[..|head| - 1] == dir;
      assert RStrip(head) == RStrip(dir) == dir;
      assert !AllSlashes(dir) by { assert dir[|dir| - 1] != '/'; }
    }
  }

  /**
   * Joining the parts of a split gives the path back, as long as the path
   * has no run of slashes (`Split` would fold it into one).
   */
  lemma JoinOfSplit(p: string)
    requires NoDoubleSlash(p)
    ensures Join(Split(p).0, Split(p).1) == p
  {
    var i := LastSlash(p);
    var tail := p[i + 1..];
    if i == -1 {
      assert tail == p;
    } else {
      var head0 := p[..i + 1];
      assert head0[|head0| - 1] == '/';
      TrimHeadCases(head0);
      if AllSlashes(head0) {
        assert head0 + tail == p;
      } else {
        assert i >= 1;
        assert p[i - 1] != '/';
        assert head0[..|head0| - 1] == p[..i];
        assert RStrip(head0) == p[..i];
        assert p[..i] + "/" + tail == p;
      }
    }
  }

  /** The archive name that stands for a directory called `name`: hidden, tagged `.tar.gz`. */
  function ArchiveName(name: string): (a: string)
    ensures |a| == |name| + 8 && a[0] == '.'
    ensures a[1..|name| + 1] == name && a[|name| + 1..] == ".tar.gz"
  {
    "." + name + ".tar.gz"
  }

  lemma ArchiveNameSlashless(name: string)
    requires Slashless(name)
    ensures Slashless(ArchiveName(name))
  {
    var a := ArchiveName(name);
    forall i | 0 <= i < |a| ensures a[i] != '/' {
      if 1 <= i < |name| + 1 {
        assert a[i] == name[i - 1];
      }
    }
  }

  /** The temporary archive for directory `p`: `join(parent, "." + basename + ".tar.gz")`. */
  function ArchivePath(p: string): string
  {
    Join(Split(p).0, ArchiveName(Split(p).1))
  }

  /** The archive sits in the same parent directory as `p`, under the hidden archive name. */
  lemma ArchiveIsSibling(p: string)
    ensures Split(ArchivePath(p)) == (Split(p).0, ArchiveName(Basename(p)))
  {
    var parent, name := Split(p).0, Split(p).1;
    BasenameSlashless(p);
    SplitHeadIsClean(p);
    ArchiveNameSlashless(name);
    SplitOfJoin(parent, ArchiveName(name));
    TrimHeadOfClean(parent);
  }

  /** The archive never has the path of the directory it stands for. */
  lemma ArchivePathIsNotSource(p: string)
    ensures ArchivePath(p) != p
  {
    ArchiveIsSibling(p);
    assert |ArchiveName(Basename(p))| != |Basename(p)|;
  }

  /** A path ending in '/' (and not only slashes) splits into itself, stripped, and an empty name. */
  lemma SplitOfTrailingSlash(p: string)
    requires p != "" && p[|p| - 1] == '/' && !AllSlashes(p)
    ensures RStrip(p) != "" && Split(p) == (RStrip(p), "")
  {
    assert Split(p).0 == TrimHead(p) && Split(p).1 == "" by {
      LastSlashAt(p, |p| - 1);
      assert p[..|p|] == p;
    }
    TrimHeadCases(p);
  }

  /**
   * For a directory written with a trailing '/', the base name is empty, so
   * the "sibling" is a file named `..tar.gz` inside the directory itself.
   */
  lemma ArchiveOfTrailingSlash(p: string)
    requires p != "" && p[|p| - 1] == '/' && !AllSlashes(p)
    ensures ArchivePath(p) == RStrip(p) + "/..tar.gz"
  {
    SplitOfTrailingSlash(p);
    JoinArchiveName(RStrip(p));
  }

  lemma JoinArchiveName(parent: string)
    requires parent != "" && parent[|parent| - 1] != '/'
    ensures Join(parent, ArchiveName("")) == parent + "/..tar.gz"
  {
    assert ArchiveName("") == "..tar.gz";
    assert Join(parent, "..tar.gz") == parent + "/" + "..tar.gz";
  }
}
