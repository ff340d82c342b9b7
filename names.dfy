// The display name of a matrix, cut out of its file path inside
// `load_matrices` (projekt.py:111-113) with `str.rfind` and a slice.

module MatrixName {

  /** `s.rfind(c)`: index of the last `c` in `s`, or -1 when there is none. */
  function RFind(s: string, c: char): (r: int)
    ensures -1 <= r < |s|
    ensures r >= 0 ==> s[r] == c
    ensures forall j :: r < j < |s| ==> s[j] != c
  {
    if s == [] then -1
    else if s[|s| - 1] == c then |s| - 1
    else RFind(s[..|s| - 1], c)
  }

  /** How a Python slice bound is read: negative counts from the end, then clamped. */
  function SliceBound(i: int, len: nat): (r: nat)
    ensures r <= len
    ensures 0 <= i <= len ==> r == i
    ensures -(len as int) <= i < 0 ==> r as int == len as int + i
    ensures i > len ==> r == len
    ensures i < -(len as int) ==> r == 0
  {
    if i < 0 then (if i + len < 0 then 0 else i + len)
    else if i > len then len
    else i
  }

  /**
   * `s[start:stop]`: the characters between the two bounds once each is
   * read by `SliceBound`, and empty when they cross.
   */
  function PySlice(s: string, start: int, stop: int): (r: string)
    ensures |r| <= |s|
    ensures 0 <= start <= stop <= |s| ==> r == s[start..stop]
    ensures 0 <= start && -|s| <= stop < 0 && start <= |s| + stop ==> r == s[start..|s| + stop]
    ensures SliceBound(start, |s|) >= SliceBound(stop, |s|) ==> r == ""
  {
    var lo := SliceBound(start, |s|);
    var hi := SliceBound(stop, |s|);
    if lo < hi then s[lo..hi] else ""
  }

  /** `path[path.rfind('/') + 1 : path.rfind('.')]`: never reaches back before the last `/`. */
  function DisplayName(path: string): (r: string)
    ensures |r| <= |path| - (RFind(path, '/') + 1)
  {
    PySlice(path, RFind(path, '/') + 1, RFind(path, '.'))
  }

  lemma {:induction false} RFindAppend(u: string, t: string, c: char)
    requires c !in t
    ensures RFind(u + t, c) == RFind(u, c)
  {
    if t != [] {
      assert (u + t)[..|u + t| - 1] == u + t[..|t| - 1];
      RFindAppend(u, t[..|t| - 1], c);
    } else {
      assert u + t == u;
    }
  }

  lemma RFindLast(u: string, c: char)
    ensures RFind(u + [c], c) == |u|
  {
  }

  /**
   * When the last `.` comes after the last `/`, the name is exactly the
   * text strictly between them, and it holds no `/`.
   */
  lemma DisplayNameBetween(path: string)
    requires RFind(path, '/') < RFind(path, '.')
    ensures DisplayName(path) == path[RFind(path, '/') + 1..RFind(path, '.')]
    ensures '/' !in DisplayName(path)
  {
    var slash, dot := RFind(path, '/'), RFind(path, '.');
    assert SliceBound(slash + 1, |path|) == slash + 1;
    assert SliceBound(dot, |path|) == dot;
    var name := path[slash + 1..dot];
    forall k | 0 <= k < |name| ensures name[k] != '/' {
      assert name[k] == path[slash + 1 + k];
    }
  }

  /**
   * The name of `dir/stem.ext` is `stem`, whatever `dir` holds, as long as
   * `stem` has no `/` and the extension has neither `/` nor `.`.
   */
  lemma DisplayNameOfFile(dir: string, stem: string, ext: string)
    requires '/' !in stem && '/' !in ext && '.' !in ext
    ensures DisplayName(dir + "/" + stem + "." + ext) == stem
  {
    var path := dir + "/" + stem + "." + ext;
    assert path == (dir + "/" + stem + ".") + ext;
    RFindAppend(dir + "/" + stem + ".", ext, '.');
    RFindLast(dir + "/" + stem, '.');
    assert path == (dir + "/") + (stem + "." + ext);
    assert '/' !in stem + "." + ext;
    RFindAppend(dir + "/", stem + "." + ext, '/');
    RFindLast(dir, '/');
    assert path[|dir| + 1..|dir| + 1 + |stem|] == stem;
  }

  /** A path without any `/` is read from its first character. */
  lemma DisplayNameNoDirectory(stem: string, ext: string)
    requires '/' !in stem && '/' !in ext && '.' !in ext
    ensures DisplayName(stem + "." + ext) == stem
  {
    var path := stem + "." + ext;
    assert '/' !in path;
    assert RFind(path, '/') == -1;
    assert path == (stem + ".") + ext;
    RFindAppend(stem + ".", ext, '.');
    RFindLast(stem, '.');
    assert path[..|stem|] == stem;
  }

  /**
   * Without any `.`, `rfind` gives -1 and the slice stops one short of the
   * end: the last character of the file name is lost.
   */
  lemma DisplayNameNoDot(path: string)
    requires '.' !in path && RFind(path, '/') + 1 < |path|
    ensures DisplayName(path) == path[RFind(path, '/') + 1..|path| - 1]
  {
    var slash := RFind(path, '/');
    assert RFind(path, '.') == -1;
    assert SliceBound(slash + 1, |path|) == slash + 1;
    assert SliceBound(-1, |path|) == |path| - 1;
  }

  /** Without any `.`, a path that ends in `/` (or is empty) has an empty name. */
  lemma DisplayNameEmptyFileName(path: string)
    requires '.' !in path && RFind(path, '/') + 1 == |path|
    ensures DisplayName(path) == ""
  {
    assert RFind(path, '.') == -1;
  }

  /** When the last `.` is in a directory name, the bounds cross and the name is empty. */
  lemma DisplayNameDotBeforeSlash(path: string)
    requires 0 <= RFind(path, '.') < RFind(path, '/')
    ensures DisplayName(path) == ""
  {
  }

  /** The name of `matrices/toy.mtx` is `toy`, with or without the directory. */
  lemma DisplayNameExamples()
    ensures DisplayName("matrices/toy.mtx") == "toy"
    ensures DisplayName("toy.mtx") == "toy"
  {
    DisplayNameOfFile("matrices", "toy", "mtx");
    assert "matrices" + "/" + "toy" + "." + "mtx" == "matrices/toy.mtx";
    DisplayNameNoDirectory("toy", "mtx");
    assert "toy" + "." + "mtx" == "toy.mtx";
  }
}
