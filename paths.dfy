/** POSIX path operations of os.path, and the runner's own getFilename, with '/' as separator. */
module Paths {
  import opened Strings

  const SEP: char := '/'

  /**
   * os.path.split: the part before the last separator, with trailing separators
   * removed unless it consists of separators only, and the part after it.
   */
  function Split(p: string): (r: (string, string))
    ensures SEP !in r.1 && EndsWith(p, r.1)
    ensures StartsWith(p, r.0) && |r.0| + |r.1| <= |p|
    ensures AllChar(p[|r.0|..|p| - |r.1|], SEP)
    ensures SEP !in p ==> r == ([], p)
    ensures p != [] && p[0] != SEP ==> |r.0| < |p| && (r.0 == [] || r.0[0] != SEP)
    ensures |r.1| == |p| || p[|p| - |r.1| - 1] == SEP
  {
    var i := RFind(p, SEP) + 1;
    var head := p[..i];
    assert head != [] && head[0] != SEP ==> !AllChar(head, SEP);
    (if head != [] && !AllChar(head, SEP) then RStrip(head, SEP) else head, p[i..])
  }

  /** The head os.path.split returns has no trailing separator, unless it consists of separators only and reaches the tail. */
  lemma SplitHeadStripped(p: string)
    ensures var r := Split(p);
      r.0 == [] || r.0[|r.0| - 1] != SEP || (AllChar(r.0, SEP) && |r.0| + |r.1| == |p|)
  {
  }

  /**
   * os.path.splitext: (root, ext) where ext starts at the last dot of the last
   * path component, provided some character other than a dot precedes that dot
   * within the component; otherwise ext is empty.
   */
  function SplitExt(p: string): (r: (string, string))
    ensures r.0 + r.1 == p
    ensures r.1 == [] || (r.1[0] == '.' && '.' !in r.1[1..] && SEP !in r.1)
  {
    var sepIndex := RFind(p, SEP);
    var dotIndex := RFind(p, '.');
    if dotIndex > sepIndex && !AllChar(p[sepIndex + 1..dotIndex], '.') then
      (p[..dotIndex], p[dotIndex..])
    else
      (p, [])
  }

  /**
   * For a file name (no separator): the extension is empty exactly when the
   * name has no dot or only dots precede its last dot (".gitignore", "...").
   */
  lemma SplitExtOfName(f: string)
    requires SEP !in f
    ensures SplitExt(f).1 == [] <==> ('.' !in f || AllChar(f[..RFind(f, '.')], '.'))
  {
    assert RFind(f, SEP) == -1;
    assert '.' in f <==> RFind(f, '.') >= 0 by {
      if '.' in f {
        var k :| 0 <= k < |f| && f[k] == '.';
        assert RFind(f, '.') >= k;
      }
    }
  }

  /** getFilename: the directory and the file joined by the separator, or the file alone for an empty directory. */
  function GetFilename(dirpath: string, filename: string): (r: string)
    ensures EndsWith(r, filename)
    ensures dirpath == [] ==> r == filename
    ensures dirpath != [] ==> StartsWith(r, dirpath) && |r| == |dirpath| + 1 + |filename| && r[|dirpath|] == SEP
  {
    if dirpath != [] then dirpath + [SEP] + filename else filename
  }

  /** The joined path ends with whatever the file name ends with. */
  lemma GetFilenameEndsWith(dirpath: string, filename: string, suffix: string)
    requires EndsWith(filename, suffix)
    ensures EndsWith(GetFilename(dirpath, filename), suffix)
  {
    var full := GetFilename(dirpath, filename);
    assert full[|full| - |filename|..] == filename;
    assert full[|full| - |suffix|..] == filename[|filename| - |suffix|..];
  }

  /**
   * A suffix without a separator ends the joined path exactly when it ends the
   * file name: the separator getFilename inserts cannot be part of it.
   */
  lemma GetFilenameEndsWithIff(dirpath: string, filename: string, suffix: string)
    requires SEP !in suffix
    ensures EndsWith(GetFilename(dirpath, filename), suffix) <==> EndsWith(filename, suffix)
  {
    if EndsWith(filename, suffix) {
      GetFilenameEndsWith(dirpath, filename, suffix);
    }
  }

  /** os.path.split takes apart what getFilename joined, for a file name and a directory without a trailing separator. */
  lemma SplitGetFilename(dirpath: string, filename: string)
    requires SEP !in filename
    requires dirpath == [] || dirpath[|dirpath| - 1] != SEP
    ensures Split(GetFilename(dirpath, filename)) == (dirpath, filename)
  {
    var p := GetFilename(dirpath, filename);
    if dirpath != [] {
      var i := RFind(p, SEP);
      assert p[|dirpath|] == SEP;
      assert i == |dirpath|;
      var head := p[..i + 1];
      assert head == dirpath + [SEP];
      assert !AllChar(head, SEP) by { assert head[|dirpath| - 1] != SEP; }
      var stripped := RStrip(head, SEP);
      assert stripped == dirpath;
      assert p[i + 1..] == filename;
    }
  }

  /** The root-relative form of a normalised path: no leading, trailing or doubled separator. */
  predicate Normalized(p: string) {
    && (p == [] || (p[0] != SEP && p[|p| - 1] != SEP))
    && forall i :: 0 <= i < |p| - 1 ==> !(p[i] == SEP && p[i + 1] == SEP)
  }
}
