/**
 * test_run: how a file found under the scan root is classified.  The file's
 * directory, relative to the root, decides its dotted module name and whether
 * it lies in a package (every directory from it up to, but not including, the
 * root holds __init__.py); the extension and that answer decide whether the
 * file goes to the package doctest and unittest runners, to the plain-text
 * doctest runner, or nowhere.
 *
 * The existence test os.path.isfile(os.path.join(d, '__init__.py')) is the
 * injected set `markers`: the directories d, relative to the process working
 * directory, that hold the marker file.
 */
module Discovery {
  import opened Strings
  import opened Paths

  /** Extensions whose files are always read as plain-text doctests. */
  const DOCTEST_FILE_TYPES: set<string> := {".txt", ".md", ".html", ".htm", ""}

  /** The runners test_run hands a file to, with the arguments they use. */
  datatype Action =
    | PackageModule(moduleName: string, relpath: string, filename: string)  // test_doctest_py, then test_unittest
    | PlainText(name: string, relpath: string, filename: string)            // test_doctest_nonpy
    | NoAction

  /** dirpath[len(cwd):].lstrip(sep): the directory below the scan root, without leading separators. */
  function RelPath(cwd: string, dirpath: string): (r: string)
    requires StartsWith(dirpath, cwd)
    ensures r == [] || r[0] != SEP
    ensures |cwd| + |r| <= |dirpath| && r == dirpath[|dirpath| - |r|..]
    ensures AllChar(dirpath[|cwd|..|dirpath| - |r|], SEP)
  {
    var rest := dirpath[|cwd|..];
    var r := LStrip(rest, SEP);
    assert rest[..|rest| - |r|] == dirpath[|cwd|..|dirpath| - |r|];
    r
  }

  /** The dotted module name: the stem alone at the root, else the directory with separators as dots, a dot and the stem. */
  function ModuleName(relpath: string, name: string): (r: string)
    ensures EndsWith(r, name)
    ensures relpath == [] ==> r == name
    ensures relpath != [] ==> |r| > |relpath| + |name| && r[|relpath|] == '.'
  {
    if relpath != [] then ReplaceChar(relpath, SEP, '.') + "." + name else name
  }

  /**
   * The module name takes apart again: its first |relpath| characters are the
   * directory with dots for separators (and give the directory back when no
   * directory name has a dot), then a dot, then the stem.
   */
  lemma ModuleNameParts(relpath: string, name: string)
    requires relpath != []
    ensures var m := ModuleName(relpath, name);
      && |m| == |relpath| + 1 + |name|
      && m[..|relpath|] == ReplaceChar(relpath, SEP, '.')
      && m[|relpath|] == '.'
      && m[|relpath| + 1..] == name
      && ('.' !in relpath ==> ReplaceChar(m[..|relpath|], '.', SEP) == relpath)
  {
    var m := ModuleName(relpath, name);
    assert m[..|relpath|] == ReplaceChar(relpath, SEP, '.');
    if '.' !in relpath {
      ReplaceCharBack(relpath, SEP, '.');
    }
  }

  /** The directories the marker walk of test_run visits: relpath and each successive os.path.split head, down to but excluding the empty path. */
  function Heads(p: string): seq<string>
    requires p == [] || p[0] != SEP
    decreases |p|
  {
    if p == [] then [] else [p] + Heads(Split(p).0)
  }

  /** Every directory the marker walk visits holds the marker. */
  predicate AllMarked(relpath: string, markers: set<string>)
    requires relpath == [] || relpath[0] != SEP
  {
    forall h :: h in Heads(relpath) ==> h in markers
  }

  /** x is the directory p or one of the directories above it, the scan root itself excluded. */
  predicate IsAncestor(x: string, p: string) {
    0 < |x| <= |p| && p[..|x|] == x && (|x| == |p| || p[|x|] == SEP)
  }

  /** The scan root (the empty relative path) is never among the directories checked. */
  lemma {:induction false} RootNeverChecked(p: string)
    requires p == [] || p[0] != SEP
    ensures [] !in Heads(p)
    decreases |p|
  {
    if p != [] {
      RootNeverChecked(Split(p).0);
    }
  }

  /** One step of os.path.split on a normalised path: the head is the part before the last separator, itself normalised. */
  lemma SplitNormalized(p: string)
    requires Normalized(p) && p != []
    ensures var j := RFind(p, SEP);
      && (j < 0 ==> Split(p).0 == [])
      && (j >= 0 ==> 0 < j < |p| - 1 && Split(p).0 == p[..j])
      && Normalized(Split(p).0)
  {
    var j := RFind(p, SEP);
    if j < 0 {
      assert SEP !in p;
    } else {
      SplitAtLastSep(p, j);
      NormalizedPrefix(p, j);
    }
  }

  /** A prefix of a normalised path that does not end in a separator is normalised. */
  lemma NormalizedPrefix(p: string, j: int)
    requires Normalized(p) && 0 < j <= |p| && p[j - 1] != SEP
    ensures Normalized(p[..j])
  {
    var q := p[..j];
    assert q[0] == p[0] && q[j - 1] == p[j - 1];
    forall i | 0 <= i < |q| - 1
      ensures !(q[i] == SEP && q[i + 1] == SEP)
    {
      assert q[i] == p[i] && q[i + 1] == p[i + 1];
    }
  }

  /** On a normalised path the last separator is strictly inside it, and split cuts there. */
  lemma SplitAtLastSep(p: string, j: int)
    requires Normalized(p) && 0 <= j && j == RFind(p, SEP)
    ensures 0 < j < |p| - 1 && p[j - 1] != SEP && Split(p).0 == p[..j]
  {
    assert 0 < j < |p| - 1;
    assert p[j - 1] != SEP;
    SplitCutsAt(p, j);
  }

  /** A last separator with something other than a separator before it is where split cuts. */
  lemma SplitCutsAt(p: string, j: int)
    requires 0 < j < |p| && j == RFind(p, SEP) && p[0] != SEP && p[j - 1] != SEP
    ensures Split(p).0 == p[..j]
  {
    var head := p[..j + 1];
    assert !AllChar(head, SEP) by { assert head[0] != SEP; }
    RStripLastOnly(head, SEP);
    assert head[..j] == p[..j];
  }

  /** The ancestors of a path with a separator are the path itself and the ancestors of the part before its last separator. */
  lemma AncestorStep(p: string, j: int, x: string)
    requires 0 < j < |p| && j == RFind(p, SEP)
    ensures IsAncestor(x, p) <==> (x == p || IsAncestor(x, p[..j]))
  {
    if IsAncestor(x, p) && x != p {
      assert |x| < |p| && p[|x|] == SEP;
      assert |x| <= j;
      assert p[..j][..|x|] == x;
    }
    if IsAncestor(x, p[..j]) {
      assert p[..|x|] == p[..j][..|x|];
    }
  }

  /** A path without a separator is its own only ancestor. */
  lemma AncestorNoSep(p: string, x: string)
    requires SEP !in p
    ensures IsAncestor(x, p) <==> (p != [] && x == p)
  {
    assert forall i :: 0 <= i < |p| ==> p[i] != SEP;
  }

  /** For a normalised relative path the walk visits exactly its ancestor directories. */
  lemma {:induction false} HeadsAreAncestors(p: string)
    requires Normalized(p)
    ensures forall x :: x in Heads(p) <==> IsAncestor(x, p)
    decreases |p|
  {
    if p != [] {
      SplitNormalized(p);
      var q := Split(p).0;
      var j := RFind(p, SEP);
      assert Heads(p) == [p] + Heads(q);
      if j < 0 {
        assert SEP !in p;
        forall x ensures x in Heads(p) <==> IsAncestor(x, p) {
          AncestorNoSep(p, x);
        }
      } else {
        HeadsAreAncestors(q);
        forall x ensures x in Heads(p) <==> IsAncestor(x, p) {
          AncestorStep(p, j, x);
        }
      }
    } else {
      forall x ensures !IsAncestor(x, p) { }
    }
  }

  /** The marker walk succeeds exactly when every ancestor directory up to the scan root holds the marker. */
  lemma AllMarkedIffAncestorsMarked(p: string, markers: set<string>)
    requires Normalized(p)
    ensures AllMarked(p, markers) <==> forall x :: IsAncestor(x, p) ==> x in markers
  {
    HeadsAreAncestors(p);
  }

  /** Taking the marker away from any one ancestor directory makes the walk fail. */
  lemma MarkerRemovalFlips(p: string, markers: set<string>, x: string)
    requires Normalized(p) && IsAncestor(x, p)
    ensures !AllMarked(p, markers - {x})
  {
    HeadsAreAncestors(p);
  }

  /** What test_run decides for a file, stated directly. */
  function Dispatch(cwd: string, dirpath: string, filename: string, markers: set<string>): (r: Action)
    ensures r != NoAction ==> StartsWith(dirpath, cwd) && r.relpath == RelPath(cwd, dirpath) && r.filename == filename
  {
    if !StartsWith(dirpath, cwd) then NoAction
    else
      var relpath := RelPath(cwd, dirpath);
      var (name, ext) := SplitExt(filename);
      if ext == ".py" && AllMarked(relpath, markers) then PackageModule(ModuleName(relpath, name), relpath, filename)
      else if ext == ".py" || ext in DOCTEST_FILE_TYPES then PlainText(name, relpath, filename)
      else NoAction
  }

  /** test_run, with its marker walk; dirpath is already absolute and normalised. */
  method TestRun(cwd: string, dirpath: string, filename: string, markers: set<string>) returns (action: Action)
    ensures action == Dispatch(cwd, dirpath, filename, markers)
  {
    if !StartsWith(dirpath, cwd) {
      return NoAction;
    }
    var relpath := LStrip(dirpath[|cwd|..], SEP);
    var (name, ext) := SplitExt(filename);
    var isPackageDir := true;
    var moduleName;
    if relpath != [] {
      moduleName := ReplaceChar(relpath, SEP, '.') + "." + name;
      var pathhead := relpath;
      while pathhead != []
        invariant pathhead == [] || pathhead[0] != SEP
        invariant isPackageDir
        invariant AllMarked(relpath, markers) == AllMarked(pathhead, markers)
        decreases |pathhead|
      {
        if pathhead !in markers {
          isPackageDir := false;
          break;
        }
        pathhead := Split(pathhead).0;
      }
    } else {
      moduleName := name;
    }
    if ext == ".py" && isPackageDir {
      action := PackageModule(moduleName, relpath, filename);
    } else if ext == ".py" || ext in DOCTEST_FILE_TYPES {
      action := PlainText(name, relpath, filename);
    } else {
      action := NoAction;
    }
  }

  /**
   * A file goes to the package runners, under its dotted module name, exactly
   * when its directory is inside the scan root, its extension is .py and every
   * ancestor directory up to the root holds the marker.
   */
  lemma DispatchPackageIff(cwd: string, dirpath: string, filename: string, markers: set<string>)
    requires StartsWith(dirpath, cwd) ==> Normalized(RelPath(cwd, dirpath))
    ensures var a := Dispatch(cwd, dirpath, filename, markers);
      && (a.PackageModule? <==>
            && StartsWith(dirpath, cwd) && SplitExt(filename).1 == ".py"
            && forall x :: IsAncestor(x, RelPath(cwd, dirpath)) ==> x in markers)
      && (a.PackageModule? ==> a.moduleName == ModuleName(RelPath(cwd, dirpath), SplitExt(filename).0))
  {
    if StartsWith(dirpath, cwd) {
      AllMarkedIffAncestorsMarked(RelPath(cwd, dirpath), markers);
    }
  }

  /**
   * A file goes to the plain-text runner, under its stem, exactly when its
   * directory is inside the scan root and either its extension is a plain-text
   * one or it is a .py file with some ancestor directory lacking the marker.
   */
  lemma DispatchPlainTextIff(cwd: string, dirpath: string, filename: string, markers: set<string>)
    requires StartsWith(dirpath, cwd) ==> Normalized(RelPath(cwd, dirpath))
    ensures var a := Dispatch(cwd, dirpath, filename, markers);
      && (a.PlainText? <==>
            && StartsWith(dirpath, cwd)
            && (|| SplitExt(filename).1 in DOCTEST_FILE_TYPES
                || (SplitExt(filename).1 == ".py" && !forall x :: IsAncestor(x, RelPath(cwd, dirpath)) ==> x in markers)))
      && (a.PlainText? ==> a.name == SplitExt(filename).0)
  {
    DispatchPlainTextMarked(cwd, dirpath, filename, markers);
    if StartsWith(dirpath, cwd) {
      AllMarkedIffAncestorsMarked(RelPath(cwd, dirpath), markers);
    }
  }

  /** The plain-text case of Dispatch, stated with the marker walk itself. */
  lemma DispatchPlainTextMarked(cwd: string, dirpath: string, filename: string, markers: set<string>)
    requires StartsWith(dirpath, cwd) ==> Normalized(RelPath(cwd, dirpath))
    ensures var a := Dispatch(cwd, dirpath, filename, markers);
      var ext := SplitExt(filename).1;
      && (a.PlainText? <==>
            && StartsWith(dirpath, cwd)
            && (ext in DOCTEST_FILE_TYPES || (ext == ".py" && !AllMarked(RelPath(cwd, dirpath), markers))))
      && (a.PlainText? ==> a.name == SplitExt(filename).0)
  {
    PyIsNoPlainTextType();
  }

  /** '.py' is not one of the plain-text extensions. */
  lemma PyIsNoPlainTextType()
    ensures ".py" !in DOCTEST_FILE_TYPES
  {
  }

  /** A file goes nowhere exactly when its directory is outside the scan root or its extension is neither .py nor a plain-text one. */
  lemma DispatchNothingIff(cwd: string, dirpath: string, filename: string, markers: set<string>)
    ensures Dispatch(cwd, dirpath, filename, markers).NoAction? <==>
      (!StartsWith(dirpath, cwd) || (SplitExt(filename).1 != ".py" && SplitExt(filename).1 !in DOCTEST_FILE_TYPES))
  {
  }

  /** A .py file directly in the scan root is always a package module, named by its stem, whatever the markers. */
  lemma RootFileIsPackage(cwd: string, dirpath: string, filename: string, markers: set<string>)
    requires StartsWith(dirpath, cwd) && RelPath(cwd, dirpath) == []
    requires SplitExt(filename).1 == ".py"
    ensures Dispatch(cwd, dirpath, filename, markers) == PackageModule(SplitExt(filename).0, [], filename)
  {
  }
}
