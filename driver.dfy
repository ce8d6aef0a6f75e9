/**
 * main, in full-scan mode: each directory listing the walk yields has the
 * ignored directory and file names removed in place (so the walk does not
 * descend into ignored directories), and every remaining file goes through
 * test_run; at the end the counters decide the summary line and the exit
 * status.
 */
module Driver {
  import opened Wrappers
  import opened Strings
  import Paths
  import Discovery
  import Reporting

  const IGNORE_DIRS: set<string> := {".git", ".svn", "CVS", "__pycache__", ".DS_Store"}
  const IGNORE_FILES: set<string> := {".gitignore"}

  predicate Distinct(s: seq<string>) {
    forall i, j :: 0 <= i < j < |s| ==> s[i] != s[j]
  }

  /** The names outside `ignore`, in their original order. */
  function Without(names: seq<string>, ignore: set<string>): (r: seq<string>)
    ensures forall x :: x in r <==> x in names && x !in ignore
  {
    if names == [] then [] else (if names[0] in ignore then [] else [names[0]]) + Without(names[1..], ignore)
  }

  /** list.remove(x) on a list that may lack x: the first occurrence of x dropped. */
  function RemoveFirst(s: seq<string>, x: string): (r: seq<string>)
    ensures multiset(r) == multiset(s) - multiset{x}
  {
    if s == [] then []
    else if s[0] == x then (assert s == [s[0]] + s[1..]; s[1..])
    else (assert s == [s[0]] + s[1..]; [s[0]] + RemoveFirst(s[1..], x))
  }

  lemma DistinctTail(names: seq<string>)
    requires Distinct(names) && names != []
    ensures Distinct(names[1..]) && names[0] !in names[1..]
  {
    forall i, j | 0 <= i < j < |names| - 1 ensures names[1..][i] != names[1..][j] {
      assert names[1..][i] == names[i + 1] && names[1..][j] == names[j + 1];
    }
    forall k | 0 <= k < |names| - 1 ensures names[1..][k] != names[0] {
      assert names[1..][k] == names[k + 1];
    }
  }

  /** Removing a name that is not there changes nothing. */
  lemma {:induction false} RemoveFirstAbsent(s: seq<string>, x: string)
    requires x !in s
    ensures RemoveFirst(s, x) == s
    decreases |s|
  {
    if s != [] {
      assert x !in s[1..];
      RemoveFirstAbsent(s[1..], x);
    }
  }

  /** Removing the first occurrence of x from a list whose head is something else keeps the head. */
  lemma RemoveFirstCons(y: string, rest: seq<string>, x: string)
    requires y != x
    ensures RemoveFirst([y] + rest, x) == [y] + RemoveFirst(rest, x)
  {
    assert ([y] + rest)[1..] == rest;
  }

  /** One step of Without on a nonempty list. */
  lemma WithoutUnfold(names: seq<string>, ignore: set<string>)
    requires names != []
    ensures Without(names, ignore) ==
      if names[0] in ignore then Without(names[1..], ignore) else [names[0]] + Without(names[1..], ignore)
  {
    if names[0] in ignore {
      assert [] + Without(names[1..], ignore) == Without(names[1..], ignore);
    }
  }

  /** On distinct names, removing the first occurrence of one more name from a filtered list filters that name out too. */
  lemma {:induction false} RemoveFirstWithout(names: seq<string>, done: set<string>, x: string)
    requires Distinct(names) && x !in done
    ensures RemoveFirst(Without(names, done), x) == Without(names, done + {x})
    decreases |names|
  {
    if names != [] {
      DistinctTail(names);
      var n := names[0];
      var w := Without(names[1..], done);
      RemoveFirstWithout(names[1..], done, x);
      WithoutUnfold(names, done);
      WithoutUnfold(names, done + {x});
      if n == x {
        assert ([x] + w)[1..] == w;
        RemoveFirstAbsent(w, x);
      } else if n !in done {
        RemoveFirstCons(n, w, x);
      }
    }
  }

  /** Filtering by the empty set keeps every name. */
  lemma {:induction false} WithoutNothing(names: seq<string>)
    ensures Without(names, {}) == names
    decreases |names|
  {
    if names != [] {
      WithoutNothing(names[1..]);
      assert names == [names[0]] + names[1..];
    }
  }

  /** Filtering by ignore and by the part of ignore that occurs in the names is the same. */
  lemma {:induction false} WithoutPresent(names: seq<string>, ignore: set<string>, present: set<string>)
    requires forall x :: x in names ==> x in present
    ensures Without(names, ignore * present) == Without(names, ignore)
    decreases |names|
  {
    if names != [] {
      WithoutPresent(names[1..], ignore, present);
    }
  }

  /**
   * `for x in ignore & set(names): names.remove(x)`.  Each ignored name that
   * occurs loses its first occurrence; on a listing without repeated names
   * (which is what the walk delivers) exactly the ignored names go and every
   * other name stays, in order.
   */
  method Prune(names: seq<string>, ignore: set<string>) returns (kept: seq<string>)
    ensures multiset(kept) == multiset(names) - multiset(ignore * set x | x in names)
    ensures Distinct(names) ==> kept == Without(names, ignore)
  {
    var present := set x | x in names;
    var todo := ignore * present;
    ghost var done: set<string> := {};
    kept := names;
    WithoutNothing(names);
    assert multiset(done) == multiset{};
    while todo != {}
      invariant todo !! done && todo + done == ignore * present
      invariant multiset(kept) == multiset(names) - multiset(done)
      invariant Distinct(names) ==> kept == Without(names, done)
      decreases |todo|
    {
      var x :| x in todo;
      PruneStep(names, todo, done, kept, x);
      kept := RemoveFirst(kept, x);
      todo := todo - {x};
      done := done + {x};
    }
    if Distinct(names) {
      WithoutPresent(names, ignore, present);
    }
  }

  /** One removal of Prune keeps its two invariants, with x moved to the removed names. */
  lemma PruneStep(names: seq<string>, todo: set<string>, done: set<string>, kept: seq<string>, x: string)
    requires x in todo && todo !! done
    requires multiset(kept) == multiset(names) - multiset(done)
    requires Distinct(names) ==> kept == Without(names, done)
    ensures multiset(RemoveFirst(kept, x)) == multiset(names) - multiset(done + {x})
    ensures Distinct(names) ==> RemoveFirst(kept, x) == Without(names, done + {x})
    ensures todo - {x} !! done + {x} && (todo - {x}) + (done + {x}) == todo + done
  {
    if Distinct(names) {
      RemoveFirstWithout(names, done, x);
    }
    assert x !in done;
    var r := RemoveFirst(kept, x);
    assert multiset(r) == (multiset(names) - multiset(done)) - multiset{x};
    MinusAdd(multiset(names), done, x);
    MoveOne(todo, done, x);
  }

  /** Moving x from the names still to remove to the names removed keeps the two apart and their union the same. */
  lemma MoveOne(todo: set<string>, done: set<string>, x: string)
    requires x in todo && todo !! done
    ensures todo - {x} !! done + {x} && (todo - {x}) + (done + {x}) == todo + done
  {
  }

  /** Taking away the names removed so far and then x is taking away x along with them. */
  lemma MinusAdd(m: multiset<string>, done: set<string>, x: string)
    requires x !in done
    ensures m - multiset(done) - multiset{x} == m - multiset(done + {x})
  {
  }

  /** One (dirpath, dirnames, filenames) triple of the walk; main edits its two lists in place. */
  class WalkEntry {
    const dirpath: string
    var dirnames: seq<string>
    var filenames: seq<string>

    constructor (dirpath: string, dirnames: seq<string>, filenames: seq<string>)
      ensures this.dirpath == dirpath && this.dirnames == dirnames && this.filenames == filenames
    {
      this.dirpath := dirpath;
      this.dirnames := dirnames;
      this.filenames := filenames;
    }

    /** The two pruning loops of main. */
    method PruneIgnored()
      modifies this
      ensures multiset(dirnames) == multiset(old(dirnames)) - multiset(IGNORE_DIRS * set x | x in old(dirnames))
      ensures multiset(filenames) == multiset(old(filenames)) - multiset(IGNORE_FILES * set x | x in old(filenames))
      ensures Distinct(old(dirnames)) ==> dirnames == Without(old(dirnames), IGNORE_DIRS)
      ensures Distinct(old(filenames)) ==> filenames == Without(old(filenames), IGNORE_FILES)
    {
      dirnames := Prune(dirnames, IGNORE_DIRS);
      filenames := Prune(filenames, IGNORE_FILES);
    }
  }

  /** The dispatch of each file, in order. */
  function DispatchAll(cwd: string, dirpath: string, filenames: seq<string>, markers: set<string>): (r: seq<Discovery.Action>)
    ensures |r| == |filenames|
  {
    if filenames == [] then []
    else DispatchAll(cwd, dirpath, filenames[..|filenames| - 1], markers)
         + [Discovery.Dispatch(cwd, dirpath, filenames[|filenames| - 1], markers)]
  }

  /** The i-th action is the dispatch of the i-th file. */
  lemma {:induction false} DispatchAllAt(cwd: string, dirpath: string, filenames: seq<string>, markers: set<string>, i: nat)
    requires i < |filenames|
    ensures DispatchAll(cwd, dirpath, filenames, markers)[i] == Discovery.Dispatch(cwd, dirpath, filenames[i], markers)
    decreases |filenames|
  {
    if i < |filenames| - 1 {
      var init := filenames[..|filenames| - 1];
      DispatchAllAt(cwd, dirpath, init, markers, i);
      assert init[i] == filenames[i];
    }
  }

  /** Dispatching one more file appends its action. */
  lemma DispatchAllSnoc(cwd: string, dirpath: string, filenames: seq<string>, markers: set<string>, i: nat)
    requires i < |filenames|
    ensures DispatchAll(cwd, dirpath, filenames[..i + 1], markers)
      == DispatchAll(cwd, dirpath, filenames[..i], markers) + [Discovery.Dispatch(cwd, dirpath, filenames[i], markers)]
  {
    assert filenames[..i + 1][..i] == filenames[..i];
  }

  /** test_run for each of the files, in order. */
  method RunFiles(cwd: string, dirpath: string, filenames: seq<string>, markers: set<string>)
    returns (actions: seq<Discovery.Action>)
    ensures actions == DispatchAll(cwd, dirpath, filenames, markers)
  {
    actions := [];
    for i := 0 to |filenames|
      invariant actions == DispatchAll(cwd, dirpath, filenames[..i], markers)
    {
      var a := Discovery.TestRun(cwd, dirpath, filenames[i], markers);
      DispatchAllSnoc(cwd, dirpath, filenames, markers, i);
      actions := actions + [a];
    }
    assert filenames[..|filenames|] == filenames;
  }

  /**
   * The body of the walk loop of main for one directory: prune, then run every
   * remaining file.  In this mode the process works in the scan root, so
   * `markers` holds directories relative to it.
   */
  method ScanEntry(cwd: string, entry: WalkEntry, markers: set<string>) returns (actions: seq<Discovery.Action>)
    modifies entry
    ensures Distinct(old(entry.dirnames)) ==> entry.dirnames == Without(old(entry.dirnames), IGNORE_DIRS)
    ensures Distinct(old(entry.filenames)) ==> entry.filenames == Without(old(entry.filenames), IGNORE_FILES)
    ensures actions == DispatchAll(cwd, entry.dirpath, entry.filenames, markers)
  {
    entry.PruneIgnored();
    actions := RunFiles(cwd, entry.dirpath, entry.filenames, markers);
  }

  /** ".gitignore" has no extension: its only dot is its first character. */
  lemma GitignoreHasNoExtension()
    ensures Paths.SplitExt(".gitignore") == (".gitignore", "")
  {
    var f := ".gitignore";
    assert forall k :: 0 < k < |f| ==> f[k] != '.' && f[k] != Paths.SEP;
    assert f[0] != Paths.SEP;
    assert RFind(f, Paths.SEP) == -1;
    assert RFind(f, '.') == 0;
  }

  /** What pruning protects against: a .gitignore file would otherwise go to the plain-text runner, its extension being empty. */
  lemma GitignoreWouldBeRead(cwd: string, dirpath: string, markers: set<string>)
    requires StartsWith(dirpath, cwd)
    ensures Discovery.Dispatch(cwd, dirpath, ".gitignore", markers) == Discovery.PlainText(".gitignore", Discovery.RelPath(cwd, dirpath), ".gitignore")
  {
    GitignoreHasNoExtension();
  }

  /** What main does once the walk is over: the summary line it prints, if any, and its exit status. */
  datatype Outcome = Outcome(summary: Option<string>, exitStatus: nat)

  /** 'Ran N tests in Xs', then ', N skipped' if any were skipped, then ', N failed' or ', all passed'. */
  function SummaryMessage(c: Reporting.Counters, elapsed: string): string {
    "Ran " + NatStr(c.attempted) + " tests in " + elapsed + "s" + SkippedPart(c.skipped) + FailedPart(c.failed)
  }

  function SkippedPart(skipped: nat): (r: string)
    ensures r == [] <==> skipped == 0
  {
    if skipped > 0 then ", " + NatStr(skipped) + " skipped" else ""
  }

  function FailedPart(failed: nat): (r: string)
    ensures r != [] && r[0] == ','
  {
    if failed > 0 then ", " + NatStr(failed) + " failed" else ", all passed"
  }

  /**
   * End of main.  Nothing is printed and the exit status is 0 when no test was
   * attempted; otherwise the summary is printed and the status is 1 exactly
   * when some test failed.  `elapsed` is the elapsed time as formatted.
   */
  function EndOfRun(c: Reporting.Counters, elapsed: string): (r: Outcome)
    ensures c.attempted == 0 ==> r.summary.None?
    ensures c.attempted > 0 ==> r.summary == Some(SummaryMessage(c, elapsed))
    ensures r.exitStatus == 1 <==> c.attempted > 0 && c.failed > 0
    ensures r.exitStatus == 0 <==> !(c.attempted > 0 && c.failed > 0)
  {
    if c.attempted == 0 then Outcome(None, 0)
    else Outcome(Some(SummaryMessage(c, elapsed)), if c.failed > 0 then 1 else 0)
  }

  /**
   * After 'Ran N tests in Ts' the summary goes straight on to the failed part
   * exactly when nothing was skipped; otherwise ', K skipped' comes first.
   */
  lemma SummarySkipped(c: Reporting.Counters, elapsed: string)
    ensures var msg := SummaryMessage(c, elapsed);
      var head := "Ran " + NatStr(c.attempted) + " tests in " + elapsed + "s";
      && StartsWith(msg, head)
      && (msg[|head|..] == FailedPart(c.failed) <==> c.skipped == 0)
      && (c.skipped > 0 ==> StartsWith(msg[|head|..], ", " + NatStr(c.skipped) + " skipped"))
  {
    var head := "Ran " + NatStr(c.attempted) + " tests in " + elapsed + "s";
    HeadThenParts(head, SkippedPart(c.skipped), FailedPart(c.failed));
  }

  /** A concatenation head + x + y: what follows head is x + y, and that is y alone exactly when x is empty. */
  lemma HeadThenParts(head: string, x: string, y: string)
    ensures StartsWith(head + x + y, head) && (head + x + y)[|head|..] == x + y
    ensures (x + y == y <==> x == []) && StartsWith(x + y, x)
  {
    ConcatThree(head, x, y);
    assert (head + x + y)[|head|..] == x + y;
    if x + y == y {
      assert |x| == 0;
    }
  }

  /** The summary ends with ', all passed' exactly when nothing failed, and with ', N failed' when N > 0 tests failed. */
  lemma SummaryEnding(c: Reporting.Counters, elapsed: string)
    ensures c.failed > 0 ==> EndsWith(SummaryMessage(c, elapsed), ", " + NatStr(c.failed) + " failed")
    ensures EndsWith(SummaryMessage(c, elapsed), ", all passed") <==> c.failed == 0
  {
    var head := "Ran " + NatStr(c.attempted) + " tests in " + elapsed + "s";
    var tail := FailedPart(c.failed);
    ConcatParts(head + SkippedPart(c.skipped), tail);
    if c.failed > 0 {
      assert tail == (", " + NatStr(c.failed) + " fai") + "led";
      ConcatParts(", " + NatStr(c.failed) + " fai", "led");
      EndsWithApart(SummaryMessage(c, elapsed), tail, ", all passed");
    }
  }

  /** A text cannot end with two suffixes whose third characters from the end differ. */
  lemma EndsWithApart(s: string, a: string, b: string)
    requires EndsWith(s, a) && |a| >= 3 && |b| >= 3 && a[|a| - 3] != b[|b| - 3]
    ensures !EndsWith(s, b)
  {
    assert s[|s| - 3] == a[|a| - 3];
  }

  /** pass over ', N skipped' at the front of r, if it is there. */
  function ParseSkipped(r: string): (nat, string) {
    if StartsWith(r, ", ") then
      var d := TakeDigits(r[2..]);
      var rest := r[2 + |d|..];
      if d != [] && StartsWith(rest, " skipped") then (DigitsValue(d), rest[8..]) else (0, r)
    else (0, r)
  }

  /** ', all passed' or ', N failed'. */
  function ParseFailed(r: string): Option<nat> {
    if r == ", all passed" then Some(0)
    else if StartsWith(r, ", ") then
      var d := TakeDigits(r[2..]);
      if d != [] && r[2 + |d|..] == " failed" then Some(DigitsValue(d)) else None
    else None
  }

  /** Reads the counts back out of a summary message. */
  function ParseSummary(msg: string): Option<Reporting.Counters> {
    if StartsWith(msg, "Ran ") then ParseTests(msg[4..]) else None
  }

  /** 'N tests in ...' */
  function ParseTests(r: string): Option<Reporting.Counters> {
    var d := TakeDigits(r);
    if d != [] && StartsWith(r[|d|..], " tests in ") then ParseCounts(DigitsValue(d), r[|d| + 10..]) else None
  }

  /** The elapsed time up to its 's', then the skip and failure parts. */
  function ParseCounts(attempted: nat, r: string): Option<Reporting.Counters> {
    var k := Find(r, 's');
    if k < 0 then None
    else
      var (skipped, rest) := ParseSkipped(r[k + 1..]);
      var failed := ParseFailed(rest);
      if failed.None? then None else Some(Reporting.Counters(attempted, failed.value, skipped))
  }

  /** ', N skipped' in front of the rest is read as N. */
  lemma ParseSkippedOf(n: nat, tail: string)
    requires n > 0
    ensures ParseSkipped(", " + NatStr(n) + " skipped" + tail) == (n, tail)
  {
    var d := NatStr(n);
    var r := ", " + d + " skipped" + tail;
    assert r[2..] == d + (" skipped" + tail);
    TakeDigitsOfDigits(d, " skipped" + tail);
    assert r[2 + |d|..] == " skipped" + tail;
    assert (" skipped" + tail)[8..] == tail;
    DigitsValueOfNatStr(n);
  }

  /** ', N failed' holds no skip count. */
  lemma ParseSkippedOfFailed(m: nat)
    ensures ParseSkipped(", " + NatStr(m) + " failed") == (0, ", " + NatStr(m) + " failed")
  {
    var d := NatStr(m);
    var r := ", " + d + " failed";
    assert r[2..] == d + " failed";
    TakeDigitsOfDigits(d, " failed");
    var rest := r[2 + |d|..];
    assert rest == " failed";
    assert rest[1] == 'f' && " skipped"[1] == 's';
  }

  /** ', all passed' holds no skip count. */
  lemma ParseSkippedOfPassed()
    ensures ParseSkipped(", all passed") == (0, ", all passed")
  {
    var r := ", all passed";
    assert r[2..][0] == 'a';
    assert TakeDigits(r[2..]) == [];
  }

  /** ', N failed' is read as N. */
  lemma ParseFailedOf(m: nat)
    requires m > 0
    ensures ParseFailed(", " + NatStr(m) + " failed") == Some(m)
  {
    var d := NatStr(m);
    var r := ", " + d + " failed";
    assert r[2..] == d + " failed";
    TakeDigitsOfDigits(d, " failed");
    assert r[2 + |d|..] == " failed";
    DigitsValueOfNatStr(m);
    assert r != ", all passed" by { assert IsDigit(r[2]) && ", all passed"[2] == 'a'; }
  }

  lemma ParseSummaryRan(r: string)
    ensures ParseSummary("Ran " + r) == ParseTests(r)
  {
    assert ("Ran " + r)[4..] == r;
  }

  lemma ParseTestsOf(attempted: nat, r: string)
    ensures ParseTests(NatStr(attempted) + " tests in " + r) == ParseCounts(attempted, r)
  {
    var d := NatStr(attempted);
    var t := " tests in " + r;
    assert d + " tests in " + r == d + t;
    TakeDigitsOfDigits(d, t);
    DigitsValueOfNatStr(attempted);
    ConcatParts(d, t);
    ConcatParts(" tests in ", r);
    assert (d + t)[|d| + 10..] == t[10..];
  }

  lemma ParseCountsOf(attempted: nat, elapsed: string, rest: string)
    requires 's' !in elapsed
    ensures var (skipped, r5) := ParseSkipped(rest);
      var failed := ParseFailed(r5);
      ParseCounts(attempted, elapsed + "s" + rest)
        == if failed.None? then None else Some(Reporting.Counters(attempted, failed.value, skipped))
  {
    var r := elapsed + "s" + rest;
    assert r[|elapsed|] == 's';
    assert Find(r, 's') == |elapsed|;
    assert r[|elapsed| + 1..] == rest;
  }

  /** The skip and failure parts read back as the skipped and failed counts. */
  lemma ParseParts(skipped: nat, failed: nat)
    ensures ParseSkipped(SkippedPart(skipped) + FailedPart(failed)) == (skipped, FailedPart(failed))
    ensures ParseFailed(FailedPart(failed)) == Some(failed)
  {
    var tail := FailedPart(failed);
    if skipped > 0 {
      ParseSkippedOf(skipped, tail);
    } else {
      assert SkippedPart(skipped) + tail == tail;
      if failed > 0 { ParseSkippedOfFailed(failed); } else { ParseSkippedOfPassed(); }
    }
    if failed > 0 { ParseFailedOf(failed); }
  }

  /** The summary message, grouped the way the parser reads it. */
  lemma SummaryMessageGrouped(c: Reporting.Counters, elapsed: string)
    ensures SummaryMessage(c, elapsed)
      == "Ran " + (NatStr(c.attempted) + " tests in " + (elapsed + "s" + (SkippedPart(c.skipped) + FailedPart(c.failed))))
  {
  }

  /** The summary line determines the three counts, as long as the elapsed time contains no letter s. */
  lemma ParseSummaryMessage(c: Reporting.Counters, elapsed: string)
    requires 's' !in elapsed
    ensures ParseSummary(SummaryMessage(c, elapsed)) == Some(c)
  {
    var parts := SkippedPart(c.skipped) + FailedPart(c.failed);
    var afterTests := elapsed + "s" + parts;
    var afterRan := NatStr(c.attempted) + " tests in " + afterTests;
    SummaryMessageGrouped(c, elapsed);
    ParseSummaryRan(afterRan);
    ParseTestsOf(c.attempted, afterTests);
    ParseCountsOf(c.attempted, elapsed, parts);
    ParseParts(c.skipped, c.failed);
  }

  /**
   * Over a whole run from the initial state, nothing is printed exactly when
   * no start hook was called, and the exit status is 1 exactly when some test
   * started and some failing outcome was reported.
   */
  lemma RunOutcome(events: seq<Reporting.Event>, elapsed: string)
    ensures var r := EndOfRun(Reporting.Run(Reporting.INITIAL, events).counters, elapsed);
      && (r.summary.None? <==> Reporting.Starts(events) == 0)
      && (r.exitStatus == 1 <==> Reporting.Starts(events) > 0 && Reporting.Failures(events) > 0)
  {
    Reporting.RunCounts(Reporting.INITIAL, events);
  }
}
