# runtest.py, modelled in Dafny

runtest.py is a small Python test runner. It walks a directory tree (the scan
root), classifies every file it finds, and hands `.py` files in packages to
the doctest and unittest machinery and plain-text files to the doctest
parser. Its own doctest runner and unittest result print one header per test
or class and one line per example or test method. At the end it prints a
summary line and sets the exit status.

This project models the bookkeeping around that, not the running of tests:

- `strings.dfy` (module `Strings`): the Python string operations the runner
  uses: `lstrip`, `rstrip`, `replace`, slices with a negative stop, and
  `str()` of a non-negative integer. It also holds two searches the runner
  does not call itself. `RFind` is the inner step of `os.path.split` and
  `os.path.splitext`. `Find` serves only the model's own reader of the
  summary line.
- `paths.dfy` (module `Paths`): `os.path.split`, `os.path.splitext` and
  `getFilename`, with `/` as separator.
- `discovery.dfy` (module `Discovery`): `test_run`. It computes the relative
  path and the dotted module name. It walks the `__init__.py` markers up to
  the scan root as a `while` loop. It dispatches the file to the package
  runners, the plain-text runner or nowhere.
  - `Dispatch` states the outcome directly. `TestRun` is the loop, proved
    equal to it.
  - The marker test is an injected set `markers`: the directories, relative to
    the working directory, that hold `__init__.py`.
- `reporting.dfy` (module `Reporting`): the run state as a class `RunState`.
  - Its fields are the three counters and the last-seen test name, file and
    class.
  - It has one method per reporting hook: `count_*`; `report_start` and
    `report_*` of the doctest runner; `startTest` and `add*` of the unittest
    result.
  - Each method's new state is given by the pure function `Step`. Whole runs
    are sequences of hook calls (`Run`), and lemmas about `Step` and `Run`
    state the counter and header properties.
  - It also formats the result and header lines.
- `driver.dfy` (module `Driver`): the full-scan branch of `main`.
  - `Prune` removes ignored names with `list.remove`. `dirnames` and
    `filenames` are the fields of a `WalkEntry` object that `PruneIgnored`
    edits in place.
  - `RunFiles` and `ScanEntry` dispatch the remaining files.
  - `EndOfRun` gives the summary text and the exit status. `ParseSummary`
    reads the counts back out of the summary.
- `wrappers.dfy` (module `Wrappers`): `Option`.

Output is modelled as the text printed when standard output is not a
terminal, where every colour code is the empty string. Hooks return the line
they print, without its newline. `EndOfRun` likewise returns the summary
`msg` alone; the source prints it as `'\n' + msg + '\n'` (runtest.py:424).

`dirpath.startswith(cwd)` is a plain string-prefix test and is modelled as
written. A directory `/a/bc` therefore counts as inside the root `/a/b`, with
relative path `c`. In full-scan mode every walked directory really is inside
the root.

## Model

| member | source | states |
|---|---|---|
| Strings.LStrip | runtest.py:284 | the result is a suffix of the input; everything removed is the stripped character; the result does not start with it |
| Strings.RStrip | runtest.py:124 | the result is a prefix of the input; everything removed is the stripped character; the result does not end with it |
| Strings.ReplaceChar | runtest.py:289 | same length; each character equal to `from` becomes `to` and every other character is kept |
| Strings.ReplaceCharBack | runtest.py:289 | when the replacement character does not occur in the text, replacing back recovers the text |
| Strings.RFind | runtest.py:295 | -1 when the character is absent, else the index of its last occurrence |
| Strings.SliceTo | runtest.py:126 | Python's `s[0:stop]`: a prefix of `s` whose length is `stop` clamped to `[0, len(s)]`, or `len(s) + stop` clamped at 0 when `stop` is negative |
| Strings.NatStr | runtest.py:405 | `str(n)`: a nonempty string of digits, with a leading zero only for 0 |
| Strings.NatStrOneDigit | runtest.py:405 | `str(n)` is a single digit exactly when n < 10, so 0 is written `0` (as in the `:0>` header of a plain-text doctest, runtest.py:275) |
| Strings.DigitsValueOfNatStr | runtest.py:405 | reading back the digits of `str(n)` gives `n` |
| Paths.Split | runtest.py:295 | `os.path.split`: the tail has no separator and ends the path; the head starts it; only separators lie between them; no separator gives `('', p)`; for a relative path the head is shorter and also relative; the tail is preceded by a separator unless it is the whole path |
| Paths.SplitHeadStripped | runtest.py:295 | the head `os.path.split` returns has no trailing separator, unless it consists of separators only and reaches the tail |
| Paths.SplitExt | runtest.py:285 | `os.path.splitext`: root + ext is the name; ext is empty or a dot with no further dot or separator |
| Paths.SplitExtOfName | runtest.py:285 | a file name has an empty extension iff it has no dot or only dots come before its last dot, as for `.gitignore` |
| Paths.SplitGetFilename | runtest.py:111-115 | `os.path.split` takes apart what `getFilename` joined, giving back the directory and file for both the empty and the nonempty directory |
| Paths.GetFilename | runtest.py:111-115 | the joined name ends with the file name; it is the file name alone for an empty directory, and otherwise the directory, one separator, then the file name |
| Paths.GetFilenameEndsWithIff | runtest.py:111-115 | a suffix without a separator, such as `.py`, ends the joined name iff it ends the file name |
| Paths.GetFilenameEndsWith | runtest.py:144-154 | the joined file name ends like the bare file name, so the `.py` test of the header looks at the file |
| Discovery.RelPath | runtest.py:284 | the relative path is the end of `dirpath` after the scan root, with only separators dropped in between, and does not start with a separator |
| Discovery.ModuleName | runtest.py:288-289 | the module name ends with the stem; it is the stem alone at the root, and otherwise the character after the relative path is a dot |
| Discovery.ModuleNameParts | runtest.py:288-289 | the module name is the relative path with dots for separators, a dot, then the stem; the path is recovered from it when no directory name has a dot |
| Discovery.Heads | runtest.py:290-295 | the directories the marker walk visits, the successive `pathhead` values; `HeadsAreAncestors` states which they are |
| Discovery.AllMarked | runtest.py:286-295 | `is_package_dir`: every directory the walk visits holds the marker; `AllMarkedIffAncestorsMarked` restates it over ancestors |
| Discovery.RootNeverChecked | runtest.py:291 | the walk never checks the scan root itself, the empty path |
| Discovery.HeadsAreAncestors | runtest.py:290-295 | for a normalised relative path, the directories the walk visits are exactly the path and each directory above it, the root excluded |
| Discovery.AllMarkedIffAncestorsMarked | runtest.py:286-295 | the walk accepts iff every ancestor directory holds the marker |
| Discovery.MarkerRemovalFlips | runtest.py:291-294 | removing the marker from any single ancestor directory makes the walk reject |
| Discovery.Dispatch | runtest.py:281-303 | what `test_run` decides for a file; any runner it picks gets the relative path and the file name, and only for a directory under the root |
| Discovery.TestRun | runtest.py:281-303 | the loop with its early `break` decides exactly what `Dispatch` does; it terminates because each split head is shorter |
| Discovery.DispatchPackageIff | runtest.py:299-301 | a file goes to the package runners iff it lies under the root, is `.py` and every ancestor directory holds the marker; it runs under its dotted module name |
| Discovery.DispatchPlainTextIff | runtest.py:302-303 | a file goes to the plain-text runner iff it lies under the root and has a plain-text extension, or is `.py` with some ancestor lacking the marker; it runs under its stem |
| Discovery.DispatchNothingIff | runtest.py:283-303 | a file goes nowhere iff it lies outside the root or its extension is neither `.py` nor a plain-text one |
| Discovery.RootFileIsPackage | runtest.py:296-300 | a `.py` file directly in the root is a package module named by its stem, whatever the markers |
| Reporting.HeaderDue | runtest.py:139-143 | whether a start hook prints a header; only start hooks can, a doctest start when the (name, file) pair differs from the stored one and a unittest start when the class differs (lines 197-200) |
| Reporting.Step | runtest.py:59-69 | the run state after one hook call; its effect on counters and context is what `StepEffects` states |
| Reporting.StepEffects | runtest.py:59-69 | a start adds 1 to attempted; each failing outcome adds 1 to failed; a skip adds 1 to skipped; nothing else changes a counter; only the matching start hook changes the last-seen context |
| Reporting.RunCounts | runtest.py:55-69 | over any sequence of hook calls, attempted grows by the number of starts, failed by the failing outcomes and skipped by the skips |
| Reporting.RunNeverDecrements | runtest.py:59-69 | no sequence of hook calls decreases a counter |
| Reporting.DocContextKept | runtest.py:139-143 | hooks other than `report_start` leave the stored test name and file alone |
| Reporting.ClassContextKept | runtest.py:197-200 | hooks other than `startTest` leave the stored class alone |
| Reporting.RepeatedDocStartSilent | runtest.py:141-143 | after `report_start` for a (name, file), a later one for the same pair prints no header, whatever outcome or unittest hooks came between |
| Reporting.RepeatedUnitStartSilent | runtest.py:199-200 | after `startTest` for a class, later tests of the same class print no header until another class starts |
| Reporting.Truncate | runtest.py:125-126 | text that fits is unchanged; text that does not ends in `...` after a prefix of the text; the result is exactly `max_width` long when `max_width >= 3`, and its length follows the negative slice end below that |
| Reporting.ResultLine | runtest.py:131 | a result line is a space, the flag and a space, then the text, then the line suffix, and its length is their sum |
| Reporting.DocResultLine | runtest.py:122-136 | the doctest result line starts with a space, the flag and a space, ends with ` <line N>` for `N = test.lineno + example.lineno + 1`, and between them holds exactly the source without trailing newlines, truncated to `TERMINAL_WIDTH - 4 - len(lineno_text)` |
| Reporting.DocResultLineFits | runtest.py:122-136 | source text that fits is shown whole, without its trailing newlines |
| Reporting.DocResultLineWidth | runtest.py:125-126 | the result line is at most `TERMINAL_WIDTH - 1` long when the text fits or `max_width >= 3` |
| Reporting.DocResultLineNumber | runtest.py:123 | the number at the end of a doctest result line reads back as `test.lineno + example.lineno + 1` |
| Reporting.UnitResultLine | runtest.py:179-187 | the unittest result line is a space, the flag and a space, then exactly the name, then ` <line N>`, and its length is their sum |
| Reporting.UnitResultLineNumber | runtest.py:182 | the number at the end of a unittest result line reads back as the method's line number |
| Reporting.LinenoText | runtest.py:123 | the ` <line N>` suffix of a result line; `LinenoReadBack` shows that N reads back from it |
| Reporting.LinenoReadBack | runtest.py:123 | the digits before the closing `>` of a line ending in ` <line N>` read back as N |
| Reporting.NamePrefix | runtest.py:153 | the prefix stripped from test names, the directory with dots for separators and a final dot; `ShownName` states how it is used |
| Reporting.ShownName | runtest.py:153-155 | the shown name is the full name or the full name without the dotted directory prefix, and always ends the full name; the prefix is removed iff the file name ends in `.py` and the full name starts with the prefix |
| Reporting.ShownNameInPackage | runtest.py:153-155 | for a test in a package module, named `module.rest`, the header shows `stem.rest` |
| Reporting.ShownNameAtRoot | runtest.py:153-155 | at the root the prefix is a lone dot, so a name not starting with a dot is shown whole |
| Reporting.DocHeader | runtest.py:144-157 | the doctest header is `>>> `, the shown name, ` <` and the joined file name, then `:N>` for the test's line number N |
| Reporting.UnitHeader | runtest.py:202-208 | the unittest header is `::: `, the class name, ` <` and the joined file name (`getFilename(relpath, filename)`, set on the result at runtest.py:259), then `:N>` for the class's line number N |
| Reporting.RunState.constructor | runtest.py:55-57 | the run starts with zero counters (lines 55-57), empty last test name and file (lines 118-119), and the class of None as the last class (line 176) |
| Reporting.RunState.CountAttempted | runtest.py:59-61 | attempted goes up by one; nothing else changes |
| Reporting.RunState.CountFailed | runtest.py:63-65 | failed goes up by one; nothing else changes |
| Reporting.RunState.CountSkipped | runtest.py:67-69 | skipped goes up by one; nothing else changes |
| Reporting.RunState.ReportStart | runtest.py:138-157 | the new state is `Step` of a doctest start; the header `>>> name <file:lineno>` is returned iff the (name, file) pair differs from the stored one |
| Reporting.RunState.ReportSuccess | runtest.py:159-160 | returns the result line with the OK flag and changes no state |
| Reporting.RunState.ReportFailure | runtest.py:162-164 | failed goes up by one and nothing else changes; returns the result line with the failure flag |
| Reporting.RunState.ReportUnexpectedException | runtest.py:170-172 | failed goes up by one and nothing else changes; returns the result line with the failure flag |
| Reporting.RunState.StartTest | runtest.py:196-208 | the new state is `Step` of a unittest start; the header `::: Class <file:lineno>`, with the joined file name, is returned iff the class differs from the stored one |
| Reporting.RunState.AddSuccess | runtest.py:210-212 | returns the method's result line with the OK flag and changes no state |
| Reporting.RunState.AddError | runtest.py:214-217 | failed goes up by one and nothing else changes; returns the method's result line with the failure flag |
| Reporting.RunState.AddFailure | runtest.py:220-223 | failed goes up by one and nothing else changes; returns the method's result line with the failure flag |
| Reporting.RunState.AddSkip | runtest.py:226-234 | skipped goes up by one and nothing else changes; returns ` - SKIP: name <line N>` |
| Reporting.RunState.AddExpectedFailure | runtest.py:238-240 | returns `EXPECTED FAILURE: name` with the OK flag and changes no state |
| Reporting.RunState.AddUnexpectedSuccess | runtest.py:243-248 | failed goes up by one and nothing else changes; returns `UNEXPECTED SUCCESS: name` with the failure flag |
| Driver.Without | runtest.py:390-394 | the names kept are exactly those outside the ignore set |
| Driver.RemoveFirst | runtest.py:391 | `list.remove`: the multiset of names loses one occurrence of the name |
| Driver.RemoveFirstWithout | runtest.py:390-394 | on distinct names, removing one more ignored name from the filtered list filters it out too |
| Driver.Prune | runtest.py:390-394 | exactly one occurrence of each ignored name present is removed; on distinct names (what the walk yields) exactly the ignored names go, and the others stay in order |
| Driver.WalkEntry.PruneIgnored | runtest.py:389-394 | the entry's `dirnames` and `filenames` lists are pruned in place, as `Prune` states, by `IGNORE_DIRS` and `IGNORE_FILES` |
| Driver.DispatchAllAt | runtest.py:396-397 | the i-th action of a directory is the dispatch of its i-th file |
| Driver.RunFiles | runtest.py:396-397 | `test_run` is applied to each file in order |
| Driver.ScanEntry | runtest.py:389-397 | after pruning, each remaining file of the entry is dispatched in order |
| Driver.GitignoreHasNoExtension | runtest.py:19-20 | `.gitignore` splits into itself and an empty extension |
| Driver.GitignoreWouldBeRead | runtest.py:19-20 | without pruning, `.gitignore` would go to the plain-text runner, its empty extension being a plain-text type |
| Driver.EndOfRun | runtest.py:401-426 | no summary and exit status 0 when nothing was attempted; otherwise the summary is printed, and the exit status is 1 iff some test failed |
| Driver.SummaryMessage | runtest.py:405-415 | the summary text, built from the counts and the elapsed text; what it promises is stated by `SummarySkipped`, `SummaryEnding` and `ParseSummaryMessage` |
| Driver.SkippedPart | runtest.py:407-408 | the skipped part of the summary, empty iff nothing was skipped |
| Driver.FailedPart | runtest.py:410-415 | the failed part of the summary, never empty and introduced by a comma; `SummaryEnding` states its two forms |
| Driver.SummarySkipped | runtest.py:405-408 | after `Ran N tests in Ts` the summary goes straight on to the failed part iff nothing was skipped, and otherwise continues with `, K skipped` |
| Driver.SummaryEnding | runtest.py:410-415 | the summary ends with `, N failed` when N > 0 tests failed, and with `, all passed` iff none failed |
| Driver.ParseSummaryMessage | runtest.py:405-415 | the summary determines all three counts: they are read back from it whenever the elapsed text holds no `s` |
| Driver.RunOutcome | runtest.py:401-426 | over a whole run from the start, nothing is printed iff no start hook was called, and the exit status is 1 iff some test started and some failing outcome was reported |

## Left out

- `calcTerminalSize` (terminal size from ioctl and the environment) is operating-system I/O; the terminal width is the `terminalWidth` field of `RunState`.
- The colour codes chosen by `sys.stdout.isatty()` are configuration; the model uses the non-terminal branch, where every code is empty. The centred summary printed on a terminal is left out for the same reason.
- `wrapper` and `format_exception` wrap foreign library behaviour (`textwrap`, `traceback`). So the `Expected:`/`Got:` block of `report_failure`, the traceback of errors and the `REASON:` lines of `addSkip` are not among the returned lines.
- Test execution is library behaviour: finding and running doctests, loading unittest suites, importing modules and `inspect.getsourcelines`. Names, line numbers, classes and outcomes are parameters of the hook methods.
- `test_doctest_py` and `test_unittest` are not modelled; `Dispatch` returns which of the runners a file goes to, with the module or stem name, the relative path and the file name. `PlainText` does not carry the absolute `dirpath` with which `test_doctest_nonpy` opens the file (runtest.py:270). `test_doctest_nonpy` is not modelled either: its file read and `except: pass` are I/O and error swallowing.
- Coverage (`test_coverage_report`) and argument parsing (`parse_arguments`) are external collaborators.
- The clock and the `{:.3f}` float formatting of the elapsed time are left out; the elapsed time is an input string.
- `os.walk` (its traversal order and its descent into the pruned `dirnames`) is file-system I/O. Each walk entry is a `WalkEntry` given to `ScanEntry`.
- The file-list branch of `main` (`os.path.normpath`, `os.path.isfile`, the "No such file" message) is file-system I/O. In that branch there is no `chdir`, so the marker test resolves against the process directory rather than the scan root.
- `os.path.abspath` in `test_run` is not modelled; `dirpath` is taken as already absolute and normalised, which is what `os.walk` from an absolute root yields.
- `Reporting.DocResultLine`, `Reporting.DocHeader`, `Reporting.RunState.ReportStart`: the test's line number is a `nat`. doctest sets it to None when it cannot find the line; the source then raises TypeError when it adds it to the example's line number (runtest.py:123) and prints `None` in the header (runtest.py:149, 157). Neither is modelled.
- `Reporting.RunState.StartTest`, `Reporting.RunState.AddSuccess`, `Reporting.RunState.AddError`, `Reporting.RunState.AddFailure`, `Reporting.RunState.AddSkip`, `Reporting.RunState.AddExpectedFailure`, `Reporting.RunState.AddUnexpectedSuccess`: every hook succeeds in the model. In the source, `inspect_test` looks the method up in the class's own `__dict__` (runtest.py:192), which raises KeyError for an inherited test method. That happens after the hook has already counted the test, and the exception ends the whole run.
- `Driver.Prune`, `Driver.RemoveFirst`, `Driver.WalkEntry.PruneIgnored`, `Driver.ScanEntry`: on lists with repeated names only the multiset of what remains is stated, not which occurrence `list.remove` takes or the order of the rest. The in-order filtering contract is stated for listings without repeated names, which is what a directory listing is.
- `Discovery.DispatchPackageIff`, `Discovery.DispatchPlainTextIff`: their ancestor statements assume a normalised relative path, with no doubled or trailing separator; the directories `os.walk` yields have that form.
- `Driver.ParseSummaryMessage`: needs an elapsed text without the letter `s`, which a `{:.3f}` formatted number never contains.
