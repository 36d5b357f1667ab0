/** buildfile.py: the meson.build file under test. The object's state is the
    file's lines; the text on disk is those lines, each followed by a line
    break. Running Meson is not modelled: `check_lines` receives Meson's
    standard output and whether anything was written to standard error. */
module BuildFiles {
  import opened Wrappers
  import opened Strings
  import opened Util
  import opened Exceptions
  import opened Templates

  /** A line of Meson's output containing this text is never reported. */
  const IGNORE_STRING := "$IGNORE$"

  /** Meson's complaint about a build file that does not begin with `project(...)`. */
  const FIRST_STATEMENT_ERROR := "ERROR: First statement must be a call to project"

  // ---------------------------------------------------------------------------
  // The file's text

  /** No line holds a line break. */
  predicate NoBreaks(ls: seq<string>) {
    forall k :: 0 <= k < |ls| ==> '\n' !in ls[k]
  }

  /** The text of a file whose lines are `ls`: every line followed by "\n". */
  function Render(ls: seq<string>): string
    decreases |ls|
  {
    if ls == [] then "" else ls[0] + "\n" + Render(ls[1..])
  }

  /** Python's `writelines`: the pieces one after the other. */
  function Concat(ls: seq<string>): string
    decreases |ls|
  {
    if ls == [] then "" else ls[0] + Concat(ls[1..])
  }

  /** Every line with its "\n" put back. */
  function Terminated(ls: seq<string>): (r: seq<string>)
    ensures |r| == |ls|
    ensures forall k :: 0 <= k < |ls| ==> r[k] == ls[k] + "\n"
    decreases |ls|
  {
    if ls == [] then [] else [ls[0] + "\n"] + Terminated(ls[1..])
  }

  /** Python's `readlines()`: the text cut after every "\n"; a last line
      without one is kept as it is. */
  function ReadLines(text: string): seq<string>
    decreases |text|
  {
    if text == [] then []
    else match IndexOf(text, "\n")
      case None => [text]
      case Some(i) => [text[..i + 1]] + ReadLines(text[i + 1..])
  }

  /** Reading the lines of a text and writing them back gives the same text. */
  lemma {:induction false} ReadLinesCover(text: string)
    ensures Concat(ReadLines(text)) == text
    decreases |text|
  {
    if text != [] {
      match IndexOf(text, "\n")
      case None =>
      case Some(i) =>
        var rest := text[i + 1..];
        ReadLinesCover(rest);
        assert ReadLines(text) == [text[..i + 1]] + ReadLines(rest);
        assert ([text[..i + 1]] + ReadLines(rest))[1..] == ReadLines(rest);
        assert text == text[..i + 1] + rest;
    }
  }

  /** Reading the file back gives exactly the lines written, each with its "\n". */
  lemma {:induction false} ReadLinesRender(ls: seq<string>)
    requires NoBreaks(ls)
    ensures ReadLines(Render(ls)) == Terminated(ls)
    decreases |ls|
  {
    if ls != [] {
      var text := Render(ls);
      var n := |ls[0]|;
      assert text == ls[0] + "\n" + Render(ls[1..]);
      assert text[..n] == ls[0];
      assert text[n] == '\n';
      IndexOfChar(text, '\n', n);
      assert text[..n + 1] == ls[0] + "\n";
      assert text[n + 1..] == Render(ls[1..]);
      ReadLinesRender(ls[1..]);
    }
  }

  /** A line without its final "\n". */
  function DropBreak(line: string): string {
    if |line| > 0 && line[|line| - 1] == '\n' then line[..|line| - 1] else line
  }

  /** The lines of a text, without their line breaks. */
  function Chop(text: string): seq<string> {
    DropBreaks(ReadLines(text))
  }

  function DropBreaks(ls: seq<string>): (r: seq<string>)
    ensures |r| == |ls|
    ensures forall k :: 0 <= k < |ls| ==> r[k] == DropBreak(ls[k])
    decreases |ls|
  {
    if ls == [] then [] else [DropBreak(ls[0])] + DropBreaks(ls[1..])
  }

  /** Cutting a rendered file into lines gives back its lines. */
  lemma ChopRender(ls: seq<string>)
    requires NoBreaks(ls)
    ensures Chop(Render(ls)) == ls
  {
    ReadLinesRender(ls);
    var r := Chop(Render(ls));
    forall k | 0 <= k < |ls|
      ensures r[k] == ls[k]
    {
      assert (ls[k] + "\n")[..|ls[k]|] == ls[k];
    }
  }

  // ---------------------------------------------------------------------------
  // What is written for a line

  /** The line written by `append_line`: each `$BUILDFILE_DIR$` becomes the
      quoted source folder, then each line break becomes the two characters `\n`. */
  function Prepare(line: string, srcFolder: string): (r: string)
    ensures '\n' !in r
  {
    var placed := Replace(line, BUILDFILE_DIR, "'" + srcFolder + "'");
    EscapeRemovesBreaks(placed);
    Replace(placed, "\n", "\\n")
  }

  /** Escaping leaves no line break behind. */
  lemma EscapeRemovesBreaks(s: string)
    ensures '\n' !in Replace(s, "\n", "\\n")
  {
    assert '\\' in "\\n" && '\\' !in "\n";
    assert Separates("\n", "\\n");
    ReplaceRemovesAll(s, "\n", "\\n");
    ContainsChar(Replace(s, "\n", "\\n"), '\n');
  }

  /** A line without the folder marker is only escaped. */
  lemma PrepareWithoutMarker(line: string, srcFolder: string)
    requires !Contains(line, BUILDFILE_DIR)
    ensures Prepare(line, srcFolder) == Replace(line, "\n", "\\n")
  {
    ReplaceAbsent(line, BUILDFILE_DIR, "'" + srcFolder + "'");
  }

  /** A single line without the folder marker is written verbatim. */
  lemma PrepareVerbatim(line: string, srcFolder: string)
    requires !Contains(line, BUILDFILE_DIR) && '\n' !in line
    ensures Prepare(line, srcFolder) == line
  {
    PrepareWithoutMarker(line, srcFolder);
    ContainsChar(line, '\n');
    ReplaceAbsent(line, "\n", "\\n");
  }

  /** Replacing brings in no character that neither the text nor the
      replacement had. */
  lemma {:induction false} ReplaceChars(s: string, pat: string, rep: string, c: char)
    requires |pat| > 0 && c !in s && c !in rep
    ensures c !in Replace(s, pat, rep)
    decreases |s|
  {
    if |s| >= |pat| {
      if s[..|pat|] == pat {
        assert c !in s[|pat|..];
        ReplaceChars(s[|pat|..], pat, rep, c);
      } else {
        assert c !in s[1..];
        ReplaceChars(s[1..], pat, rep, c);
      }
    }
  }

  /** For a single line and a folder path without `$`, every folder marker
      becomes the quoted path and none is left. */
  lemma PrepareSubstitutes(line: string, srcFolder: string)
    requires '\n' !in line && '\n' !in srcFolder && '$' !in srcFolder
    ensures Prepare(line, srcFolder) == Replace(line, BUILDFILE_DIR, "'" + srcFolder + "'")
    ensures !Contains(Prepare(line, srcFolder), BUILDFILE_DIR)
  {
    var quoted := "'" + srcFolder + "'";
    ReplaceChars(line, BUILDFILE_DIR, quoted, '\n');
    var placed := Replace(line, BUILDFILE_DIR, quoted);
    ContainsChar(placed, '\n');
    ReplaceAbsent(placed, "\n", "\\n");
    assert '\'' in quoted && '\'' !in BUILDFILE_DIR;
    assert Separates(BUILDFILE_DIR, quoted);
    ReplaceRemovesAll(line, BUILDFILE_DIR, quoted);
  }

  /** The lines written by `append_lines`, in order. */
  function PrepareAll(ls: seq<string>, srcFolder: string): (r: seq<string>)
    ensures |r| == |ls| && NoBreaks(r)
    ensures forall k :: 0 <= k < |ls| ==> r[k] == Prepare(ls[k], srcFolder)
    decreases |ls|
  {
    if ls == [] then [] else PrepareAll(ls[..|ls| - 1], srcFolder) + [Prepare(ls[|ls| - 1], srcFolder)]
  }

  /** Each language in single quotes. */
  function QuoteAll(languages: seq<string>): (r: seq<string>)
    ensures |r| == |languages|
    ensures forall k :: 0 <= k < |r| ==> r[k] == "'" + languages[k] + "'"
    decreases |languages|
  {
    if languages == [] then [] else ["'" + languages[0] + "'"] + QuoteAll(languages[1..])
  }

  /** The first line `__init__` appends: the Meson `project(...)` call. */
  function ProjectLine(name: string, languages: seq<string>): string {
    "project('" + name + "', [" + Join(", ", QuoteAll(languages)) + "])"
  }

  /** The project line is still a `project(` call once written, whatever the
      name and the languages: substitution and escaping leave its head alone. */
  lemma ProjectLineFirst(name: string, languages: seq<string>, srcFolder: string)
    ensures StartsWith(Prepare(ProjectLine(name, languages), srcFolder), "project('")
  {
    var head := "project('";
    var tail := name + "', [" + Join(", ", QuoteAll(languages)) + "])";
    assert ProjectLine(name, languages) == head + tail;
    ReplaceKeepsPrefix(head, tail, BUILDFILE_DIR, "'" + srcFolder + "'");
    var placed := Replace(tail, BUILDFILE_DIR, "'" + srcFolder + "'");
    ReplaceKeepsPrefix(head, placed, "\n", "\\n");
    assert Prepare(ProjectLine(name, languages), srcFolder) == head + Replace(placed, "\n", "\\n");
  }

  /** `error_line`: the text of the sentinel error `check_lines` appends. */
  function ErrorLine(): string {
    "This error is produced to speed up checks and can be ignored (" + IGNORE_STRING + ")"
  }

  /** The sentinel line `check_lines` adds after the candidates. */
  function Sentinel(): string {
    "error('" + ErrorLine() + "')"
  }

  /** The sentinel and its message carry the ignore marker, so Meson's report
      of the sentinel error is never taken for a result. */
  lemma SentinelIsIgnored()
    ensures Contains(ErrorLine(), IGNORE_STRING) && Contains(Sentinel(), IGNORE_STRING)
  {
    var head := "This error is produced to speed up checks and can be ignored (";
    var text := head + IGNORE_STRING + ")";
    assert text[|head|..|head| + |IGNORE_STRING|] == IGNORE_STRING;
    ContainsAt(text, IGNORE_STRING, |head|);
    assert ErrorLine() == text;
    assert Sentinel() == "error('" + (text + "')");
    ContainsBeforeEnd(text, "')", IGNORE_STRING);
    ContainsAfterPrefixRev("error('", text + "')", IGNORE_STRING);
  }

  /** Text found in the tail is found in the whole. */
  lemma {:induction false} ContainsAfterPrefixRev(a: string, y: string, pat: string)
    ensures Contains(y, pat) ==> Contains(a + y, pat)
    decreases |a|
  {
    if a == [] {
      assert a + y == y;
    } else if Contains(y, pat) {
      ContainsAfterPrefixRev(a[1..], y, pat);
      assert (a + y)[1..] == a[1..] + y;
    }
  }

  /** Text found in the head is found in the whole. */
  lemma {:induction false} ContainsBeforeEnd(x: string, b: string, pat: string)
    requires Contains(x, pat)
    ensures Contains(x + b, pat)
    decreases |x|
  {
    if StartsWith(x, pat) {
      assert (x + b)[..|pat|] == x[..|pat|];
    } else {
      ContainsBeforeEnd(x[1..], b, pat);
      assert (x + b)[1..] == x[1..] + b;
    }
  }

  /** Text containing a pattern contains each of the pattern's prefixes. */
  lemma {:induction false} ContainsHead(s: string, pat: string, head: string)
    requires Contains(s, pat) && StartsWith(pat, head)
    ensures Contains(s, head)
    decreases |s|
  {
    if StartsWith(s, pat) {
      assert s[..|head|] == pat[..|head|];
    } else {
      ContainsHead(s[1..], pat, head);
    }
  }

  // ---------------------------------------------------------------------------
  // Classifying Meson's output

  /** The longest run of digits at the start of `s`. */
  function DigitRun(s: string): (r: string)
    ensures |r| <= |s| && r == s[..|r|] && AllDigits(r)
    ensures |r| < |s| ==> !IsDigit(s[|r|])
    decreases |s|
  {
    if s == [] || !IsDigit(s[0]) then "" else [s[0]] + DigitRun(s[1..])
  }

  /** The digit run of digits followed by a non-digit is those digits. */
  lemma {:induction false} DigitRunStops(d: string, rest: string)
    requires AllDigits(d)
    requires rest == [] || !IsDigit(rest[0])
    ensures DigitRun(d + rest) == d
    decreases |d|
  {
    if d == [] {
      assert d + rest == rest;
    } else {
      assert (d + rest)[0] == d[0];
      assert (d + rest)[1..] == d[1..] + rest;
      DigitRunStops(d[1..], rest);
    }
  }

  /** Python's `re.match` of `\.\.[\\\/]meson\.build:\d+:\d+: ERROR: .*` at the
      start of a line; on a match, the digits of the line number. */
  function MatchErrorLine(line: string): (r: Option<string>)
    ensures r.Some? ==> |r.value| > 0 && AllDigits(r.value)
  {
    if |line| < 15 || line[..2] != ".." || line[2] !in {'/', '\\'} || line[3..15] != "meson.build:" then None
    else MatchPosition(line[15..])
  }

  /** The part of the expression after `meson.build:`: `\d+:\d+: ERROR: .*`;
      on a match, the first run of digits. */
  function MatchPosition(rest: string): (r: Option<string>)
    ensures r.Some? ==> |r.value| > 0 && AllDigits(r.value)
  {
    var row := DigitRun(rest);
    if row == [] || |row| == |rest| || rest[|row|] != ':' then None
    else
      var after := rest[|row| + 1..];
      var column := DigitRun(after);
      if column != [] && StartsWith(after[|column|..], ": ERROR: ") then Some(row) else None
  }

  /** Every position of the expression's form is matched, yielding its line number. */
  lemma MatchPositionComplete(row: string, column: string, text: string)
    requires |row| > 0 && AllDigits(row) && |column| > 0 && AllDigits(column)
    ensures MatchPosition(row + ":" + column + ": ERROR: " + text) == Some(row)
  {
    var tail := ": ERROR: " + text;
    var after := column + tail;
    var rest := row + ([':'] + after);
    assert rest == row + ":" + column + ": ERROR: " + text;
    DigitRunStops(row, [':'] + after);
    assert rest[|row|] == ':' && rest[|row| + 1..] == after;
    DigitRunStops(column, tail);
    assert after[|column|..] == tail;
    assert StartsWith(tail, ": ERROR: ");
  }

  /** Every line of the regular expression's form is matched, and the line
      number it yields is the first run of digits. */
  lemma MatchErrorLineComplete(sep: char, row: string, column: string, text: string)
    requires sep == '/' || sep == '\\'
    requires |row| > 0 && AllDigits(row) && |column| > 0 && AllDigits(column)
    ensures MatchErrorLine(".." + [sep] + "meson.build:" + row + ":" + column + ": ERROR: " + text) == Some(row)
  {
    var head := ".." + [sep] + "meson.build:";
    var rest := row + ":" + column + ": ERROR: " + text;
    var line := head + rest;
    assert line == ".." + [sep] + "meson.build:" + row + ":" + column + ": ERROR: " + text;
    assert |head| == 15 && line[..2] == ".." && line[2] == sep && line[3..15] == "meson.build:";
    assert line[15..] == rest;
    MatchPositionComplete(row, column, text);
  }

  /** The second `:`-field of a matched line is its line number. */
  lemma LineNumberField(line: string)
    requires MatchErrorLine(line).Some?
    ensures |Split(line, ":")| >= 2 && Split(line, ":")[1] == MatchErrorLine(line).value
  {
    var rest := line[15..];
    var row := DigitRun(rest);
    forall k | 0 <= k < 14
      ensures line[k] != ':'
    {
      if k < 2 {
        assert line[k] == line[..2][k];
      } else if k > 2 {
        assert line[k] == line[3..15][k - 3];
      }
    }
    assert ':' !in line[..14];
    assert line[14] == line[3..15][11];
    SplitAtFirst(line, ':', 14);
    assert ':' !in rest[..|row|] by {
      forall k | 0 <= k < |row|
        ensures rest[k] != ':'
      {
        assert rest[k] == row[k] && IsDigit(row[k]);
      }
    }
    SplitAtFirst(rest, ':', |row|);
  }

  /** A matched line contains `ERROR:`. */
  lemma MatchedLineHasError(line: string)
    requires MatchErrorLine(line).Some?
    ensures Contains(line, "ERROR:")
  {
    var rest := line[15..];
    var row := DigitRun(rest);
    var after := rest[|row| + 1..];
    var column := DigitRun(after);
    var tail := after[|column|..];
    assert tail[..9] == ": ERROR: ";
    assert tail[2..8] == "ERROR:" by {
      assert tail[2..8] == tail[..9][2..8];
    }
    var p := 15 + |row| + 1 + |column|;
    assert line[p..] == tail;
    assert line[p + 2..p + 8] == tail[2..8];
    ContainsAt(line, "ERROR:", p + 2);
  }

  /** `int(line.split(":")[1])` of a matched line: the line number it names. */
  function ErrorNumber(line: string): (r: nat)
    requires MatchErrorLine(line).Some?
    ensures r == ParseDecimal(MatchErrorLine(line).value)
  {
    LineNumberField(line);
    ParseDecimal(Split(line, ":")[1])
  }

  /** `line.split("ERROR:")[1].strip()` of a matched line. */
  function ErrorMessage(line: string): string
    requires MatchErrorLine(line).Some?
  {
    MatchedLineHasError(line);
    SplitHasSecond(line, "ERROR:");
    Strip(Split(line, "ERROR:")[1])
  }

  /** The message of a warning line: its text after `WARNING:`, stripped and flagged. */
  function WarningMessage(line: string): string
    requires Contains(line, "WARNING:")
  {
    SplitHasSecond(line, "WARNING:");
    Strip(Split(line, "WARNING:")[1]) + Yellow(" (WARNING)")
  }

  /** The message that replaces everything once Meson wrote to standard error. */
  function CrashMessage(verbose: bool): string {
    if !verbose then Red("<CRASH>") + " Meson has crashed, re-run with --verbose to see stderr."
    else Red("<CRASH>") + " Meson has crashed."
  }

  /** The scan of `check_lines` over the lines of Meson's output, as written:
      the line a warning is reported on is recognised by `WARNING` but cut at
      `WARNING:`, so a warning line without the colon raises `IndexError`. */
  function ScanAsWritten(out: seq<string>, linesBefore: nat, warnings: bool, errorLine: int, msg: string)
    : Result<(int, string), Exception>
    decreases |out|
  {
    if out == [] then Success((errorLine, msg))
    else
      var line := out[0];
      if Contains(line, IGNORE_STRING) then ScanAsWritten(out[1..], linesBefore, warnings, errorLine, msg)
      else if MatchErrorLine(line).Some? then Success((ErrorNumber(line), ErrorMessage(line)))
      else if Contains(line, "WARNING") && warnings then
        var parts := Split(line, "WARNING:");
        if |parts| < 2 then Failure(IndexError("list index out of range"))
        else Success((linesBefore + 1, Strip(parts[1]) + Yellow(" (WARNING)")))
      else if Contains(line, "ERROR") && Contains(line, FIRST_STATEMENT_ERROR) then
        ScanAsWritten(out[1..], linesBefore, warnings, linesBefore + 1, msg)
      else ScanAsWritten(out[1..], linesBefore, warnings, errorLine, msg)
  }

  /** The scan with the warning test made the same as the cut (`WARNING:`):
      the error line and message found, starting from `errorLine` and `msg`. */
  function Scan(out: seq<string>, linesBefore: nat, warnings: bool, errorLine: int, msg: string): (int, string)
    decreases |out|
  {
    if out == [] then (errorLine, msg)
    else
      var line := out[0];
      if Contains(line, IGNORE_STRING) then Scan(out[1..], linesBefore, warnings, errorLine, msg)
      else if MatchErrorLine(line).Some? then (ErrorNumber(line), ErrorMessage(line))
      else if Contains(line, "WARNING:") && warnings then (linesBefore + 1, WarningMessage(line))
      else if Contains(line, "ERROR") && Contains(line, FIRST_STATEMENT_ERROR) then
        Scan(out[1..], linesBefore, warnings, linesBefore + 1, msg)
      else Scan(out[1..], linesBefore, warnings, errorLine, msg)
  }

  /** Whenever the scan as written does not raise, the corrected scan finds the same. */
  lemma {:induction false} ScanAsWrittenAgrees(out: seq<string>, linesBefore: nat, warnings: bool, errorLine: int, msg: string)
    ensures ScanAsWritten(out, linesBefore, warnings, errorLine, msg).Success? ==>
      ScanAsWritten(out, linesBefore, warnings, errorLine, msg) == Success(Scan(out, linesBefore, warnings, errorLine, msg))
    decreases |out|
  {
    if out != [] {
      var line := out[0];
      ScanAsWrittenAgrees(out[1..], linesBefore, warnings, errorLine, msg);
      ScanAsWrittenAgrees(out[1..], linesBefore, warnings, linesBefore + 1, msg);
      SplitHasSecond(line, "WARNING:");
      if Contains(line, "WARNING:") {
        ContainsHead(line, "WARNING:", "WARNING");
      }
    }
  }

  /** The as-written scan fails on a warning line without a colon, while the
      corrected scan passes over it. */
  lemma BareWarningRaises(linesBefore: nat, errorLine: int, msg: string)
    ensures ScanAsWritten(["WARNING"], linesBefore, true, errorLine, msg) == Failure(IndexError("list index out of range"))
    ensures Scan(["WARNING"], linesBefore, true, errorLine, msg) == (errorLine, msg)
  {
    var line := "WARNING";
    assert !Contains(line, IGNORE_STRING) by {
      if Contains(line, IGNORE_STRING) { ContainsIsLongEnough(line, IGNORE_STRING); }
    }
    assert !Contains(line, "WARNING:") by {
      if Contains(line, "WARNING:") { ContainsIsLongEnough(line, "WARNING:"); }
    }
    assert !Contains(line, FIRST_STATEMENT_ERROR) by {
      if Contains(line, FIRST_STATEMENT_ERROR) { ContainsIsLongEnough(line, FIRST_STATEMENT_ERROR); }
    }
    assert line[0..7] == "WARNING";
    ContainsAt(line, "WARNING", 0);
    SplitHasSecond(line, "WARNING:");
    assert ["WARNING"][1..] == [];
  }

  /** A line that ends the scan: not ignored, and an error in the expected
      form or (with warnings reported) a warning. */
  predicate IsStop(line: string, warnings: bool) {
    !Contains(line, IGNORE_STRING) && (MatchErrorLine(line).Some? || (warnings && Contains(line, "WARNING:")))
  }

  /** What a stopping line reports. */
  function StopValue(line: string, linesBefore: nat, warnings: bool): (int, string)
    requires IsStop(line, warnings)
  {
    if MatchErrorLine(line).Some? then (ErrorNumber(line), ErrorMessage(line))
    else (linesBefore + 1, WarningMessage(line))
  }

  /** A report that the build file does not begin with a project call. */
  predicate IsProjectError(line: string) {
    !Contains(line, IGNORE_STRING) && Contains(line, "ERROR") && Contains(line, FIRST_STATEMENT_ERROR)
  }

  /** No line of the output ends the scan. */
  predicate NoStop(out: seq<string>, warnings: bool) {
    forall j :: 0 <= j < |out| ==> !IsStop(out[j], warnings)
  }

  /** Some line of the output says the project call is missing. */
  predicate HasProjectError(out: seq<string>) {
    exists j :: 0 <= j < |out| && IsProjectError(out[j])
  }

  /** The first stopping line decides the scan, whatever follows it. */
  lemma {:induction false} FirstStopWins(out: seq<string>, k: nat, linesBefore: nat, warnings: bool, errorLine: int, msg: string)
    requires k < |out| && IsStop(out[k], warnings)
    requires forall j :: 0 <= j < k ==> !IsStop(out[j], warnings)
    ensures Scan(out, linesBefore, warnings, errorLine, msg) == StopValue(out[k], linesBefore, warnings)
    decreases k
  {
    if k > 0 {
      FirstStopWins(out[1..], k - 1, linesBefore, warnings, errorLine, msg);
      FirstStopWins(out[1..], k - 1, linesBefore, warnings, linesBefore + 1, msg);
    }
  }

  /** With no stopping line the message is unchanged, and the error line is
      `linesBefore + 1` exactly when some line says the project call is missing. */
  lemma {:induction false} NoStopScan(out: seq<string>, linesBefore: nat, warnings: bool, errorLine: int, msg: string)
    requires NoStop(out, warnings)
    ensures Scan(out, linesBefore, warnings, errorLine, msg) ==
      ((if HasProjectError(out) then linesBefore + 1 else errorLine), msg)
    decreases |out|
  {
    if out != [] {
      NoStopScan(out[1..], linesBefore, warnings, errorLine, msg);
      NoStopScan(out[1..], linesBefore, warnings, linesBefore + 1, msg);
      assert NoStop(out[1..], warnings) by {
        forall j | 0 <= j < |out[1..]|
          ensures !IsStop(out[1..][j], warnings)
        {
          assert out[1..][j] == out[j + 1];
        }
      }
      if HasProjectError(out) {
        if !IsProjectError(out[0]) {
          var j :| 0 <= j < |out| && IsProjectError(out[j]);
          assert out[1..][j - 1] == out[j];
        }
      } else {
        forall j | 0 <= j < |out[1..]|
          ensures !IsProjectError(out[1..][j])
        {
          assert out[1..][j] == out[j + 1];
        }
      }
    }
  }

  /** The lines without the ignore marker. */
  function Unignored(out: seq<string>): (r: seq<string>)
    ensures forall k :: 0 <= k < |r| ==> !Contains(r[k], IGNORE_STRING)
    decreases |out|
  {
    if out == [] then []
    else if Contains(out[0], IGNORE_STRING) then Unignored(out[1..])
    else [out[0]] + Unignored(out[1..])
  }

  /** Lines carrying the ignore marker, the sentinel's report among them,
      play no part in the scan. */
  lemma {:induction false} ScanSkipsIgnored(out: seq<string>, linesBefore: nat, warnings: bool, errorLine: int, msg: string)
    ensures Scan(out, linesBefore, warnings, errorLine, msg) == Scan(Unignored(out), linesBefore, warnings, errorLine, msg)
    decreases |out|
  {
    if out != [] {
      ScanSkipsIgnored(out[1..], linesBefore, warnings, errorLine, msg);
      ScanSkipsIgnored(out[1..], linesBefore, warnings, linesBefore + 1, msg);
      if !Contains(out[0], IGNORE_STRING) {
        assert ([out[0]] + Unignored(out[1..]))[1..] == Unignored(out[1..]);
      }
    }
  }

  /** The result of `check_lines` for the lines `out` of Meson's output on a
      file that held `linesBefore` lines: the offset of the failing line from
      the first candidate, and the message. */
  function Outcome(out: seq<string>, linesBefore: nat, warnings: bool, verbose: bool, stderrNonEmpty: bool): (int, string) {
    Report(Scan(out, linesBefore, warnings, -1, ""), linesBefore, verbose, stderrNonEmpty)
  }

  /** The returned pair for what the scan found: a crash replaces it, and the
      error line is made relative to the first candidate. */
  function Report(found: (int, string), linesBefore: nat, verbose: bool, stderrNonEmpty: bool): (int, string) {
    var (errorLine, msg) := if stderrNonEmpty then (linesBefore + 1, CrashMessage(verbose)) else found;
    (errorLine - linesBefore - 1, msg)
  }

  /** What the caller learns from `check_lines`: a crash is reported at offset 0;
      otherwise the first error or warning decides; with neither, a missing
      project call gives offset 0 and no message, and a clean run offset
      `-(linesBefore + 2)` and no message. */
  lemma OutcomeCases(out: seq<string>, linesBefore: nat, warnings: bool, verbose: bool, stderrNonEmpty: bool)
    ensures stderrNonEmpty ==> Outcome(out, linesBefore, warnings, verbose, stderrNonEmpty) == (0, CrashMessage(verbose))
    ensures !stderrNonEmpty && NoStop(out, warnings) ==>
      Outcome(out, linesBefore, warnings, verbose, stderrNonEmpty) ==
        (if HasProjectError(out) then 0 else -(linesBefore as int + 2), "")
  {
    if !stderrNonEmpty && NoStop(out, warnings) {
      NoStopScan(out, linesBefore, warnings, -1, "");
    }
  }

  /** The first error line in Meson's form gives the reported line relative to
      the first candidate, and its message; a first warning gives offset 0. */
  lemma OutcomeFirstStop(out: seq<string>, k: nat, linesBefore: nat, warnings: bool, verbose: bool)
    requires k < |out| && IsStop(out[k], warnings)
    requires forall j :: 0 <= j < k ==> !IsStop(out[j], warnings)
    ensures var line := out[k];
      Outcome(out, linesBefore, warnings, verbose, false) ==
        if MatchErrorLine(line).Some? then (ErrorNumber(line) - linesBefore - 1, ErrorMessage(line))
        else (0, WarningMessage(line))
  {
    FirstStopWins(out, k, linesBefore, warnings, -1, "");
  }

  /** The scanning loop of `check_lines` over the lines of Meson's output:
      it skips ignored lines and stops at the first error or warning. */
  method ScanLines(out: seq<string>, linesBefore: nat, warnings: bool) returns (errorLine: int, errorMsg: string)
    ensures (errorLine, errorMsg) == Scan(out, linesBefore, warnings, -1, "")
  {
    errorLine, errorMsg := -1, "";
    var i := 0;
    while i < |out|
      invariant 0 <= i <= |out|
      invariant Scan(out, linesBefore, warnings, -1, "") == Scan(out[i..], linesBefore, warnings, errorLine, errorMsg)
    {
      var line := out[i];
      assert out[i..][1..] == out[i + 1..];
      if Contains(line, IGNORE_STRING) {
        i := i + 1;
        continue;
      }
      if MatchErrorLine(line).Some? {
        errorMsg := ErrorMessage(line);
        errorLine := ErrorNumber(line);
        break;
      } else if Contains(line, "WARNING:") && warnings {
        errorMsg := WarningMessage(line);
        errorLine := linesBefore + 1;
        break;
      } else if Contains(line, "ERROR") {
        if Contains(line, FIRST_STATEMENT_ERROR) {
          errorLine := linesBefore + 1;
        }
      }
      i := i + 1;
    }
  }

  /** What `check_lines` makes of Meson's output: the scan, then a crash
      overriding it, then the error line made relative to the first candidate. */
  method Classify(out: seq<string>, linesBefore: nat, warnings: bool, verbose: bool, stderrNonEmpty: bool)
    returns (offset: int, msg: string)
    ensures (offset, msg) == Outcome(out, linesBefore, warnings, verbose, stderrNonEmpty)
  {
    var errorLine, errorMsg := ScanLines(out, linesBefore, warnings);
    if stderrNonEmpty && !verbose {
      errorMsg := Red("<CRASH>") + " Meson has crashed, re-run with --verbose to see stderr.";
      errorLine := linesBefore + 1;
    } else if stderrNonEmpty && verbose {
      errorMsg := Red("<CRASH>") + " Meson has crashed.";
      errorLine := linesBefore + 1;
    }
    offset := errorLine - linesBefore - 1;
    msg := errorMsg;
  }

  // ---------------------------------------------------------------------------
  // The build file

  /** Python's index `i` into a list of `n` elements, negative counting from the end. */
  function PyIndex(i: int, n: nat): (r: nat)
    requires -(n as int) <= i < n
    ensures r < n && (i >= 0 ==> r == i) && (i < 0 ==> r == n + i)
  {
    if i < 0 then n + i else i
  }

  /** The list without its element at `k`: the others keep their order. */
  function Delete(ls: seq<string>, k: nat): (r: seq<string>)
    requires k < |ls|
    ensures |r| == |ls| - 1
    ensures forall j :: 0 <= j < k ==> r[j] == ls[j]
    ensures forall j :: k <= j < |r| ==> r[j] == ls[j + 1]
  {
    ls[..k] + ls[k + 1..]
  }

  class BuildFile {
    /** The lines of meson.build as written, without their line breaks. */
    var lines: seq<string>
    /** `push_buffer`: the text saved by `push_content`. */
    var pushBuffer: string
    /** The lines whose text `pushBuffer` holds. */
    ghost var pushedLines: seq<string>
    /** The path of the temporary source folder. */
    const srcFolder: string
    /** Whether Meson's warnings count as failures. */
    const warnings: bool
    const verbose: bool

    ghost predicate Valid()
      reads this
    {
      NoBreaks(lines) && NoBreaks(pushedLines) && pushBuffer == Render(pushedLines)
    }

    /** The text of meson.build. */
    function Content(): string
      reads this
    {
      Render(lines)
    }

    /** `__init__` before `meson setup`: the file holds the project line. */
    constructor (projectName: string, projectLanguages: seq<string>, srcFolder: string, warnings: bool, verbose: bool)
      ensures Valid()
      ensures lines == [Prepare(ProjectLine(projectName, projectLanguages), srcFolder)]
      ensures pushBuffer == "" && pushedLines == []
      ensures this.srcFolder == srcFolder && this.warnings == warnings && this.verbose == verbose
    {
      this.srcFolder := srcFolder;
      this.warnings := warnings;
      this.verbose := verbose;
      lines := [];
      pushBuffer := "";
      pushedLines := [];
      new;
      AppendLine(ProjectLine(projectName, projectLanguages));
    }

    /** `__init__` with the exit code of `meson setup`: a failing setup raises. */
    static method Create(projectName: string, projectLanguages: seq<string>, srcFolder: string,
                         warnings: bool, verbose: bool, setupExitCode: int)
      returns (r: Result<BuildFile, Exception>)
      ensures r.Failure? <==> setupExitCode != 0
      ensures r.Failure? ==> r.error == RuntimeError("Could not create buildfile.")
      ensures r.Success? ==> fresh(r.value) && r.value.Valid() && r.value.pushBuffer == ""
      ensures r.Success? ==> r.value.lines == [Prepare(ProjectLine(projectName, projectLanguages), srcFolder)]
      ensures r.Success? ==> r.value.warnings == warnings && r.value.verbose == verbose
    {
      var file := new BuildFile(projectName, projectLanguages, srcFolder, warnings, verbose);
      if setupExitCode != 0 {
        return Failure(RuntimeError("Could not create buildfile."));
      }
      return Success(file);
    }

    /** `append_line`: one more line at the end, the others untouched. */
    method AppendLine(line: string)
      modifies this
      requires Valid()
      ensures Valid()
      ensures lines == old(lines) + [Prepare(line, srcFolder)]
      ensures pushBuffer == old(pushBuffer) && pushedLines == old(pushedLines)
    {
      lines := lines + [Prepare(line, srcFolder)];
    }

    /** `append_lines`: one line per element, in order. */
    method AppendLines(ls: seq<string>)
      modifies this
      requires Valid()
      ensures Valid()
      ensures lines == old(lines) + PrepareAll(ls, srcFolder)
      ensures pushBuffer == old(pushBuffer) && pushedLines == old(pushedLines)
    {
      for i := 0 to |ls|
        invariant Valid()
        invariant lines == old(lines) + PrepareAll(ls[..i], srcFolder)
        invariant pushBuffer == old(pushBuffer) && pushedLines == old(pushedLines)
      {
        assert ls[..i + 1][..i] == ls[..i];
        lines := lines + [Prepare(ls[i], srcFolder)];
      }
      assert ls[..|ls|] == ls;
    }

    /** `line_count`: the number of lines Python reads back from the file. */
    function LineCount(): (r: nat)
      reads this
      requires Valid()
      ensures r == |lines|
    {
      ReadLinesRender(lines);
      |ReadLines(Content())|
    }

    /** `remove_line`: the line at a Python index goes; an index out of range
        raises and leaves the file alone. */
    method RemoveLine(index: int) returns (err: Option<Exception>)
      modifies this
      requires Valid()
      ensures Valid()
      ensures -|old(lines)| <= index < |old(lines)| ==>
        err == None && lines == Delete(old(lines), PyIndex(index, |old(lines)|))
      ensures !(-|old(lines)| <= index < |old(lines)|) ==>
        err == Some(IndexError("list assignment index out of range")) && lines == old(lines)
      ensures pushBuffer == old(pushBuffer) && pushedLines == old(pushedLines)
    {
      var count := LineCount();
      if !(-count <= index < count) {
        return Some(IndexError("list assignment index out of range"));
      }
      lines := Delete(lines, PyIndex(index, count));
      return None;
    }

    /** `pop_line`: the last line goes; an empty file raises. */
    method PopLine() returns (err: Option<Exception>)
      modifies this
      requires Valid()
      ensures Valid()
      ensures |old(lines)| > 0 ==> err == None && lines == old(lines)[..|old(lines)| - 1]
      ensures |old(lines)| == 0 ==> err == Some(IndexError("list assignment index out of range")) && lines == old(lines)
      ensures pushBuffer == old(pushBuffer) && pushedLines == old(pushedLines)
    {
      err := RemoveLine(-1);
    }

    /** `pop_lines`: the last `n` lines go, one at a time; a negative `n` or
        one beyond the line count raises and leaves the file alone. */
    method PopLines(n: int) returns (err: Option<Exception>)
      modifies this
      requires Valid()
      ensures Valid()
      ensures n < 0 ==>
        err == Some(ValueError("Cannot pop a negative number (" + IntToDecimal(n) + ") of lines.")) && lines == old(lines)
      ensures n > |old(lines)| ==>
        err == Some(ValueError("Can only pop " + NatToDecimal(|old(lines)|) + " lines (not " + IntToDecimal(n) + ")."))
        && lines == old(lines)
      ensures 0 <= n <= |old(lines)| ==> err == None && lines == old(lines)[..|old(lines)| - n]
      ensures pushBuffer == old(pushBuffer) && pushedLines == old(pushedLines)
    {
      if n < 0 {
        return Some(ValueError("Cannot pop a negative number (" + IntToDecimal(n) + ") of lines."));
      }
      var count := LineCount();
      var current := lines;
      if n > count {
        return Some(ValueError("Can only pop " + NatToDecimal(count) + " lines (not " + IntToDecimal(n) + ")."));
      }
      for i := 0 to n
        invariant current == old(lines)[..|old(lines)| - i]
      {
        current := current[..|current| - 1];
      }
      lines := current;
      return None;
    }

    /** `push_content`: the text is saved in the buffer and the file emptied. */
    method PushContent()
      modifies this
      requires Valid()
      ensures Valid()
      ensures pushBuffer == old(Content()) && pushedLines == old(lines)
      ensures lines == []
    {
      pushBuffer := Render(lines);
      pushedLines := lines;
      lines := [];
    }

    /** `pop_content`: the file gets the saved text back, exactly. */
    method PopContent()
      modifies this
      requires Valid()
      ensures Valid()
      ensures Content() == old(pushBuffer) && lines == old(pushedLines)
      ensures pushBuffer == old(pushBuffer) && pushedLines == old(pushedLines)
    {
      ChopRender(pushedLines);
      lines := Chop(pushBuffer);
    }

    /** `check_lines` with Meson's output given: the candidates and the sentinel
        are appended, the output is scanned, everything appended is popped
        again, and the offset and message are returned. The caller's list
        comes back with the sentinel added. */
    method CheckLines(candidates: seq<string>, stdout: string, stderrNonEmpty: bool)
      returns (offset: int, msg: string, callerLines: seq<string>)
      modifies this
      requires Valid()
      ensures Valid()
      ensures callerLines == candidates + [Sentinel()]
      ensures (offset, msg) == Outcome(Split(stdout, "\n"), |old(lines)|, warnings, verbose, stderrNonEmpty)
      ensures lines == old(lines)
      ensures pushBuffer == old(pushBuffer) && pushedLines == old(pushedLines)
    {
      var linesBefore := LineCount();
      callerLines := candidates + [Sentinel()];
      AppendLines(callerLines);
      offset, msg := Classify(Split(stdout, "\n"), linesBefore, warnings, verbose, stderrNonEmpty);
      assert lines[..|lines| - |callerLines|] == old(lines);
      var err := PopLines(|callerLines|);
    }
  }
}
