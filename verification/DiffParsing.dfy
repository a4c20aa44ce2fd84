/** The parsers of Git's diff output, and the proofs that they undo its printing. */
module DiffParsing {
  import opened Wrappers

  // ------------------------------------------------------------------ splitting and joining

  predicate Free(s: string, c: char) {
    forall i :: 0 <= i < |s| ==> s[i] != c
  }

  /** The parts of `s` between separators; always at least one. */
  function Split(s: string, separator: char): (parts: seq<string>)
    ensures |parts| > 0
  {
    if |s| == 0 then [""]
    else
      var others := Split(s[1..], separator);
      if s[0] == separator then [""] + others else [[s[0]] + others[0]] + others[1..]
  }

  /** Every part followed by the separator. */
  function Terminated(parts: seq<string>, separator: char): string {
    if |parts| == 0 then "" else parts[0] + ([separator] + Terminated(parts[1..], separator))
  }

  lemma {:induction false} SplitFirst(part: string, rest: string, separator: char)
    requires Free(part, separator)
    ensures Split(part + ([separator] + rest), separator) == [part] + Split(rest, separator)
  {
    var s := part + ([separator] + rest);
    if |part| == 0 {
      assert s == [separator] + rest && s[1..] == rest;
    } else {
      assert s[0] == part[0] && s[1..] == part[1..] + ([separator] + rest);
      SplitFirst(part[1..], rest, separator);
      assert part == [part[0]] + part[1..];
    }
  }

  /** Splitting undoes joining: the parts come back, with one empty part after the last separator. */
  lemma {:induction false} SplitUndoesTerminated(parts: seq<string>, separator: char)
    requires forall i :: 0 <= i < |parts| ==> Free(parts[i], separator)
    ensures Split(Terminated(parts, separator), separator) == parts + [""]
  {
    if |parts| > 0 {
      SplitUndoesTerminated(parts[1..], separator);
      SplitFirst(parts[0], Terminated(parts[1..], separator), separator);
      assert parts == [parts[0]] + parts[1..];
    }
  }

  // ------------------------------------------------------------------ decimal numbers

  predicate IsDigit(c: char) {
    '0' <= c <= '9'
  }

  predicate AllDigits(s: string) {
    |s| > 0 && forall i :: 0 <= i < |s| ==> IsDigit(s[i])
  }

  function Decimal(s: string): nat
    requires forall i :: 0 <= i < |s| ==> IsDigit(s[i])
  {
    if |s| == 0 then 0
    else
      assert IsDigit(s[|s| - 1]);
      Decimal(s[..|s| - 1]) * 10 + (s[|s| - 1] as int - '0' as int)
  }

  function Digits(n: nat): (s: string)
    ensures AllDigits(s) && Decimal(s) == n
  {
    if n < 10 then
      assert [('0' as int + n) as char][..0] == "";
      [('0' as int + n) as char]
    else
      var s := Digits(n / 10) + [('0' as int + n % 10) as char];
      assert s[..|s| - 1] == Digits(n / 10);
      s
  }

  /** The length of the run of digits at the front. */
  function DigitRun(s: string): (n: nat)
    ensures n <= |s| && (forall i :: 0 <= i < n ==> IsDigit(s[i])) && (n < |s| ==> !IsDigit(s[n]))
  {
    if |s| == 0 || !IsDigit(s[0]) then 0 else 1 + DigitRun(s[1..])
  }

  lemma DigitRunStops(digits: string, rest: string)
    requires AllDigits(digits) && (|rest| > 0 ==> !IsDigit(rest[0]))
    ensures DigitRun(digits + rest) == |digits|
  {
    var s := digits + rest;
    assert forall i :: 0 <= i < |digits| ==> IsDigit(s[i]);
    assert |rest| > 0 ==> s[|digits|] == rest[0];
  }

  // ------------------------------------------------------------------ the raw diff

  datatype RawEntry = RawEntry(path: string, status: string, mode: string)

  function FieldOr(fields: seq<string>, i: nat, default: string): string {
    if i < |fields| then fields[i] else default
  }

  function RawEntryOf(header: string, path: string): RawEntry
    requires |header| > 0
  {
    var fields := Split(header[1..], ' ');
    var status := FieldOr(fields, 4, "?");
    RawEntry(path, if |status| > 0 then [status[0]] else "", FieldOr(fields, 1, "000000"))
  }

  function RawEntries(fields: seq<string>): seq<RawEntry> {
    if |fields| < 2 || |fields[0]| == 0 || fields[0][0] != ':' then []
    else [RawEntryOf(fields[0], fields[1])] + RawEntries(fields[2..])
  }

  method ParseRawDiff(output: string) returns (entries: seq<RawEntry>)
    ensures entries == RawEntries(Split(output, '\0'))
  {
    var fields := Split(output, '\0');
    entries := [];
    var index := 0;
    assert fields[0..] == fields;
    while index + 1 < |fields|
      invariant 0 <= index <= |fields|
      invariant entries + RawEntries(fields[index..]) == RawEntries(fields)
    {
      var header, path := fields[index], fields[index + 1];
      if |header| == 0 || header[0] != ':' {
        return;
      }
      assert fields[index..][2..] == fields[index + 2..];
      entries := entries + [RawEntryOf(header, path)];
      index := index + 2;
    }
  }

  /** One changed file as Git lists it. */
  datatype RawChange = RawChange(oldMode: string, newMode: string, oldId: string, newId: string, status: string,
                                 path: string)

  predicate RawChangeOk(change: RawChange) {
    && Free(change.oldMode, ' ') && Free(change.newMode, ' ') && Free(change.oldId, ' ') && Free(change.newId, ' ')
    && Free(change.status, ' ')
    && Free(change.oldMode, '\0') && Free(change.newMode, '\0') && Free(change.oldId, '\0') && Free(change.newId, '\0')
    && Free(change.status, '\0')
    && |change.status| > 0 && Free(change.path, '\0')
  }

  function RawHeader(change: RawChange): string {
    [':'] + (change.oldMode + ([' '] + (change.newMode
      + ([' '] + (change.oldId + ([' '] + (change.newId + ([' '] + change.status))))))))
  }

  function RawFields(changes: seq<RawChange>): seq<string> {
    if |changes| == 0 then [] else [RawHeader(changes[0]), changes[0].path] + RawFields(changes[1..])
  }

  /** The NUL-separated listing. */
  function PrintRaw(changes: seq<RawChange>): string {
    Terminated(RawFields(changes), '\0')
  }

  function RawMeaning(changes: seq<RawChange>): seq<RawEntry>
    requires forall i :: 0 <= i < |changes| ==> RawChangeOk(changes[i])
  {
    if |changes| == 0 then []
    else
      assert RawChangeOk(changes[0]);
      [RawEntry(changes[0].path, [changes[0].status[0]], changes[0].newMode)] + RawMeaning(changes[1..])
  }

  lemma {:induction false} LastPart(part: string, separator: char)
    requires Free(part, separator)
    ensures Split(part, separator) == [part]
  {
    if |part| > 0 {
      LastPart(part[1..], separator);
      assert part == [part[0]] + part[1..];
    }
  }

  lemma HeaderFields(change: RawChange)
    requires RawChangeOk(change)
    ensures Split(RawHeader(change)[1..], ' ')
            == [change.oldMode, change.newMode, change.oldId, change.newId, change.status]
  {
    var four := change.newId + ([' '] + change.status);
    var three := change.oldId + ([' '] + four);
    var two := change.newMode + ([' '] + three);
    var one := change.oldMode + ([' '] + two);
    assert RawHeader(change)[1..] == one;
    LastPart(change.status, ' ');
    SplitFirst(change.newId, change.status, ' ');
    SplitFirst(change.oldId, four, ' ');
    SplitFirst(change.newMode, three, ' ');
    SplitFirst(change.oldMode, two, ' ');
  }

  lemma {:induction false} RawFieldsMean(changes: seq<RawChange>)
    requires forall i :: 0 <= i < |changes| ==> RawChangeOk(changes[i])
    ensures RawEntries(RawFields(changes) + [""]) == RawMeaning(changes)
  {
    if |changes| > 0 {
      var fields := RawFields(changes) + [""];
      assert fields[2..] == RawFields(changes[1..]) + [""];
      HeaderFields(changes[0]);
      RawFieldsMean(changes[1..]);
    }
  }

  lemma JoinedIsFree(a: string, b: string, c: char)
    requires Free(a, c) && Free(b, c)
    ensures Free(a + b, c)
  {
  }

  lemma HeaderIsFree(change: RawChange)
    requires RawChangeOk(change)
    ensures Free(RawHeader(change), '\0')
  {
    var four := change.newId + ([' '] + change.status);
    var three := change.oldId + ([' '] + four);
    var two := change.newMode + ([' '] + three);
    JoinedIsFree([' '], change.status, '\0');
    JoinedIsFree(change.newId, [' '] + change.status, '\0');
    JoinedIsFree([' '], four, '\0');
    JoinedIsFree(change.oldId, [' '] + four, '\0');
    JoinedIsFree([' '], three, '\0');
    JoinedIsFree(change.newMode, [' '] + three, '\0');
    JoinedIsFree([' '], two, '\0');
    JoinedIsFree(change.oldMode, [' '] + two, '\0');
    JoinedIsFree([':'], change.oldMode + ([' '] + two), '\0');
  }

  lemma {:induction false} RawFieldsFree(changes: seq<RawChange>)
    requires forall i :: 0 <= i < |changes| ==> RawChangeOk(changes[i])
    ensures forall i :: 0 <= i < |RawFields(changes)| ==> Free(RawFields(changes)[i], '\0')
  {
    if |changes| > 0 {
      HeaderIsFree(changes[0]);
      RawFieldsFree(changes[1..]);
    }
  }

  /** Parsing the raw listing undoes printing it, for any paths without NUL. */
  lemma RawRoundTrip(changes: seq<RawChange>)
    requires forall i :: 0 <= i < |changes| ==> RawChangeOk(changes[i])
    ensures RawEntries(Split(PrintRaw(changes), '\0')) == RawMeaning(changes)
  {
    RawFieldsFree(changes);
    SplitUndoesTerminated(RawFields(changes), '\0');
    RawFieldsMean(changes);
  }

  // ------------------------------------------------------------------ line counts

  /** Added and deleted line counts; None for a binary file. */
  datatype Counts = Counts(added: Option<nat>, deleted: Option<nat>)

  /** A count up to a tab: a dash, or digits. */
  function ParseCount(s: string): Option<(Option<nat>, string)> {
    if |s| > 1 && s[0] == '-' && s[1] == '\t' then Some((None, s[2..]))
    else
      var n := DigitRun(s);
      if n > 0 && n < |s| && s[n] == '\t' then Some((Some(Decimal(s[..n])), s[n + 1..])) else None
  }

  function ParseRecord(record: string): Option<(string, Counts)> {
    var added := ParseCount(record);
    if added.None? then None
    else
      var deleted := ParseCount(added.value.1);
      if deleted.None? then None else Some((deleted.value.1, Counts(added.value.0, deleted.value.0)))
  }

  function Recorded(counts: map<string, Counts>, record: string): map<string, Counts> {
    var parsed := ParseRecord(record);
    if parsed.None? then counts else counts[parsed.value.0 := parsed.value.1]
  }

  function CountsOf(records: seq<string>): map<string, Counts> {
    if |records| == 0 then map[] else Recorded(CountsOf(records[..|records| - 1]), records[|records| - 1])
  }

  method ParseNumstat(output: string) returns (counts: map<string, Counts>)
    ensures counts == CountsOf(Split(output, '\0'))
  {
    var records := Split(output, '\0');
    counts := map[];
    for i := 0 to |records|
      invariant counts == CountsOf(records[..i])
    {
      assert records[..i + 1][..i] == records[..i];
      var parsed := ParseRecord(records[i]);
      if parsed.Some? {
        counts := counts[parsed.value.0 := parsed.value.1];
      }
    }
    assert records[..|records|] == records;
  }

  datatype FileCounts = FileCounts(path: string, counts: Counts)

  function PrintCount(count: Option<nat>): string {
    if count.None? then ['-'] else Digits(count.value)
  }

  function PrintRecord(file: FileCounts): string {
    PrintCount(file.counts.added) + (['\t'] + (PrintCount(file.counts.deleted) + (['\t'] + file.path)))
  }

  function PrintRecords(files: seq<FileCounts>): seq<string> {
    if |files| == 0 then [] else PrintRecords(files[..|files| - 1]) + [PrintRecord(files[|files| - 1])]
  }

  function PrintNumstat(files: seq<FileCounts>): string {
    Terminated(PrintRecords(files), '\0')
  }

  function CountsMeaning(files: seq<FileCounts>): map<string, Counts> {
    if |files| == 0 then map[]
    else CountsMeaning(files[..|files| - 1])[files[|files| - 1].path := files[|files| - 1].counts]
  }

  lemma CountParses(count: Option<nat>, rest: string)
    ensures ParseCount(PrintCount(count) + (['\t'] + rest)) == Some((count, rest))
  {
    var s := PrintCount(count) + (['\t'] + rest);
    if count.None? {
      assert s[2..] == rest;
    } else {
      var digits := Digits(count.value);
      DigitRunStops(digits, ['\t'] + rest);
      assert s[..|digits|] == digits && s[|digits| + 1..] == rest;
      assert s[0] == digits[0];
    }
  }

  lemma RecordParses(file: FileCounts)
    ensures ParseRecord(PrintRecord(file)) == Some((file.path, file.counts))
  {
    CountParses(file.counts.added, PrintCount(file.counts.deleted) + (['\t'] + file.path));
    CountParses(file.counts.deleted, file.path);
  }

  lemma {:induction false} RecordsMean(files: seq<FileCounts>)
    ensures CountsOf(PrintRecords(files)) == CountsMeaning(files) && |PrintRecords(files)| == |files|
  {
    if |files| > 0 {
      var shorter := files[..|files| - 1];
      RecordsMean(shorter);
      RecordParses(files[|files| - 1]);
      assert PrintRecords(files)[..|files| - 1] == PrintRecords(shorter);
    }
  }

  lemma DigitsAreFree(count: Option<nat>)
    ensures Free(PrintCount(count), '\0')
  {
  }

  lemma {:induction false} RecordsFree(files: seq<FileCounts>)
    requires forall i :: 0 <= i < |files| ==> Free(files[i].path, '\0')
    ensures forall i :: 0 <= i < |PrintRecords(files)| ==> Free(PrintRecords(files)[i], '\0')
  {
    if |files| > 0 {
      var last := files[|files| - 1];
      RecordsFree(files[..|files| - 1]);
      DigitsAreFree(last.counts.added);
      DigitsAreFree(last.counts.deleted);
    }
  }

  /** Parsing the counts undoes printing them: each path has the counts printed last for it. */
  lemma NumstatRoundTrip(files: seq<FileCounts>)
    requires forall i :: 0 <= i < |files| ==> Free(files[i].path, '\0')
    ensures CountsOf(Split(PrintNumstat(files), '\0')) == CountsMeaning(files)
  {
    RecordsFree(files);
    SplitUndoesTerminated(PrintRecords(files), '\0');
    RecordsMean(files);
    var fields := PrintRecords(files) + [""];
    assert fields[..|fields| - 1] == PrintRecords(files);
    assert ParseRecord("").None?;
  }

  // ------------------------------------------------------------------ added lines of a patch

  datatype AddedLine = AddedLine(path: string, line: nat, text: string)

  datatype Scan = Scan(path: Option<string>, line: nat, inHeader: bool, added: seq<AddedLine>)

  const DIFF: string := "diff --git "
  const TARGET: string := "+++ "
  const DEV_NULL: string := "/dev/null"

  /** The new file's name: without the `b/` prefix and without quotes around it. */
  function TargetPath(target: string): Option<string> {
    if target == DEV_NULL then None
    else
      var unquoted := if ['"', 'b', '/'] <= target then target[3..]
                      else if ['b', '/'] <= target then target[2..]
                      else target;
      Some(if |unquoted| > 0 && unquoted[|unquoted| - 1] == '"' then unquoted[..|unquoted| - 1] else unquoted)
  }

  /** A new range at one place: a plus, digits, optionally a comma and digits, and the closing marks. */
  function RangeAt(text: string, i: nat): Option<nat>
    requires i < |text|
  {
    if text[i] != '+' then None
    else
      var after := text[i + 1..];
      var n := DigitRun(after);
      if n == 0 then None
      else if [' ', '@', '@'] <= after[n..] then Some(Decimal(after[..n]))
      else if n < |after| && after[n] == ',' then
        var m := DigitRun(after[n + 1..]);
        if m > 0 && [' ', '@', '@'] <= after[n + 1..][m..] then Some(Decimal(after[..n])) else None
      else None
  }

  /** The first new range in a line, searched from place `i`. */
  function FirstRange(text: string, i: nat): Option<nat>
    requires i <= |text|
    decreases |text| - i
  {
    if i == |text| then None
    else if RangeAt(text, i).Some? then RangeAt(text, i)
    else FirstRange(text, i + 1)
  }

  function ScanLine(scan: Scan, text: string): Scan {
    if DIFF <= text then scan.(inHeader := true, path := None)
    else if scan.inHeader && TARGET <= text then scan.(path := TargetPath(text[4..]))
    else if ['@', '@'] <= text then
      scan.(inHeader := false, line := if FirstRange(text, 0).Some? then FirstRange(text, 0).value else 0)
    else if !scan.inHeader && ['+'] <= text && scan.path.Some? then
      scan.(added := scan.added + [AddedLine(scan.path.value, scan.line, text[1..])], line := scan.line + 1)
    else scan
  }

  function ScanLines(scan: Scan, lines: seq<string>): Scan {
    if |lines| == 0 then scan else ScanLine(ScanLines(scan, lines[..|lines| - 1]), lines[|lines| - 1])
  }

  const START: Scan := Scan(None, 0, false, [])

  method ParseAddedLines(patch: string) returns (added: seq<AddedLine>)
    ensures added == ScanLines(START, Split(patch, '\n')).added
  {
    var lines := Split(patch, '\n');
    added := [];
    var path, line, inHeader := None, 0, false;
    for i := 0 to |lines|
      invariant Scan(path, line, inHeader, added) == ScanLines(START, lines[..i])
    {
      assert lines[..i + 1][..i] == lines[..i];
      var text := lines[i];
      if DIFF <= text {
        inHeader := true;
        path := None;
      } else if inHeader && TARGET <= text {
        path := TargetPath(text[4..]);
      } else if ['@', '@'] <= text {
        inHeader := false;
        var range := FirstRange(text, 0);
        line := if range.Some? then range.value else 0;
      } else if !inHeader && ['+'] <= text && path.Some? {
        added := added + [AddedLine(path.value, line, text[1..])];
        line := line + 1;
      }
    }
    assert lines[..|lines|] == lines;
  }

  lemma {:induction false} ScanJoined(scan: Scan, first: seq<string>, second: seq<string>)
    ensures ScanLines(scan, first + second) == ScanLines(ScanLines(scan, first), second)
  {
    if |second| == 0 {
      assert first + second == first;
    } else {
      assert (first + second)[..|first + second| - 1] == first + second[..|second| - 1];
      ScanJoined(scan, first, second[..|second| - 1]);
    }
  }

  // ------------------------------------------------------------------ structured patches

  datatype BodyLine = Removed(text: string) | Added(text: string) | NoNewline

  /** A hunk with its ranges; the new range may omit its length, and the heading after the marks is arbitrary. */
  datatype Hunk = Hunk(oldRange: string, start: nat, length: Option<nat>, heading: string, body: seq<BodyLine>)

  /** A file with its new name, or none when it is deleted; `header` are the other lines before the first hunk. */
  datatype FileDiff = FileDiff(names: string, header: seq<string>, target: Option<string>, hunks: seq<Hunk>)

  predicate HeaderLine(line: string) {
    Free(line, '\n') && !(DIFF <= line) && !(TARGET <= line) && !(['@', '@'] <= line)
  }

  predicate BodyLineOk(line: BodyLine) {
    !line.NoNewline? ==> Free(line.text, '\n')
  }

  predicate HunkOk(hunk: Hunk) {
    && Free(hunk.oldRange, '\n') && Free(hunk.oldRange, '+') && Free(hunk.heading, '\n')
    && forall i :: 0 <= i < |hunk.body| ==> BodyLineOk(hunk.body[i])
  }

  predicate FileDiffOk(file: FileDiff) {
    && Free(file.names, '\n')
    && (forall i :: 0 <= i < |file.header| ==> HeaderLine(file.header[i]))
    && (file.target.Some? ==> Free(file.target.value, '\n') && Free(file.target.value, '"'))
    && forall i :: 0 <= i < |file.hunks| ==> HunkOk(file.hunks[i])
  }

  function PrintBodyLine(line: BodyLine): string {
    match line
    case Removed(text) => ['-'] + text
    case Added(text) => ['+'] + text
    case NoNewline => ['\\', ' ', 'N', 'o', ' ', 'n', 'e', 'w', 'l', 'i', 'n', 'e']
  }

  function PrintBody(body: seq<BodyLine>): seq<string> {
    if |body| == 0 then [] else PrintBody(body[..|body| - 1]) + [PrintBodyLine(body[|body| - 1])]
  }

  function PrintRange(hunk: Hunk): string {
    Digits(hunk.start) + if hunk.length.None? then [] else [','] + Digits(hunk.length.value)
  }

  function PrintHunkHeader(hunk: Hunk): string {
    ['@', '@', ' '] + (hunk.oldRange + (['+'] + (PrintRange(hunk) + ([' ', '@', '@'] + hunk.heading))))
  }

  function PrintHunks(hunks: seq<Hunk>): seq<string> {
    if |hunks| == 0 then []
    else PrintHunks(hunks[..|hunks| - 1]) + [PrintHunkHeader(hunks[|hunks| - 1])] + PrintBody(hunks[|hunks| - 1].body)
  }

  function PrintTarget(target: Option<string>): string {
    TARGET + if target.None? then DEV_NULL else ['b', '/'] + target.value
  }

  function PrintFile(file: FileDiff): seq<string> {
    [DIFF + file.names] + file.header + [PrintTarget(file.target)] + PrintHunks(file.hunks)
  }

  function PrintFiles(files: seq<FileDiff>): seq<string> {
    if |files| == 0 then [] else PrintFiles(files[..|files| - 1]) + PrintFile(files[|files| - 1])
  }

  function PrintPatch(files: seq<FileDiff>): string {
    Terminated(PrintFiles(files), '\n')
  }

  /** The added lines of a hunk, numbered from its start. */
  function AddedIn(path: string, line: nat, body: seq<BodyLine>): seq<AddedLine> {
    if |body| == 0 then []
    else
      var earlier := AddedIn(path, line, body[..|body| - 1]);
      if body[|body| - 1].Added? then earlier + [AddedLine(path, line + |earlier|, body[|body| - 1].text)] else earlier
  }

  function AddedInHunks(path: string, hunks: seq<Hunk>): seq<AddedLine> {
    if |hunks| == 0 then []
    else AddedInHunks(path, hunks[..|hunks| - 1]) + AddedIn(path, hunks[|hunks| - 1].start, hunks[|hunks| - 1].body)
  }

  function AddedInFile(file: FileDiff): seq<AddedLine> {
    if file.target.None? then [] else AddedInHunks(file.target.value, file.hunks)
  }

  function AddedInFiles(files: seq<FileDiff>): seq<AddedLine> {
    if |files| == 0 then [] else AddedInFiles(files[..|files| - 1]) + AddedInFile(files[|files| - 1])
  }

  // ------------------------------------------------------------------ scanning undoes printing

  /** Inside a hunk a printed line is never taken for a header, whatever its text looks like. */
  lemma BodyLineScans(scan: Scan, line: BodyLine)
    requires !scan.inHeader
    ensures ScanLine(scan, PrintBodyLine(line)) ==
      if line.Added? && scan.path.Some? then
        scan.(added := scan.added + [AddedLine(scan.path.value, scan.line, line.text)], line := scan.line + 1)
      else scan
  {
    var text := PrintBodyLine(line);
    assert text[0] != 'd' && text[0] != '@' && DIFF[0] == 'd';
    assert !(DIFF <= text) && !(['@', '@'] <= text);
    if line.Added? {
      assert text[1..] == line.text && text[0] == '+';
    } else {
      assert text[0] != '+';
    }
  }

  lemma {:induction false} BodyScans(scan: Scan, body: seq<BodyLine>)
    requires !scan.inHeader
    ensures ScanLines(scan, PrintBody(body)) ==
      if scan.path.Some? then
        var found := AddedIn(scan.path.value, scan.line, body);
        scan.(added := scan.added + found, line := scan.line + |found|)
      else scan
  {
    if |body| > 0 {
      var shorter, last := body[..|body| - 1], body[|body| - 1];
      BodyScans(scan, shorter);
      var before := ScanLines(scan, PrintBody(shorter));
      BodyLineScans(before, last);
      assert PrintBody(body)[..|PrintBody(body)| - 1] == PrintBody(shorter);
    }
  }

  lemma NoRangeBefore(text: string, i: nat, end: nat)
    requires i <= end <= |text| && forall k :: i <= k < end ==> text[k] != '+'
    ensures FirstRange(text, i) == FirstRange(text, end)
    decreases end - i
  {
    if i < end {
      NoRangeBefore(text, i + 1, end);
    }
  }

  lemma RangeParses(hunk: Hunk, text: string, i: nat)
    requires i < |text| && text[i] == '+' && text[i + 1..] == PrintRange(hunk) + ([' ', '@', '@'] + hunk.heading)
    ensures RangeAt(text, i) == Some(hunk.start)
  {
    var marks := [' ', '@', '@'] + hunk.heading;
    var after, digits := text[i + 1..], Digits(hunk.start);
    var n := |digits|;
    if hunk.length.None? {
      assert after == digits + marks;
      DigitRunStops(digits, marks);
      assert after[..n] == digits && after[n..] == marks;
    } else {
      var lengthDigits := Digits(hunk.length.value);
      var tail := lengthDigits + marks;
      assert after == digits + ([','] + tail);
      DigitRunStops(digits, [','] + tail);
      assert after[..n] == digits && after[n] == ',' && after[n + 1..] == tail;
      assert after[n..][0] == ',';
      DigitRunStops(lengthDigits, marks);
      assert tail[|lengthDigits|..] == marks;
    }
  }

  lemma HunkHeaderScans(scan: Scan, hunk: Hunk)
    requires HunkOk(hunk)
    ensures ScanLine(scan, PrintHunkHeader(hunk)) == scan.(inHeader := false, line := hunk.start)
  {
    var text := PrintHunkHeader(hunk);
    var plus := 3 + |hunk.oldRange|;
    assert text[0] == '@' && DIFF[0] == 'd' && TARGET[0] == '+';
    assert !(DIFF <= text) && !(TARGET <= text) && ['@', '@'] <= text;
    assert text[plus] == '+';
    assert text[plus + 1..] == PrintRange(hunk) + ([' ', '@', '@'] + hunk.heading);
    assert forall k :: 3 <= k < plus ==> text[k] == hunk.oldRange[k - 3];
    NoRangeBefore(text, 0, plus);
    RangeParses(hunk, text, plus);
  }

  /** The scan after some hunks: the same path, their added lines, and out of the header if there were any. */
  predicate ScannedHunks(before: Scan, after: Scan, hunks: seq<Hunk>) {
    && after.path == before.path
    && after.added == before.added + (if before.path.Some? then AddedInHunks(before.path.value, hunks) else [])
  }

  lemma HunksNext(start: Scan, before: Scan, after: Scan, hunks: seq<Hunk>)
    requires |hunks| > 0 && ScannedHunks(start, before, hunks[..|hunks| - 1])
    requires var last := hunks[|hunks| - 1];
      && after.path == before.path
      && after.added
         == before.added + (if before.path.Some? then AddedIn(before.path.value, last.start, last.body) else [])
    ensures ScannedHunks(start, after, hunks)
  {
  }

  lemma PrintedHunksNext(hunks: seq<Hunk>)
    requires |hunks| > 0
    ensures var last := hunks[|hunks| - 1];
      PrintHunks(hunks) == PrintHunks(hunks[..|hunks| - 1]) + ([PrintHunkHeader(last)] + PrintBody(last.body))
  {
    var last := hunks[|hunks| - 1];
    LinesAssociate(PrintHunks(hunks[..|hunks| - 1]), [PrintHunkHeader(last)], PrintBody(last.body));
  }

  lemma LinesAssociate(a: seq<string>, b: seq<string>, c: seq<string>)
    ensures a + b + c == a + (b + c)
  {
  }

  lemma {:induction false} HunksScan(scan: Scan, hunks: seq<Hunk>)
    requires forall i :: 0 <= i < |hunks| ==> HunkOk(hunks[i])
    ensures ScannedHunks(scan, ScanLines(scan, PrintHunks(hunks)), hunks)
  {
    if |hunks| > 0 {
      var shorter, last := hunks[..|hunks| - 1], hunks[|hunks| - 1];
      HunksScan(scan, shorter);
      var before := ScanLines(scan, PrintHunks(shorter));
      OneHunkScans(before, last);
      PrintedHunksNext(hunks);
      ScanJoined(scan, PrintHunks(shorter), [PrintHunkHeader(last)] + PrintBody(last.body));
      HunksNext(scan, before, ScanLines(before, [PrintHunkHeader(last)] + PrintBody(last.body)), hunks);
    }
  }

  lemma OneHunkScans(scan: Scan, hunk: Hunk)
    requires HunkOk(hunk)
    ensures var after := ScanLines(scan, [PrintHunkHeader(hunk)] + PrintBody(hunk.body));
      && after.path == scan.path && !after.inHeader
      && after.added == scan.added + (if scan.path.Some? then AddedIn(scan.path.value, hunk.start, hunk.body) else [])
  {
    ScanJoined(scan, [PrintHunkHeader(hunk)], PrintBody(hunk.body));
    OneLineScans(scan, PrintHunkHeader(hunk));
    HunkHeaderScans(scan, hunk);
    BodyScans(ScanLine(scan, PrintHunkHeader(hunk)), hunk.body);
  }

  lemma OneLineScans(scan: Scan, text: string)
    ensures ScanLines(scan, [text]) == ScanLine(scan, text)
  {
    assert [text][..0] == [];
  }

  lemma {:induction false} HeaderScans(scan: Scan, header: seq<string>)
    requires scan.inHeader && forall i :: 0 <= i < |header| ==> HeaderLine(header[i])
    ensures ScanLines(scan, header) == scan
  {
    if |header| > 0 {
      HeaderScans(scan, header[..|header| - 1]);
    }
  }

  lemma TargetScans(scan: Scan, target: Option<string>)
    requires scan.inHeader && (target.Some? ==> Free(target.value, '"'))
    ensures ScanLine(scan, PrintTarget(target)) == scan.(path := target)
  {
    var text := PrintTarget(target);
    assert TARGET[0] == '+' && DIFF[0] == 'd' && text[0] == '+';
    assert !(DIFF <= text) && TARGET <= text;
    if target.None? {
      assert text[4..] == DEV_NULL;
    } else {
      var name := ['b', '/'] + target.value;
      assert text[4..] == name && name[0] == 'b' && DEV_NULL[0] == '/';
      assert !(['"', 'b', '/'] <= name) && ['b', '/'] <= name && name[2..] == target.value;
    }
  }

  lemma FileScans(scan: Scan, file: FileDiff)
    requires FileDiffOk(file)
    ensures ScanLines(scan, PrintFile(file)).added == scan.added + AddedInFile(file)
  {
    var first, target := DIFF + file.names, PrintTarget(file.target);
    var begun := scan.(inHeader := true, path := None);
    OneLineScans(scan, first);
    assert DIFF <= first;
    ScanJoined(scan, [first], file.header);
    HeaderScans(begun, file.header);
    ScanJoined(scan, [first] + file.header, [target]);
    OneLineScans(begun, target);
    TargetScans(begun, file.target);
    ScanJoined(scan, [first] + file.header + [target], PrintHunks(file.hunks));
    HunksScan(begun.(path := file.target), file.hunks);
  }

  lemma {:induction false} FilesScan(files: seq<FileDiff>)
    requires forall i :: 0 <= i < |files| ==> FileDiffOk(files[i])
    ensures ScanLines(START, PrintFiles(files)).added == AddedInFiles(files)
  {
    if |files| > 0 {
      var shorter := files[..|files| - 1];
      FilesScan(shorter);
      FileScans(ScanLines(START, PrintFiles(shorter)), files[|files| - 1]);
      ScanJoined(START, PrintFiles(shorter), PrintFile(files[|files| - 1]));
    }
  }

  // ------------------------------------------------------------------ the whole patch

  predicate AllFree(lines: seq<string>) {
    forall i :: 0 <= i < |lines| ==> Free(lines[i], '\n')
  }

  lemma {:induction false} BodyIsFree(body: seq<BodyLine>)
    requires forall i :: 0 <= i < |body| ==> BodyLineOk(body[i])
    ensures AllFree(PrintBody(body))
  {
    if |body| > 0 {
      BodyIsFree(body[..|body| - 1]);
      assert BodyLineOk(body[|body| - 1]);
    }
  }

  lemma RangeIsFree(hunk: Hunk)
    ensures Free(PrintRange(hunk), '\n')
  {
  }

  lemma HunkHeaderIsFree(hunk: Hunk)
    requires HunkOk(hunk)
    ensures Free(PrintHunkHeader(hunk), '\n')
  {
    RangeIsFree(hunk);
    JoinedIsFree([' ', '@', '@'], hunk.heading, '\n');
    JoinedIsFree(PrintRange(hunk), [' ', '@', '@'] + hunk.heading, '\n');
    JoinedIsFree(['+'], PrintRange(hunk) + ([' ', '@', '@'] + hunk.heading), '\n');
    JoinedIsFree(hunk.oldRange, ['+'] + (PrintRange(hunk) + ([' ', '@', '@'] + hunk.heading)), '\n');
    JoinedIsFree(['@', '@', ' '], hunk.oldRange + (['+'] + (PrintRange(hunk) + ([' ', '@', '@'] + hunk.heading))),
                 '\n');
  }

  lemma {:induction false} HunksAreFree(hunks: seq<Hunk>)
    requires forall i :: 0 <= i < |hunks| ==> HunkOk(hunks[i])
    ensures AllFree(PrintHunks(hunks))
  {
    if |hunks| > 0 {
      HunksAreFree(hunks[..|hunks| - 1]);
      HunkHeaderIsFree(hunks[|hunks| - 1]);
      BodyIsFree(hunks[|hunks| - 1].body);
    }
  }

  lemma ConstantsAreFree()
    ensures Free(DIFF, '\n') && Free(TARGET, '\n') && Free(DEV_NULL, '\n')
  {
  }

  lemma FileIsFree(file: FileDiff)
    requires FileDiffOk(file)
    ensures AllFree(PrintFile(file))
  {
    ConstantsAreFree();
    JoinedIsFree(DIFF, file.names, '\n');
    if file.target.Some? {
      JoinedIsFree(['b', '/'], file.target.value, '\n');
      JoinedIsFree(TARGET, ['b', '/'] + file.target.value, '\n');
    } else {
      JoinedIsFree(TARGET, DEV_NULL, '\n');
    }
    HunksAreFree(file.hunks);
    assert forall i :: 0 <= i < |file.header| ==> HeaderLine(file.header[i]);
  }

  lemma {:induction false} FilesAreFree(files: seq<FileDiff>)
    requires forall i :: 0 <= i < |files| ==> FileDiffOk(files[i])
    ensures AllFree(PrintFiles(files))
  {
    if |files| > 0 {
      FilesAreFree(files[..|files| - 1]);
      FileIsFree(files[|files| - 1]);
    }
  }

  lemma EmptyLineScans(scan: Scan)
    ensures ScanLines(scan, [""]) == scan
  {
    OneLineScans(scan, "");
  }

  /**
   Parsing undoes printing: from any structured patch, the parser returns exactly the added lines with their paths and
   new line numbers, even when their text itself looks like a header.
   */
  lemma PatchRoundTrip(files: seq<FileDiff>)
    requires forall i :: 0 <= i < |files| ==> FileDiffOk(files[i])
    ensures ScanLines(START, Split(PrintPatch(files), '\n')).added == AddedInFiles(files)
  {
    FilesAreFree(files);
    SplitUndoesTerminated(PrintFiles(files), '\n');
    FilesScan(files);
    ScanJoined(START, PrintFiles(files), [""]);
    EmptyLineScans(ScanLines(START, PrintFiles(files)));
  }
}
