/** Splitting an engine's output into lines, and what the two sinks make of them. */
module Lines {
  const MAX_LINE := 1048576

  predicate NoNewline(s: string) {
    forall i :: 0 <= i < |s| ==> s[i] != '\n'
  }

  /** The position of the first newline, or the length. */
  function Newline(s: string): (i: nat)
    ensures i <= |s| && (i < |s| ==> s[i] == '\n') && NoNewline(s[..i])
  {
    if s == "" || s[0] == '\n' then 0 else 1 + Newline(s[1..])
  }

  /** The newline-separated lines; text after the last newline is the last line, perhaps empty. */
  function Split(s: string): (r: seq<string>)
    ensures |r| >= 1
    decreases |s|
  {
    var i := Newline(s);
    if i == |s| then [s] else [s[..i]] + Split(s[i + 1..])
  }

  function Join(lines: seq<string>): string
    requires |lines| >= 1
  {
    if |lines| == 1 then lines[0] else lines[0] + "\n" + Join(lines[1..])
  }

  /** Splitting loses nothing. */
  lemma {:induction false} JoinSplit(s: string)
    ensures Join(Split(s)) == s && forall i :: 0 <= i < |Split(s)| ==> NoNewline(Split(s)[i])
    decreases |s|
  {
    hide Newline, NoNewline, Split, Join;
    var i := Newline(s);
    SplitParts(s);
    if i < |s| {
      JoinSplit(s[i + 1..]);
      JoinMore(s[..i], Split(s[i + 1..]));
      CutAtNewline(s, i);
    } else {
      JoinOne(s);
    }
  }

  lemma CutAtNewline(s: string, i: nat)
    requires i < |s| && s[i] == '\n'
    ensures s == s[..i] + "\n" + s[i + 1..]
  {
  }

  lemma JoinOne(line: string)
    ensures Join([line]) == line
  {
  }

  lemma SplitParts(s: string)
    ensures var i := Newline(s);
            && NoNewline(s[..i]) && (i == |s| ==> s[..i] == s && Split(s) == [s])
            && (i < |s| ==> s[i] == '\n' && Split(s) == [s[..i]] + Split(s[i + 1..]))
  {
    hide Newline, NoNewline;
  }

  lemma JoinMore(line: string, rest: seq<string>)
    requires |rest| >= 1
    ensures Join([line] + rest) == line + "\n" + Join(rest)
  {
    assert ([line] + rest)[1..] == rest;
  }

  function Concat(chunks: seq<string>): string {
    if chunks == [] then "" else Concat(chunks[..|chunks| - 1]) + chunks[|chunks| - 1]
  }
}

module WarningSpec {
  import opened Lines

  datatype Sink = Sink(pending: string, count: nat, discarding: bool)

  const EMPTY := Sink("", 0, false)

  /** `isError` stands for the JSON test of one line. */
  function Finish(s: Sink, isError: string -> bool): Sink {
    Sink("", s.count + if !s.discarding && isError(s.pending) then 1 else 0, false)
  }

  function Feed(s: Sink, isError: string -> bool, c: char): Sink {
    if c == '\n' then Finish(s, isError)
    else if s.discarding || |s.pending| >= MAX_LINE then s.(pending := "", discarding := true)
    else s.(pending := s.pending + [c])
  }

  function FeedAll(s: Sink, isError: string -> bool, text: string): Sink {
    if text == "" then s else Feed(FeedAll(s, isError, text[..|text| - 1]), isError, text[|text| - 1])
  }

  lemma {:induction false} FeedConcat(s: Sink, isError: string -> bool, a: string, b: string)
    ensures FeedAll(s, isError, a + b) == FeedAll(FeedAll(s, isError, a), isError, b)
  {
    if b == "" {
      assert a + b == a;
    } else {
      assert (a + b)[..|a + b| - 1] == a + b[..|b| - 1];
      FeedConcat(s, isError, a, b[..|b| - 1]);
    }
  }

  lemma FeedNothing(s: Sink, isError: string -> bool, text: string)
    ensures FeedAll(s, isError, text[..0]) == s
  {
  }

  lemma FeedSlice(s: Sink, isError: string -> bool, text: string, from: nat, to: nat)
    requires from <= to <= |text|
    ensures FeedAll(s, isError, text[..to]) == FeedAll(FeedAll(s, isError, text[..from]), isError, text[from..to])
  {
    assert text[..to] == text[..from] + text[from..to];
    FeedConcat(s, isError, text[..from], text[from..to]);
  }

  lemma FeedNewline(s: Sink, isError: string -> bool, text: string, i: nat)
    requires i < |text| && text[i] == '\n'
    ensures FeedAll(s, isError, text[..i + 1]) == Finish(FeedAll(s, isError, text[..i]), isError)
  {
    assert text[..i + 1][..i] == text[..i];
  }

  predicate Consistent(s: Sink) {
    |s.pending| <= MAX_LINE && (s.discarding ==> s.pending == "")
  }

  /** A part of a line is kept whole or makes the line too long. */
  function Extend(s: Sink, part: string): Sink {
    if s.discarding || |s.pending| + |part| > MAX_LINE then s.(pending := "", discarding := true)
    else s.(pending := s.pending + part)
  }

  lemma {:induction false} FeedPart(s: Sink, isError: string -> bool, part: string)
    requires Consistent(s) && NoNewline(part)
    ensures FeedAll(s, isError, part) == Extend(s, part) && Consistent(Extend(s, part))
  {
    if part != "" {
      var init := part[..|part| - 1];
      FeedPart(s, isError, init);
      assert part == init + [part[|part| - 1]];
    } else {
      assert s.pending + part == s.pending;
    }
  }

  function ErrorLines(lines: seq<string>, isError: string -> bool): nat {
    if lines == [] then 0
    else (if |lines[0]| <= MAX_LINE && isError(lines[0]) then 1 else 0) + ErrorLines(lines[1..], isError)
  }

  lemma {:induction false} FeedLines(n: nat, isError: string -> bool, text: string)
    ensures Finish(FeedAll(Sink("", n, false), isError, text), isError) == Sink("", n + ErrorLines(Split(text), isError), false)
    decreases |text|, 1
  {
    var i := Newline(text);
    FeedPart(Sink("", n, false), isError, text[..i]);
    assert "" + text[..i] == text[..i];
    if i == |text| {
      assert text[..i] == text;
      assert ErrorLines([text], isError) == if |text| <= MAX_LINE && isError(text) then 1 else 0;
    } else {
      FeedLine(n, isError, text, i);
    }
  }

  lemma FeedLine(n: nat, isError: string -> bool, text: string, i: nat)
    requires i == Newline(text) < |text|
    requires FeedAll(Sink("", n, false), isError, text[..i]) == Extend(Sink("", n, false), text[..i])
    ensures Finish(FeedAll(Sink("", n, false), isError, text), isError) == Sink("", n + ErrorLines(Split(text), isError), false)
    decreases |text|, 0
  {
    hide FeedAll, Newline, Split, ErrorLines;
    var s, line, rest := Sink("", n, false), text[..i], text[i + 1..];
    LineEnds(s, isError, text, i);
    assert "" + line == line;
    var t := Finish(Extend(s, line), isError);
    FeedLines(t.count, isError, rest);
    SplitStep(text, i);
    ErrorStep(line, Split(rest), isError);
  }

  lemma SplitStep(text: string, i: nat)
    requires i == Newline(text) < |text|
    ensures Split(text) == [text[..i]] + Split(text[i + 1..])
  {
  }

  lemma ErrorStep(line: string, rest: seq<string>, isError: string -> bool)
    ensures ErrorLines([line] + rest, isError) == (if |line| <= MAX_LINE && isError(line) then 1 else 0) + ErrorLines(rest, isError)
  {
    assert ([line] + rest)[1..] == rest;
  }

  lemma LineEnds(s: Sink, isError: string -> bool, text: string, i: nat)
    requires i < |text| && text[i] == '\n' && FeedAll(s, isError, text[..i]) == Extend(s, text[..i])
    ensures FeedAll(s, isError, text) == FeedAll(Finish(Extend(s, text[..i]), isError), isError, text[i + 1..])
  {
    assert text == text[..i + 1] + text[i + 1..];
    FeedConcat(s, isError, text[..i + 1], text[i + 1..]);
    assert text[..i + 1][..i] == text[..i] && text[..i + 1][i] == '\n';
  }

  function WriteAll(s: Sink, isError: string -> bool, chunks: seq<string>): Sink {
    if chunks == [] then s else FeedAll(WriteAll(s, isError, chunks[..|chunks| - 1]), isError, chunks[|chunks| - 1])
  }

  lemma {:induction false} WriteConcat(s: Sink, isError: string -> bool, chunks: seq<string>)
    ensures WriteAll(s, isError, chunks) == FeedAll(s, isError, Concat(chunks))
  {
    if chunks != [] {
      WriteConcat(s, isError, chunks[..|chunks| - 1]);
      FeedConcat(s, isError, Concat(chunks[..|chunks| - 1]), chunks[|chunks| - 1]);
    }
  }

  /** However the stream is cut into writes, the count is that of its lines of at most 1 MiB that are errors. */
  lemma {:induction false} ChunkingIndependent(isError: string -> bool, chunks: seq<string>)
    ensures Finish(WriteAll(EMPTY, isError, chunks), isError).count == ErrorLines(Split(Concat(chunks)), isError)
  {
    WriteConcat(EMPTY, isError, chunks);
    FeedLines(0, isError, Concat(chunks));
  }
}

module ProgressSpec {
  import opened Basics
  import opened Lines

  datatype Summary = Summary(content: string, warnings: nat)

  /** One parsed line of the engine's JSON output. */
  datatype Parsed =
    | Bad
    | Skip
    | StatusEvent(filesDone: int, totalFiles: int, bytesDone: int, totalBytes: int)
    | SummaryEvent(snapshot: string, content: Option<string>, filesNew: int, dataAdded: int, filesDone: int, bytesDone: int)
    | ErrorEvent

  type Parser = string -> Parsed

  datatype Counters = Counters(
    files: int, totalFiles: int, bytes: int, totalBytes: int, filesNew: int, dataAdded: int,
    sawSummary: bool, snapshot: string, summary: Option<Summary>, warnings: nat, error: string)

  const ZERO := Counters(0, 0, 0, 0, 0, 0, false, "", None, 0, "")

  datatype Sink = Sink(pending: string, c: Counters)

  const EMPTY := Sink("", ZERO)

  function Fail(c: Counters, code: string): Counters {
    if c.error == "" then c.(error := code) else c
  }

  function Consume(c: Counters, parse: Parser, line: string): Counters {
    match parse(line)
    case Bad => Fail(c, "INVALID_ENGINE_OUTPUT")
    case Skip => c
    case StatusEvent(filesDone, totalFiles, bytesDone, totalBytes) =>
      c.(files := filesDone, totalFiles := totalFiles, bytes := bytesDone, totalBytes := totalBytes)
    case SummaryEvent(snapshot, content, filesNew, dataAdded, filesDone, bytesDone) =>
      if c.sawSummary then Fail(c, "INVALID_ENGINE_OUTPUT")
      else c.(sawSummary := true, snapshot := snapshot,
              summary := if content.Some? then Some(Summary(content.value, c.warnings)) else None,
              filesNew := filesNew, dataAdded := dataAdded, files := if filesDone > 0 then filesDone else c.files, bytes := bytesDone)
    case ErrorEvent => c.(warnings := c.warnings + 1)
  }

  /** A line ends: it is consumed, and after a failure nothing is pending. */
  function EndLine(s: Sink, parse: Parser): Sink {
    Sink("", Consume(s.c, parse, s.pending))
  }

  function Feed(s: Sink, parse: Parser, ch: char): Sink {
    if s.c.error != "" then s
    else if ch == '\n' then EndLine(s, parse)
    else if |s.pending| >= MAX_LINE then Sink("", Fail(s.c, "INVALID_ENGINE_OUTPUT"))
    else s.(pending := s.pending + [ch])
  }

  function FeedAll(s: Sink, parse: Parser, text: string): Sink {
    if text == "" then s else Feed(FeedAll(s, parse, text[..|text| - 1]), parse, text[|text| - 1])
  }

  function Finish(s: Sink, parse: Parser): Sink {
    if s.c.error == "" && s.pending != "" then EndLine(s, parse) else s.(pending := "")
  }

  lemma {:induction false} FeedConcat(s: Sink, parse: Parser, a: string, b: string)
    ensures FeedAll(s, parse, a + b) == FeedAll(FeedAll(s, parse, a), parse, b)
  {
    if b == "" {
      assert a + b == a;
    } else {
      assert (a + b)[..|a + b| - 1] == a + b[..|b| - 1];
      FeedConcat(s, parse, a, b[..|b| - 1]);
    }
  }

  lemma FeedNothing(s: Sink, parse: Parser, text: string)
    ensures FeedAll(s, parse, text[..0]) == s
    ensures text == "" ==> FeedAll(s, parse, text) == s
  {
  }

  lemma FeedSlice(s: Sink, parse: Parser, text: string, from: nat, to: nat)
    requires from <= to <= |text|
    ensures FeedAll(s, parse, text[..to]) == FeedAll(FeedAll(s, parse, text[..from]), parse, text[from..to])
  {
    assert text[..to] == text[..from] + text[from..to];
    FeedConcat(s, parse, text[..from], text[from..to]);
  }

  lemma FeedNewline(s: Sink, parse: Parser, text: string, i: nat)
    requires i < |text| && text[i] == '\n' && FeedAll(s, parse, text[..i]).c.error == ""
    ensures FeedAll(s, parse, text[..i + 1]) == EndLine(FeedAll(s, parse, text[..i]), parse)
  {
    assert text[..i + 1][..i] == text[..i];
  }

  lemma {:induction false} FailedStays(s: Sink, parse: Parser, text: string)
    requires s.c.error != ""
    ensures FeedAll(s, parse, text) == s
  {
    if text != "" { FailedStays(s, parse, text[..|text| - 1]); }
  }

  function Extend(s: Sink, part: string): Sink {
    if |s.pending| + |part| > MAX_LINE then Sink("", Fail(s.c, "INVALID_ENGINE_OUTPUT")) else s.(pending := s.pending + part)
  }

  lemma {:induction false} FeedPart(s: Sink, parse: Parser, part: string)
    requires |s.pending| <= MAX_LINE && s.c.error == "" && NoNewline(part)
    ensures FeedAll(s, parse, part) == Extend(s, part)
  {
    if part != "" {
      var init := part[..|part| - 1];
      FeedPart(s, parse, init);
      assert part == init + [part[|part| - 1]];
      assert s.pending + part == (s.pending + init) + [part[|part| - 1]];
    } else {
      assert s.pending + part == s.pending;
    }
  }

  /** The fold over lines: stop at the first failure, refuse a line over 1 MiB, ignore an empty last line. */
  function Fold(c: Counters, parse: Parser, lines: seq<string>): Counters
    requires |lines| >= 1
    decreases |lines|
  {
    if c.error != "" then c
    else if |lines| == 1 && lines[0] == "" then c
    else
      var d := if |lines[0]| > MAX_LINE then Fail(c, "INVALID_ENGINE_OUTPUT") else Consume(c, parse, lines[0]);
      if |lines| == 1 then d else Fold(d, parse, lines[1..])
  }

  lemma {:induction false} FeedLines(c: Counters, parse: Parser, text: string)
    ensures Finish(FeedAll(Sink("", c), parse, text), parse).c == Fold(c, parse, Split(text))
    decreases |text|
  {
    var s := Sink("", c);
    if c.error != "" {
      FailedStays(s, parse, text);
    } else {
      var i := Newline(text);
      FeedPart(s, parse, text[..i]);
      assert "" + text[..i] == text[..i];
      if i == |text| {
        assert text[..i] == text;
      } else {
        FeedLine(c, parse, text, i);
      }
    }
  }

  lemma FeedLine(c: Counters, parse: Parser, text: string, i: nat)
    requires c.error == "" && i == Newline(text) < |text|
    requires FeedAll(Sink("", c), parse, text[..i]) == Extend(Sink("", c), text[..i])
    ensures Finish(FeedAll(Sink("", c), parse, text), parse).c == Fold(c, parse, Split(text))
    decreases |text|, 0
  {
    hide Consume, Newline;
    var s, rest := Sink("", c), text[i + 1..];
    assert text == text[..i] + "\n" + rest;
    assert "" + text[..i] == text[..i];
    FeedConcat(s, parse, text[..i] + "\n", rest);
    FeedConcat(s, parse, text[..i], "\n");
    var t := FeedAll(s, parse, text[..i]);
    assert FeedAll(t, parse, "\n") == Feed(t, parse, '\n') by { assert "\n"[..0] == "" && FeedAll(t, parse, "") == t; }
    var u := Feed(t, parse, '\n');
    assert u.pending == "";
    assert Split(text)[1..] == Split(rest) && Split(text)[0] == text[..i];
    FeedLines(u.c, parse, rest);
  }

  function WriteAll(s: Sink, parse: Parser, chunks: seq<string>): Sink {
    if chunks == [] then s else FeedAll(WriteAll(s, parse, chunks[..|chunks| - 1]), parse, chunks[|chunks| - 1])
  }

  lemma {:induction false} WriteConcat(s: Sink, parse: Parser, chunks: seq<string>)
    ensures WriteAll(s, parse, chunks) == FeedAll(s, parse, Concat(chunks))
  {
    if chunks != [] {
      WriteConcat(s, parse, chunks[..|chunks| - 1]);
      FeedConcat(s, parse, Concat(chunks[..|chunks| - 1]), chunks[|chunks| - 1]);
    }
  }

  /** However the stream is cut into writes, counters, summary and error code are those of the fold over its lines. */
  lemma {:induction false} ChunkingIndependent(parse: Parser, chunks: seq<string>)
    ensures Finish(WriteAll(EMPTY, parse, chunks), parse).c == Fold(ZERO, parse, Split(Concat(chunks)))
  {
    WriteConcat(EMPTY, parse, chunks);
    FeedLines(ZERO, parse, Concat(chunks));
  }
  // ----- what the counters are, line by line -----

  predicate IsStatus(x: Parsed) {
    x.StatusEvent?
  }

  predicate SetsBytes(x: Parsed) {
    x.StatusEvent? || x.SummaryEvent?
  }

  /** A summary without a file count leaves the last status standing. */
  predicate SetsFiles(x: Parsed) {
    x.StatusEvent? || (x.SummaryEvent? && x.filesDone > 0)
  }

  /** Line i is the last of its kind. */
  predicate Last(parse: Parser, lines: seq<string>, kind: Parsed -> bool, i: int) {
    0 <= i < |lines| && kind(parse(lines[i])) && forall j :: i < j < |lines| ==> !kind(parse(lines[j]))
  }

  predicate Missing(parse: Parser, lines: seq<string>, kind: Parsed -> bool) {
    forall j :: 0 <= j < |lines| ==> !kind(parse(lines[j]))
  }

  function Errors(parse: Parser, lines: seq<string>): set<int> {
    set i | 0 <= i < |lines| && parse(lines[i]).ErrorEvent?
  }

  /** The line cannot be taken after the ones before it. */
  predicate Breaks(parse: Parser, lines: seq<string>, i: int)
    requires 0 <= i < |lines|
  {
    || |lines[i]| > MAX_LINE
    || parse(lines[i]).Bad?
    || (parse(lines[i]).SummaryEvent? && exists j :: 0 <= j < i && parse(lines[j]).SummaryEvent?)
  }

  predicate Clean(parse: Parser, lines: seq<string>) {
    forall i :: 0 <= i < |lines| ==> !Breaks(parse, lines, i)
  }

  ghost predicate Totals(c: Counters, parse: Parser, lines: seq<string>) {
    && (forall i :: Last(parse, lines, IsStatus, i) ==> c.totalFiles == parse(lines[i]).totalFiles && c.totalBytes == parse(lines[i]).totalBytes)
    && (Missing(parse, lines, IsStatus) ==> c.totalFiles == 0 && c.totalBytes == 0)
  }

  ghost predicate BytesDone(c: Counters, parse: Parser, lines: seq<string>) {
    && (forall i :: Last(parse, lines, SetsBytes, i) ==> c.bytes == parse(lines[i]).bytesDone)
    && (Missing(parse, lines, SetsBytes) ==> c.bytes == 0)
  }

  ghost predicate FilesDone(c: Counters, parse: Parser, lines: seq<string>) {
    && (forall i :: Last(parse, lines, SetsFiles, i) ==> c.files == parse(lines[i]).filesDone)
    && (Missing(parse, lines, SetsFiles) ==> c.files == 0)
  }

  /** The counters of lines that can all be taken. */
  ghost predicate Counts(c: Counters, parse: Parser, lines: seq<string>) {
    c.error == "" && c.warnings == |Errors(parse, lines)| && Totals(c, parse, lines) && BytesDone(c, parse, lines) && FilesDone(c, parse, lines)
  }

  /** The summary of lines that can all be taken, with the errors that came before it. */
  predicate Summed(c: Counters, parse: Parser, lines: seq<string>) {
    && (c.sawSummary <==> exists i :: 0 <= i < |lines| && parse(lines[i]).SummaryEvent?)
    && (!c.sawSummary ==> c.snapshot == "" && c.summary == None && c.filesNew == 0 && c.dataAdded == 0)
    && forall i :: 0 <= i < |lines| && parse(lines[i]).SummaryEvent? ==>
         var x := parse(lines[i]);
         && c.snapshot == x.snapshot && c.filesNew == x.filesNew && c.dataAdded == x.dataAdded
         && c.summary == if x.content.Some? then Some(Summary(x.content.value, |Errors(parse, lines[..i])|)) else None
  }

  lemma ErrorsMore(parse: Parser, lines: seq<string>, line: string)
    ensures |Errors(parse, lines + [line])| == |Errors(parse, lines)| + if parse(line).ErrorEvent? then 1 else 0
  {
    var more := lines + [line];
    assert forall i :: 0 <= i < |lines| ==> more[i] == lines[i];
    assert Errors(parse, more) == Errors(parse, lines) + if parse(line).ErrorEvent? then {|lines|} else {};
  }

  lemma LastMore(parse: Parser, lines: seq<string>, line: string, kind: Parsed -> bool, i: int)
    requires Last(parse, lines + [line], kind, i)
    ensures if kind(parse(line)) then i == |lines| else Last(parse, lines, kind, i) && i < |lines| && (lines + [line])[i] == lines[i]
  {
    var more := lines + [line];
    assert forall j :: 0 <= j < |lines| ==> more[j] == lines[j];
    assert more[|lines|] == line;
  }

  lemma MissingMore(parse: Parser, lines: seq<string>, line: string, kind: Parsed -> bool)
    requires Missing(parse, lines + [line], kind)
    ensures Missing(parse, lines, kind) && !kind(parse(line))
  {
    var more := lines + [line];
    assert more[|lines|] == line;
    assert forall j :: 0 <= j < |lines| ==> more[j] == lines[j];
  }

  lemma TotalsMore(c: Counters, parse: Parser, lines: seq<string>, line: string)
    requires Totals(c, parse, lines) && Consume(c, parse, line).error == ""
    ensures Totals(Consume(c, parse, line), parse, lines + [line])
  {
    var more, d := lines + [line], Consume(c, parse, line);
    if Missing(parse, more, IsStatus) { MissingMore(parse, lines, line, IsStatus); }
    hide Missing;
    forall i | Last(parse, more, IsStatus, i) ensures d.totalFiles == parse(more[i]).totalFiles && d.totalBytes == parse(more[i]).totalBytes {
      LastMore(parse, lines, line, IsStatus, i);
    }
  }

  lemma BytesMore(c: Counters, parse: Parser, lines: seq<string>, line: string)
    requires BytesDone(c, parse, lines) && Consume(c, parse, line).error == ""
    ensures BytesDone(Consume(c, parse, line), parse, lines + [line])
  {
    var more, d := lines + [line], Consume(c, parse, line);
    if Missing(parse, more, SetsBytes) { MissingMore(parse, lines, line, SetsBytes); }
    hide Missing;
    forall i | Last(parse, more, SetsBytes, i) ensures d.bytes == parse(more[i]).bytesDone {
      LastMore(parse, lines, line, SetsBytes, i);
    }
  }

  lemma FilesMore(c: Counters, parse: Parser, lines: seq<string>, line: string)
    requires FilesDone(c, parse, lines) && Consume(c, parse, line).error == ""
    ensures FilesDone(Consume(c, parse, line), parse, lines + [line])
  {
    var more, d := lines + [line], Consume(c, parse, line);
    if Missing(parse, more, SetsFiles) { MissingMore(parse, lines, line, SetsFiles); }
    hide Missing;
    forall i | Last(parse, more, SetsFiles, i) ensures d.files == parse(more[i]).filesDone {
      LastMore(parse, lines, line, SetsFiles, i);
    }
  }

  lemma CountsMore(c: Counters, parse: Parser, lines: seq<string>, line: string)
    requires Counts(c, parse, lines) && Consume(c, parse, line).error == ""
    ensures Counts(Consume(c, parse, line), parse, lines + [line])
  {
    hide Totals, BytesDone, FilesDone, Errors;
    TotalsMore(c, parse, lines, line);
    BytesMore(c, parse, lines, line);
    FilesMore(c, parse, lines, line);
    ErrorsMore(parse, lines, line);
  }

  lemma SummedMore(c: Counters, parse: Parser, lines: seq<string>, line: string)
    requires Counts(c, parse, lines) && Summed(c, parse, lines) && Consume(c, parse, line).error == ""
    ensures Summed(Consume(c, parse, line), parse, lines + [line])
  {
    hide Totals, BytesDone, FilesDone, Errors;
    var more := lines + [line];
    assert more[|lines|] == line && more[..|lines|] == lines;
    assert forall i :: 0 <= i < |lines| ==> more[i] == lines[i] && more[..i] == lines[..i];
  }

  /** Lines as the fold takes them: an empty last one is not a line. */
  function Taken(lines: seq<string>): seq<string> {
    if |lines| > 0 && lines[|lines| - 1] == "" then lines[..|lines| - 1] else lines
  }

  /** What the fold over lines must come to. */
  ghost predicate Folded(c: Counters, parse: Parser, lines: seq<string>) {
    if Clean(parse, lines) then Counts(c, parse, lines) && Summed(c, parse, lines) else c.error == "INVALID_ENGINE_OUTPUT"
  }

  lemma NextBreaks(c: Counters, parse: Parser, lines: seq<string>, line: string)
    requires c.error == "" && Summed(c, parse, lines)
    ensures Breaks(parse, lines + [line], |lines|) <==> |line| > MAX_LINE || Consume(c, parse, line).error != ""
  {
    var more := lines + [line];
    assert more[|lines|] == line;
    assert forall i :: 0 <= i < |lines| ==> more[i] == lines[i];
  }

  lemma {:induction false} FoldedFrom(c: Counters, parse: Parser, done: seq<string>, rest: seq<string>)
    requires |rest| >= 1 && Clean(parse, done) && Counts(c, parse, done) && Summed(c, parse, done)
    ensures Folded(Fold(c, parse, rest), parse, done + Taken(rest))
    decreases |rest|
  {
    hide Totals, BytesDone, FilesDone, Errors;
    if rest == [""] {
      assert done + Taken(rest) == done;
    } else {
      var line := rest[0];
      var all, more := done + Taken(rest), done + [rest[0]];
      assert more <= all;
      NextBreaks(c, parse, done, line);
      SameBreaks(parse, all, more);
      SameBreaks(parse, more, done);
      if Breaks(parse, more, |done|) {
        StaysFailed(parse, rest, c);
        assert Breaks(parse, all, |done|);
      } else {
        CountsMore(c, parse, done, line);
        SummedMore(c, parse, done, line);
        hide Counts, Summed, Breaks, Consume;
        assert Clean(parse, more);
        if |rest| == 1 {
          assert all == more;
        } else {
          assert all == more + Taken(rest[1..]);
          FoldedFrom(Consume(c, parse, line), parse, more, rest[1..]);
        }
      }
    }
  }

  /** Whether a line breaks depends on the lines up to it alone. */
  lemma SameBreaks(parse: Parser, all: seq<string>, part: seq<string>)
    requires part <= all
    ensures forall i :: 0 <= i < |part| ==> (Breaks(parse, all, i) <==> Breaks(parse, part, i))
  {
  }

  lemma StaysFailed(parse: Parser, rest: seq<string>, c: Counters)
    requires |rest| >= 1 && rest != [""] && c.error == ""
    requires |rest[0]| > MAX_LINE || Consume(c, parse, rest[0]).error != ""
    ensures Fold(c, parse, rest).error == "INVALID_ENGINE_OUTPUT"
  {
  }

  /**
    However the stream is cut into writes: a line that is too long or unreadable, or a
    second summary, fails it with one code; otherwise each counter is that of the last
    line that reports it, and the summary is the one line that gives it.
   */
  lemma {:induction false} CountersExact(parse: Parser, chunks: seq<string>)
    ensures Folded(Finish(WriteAll(EMPTY, parse, chunks), parse).c, parse, Taken(Split(Concat(chunks))))
  {
    var lines := Split(Concat(chunks));
    ChunkingIndependent(parse, chunks);
    assert Errors(parse, []) == {};
    FoldedFrom(ZERO, parse, [], lines);
    assert [] + Taken(lines) == Taken(lines);
  }
}

module StreamSinks {
  import opened Basics
  import opened Lines
  import W = WarningSpec
  import P = ProgressSpec

  /** The position of the first newline at or after `from`, or -1. */
  method IndexNewline(chunk: string, from: nat) returns (index: int)
    requires from <= |chunk|
    ensures if index < 0 then NoNewline(chunk[from..]) else from <= index < |chunk| && chunk[index] == '\n' && NoNewline(chunk[from..index])
  {
    var i := from;
    while i < |chunk|
      invariant from <= i <= |chunk| && NoNewline(chunk[from..i])
    {
      if chunk[i] == '\n' { return i; }
      assert chunk[from..i + 1] == chunk[from..i] + [chunk[i]];
      i := i + 1;
    }
    assert chunk[from..|chunk|] == chunk[from..];
    return -1;
  }

  class WarningSink {
    const isError: string -> bool
    var pending: string
    var count: nat
    var discarding: bool

    function Abs(): W.Sink
      reads this
    {
      W.Sink(pending, count, discarding)
    }

    constructor (isError: string -> bool)
      ensures this.isError == isError && Abs() == W.EMPTY
    {
      this.isError := isError;
      pending, count, discarding := "", 0, false;
    }

    method Write(chunk: string)
      requires W.Consistent(Abs())
      modifies this
      ensures W.Consistent(Abs()) && Abs() == W.FeedAll(old(Abs()), isError, chunk)
    {
      W.FeedNothing(Abs(), isError, chunk);
      assert chunk[..|chunk|] == chunk;
      hide W.FeedAll, W.Extend, W.Finish, W.Consistent;
      var from := 0;
      while from < |chunk|
        invariant from <= |chunk| && W.Consistent(Abs()) && Abs() == W.FeedAll(old(Abs()), isError, chunk[..from])
      {
        var index := IndexNewline(chunk, from);
        var to := if index >= 0 then index else |chunk|;
        assert index < 0 ==> chunk[from..to] == chunk[from..];
        W.FeedSlice(old(Abs()), isError, chunk, from, to);
        W.FeedPart(Abs(), isError, chunk[from..to]);
        Take(chunk[from..to]);
        if index < 0 {
          from := |chunk|;
          break;
        }
        W.FeedNewline(old(Abs()), isError, chunk, to);
        Finish();
        from := index + 1;
      }
    }

    /** Part of a line: kept, or dropped together with the rest of a line that is too long. */
    method Take(part: string)
      requires W.Consistent(Abs())
      modifies this
      ensures Abs() == W.Extend(old(Abs()), part)
    {
      if |pending| + |part| > MAX_LINE { pending, discarding := "", true; }
      if !discarding { pending := pending + part; }
    }

    method Finish()
      modifies this
      ensures Abs() == W.Finish(old(Abs()), isError) && W.Consistent(Abs())
    {
      if !discarding && isError(pending) { count := count + 1; }
      pending, discarding := "", false;
    }
  }

  class ProgressSink {
    const parse: P.Parser
    var pending: string
    var counters: P.Counters

    function Abs(): P.Sink
      reads this
    {
      P.Sink(pending, counters)
    }

    constructor (parse: P.Parser)
      ensures this.parse == parse && Abs() == P.EMPTY
    {
      this.parse := parse;
      pending, counters := "", P.ZERO;
    }

    method Fail(code: string)
      requires code != ""
      modifies this
      ensures counters == P.Fail(old(counters), code) && pending == if old(counters).error == "" then "" else old(pending)
    {
      if counters.error == "" {
        counters := counters.(error := code);
        pending := "";
      }
    }

    method ConsumeLine(line: string)
      modifies this
      ensures counters == P.Consume(old(counters), parse, line)
    {
      match parse(line)
      case Bad => Fail("INVALID_ENGINE_OUTPUT");
      case Skip =>
      case StatusEvent(filesDone, totalFiles, bytesDone, totalBytes) =>
        counters := counters.(files := filesDone, totalFiles := totalFiles, bytes := bytesDone, totalBytes := totalBytes);
      case SummaryEvent(snapshot, content, filesNew, dataAdded, filesDone, bytesDone) =>
        if counters.sawSummary { Fail("INVALID_ENGINE_OUTPUT"); return; }
        counters := counters.(sawSummary := true, snapshot := snapshot,
          summary := if content.Some? then Some(P.Summary(content.value, counters.warnings)) else None);
        counters := counters.(filesNew := filesNew, dataAdded := dataAdded);
        if filesDone > 0 { counters := counters.(files := filesDone); }
        counters := counters.(bytes := bytesDone);
      case ErrorEvent => counters := counters.(warnings := counters.warnings + 1);
    }

    /** Part of a line: kept, unless the line becomes too long. */
    method Take(part: string)
      requires counters.error == ""
      modifies this
      ensures Abs() == P.Extend(old(Abs()), part)
    {
      if |pending| + |part| > MAX_LINE { Fail("INVALID_ENGINE_OUTPUT"); } else { pending := pending + part; }
    }

    method EndLine()
      modifies this
      ensures Abs() == P.EndLine(old(Abs()), parse)
    {
      ConsumeLine(pending);
      pending := "";
    }

    method Write(chunk: string)
      requires |pending| <= MAX_LINE
      modifies this
      ensures |pending| <= MAX_LINE && Abs() == P.FeedAll(old(Abs()), parse, chunk)
    {
      P.FeedNothing(Abs(), parse, chunk);
      assert chunk[..|chunk|] == chunk;
      hide P.FeedAll, P.Consume;
      var from := 0;
      while from < |chunk| && counters.error == ""
        invariant from <= |chunk| && |pending| <= MAX_LINE && Abs() == P.FeedAll(old(Abs()), parse, chunk[..from])
        decreases |chunk| - from
      {
        var index := IndexNewline(chunk, from);
        var to := if index >= 0 then index else |chunk|;
        assert index < 0 ==> chunk[from..to] == chunk[from..];
        P.FeedSlice(old(Abs()), parse, chunk, from, to);
        P.FeedPart(Abs(), parse, chunk[from..to]);
        Take(chunk[from..to]);
        if index < 0 || counters.error != "" {
          from := to;
          break;
        }
        P.FeedNewline(old(Abs()), parse, chunk, to);
        EndLine();
        from := index + 1;
      }
      P.FeedSlice(old(Abs()), parse, chunk, from, |chunk|);
      if counters.error != "" {
        P.FailedStays(Abs(), parse, chunk[from..|chunk|]);
      } else {
        P.FeedNothing(Abs(), parse, chunk[from..|chunk|]);
      }
    }

    method Finish()
      modifies this
      ensures Abs() == P.Finish(old(Abs()), parse)
    {
      if counters.error == "" && |pending| > 0 { ConsumeLine(pending); }
      pending := "";
    }
  }
}
