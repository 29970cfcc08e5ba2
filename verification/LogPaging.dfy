/** Paging through log files by line number (clients/logs/eks_s3_logs_client.go): a reader that
    returns up to 257 parsed lines a call, and one that returns everything new. */
module LogPaging {
  import opened Commons

  type Line = string

  const MAX_LOG_LINES := 256

  // ---- Lines ----

  /** The length of the first complete line, newline included; 0 if there is none. */
  function LineLength(text: string): (n: nat)
    ensures n <= |text| && (n > 0 ==> text[n - 1] == '\n')
  {
    if text == "" then 0
    else if text[0] == '\n' then 1
    else var n := LineLength(text[1..]); if n == 0 then 0 else n + 1
  }

  /** The complete lines of a text; what follows the last newline is not a line yet. */
  function Lines(text: string): seq<Line>
    decreases |text|
  {
    var n := LineLength(text);
    if n == 0 then [] else [text[..n]] + Lines(text[n..])
  }

  function Flatten(lines: seq<Line>): string {
    if lines == [] then "" else lines[0] + Flatten(lines[1..])
  }

  lemma {:induction false} LineLengthOfLonger(text: string, more: string)
    requires text <= more && LineLength(text) > 0
    ensures LineLength(more) == LineLength(text)
  {
    if text[0] != '\n' { LineLengthOfLonger(text[1..], more[1..]); }
  }

  /** A file that is only appended to keeps the complete lines it had. */
  lemma {:induction false} LinesOfLonger(text: string, more: string)
    requires text <= more
    ensures Lines(text) <= Lines(more)
    decreases |text|
  {
    var n := LineLength(text);
    if n > 0 {
      LineLengthOfLonger(text, more);
      LinesOfLonger(text[n..], more[n..]);
      assert more[..n] == text[..n];
    }
  }

  lemma {:induction false} NoNewlineNoLine(text: string)
    requires LineLength(text) == 0
    ensures '\n' !in text
  {
    if text != "" { NoNewlineNoLine(text[1..]); }
  }

  lemma FlattenCons(line: Line, lines: seq<Line>, text: string, rest: string)
    requires Flatten(lines) + rest == text
    ensures Flatten([line] + lines) + rest == line + text
  {
    assert ([line] + lines)[1..] == lines;
    assert line + Flatten(lines) + rest == line + (Flatten(lines) + rest);
  }

  /** The complete lines, put together again, are the text up to and including its last newline. */
  lemma {:induction false} LinesFlatten(text: string) returns (rest: string)
    ensures Flatten(Lines(text)) + rest == text && '\n' !in rest
    decreases |text|
  {
    var n := LineLength(text);
    if n == 0 {
      NoNewlineNoLine(text);
      rest := text;
    } else {
      var head, tail := text[..n], text[n..];
      rest := LinesFlatten(tail);
      FlattenCons(head, Lines(tail), tail, rest);
      assert Lines(text) == [head] + Lines(tail) && text == head + tail;
    }
  }

  /** A line ends with its only newline. */
  lemma {:induction false} LinesEndAtNewlines(text: string, k: nat)
    requires k < |Lines(text)|
    ensures var line := Lines(text)[k];
            line != "" && line[|line| - 1] == '\n' && '\n' !in line[..|line| - 1]
    decreases |text|
  {
    FirstNewline(text);
    if k > 0 { LinesEndAtNewlines(text[LineLength(text)..], k - 1); }
  }

  lemma {:induction false} FirstNewline(text: string)
    ensures LineLength(text) > 0 ==> '\n' !in text[..LineLength(text) - 1]
  {
    if LineLength(text) > 1 {
      FirstNewline(text[1..]);
      var n := LineLength(text);
      assert text[..n - 1] == [text[0]] + text[1..][..n - 2];
    }
  }

  /** A buffered reader over the body of a stored file. */
  class Reader {
    const text: string
    var position: nat
    ghost var ahead: seq<Line>  // the complete lines not read yet

    ghost predicate Valid()
      reads this
    {
      position <= |text| && ahead == Lines(text[position..])
    }

    constructor (text: string)
      ensures Valid() && ahead == Lines(text)
    {
      this.text, position, ahead := text, 0, Lines(text);
      new;
      assert text[0..] == text;
    }

    /** The bytes up to the next newline; at the end of the file a line without one is not returned. */
    method ReadBytes() returns (line: Option<Line>)
      requires Valid()
      modifies this
      ensures Valid()
      ensures old(ahead) == [] ==> line == None && ahead == []
      ensures old(ahead) != [] ==> line == Some(old(ahead)[0]) && ahead == old(ahead)[1..]
    {
      var n := LineLength(text[position..]);
      if n == 0 {
        position := |text|;
        return None;
      }
      line := Some(text[position..][..n]);
      assert text[position..][n..] == text[position + n..];
      position, ahead := position + n, ahead[1..];
    }
  }

  // ---- The EKS reader ----

  type Parser = Line -> Option<string>

  /** The messages of the lines that parse. */
  function Messages(lines: seq<Line>, parse: Parser): string {
    if lines == [] then ""
    else Messages(lines[..|lines| - 1], parse) + var p := parse(lines[|lines| - 1]); if p.None? then "" else p.value
  }

  /** The line after which a page that starts at line `from` of `n` stops. */
  function PageEnd(n: nat, from: nat): nat {
    if from + MAX_LOG_LINES + 1 <= n then from + MAX_LOG_LINES + 1 else n
  }

  function Page(lines: seq<Line>, from: nat): seq<Line> {
    if from > |lines| then [] else lines[from..PageEnd(|lines|, from)]
  }

  /** The cursor returned: one past the last line read, plus one more if the end was met. */
  function NextCursor(n: nat, from: nat): nat {
    if from > n then from
    else if from + MAX_LOG_LINES + 1 <= n then from + MAX_LOG_LINES + 1
    else n + 1
  }

  /** Reading on to line `from` and throwing the lines away. */
  method SkipTo(reader: Reader, from: nat) returns (reached: bool)
    requires reader.Valid()
    modifies reader
    ensures reader.Valid()
    ensures reached <==> from <= |old(reader.ahead)|
    ensures reached ==> reader.ahead == old(reader.ahead)[from..]
  {
    var currentPosition := 0;
    while currentPosition < from
      invariant currentPosition <= from && currentPosition <= |old(reader.ahead)|
      invariant reader.Valid() && reader.ahead == old(reader.ahead)[currentPosition..]
    {
      var skipped := reader.ReadBytes();
      if skipped.None? {
        return false;
      }
      currentPosition := currentPosition + 1;
    }
    return true;
  }

  lemma MessagesOfOneMore(lines: seq<Line>, k: nat, parse: Parser)
    requires k < |lines|
    ensures Messages(lines[..k + 1], parse)
            == Messages(lines[..k], parse) + if parse(lines[k]).None? then "" else parse(lines[k]).value
  {
    assert lines[..k + 1][..k] == lines[..k];
  }

  /** Up to 257 lines, from the reader's position, which is line `from` of its file. */
  method ReadPage(reader: Reader, from: nat, parse: Parser) returns (acc: string, position: nat)
    requires reader.Valid()
    modifies reader
    ensures var n := |old(reader.ahead)|;
            && acc == Messages(old(reader.ahead)[..PageEnd(n, 0)], parse)
            && position == from + NextCursor(n, 0)
  {
    ghost var lines := reader.ahead;
    acc, position := "", from;
    while position <= from + MAX_LOG_LINES
      invariant from <= position <= from + MAX_LOG_LINES + 1 && position - from <= |lines|
      invariant reader.Valid() && reader.ahead == lines[position - from..]
      invariant acc == Messages(lines[..position - from], parse)
    {
      position := position + 1;
      var line := reader.ReadBytes();
      if line.None? {
        return;
      }
      MessagesOfOneMore(lines, position - from - 1, parse);
      var parsed := parse(line.value);
      if parsed.Some? {
        acc := acc + parsed.value;
      }
    }
  }

  /** `logsToMessageString` over a file whose text is `text`. */
  method LogsToMessageString(text: string, startingPosition: int, parse: Parser) returns (acc: string, position: nat)
    ensures var from := if startingPosition <= 0 then 0 else startingPosition;
            && acc == Messages(Page(Lines(text), from), parse)
            && position == NextCursor(|Lines(text)|, from)
  {
    var from: nat := if startingPosition <= 0 then 0 else startingPosition;
    ghost var lines := Lines(text);
    var reader := new Reader(text);
    var reached := SkipTo(reader, from);
    if !reached {
      return "", from;
    }
    acc, position := ReadPage(reader, from, parse);
    assert lines[from..][..PageEnd(|lines[from..]|, 0)] == lines[from..PageEnd(|lines|, from)];
  }

  // ---- Polling the EKS reader ----

  /** The complete lines of each version of a file that is only appended to. */
  predicate Growing(versions: seq<seq<Line>>) {
    forall i, j | 0 <= i <= j < |versions| :: versions[i] <= versions[j]
  }

  /** The cursor after one poll of each version, each cursor fed back; polling starts at 0. */
  function Cursor(versions: seq<seq<Line>>): nat {
    if versions == [] then 0
    else NextCursor(|versions[|versions| - 1]|, Cursor(versions[..|versions| - 1]))
  }

  /** The lines those polls returned, one after the other. */
  function Emitted(versions: seq<seq<Line>>): seq<Line> {
    if versions == [] then []
    else
      var before := versions[..|versions| - 1];
      Emitted(before) + Page(versions[|versions| - 1], Cursor(before))
  }

  /** The numbers of lines at which some poll met the end of the file. */
  function Ends(versions: seq<seq<Line>>): set<nat> {
    if versions == [] then {}
    else
      var n := |versions[|versions| - 1]|;
      Ends(versions[..|versions| - 1]) + if Cursor(versions) == n + 1 then {n} else {}
  }

  /** The first `m` lines without those numbered in `gaps`. */
  function Without(lines: seq<Line>, m: nat, gaps: set<nat>): seq<Line>
    requires m <= |lines|
  {
    if m == 0 then [] else Without(lines, m - 1, gaps) + if m - 1 in gaps then [] else [lines[m - 1]]
  }

  /** How many lines of the last version the polls have been past. */
  function Passed(versions: seq<seq<Line>>): nat {
    if versions == [] then 0
    else
      var n := |versions[|versions| - 1]|;
      if Cursor(versions) <= n then Cursor(versions) else n
  }

  lemma {:induction false} WithoutDependsOnPrefix(a: seq<Line>, b: seq<Line>, m: nat, gaps: set<nat>, more: set<nat>)
    requires m <= |a| && a <= b && forall k | k < m :: k in gaps <==> k in more
    ensures Without(a, m, gaps) == Without(b, m, more)
  {
    if m > 0 { WithoutDependsOnPrefix(a, b, m - 1, gaps, more); }
  }

  lemma {:induction false} WithoutNoGaps(lines: seq<Line>, k: nat, m: nat, gaps: set<nat>)
    requires k <= m <= |lines| && forall i | k <= i < m :: i !in gaps
    ensures Without(lines, m, gaps) == Without(lines, k, gaps) + lines[k..m]
  {
    if k < m {
      WithoutNoGaps(lines, k, m - 1, gaps);
      assert lines[k..m] == lines[k..m - 1] + [lines[m - 1]];
    }
  }

  lemma GapSkips(lines: seq<Line>, m: nat, gaps: set<nat>)
    requires 0 < m <= |lines| && m - 1 in gaps
    ensures Without(lines, m, gaps) == Without(lines, m - 1, gaps)
  {}

  /** No cursor is more than one past the lines of its version, and ends lie behind the cursor. */
  lemma {:induction false} CursorBounds(versions: seq<seq<Line>>)
    requires Growing(versions)
    ensures versions != [] ==> Cursor(versions) <= |versions[|versions| - 1]| + 1
    ensures forall k | k in Ends(versions) :: k < Cursor(versions)
    ensures versions != [] && Cursor(versions) > |versions[|versions| - 1]| ==> |versions[|versions| - 1]| in Ends(versions)
  {
    if versions != [] {
      var before := versions[..|versions| - 1];
      CursorBounds(before);
      if before != [] { assert before[|before| - 1] <= versions[|versions| - 1]; }
    }
  }

  /** One more poll, from a cursor that every earlier end lies behind. */
  lemma PollEmits(last: seq<Line>, passed: nat, from: nat, gaps: set<nat>)
    requires passed == from <= |last| || (passed + 1 == from <= |last| && passed in gaps)
    requires forall k | k in gaps :: k < from || k == |last|
    ensures Without(last, passed, gaps) + Page(last, from) == Without(last, PageEnd(|last|, from), gaps)
  {
    var to := PageEnd(|last|, from);
    assert forall i | from <= i < to :: i !in gaps;
    WithoutNoGaps(last, from, to, gaps);
    if passed < from { GapSkips(last, from, gaps); }
    assert Page(last, from) == last[from..to];
  }

  /** What was passed before the last poll, as it looks after it. */
  lemma PassedBefore(versions: seq<seq<Line>>)
    requires Growing(versions) && |versions| > 1
    ensures var before, last := versions[..|versions| - 1], versions[|versions| - 1];
            && Passed(before) <= |before[|before| - 1]| && before[|before| - 1] <= last
            && Without(before[|before| - 1], Passed(before), Ends(before)) == Without(last, Passed(before), Ends(versions))
  {
    var n := |versions| - 1;
    var before, last := versions[..n], versions[n];
    assert before[n - 1] <= last;
    WithoutDependsOnPrefix(before[n - 1], last, Passed(before), Ends(before), Ends(versions));
  }

  lemma LastPoll(versions: seq<seq<Line>>)
    requires Growing(versions) && versions != []
    ensures var before, last := versions[..|versions| - 1], versions[|versions| - 1];
            && Passed(before) <= |last|
            && Without(last, Passed(before), Ends(versions)) + Page(last, Cursor(before))
               == Without(last, Passed(versions), Ends(versions))
  {
    var n := |versions| - 1;
    var before, last := versions[..n], versions[n];
    var from := Cursor(before);
    CursorBounds(versions);
    CursorBounds(before);
    if before != [] { PassedBefore(versions); }
    if from <= |last| {
      PollEmits(last, Passed(before), from, Ends(versions));
    }
  }

  /** Over any number of polls of a growing file, the lines returned are, in order, the complete
      lines passed, except the one that became complete first after each poll that met the end. */
  lemma {:induction false} PollsEmit(versions: seq<seq<Line>>)
    requires Growing(versions) && versions != []
    ensures Emitted(versions) == Without(versions[|versions| - 1], Passed(versions), Ends(versions))
  {
    var before := versions[..|versions| - 1];
    LastPoll(versions);
    if before != [] {
      PollsEmit(before);
      PassedBefore(versions);
    }
  }

  lemma {:induction false} WithoutIsShorter(lines: seq<Line>, m: nat, gaps: set<nat>)
    requires m <= |lines|
    ensures |Without(lines, m, gaps)| <= m
    ensures |Without(lines, m, gaps)| == m <==> forall k | k < m :: k !in gaps
  {
    if m > 0 { WithoutIsShorter(lines, m - 1, gaps); }
  }

  lemma {:induction false} EndsAreVersionLengths(versions: seq<seq<Line>>, k: nat)
    requires Growing(versions) && k in Ends(versions)
    ensures versions != [] && k <= |versions[|versions| - 1]|
  {
    var n := |versions| - 1;
    if k != |versions[n]| {
      EndsAreVersionLengths(versions[..n], k);
      assert versions[n - 1] <= versions[n];
    }
  }

  const PAGE := MAX_LOG_LINES + 1

  /** The file is long enough for so many pages whenever a page is asked for. */
  predicate AlwaysAhead(versions: seq<seq<Line>>) {
    forall i | 0 <= i < |versions| :: |versions[i]| >= PAGE * (i + 1)
  }

  lemma {:induction false} NoEndIff(versions: seq<seq<Line>>)
    requires Growing(versions)
    ensures Ends(versions) == {} <==> AlwaysAhead(versions)
    ensures AlwaysAhead(versions) ==> Cursor(versions) == PAGE * |versions|
  {
    if versions != [] {
      var n := |versions| - 1;
      var before := versions[..n];
      NoEndIff(before);
      assert AlwaysAhead(versions) <==> AlwaysAhead(before) && |versions[n]| >= PAGE * (n + 1);
      if Ends(before) != {} {
        var k :| k in Ends(before);
        assert k in Ends(versions);
      } else if |versions[n]| < PAGE * (n + 1) {
        if n > 0 { assert versions[n - 1] <= versions[n]; }
        assert |versions[n]| in Ends(versions);
      }
    }
  }

  /** Until the file has `m` lines, it is long enough for so many pages whenever one is asked for. */
  predicate AheadUntil(versions: seq<seq<Line>>, m: nat) {
    forall i | 0 <= i < |versions| :: |versions[i]| == m || |versions[i]| >= PAGE * (i + 1)
  }

  ghost predicate EndsOnlyAt(versions: seq<seq<Line>>, m: nat) {
    forall k | k in Ends(versions) :: k == m
  }

  lemma AheadOneMore(versions: seq<seq<Line>>, m: nat)
    requires versions != []
    ensures var n := |versions| - 1;
            AheadUntil(versions, m) <==> AheadUntil(versions[..n], m) && (|versions[n]| == m || |versions[n]| >= PAGE * (n + 1))
  {}

  /** A poll after none that met the end. */
  lemma FirstEndIff(versions: seq<seq<Line>>, m: nat)
    requires Growing(versions) && versions != [] && Ends(versions[..|versions| - 1]) == {}
    ensures var n := |versions| - 1;
            EndsOnlyAt(versions, m) <==> |versions[n]| == m || |versions[n]| >= PAGE * (n + 1)
  {
    var n := |versions| - 1;
    NoEndIff(versions[..n]);
    if n > 0 { assert versions[n - 1] <= versions[n] && |versions[..n][n - 1]| >= PAGE * n; }
    if |versions[n]| >= PAGE * (n + 1) {
      assert Ends(versions) == {};
    } else {
      assert |versions[n]| in Ends(versions);
    }
  }

  lemma {:induction false} OnlyEndIff(versions: seq<seq<Line>>, m: nat)
    requires Growing(versions) && forall i | 0 <= i < |versions| :: |versions[i]| <= m
    ensures EndsOnlyAt(versions, m) <==> AheadUntil(versions, m)
  {
    if versions != [] {
      var n := |versions| - 1;
      var before := versions[..n];
      OnlyEndIff(before, m);
      AheadOneMore(versions, m);
      if Ends(before) == {} {
        FirstEndIff(versions, m);
      } else {
        var k :| k in Ends(before);
        EndsAreVersionLengths(before, k);
        assert k in Ends(versions) && versions[n - 1] <= versions[n];
      }
    }
  }

  /** The polls return every line they have been past if and only if, at every poll before the file
      had its last length, there was a whole page of lines for it and for each poll before it. */
  lemma NothingSkippedIff(versions: seq<seq<Line>>)
    requires Growing(versions) && versions != []
    ensures var last := versions[|versions| - 1];
            Emitted(versions) == last[..Passed(versions)] <==> AheadUntil(versions, |last|)
  {
    var last := versions[|versions| - 1];
    SkipsAtEnds(versions);
    forall i | 0 <= i < |versions| ensures |versions[i]| <= |last| { assert versions[i] <= last; }
    OnlyEndIff(versions, |last|);
  }

  /** In terms of the polls: none met the end of a version that was still to grow. */
  lemma SkipsAtEnds(versions: seq<seq<Line>>)
    requires Growing(versions) && versions != []
    ensures var last := versions[|versions| - 1];
            Emitted(versions) == last[..Passed(versions)] <==> EndsOnlyAt(versions, |last|)
  {
    var last := versions[|versions| - 1];
    var passed := Passed(versions);
    PollsEmit(versions);
    CursorBounds(versions);
    WithoutIsShorter(last, passed, Ends(versions));
    forall k | k in Ends(versions) ensures k <= |last| { EndsAreVersionLengths(versions, k); }
    if forall k | k in Ends(versions) :: k == |last| {
      WithoutNoGaps(last, 0, passed, Ends(versions));
    }
  }

  /** For example, of a file read to its end after one line, a second line is never returned. */
  lemma SecondLineSkipped(first: Line, second: Line, polls: nat)
    ensures Emitted([[first]] + seq(polls, i => [first, second])) == [first]
  {
    var versions := [[first]] + seq(polls, i => [first, second]);
    if polls == 0 {
      assert versions[..0] == [];
    } else {
      SecondLineSkipped(first, second, polls - 1);
      FirstCursor(first, second, polls - 1);
      assert versions[..polls] == [[first]] + seq(polls - 1, i => [first, second]);
    }
  }

  lemma FirstCursor(first: Line, second: Line, polls: nat)
    ensures Cursor([[first]] + seq(polls, i => [first, second])) == if polls == 0 then 2 else 3
  {
    var versions := [[first]] + seq(polls, i => [first, second]);
    if polls == 0 {
      assert versions[..0] == [];
    } else {
      FirstCursor(first, second, polls - 1);
      assert versions[..polls] == [[first]] + seq(polls - 1, i => [first, second]);
    }
  }

  function Again(lines: seq<Line>, polls: nat): seq<seq<Line>> { seq(polls, i => lines) }

  lemma {:induction false} FixedFileCursor(lines: seq<Line>, polls: nat)
    ensures Cursor(Again(lines, polls)) == if polls <= |lines| / PAGE then PAGE * polls else |lines| + 1
    ensures forall k | k in Ends(Again(lines, polls)) :: k == |lines|
  {
    if polls > 0 {
      assert Again(lines, polls)[..polls - 1] == Again(lines, polls - 1);
      FixedFileCursor(lines, polls - 1);
    }
  }

  /** Polling a file of `n` complete lines that no longer grows: the cursor first becomes `n + 1`
      with poll number `n / 257 + 1` and stays there, and from then on every line has been returned
      exactly once and in order. */
  lemma FixedFileIsReadOnce(lines: seq<Line>, polls: nat)
    ensures Cursor(Again(lines, polls)) == |lines| + 1 <==> polls >= |lines| / 257 + 1
    ensures polls >= |lines| / 257 + 1 ==> Emitted(Again(lines, polls)) == lines
  {
    FixedFileCursor(lines, polls);
    if polls >= |lines| / PAGE + 1 {
      NothingSkippedIff(Again(lines, polls));
      assert lines[..|lines|] == lines;
    }
  }

  // ---- What a client of the EKS reader sees ----

  /** A line that parses gives its message, one that does not gives nothing. */
  lemma MessagesOfOne(line: Line, parse: Parser)
    ensures Messages([], parse) == ""
    ensures Messages([line], parse) == if parse(line) == None then "" else parse(line).value
  {
    assert [line][..0] == [];
  }

  lemma {:induction false} MessagesOfBoth(a: seq<Line>, b: seq<Line>, parse: Parser)
    ensures Messages(a + b, parse) == Messages(a, parse) + Messages(b, parse)
  {
    if b == [] {
      assert a + b == a;
    } else {
      assert (a + b)[..|a + b| - 1] == a + b[..|b| - 1];
      MessagesOfBoth(a, b[..|b| - 1], parse);
    }
  }

  function LinesOf(files: seq<string>): seq<seq<Line>> { seq(|files|, i requires 0 <= i < |files| => Lines(files[i])) }

  lemma AppendOnlyFilesGrow(files: seq<string>)
    requires forall i, j | 0 <= i <= j < |files| :: files[i] <= files[j]
    ensures Growing(LinesOf(files))
  {
    forall i, j | 0 <= i <= j < |files| ensures LinesOf(files)[i] <= LinesOf(files)[j] {
      LinesOfLonger(files[i], files[j]);
    }
  }

  /** Polling each version of a file once, every returned cursor fed back into the next call. */
  method PollAll(files: seq<string>, parse: Parser) returns (seen: string, cursor: nat)
    requires forall i, j | 0 <= i <= j < |files| :: files[i] <= files[j]
    ensures cursor == Cursor(LinesOf(files))
    ensures seen == Messages(Emitted(LinesOf(files)), parse)
    ensures files != [] ==>
              seen == Messages(Without(Lines(files[|files| - 1]), Passed(LinesOf(files)), Ends(LinesOf(files))), parse)
  {
    seen, cursor := "", 0;
    for i := 0 to |files|
      invariant cursor == Cursor(LinesOf(files[..i]))
      invariant seen == Messages(Emitted(LinesOf(files[..i])), parse)
    {
      assert LinesOf(files[..i + 1])[..i] == LinesOf(files[..i]);
      var text, next := LogsToMessageString(files[i], cursor, parse);
      MessagesOfBoth(Emitted(LinesOf(files[..i])), Page(Lines(files[i]), cursor), parse);
      seen, cursor := seen + text, next;
    }
    assert files[..|files|] == files;
    AppendOnlyFilesGrow(files);
    if files != [] { PollsEmit(LinesOf(files)); }
  }

  // ---- The EMR reader ----

  ghost function Between(lines: seq<Line>, from: nat, to: nat): seq<Line>
    requires to <= |lines|
  {
    if from <= to then lines[from..to] else []
  }

  lemma BetweenOneMore(lines: seq<Line>, from: nat, to: nat)
    requires from <= to < |lines|
    ensures Flatten(Between(lines, from, to + 1)) == Flatten(Between(lines, from, to)) + lines[to]
  {
    FlattenOneMore(Between(lines, from, to), lines[to]);
    assert Between(lines, from, to + 1) == Between(lines, from, to) + [lines[to]];
  }

  /** The loop of `emrLogsToMessageString`: everything from line `startPosition` on, unparsed. */
  method EmrLogs(text: string, startPosition: int) returns (acc: string, counter: nat)
    ensures var lines := Lines(text);
            var from := if startPosition <= 0 then 0 else startPosition;
            && acc == Flatten(if from <= |lines| then lines[from..] else [])
            && counter == |lines|
  {
    ghost var lines := Lines(text);
    ghost var from := if startPosition <= 0 then 0 else startPosition;
    var reader := new Reader(text);
    acc, counter := "", 0;
    while true
      invariant counter <= |lines| && reader.Valid() && reader.ahead == lines[counter..]
      invariant acc == Flatten(Between(lines, from, counter))
      decreases |lines| - counter
    {
      var line := reader.ReadBytes();
      if line.None? {
        assert Between(lines, from, |lines|) == if from <= |lines| then lines[from..] else [];
        return;
      }
      if counter >= startPosition {
        BetweenOneMore(lines, from, counter);
        acc := acc + line.value;
      }
      counter := counter + 1;
    }
  }

  lemma {:induction false} FlattenOneMore(lines: seq<Line>, line: Line)
    ensures Flatten(lines + [line]) == Flatten(lines) + line
  {
    if lines != [] {
      assert (lines + [line])[1..] == lines[1..] + [line];
      FlattenOneMore(lines[1..], line);
    }
  }

  /** Polling each version of an append-only EMR log once: exactly its complete lines at the last
      poll, none lost and none repeated. */
  method PollAllEmr(files: seq<string>) returns (seen: string, cursor: nat)
    requires forall i, j | 0 <= i <= j < |files| :: files[i] <= files[j]
    ensures files == [] ==> seen == ""
    ensures files != [] ==> seen == Flatten(Lines(files[|files| - 1])) && cursor == |Lines(files[|files| - 1])|
  {
    seen, cursor := "", 0;
    for i := 0 to |files|
      invariant i == 0 ==> seen == "" && cursor == 0
      invariant i > 0 ==> seen == Flatten(Lines(files[i - 1])) && cursor == |Lines(files[i - 1])|
    {
      ghost var before, lines := if i == 0 then [] else Lines(files[i - 1]), Lines(files[i]);
      if i > 0 { LinesOfLonger(files[i - 1], files[i]); }
      assert before <= lines && |before| == cursor && seen == Flatten(before);
      var text, next := EmrLogs(files[i], cursor);
      FlattenRest(before, lines);
      seen, cursor := seen + text, next;
    }
  }

  lemma FlattenRest(before: seq<Line>, lines: seq<Line>)
    requires before <= lines
    ensures Flatten(before) + Flatten(lines[|before|..]) == Flatten(lines)
  {
    FlattenBoth(before, lines[|before|..]);
    assert before + lines[|before|..] == lines;
  }

  lemma {:induction false} FlattenBoth(a: seq<Line>, b: seq<Line>)
    ensures Flatten(a + b) == Flatten(a) + Flatten(b)
  {
    if a == [] {
      assert a + b == b;
    } else {
      assert (a + b)[1..] == a[1..] + b;
      FlattenBoth(a[1..], b);
    }
  }
}
