/** Live activity and its catch-up: the tailer of `orchestrator/adapters.py` over any chunking of a
    stream, and the idempotent replay of `orchestrator/service.py`. */
module RunnerActivity {
  import opened Common
  import opened RunnerModels
  import opened RunnerStore

  /** A decoded character, newlines already translated: LF, another character `splitlines` breaks on
      (such as form feed or U+2028), or an ordinary one. */
  datatype Char = Lf | Break(code: nat) | Plain(code: nat)

  type Line = seq<Char>

  // ---------------------------------------------------------------------------------------------
  // Two ways to split

  /** Split after every LF, and after every other break too if `all`; a last part without an end is kept. */
  function Split(text: Line, all: bool): seq<Line> {
    if text == [] then []
    else
      var rest := Split(text[1..], all);
      if text[0] == Lf || (text[0].Break? && all) || rest == [] then [[text[0]]] + rest
      else [[text[0]] + rest[0]] + rest[1..]
  }

  /** `splitlines(keepends=True)`. */
  function SplitLines(text: Line): seq<Line> { Split(text, true) }

  /** Iterating over the file: it breaks at LF alone. */
  function FileLines(text: Line): seq<Line> { Split(text, false) }

  predicate Complete(line: Line) { line != [] && line[|line| - 1] == Lf }

  /** Some break other than LF has a character after it. */
  predicate BreakFollowed(text: Line) {
    exists i :: 0 <= i < |text| - 1 && text[i].Break?
  }

  // ---------------------------------------------------------------------------------------------
  // The tailer

  /** The pieces of one read: complete ones are emitted, any other replaces the buffer. */
  function Sift(pieces: seq<Line>, emitted: seq<Line>, buffer: Line): (seq<Line>, Line) {
    if pieces == [] then (emitted, buffer)
    else if Complete(pieces[0]) then Sift(pieces[1..], emitted + [pieces[0]], buffer)
    else Sift(pieces[1..], emitted, pieces[0])
  }

  function Read(emitted: seq<Line>, buffer: Line, chunk: Line): (seq<Line>, Line) {
    Sift(SplitLines(buffer + chunk), emitted, [])
  }

  function ReadAll(chunks: seq<Line>): (seq<Line>, Line) {
    if chunks == [] then ([], [])
    else
      var (emitted, buffer) := ReadAll(chunks[..|chunks| - 1]);
      Read(emitted, buffer, chunks[|chunks| - 1])
  }

  /** Everything the tailer emits once the process has ended, the last buffer included. */
  function Tailed(chunks: seq<Line>): seq<Line> {
    var (emitted, buffer) := ReadAll(chunks);
    WithBuffer(emitted, buffer)
  }

  function Concat(parts: seq<Line>): Line {
    if parts == [] then [] else Concat(parts[..|parts| - 1]) + parts[|parts| - 1]
  }

  /** `tail_output`: the (sequence, line) pairs it enqueues over one sequence of reads. */
  method TailOutput(chunks: seq<Line>) returns (enqueued: seq<(nat, Line)>)
    ensures enqueued == Numbered(Tailed(chunks))
  {
    var buffer: Line := [];
    var sequence: nat := 0;
    enqueued := [];
    ghost var emitted: seq<Line> := [];
    for i := 0 to |chunks|
      invariant (emitted, buffer) == ReadAll(chunks[..i])
      invariant sequence == |emitted| && enqueued == Numbered(emitted)
    {
      assert chunks[..i + 1][..i] == chunks[..i];
      var lines := SplitLines(buffer + chunks[i]);
      ghost var after := Sift(lines, emitted, []);
      buffer := [];
      for j := 0 to |lines|
        invariant Sift(lines[j..], emitted, buffer) == after
        invariant sequence == |emitted| && enqueued == Numbered(emitted)
      {
        assert lines[j..][1..] == lines[j + 1..];
        if Complete(lines[j]) {
          sequence := sequence + 1;
          enqueued := enqueued + [(sequence, lines[j])];
          emitted := emitted + [lines[j]];
          assert emitted[..|emitted| - 1] + [lines[j]] == emitted;
        } else {
          buffer := lines[j];
        }
      }
    }
    assert chunks[..|chunks|] == chunks;
    if buffer != [] {
      sequence := sequence + 1;
      enqueued := enqueued + [(sequence, buffer)];
      assert (emitted + [buffer])[..|emitted|] == emitted;
    }
  }

  /** Lines with their one-based positions. */
  function Numbered(lines: seq<Line>): (r: seq<(nat, Line)>)
    ensures |r| == |lines|
    ensures forall i :: 0 <= i < |lines| ==> r[i] == (i + 1, lines[i])
  {
    if lines == [] then []
    else Numbered(lines[..|lines| - 1]) + [(|lines|, lines[|lines| - 1])]
  }

  // ---------------------------------------------------------------------------------------------
  // Tail and file agree exactly on streams without a followed break

  lemma {:induction false} SplitsAgree(text: Line)
    requires !BreakFollowed(text)
    ensures SplitLines(text) == FileLines(text)
  {
    if text != [] {
      SplitsAgree(text[1..]);
    }
  }

  predicate LfOnlyLast(line: Line) {
    forall i :: 0 <= i < |line| - 1 ==> line[i] != Lf
  }

  lemma {:induction false} FileLinesJoin(text: Line)
    ensures Concat(FileLines(text)) == text
  {
    if text == [] {
      assert Concat([]) == [];
    } else {
      hide Concat;
      FileLinesJoin(text[1..]);
      var rest := FileLines(text[1..]);
      if text[0] == Lf || rest == [] {
        ConcatCons([text[0]], rest);
      } else {
        ConcatCons(rest[0], rest[1..]);
        assert [rest[0]] + rest[1..] == rest;
        ConcatCons([text[0]] + rest[0], rest[1..]);
      }
    }
  }

  lemma {:induction false} FileLinesForm(text: Line)
    ensures forall i :: 0 <= i < |FileLines(text)| - 1 ==> Complete(FileLines(text)[i])
    ensures forall i :: 0 <= i < |FileLines(text)| ==> FileLines(text)[i] != [] && LfOnlyLast(FileLines(text)[i])
  {
    if text != [] {
      FileLinesForm(text[1..]);
      var rest := FileLines(text[1..]);
      if text[0] == Lf || rest == [] {
        assert FileLines(text) == [[text[0]]] + rest;
      } else {
        assert FileLines(text) == [[text[0]] + rest[0]] + rest[1..];
      }
    }
  }

  /** Complete lines, then at most one incomplete rest: what splitting a file gives. */
  lemma FileLinesShape(text: Line)
    ensures Concat(FileLines(text)) == text
    ensures forall i :: 0 <= i < |FileLines(text)| - 1 ==> Complete(FileLines(text)[i])
    ensures forall i :: 0 <= i < |FileLines(text)| ==> FileLines(text)[i] != [] && LfOnlyLast(FileLines(text)[i])
  {
    hide Concat, FileLines, Complete, LfOnlyLast;
    FileLinesJoin(text);
    FileLinesForm(text);
  }

  lemma {:induction false} ConcatCons(first: Line, rest: seq<Line>)
    ensures Concat([first] + rest) == first + Concat(rest)
  {
    if rest == [] {
      assert [first] + rest == [first];
      assert Concat([first]) == Concat([]) + first;
    } else {
      var front := rest[..|rest| - 1];
      ConcatCons(first, front);
      assert ([first] + rest)[..|rest|] == [first] + front;
    }
  }

  /** Complete lines in front split off one by one. */
  lemma {:induction false} FileLinesAfter(line: Line, text: Line)
    requires Complete(line) && LfOnlyLast(line)
    ensures FileLines(line + text) == [line] + FileLines(text)
  {
    if |line| == 1 {
      assert (line + text)[1..] == text;
      assert line == [Lf];
    } else {
      FileLinesAfter(line[1..], text);
      assert (line + text)[1..] == line[1..] + text;
      assert [line[0]] + line[1..] == line;
    }
  }

  lemma {:induction false} FileLinesAfterAll(lines: seq<Line>, text: Line)
    requires forall i :: 0 <= i < |lines| ==> Complete(lines[i]) && LfOnlyLast(lines[i])
    ensures FileLines(Concat(lines) + text) == lines + FileLines(text)
  {
    if lines == [] {
      assert Concat(lines) + text == text;
    } else {
      var front, last := lines[..|lines| - 1], lines[|lines| - 1];
      FileLinesAfterAll(front, last + text);
      FileLinesAfter(last, text);
      assert Concat(lines) + text == Concat(front) + (last + text);
    }
  }

  lemma {:induction false} SiftShape(pieces: seq<Line>, emitted: seq<Line>, buffer: Line)
    requires pieces != [] && forall i :: 0 <= i < |pieces| - 1 ==> Complete(pieces[i])
    ensures var last := pieces[|pieces| - 1];
      Sift(pieces, emitted, buffer)
        == if Complete(last) then (emitted + pieces, buffer) else (emitted + pieces[..|pieces| - 1], last)
  {
    if |pieces| == 1 {
      assert pieces == [pieces[0]] && pieces[1..] == [];
      assert emitted + pieces[..0] == emitted;
    } else {
      SiftShape(pieces[1..], emitted + [pieces[0]], buffer);
      assert [pieces[0]] + pieces[1..] == pieces;
      assert emitted + [pieces[0]] + pieces[1..] == emitted + pieces;
      assert emitted + [pieces[0]] + pieces[1..][..|pieces| - 2] == emitted + pieces[..|pieces| - 1];
    }
  }

  function WithBuffer(emitted: seq<Line>, buffer: Line): seq<Line> {
    if buffer == [] then emitted else emitted + [buffer]
  }

  lemma SiftLosesNothing(pieces: seq<Line>, emitted: seq<Line>)
    requires pieces != [] && pieces[|pieces| - 1] != []
    requires forall i :: 0 <= i < |pieces| - 1 ==> Complete(pieces[i])
    requires forall i :: 0 <= i < |emitted| ==> Complete(emitted[i])
    ensures WithBuffer(Sift(pieces, emitted, []).0, Sift(pieces, emitted, []).1) == emitted + pieces
    ensures forall i :: 0 <= i < |Sift(pieces, emitted, []).0| ==> Complete(Sift(pieces, emitted, []).0[i])
  {
    var front, last := pieces[..|pieces| - 1], pieces[|pieces| - 1];
    SiftShape(pieces, emitted, []);
    hide Sift, Complete;
    assert front + [last] == pieces;
    assert emitted + pieces == emitted + front + [last];
  }

  /** What one more read does to the pieces of what is left and the chunk. */
  lemma SiftFollowsFile(emitted: seq<Line>, text: Line)
    requires !BreakFollowed(text) && forall i :: 0 <= i < |emitted| ==> Complete(emitted[i])
    ensures var (emitted', buffer') := Sift(SplitLines(text), emitted, []);
      && WithBuffer(emitted', buffer') == emitted + FileLines(text)
      && forall i :: 0 <= i < |emitted'| ==> Complete(emitted'[i])
  {
    SplitsAgree(text);
    FileLinesShape(text);
    hide FileLines, SplitLines, BreakFollowed, Complete, LfOnlyLast, Concat, WithBuffer;
    if FileLines(text) == [] {
      NothingToSift(emitted);
    } else {
      SiftLosesNothing(FileLines(text), emitted);
    }
  }

  lemma NothingToSift(emitted: seq<Line>)
    ensures Sift([], emitted, []) == (emitted, []) && WithBuffer(emitted, []) == emitted + []
  {
  }

  lemma ReadFollowsFile(emitted: seq<Line>, buffer: Line, before: Line, chunk: Line)
    requires WithBuffer(emitted, buffer) == FileLines(before) && !BreakFollowed(before + chunk)
    requires forall i :: 0 <= i < |emitted| ==> Complete(emitted[i])
    ensures var (emitted', buffer') := Read(emitted, buffer, chunk);
      && WithBuffer(emitted', buffer') == FileLines(before + chunk)
      && forall i :: 0 <= i < |emitted'| ==> Complete(emitted'[i])
  {
    FileLinesShape(before);
    EmittedIsFront(emitted, buffer, before);
    assert before + chunk == Concat(emitted) + (buffer + chunk);
    FileLinesAfterAll(emitted, buffer + chunk);
    if BreakFollowed(buffer + chunk) {
      BreakInSuffix(Concat(emitted), buffer + chunk);
    }
    hide BreakFollowed, FileLines, Concat;
    SiftFollowsFile(emitted, buffer + chunk);
  }

  /** What has been emitted so far is the file's complete lines so far, whatever the chunks were. */
  lemma {:induction false} TailFollowsFile(chunks: seq<Line>)
    requires !BreakFollowed(Concat(chunks))
    ensures var (emitted, buffer) := ReadAll(chunks);
      && WithBuffer(emitted, buffer) == FileLines(Concat(chunks))
      && forall i :: 0 <= i < |emitted| ==> Complete(emitted[i])
  {
    if chunks != [] {
      var front, chunk := chunks[..|chunks| - 1], chunks[|chunks| - 1];
      var before := Concat(front);
      assert Concat(chunks) == before + chunk;
      if BreakFollowed(before) {
        BreakInPrefix(before, chunk);
      }
      hide BreakFollowed, FileLines;
      TailFollowsFile(front);
      var (emitted, buffer) := ReadAll(front);
      ReadFollowsFile(emitted, buffer, before, chunk);
    }
  }

  lemma BreakInPrefix(text: Line, suffix: Line)
    requires BreakFollowed(text)
    ensures BreakFollowed(text + suffix)
  {
    var i :| 0 <= i < |text| - 1 && text[i].Break?;
    assert (text + suffix)[i].Break?;
  }

  lemma BreakInSuffix(prefix: Line, text: Line)
    requires BreakFollowed(text)
    ensures BreakFollowed(prefix + text)
  {
    var i :| 0 <= i < |text| - 1 && text[i].Break?;
    assert (prefix + text)[|prefix| + i].Break?;
  }

  lemma EmittedIsFront(emitted: seq<Line>, buffer: Line, text: Line)
    requires WithBuffer(emitted, buffer) == FileLines(text) && Concat(FileLines(text)) == text
    requires forall i :: 0 <= i < |FileLines(text)| ==> LfOnlyLast(FileLines(text)[i])
    ensures text == Concat(emitted) + buffer
    ensures forall i :: 0 <= i < |emitted| ==> LfOnlyLast(emitted[i])
  {
    if buffer == [] {
      assert Concat(emitted) + buffer == Concat(emitted);
    } else {
      var lines := FileLines(text);
      assert lines[..|lines| - 1] == emitted;
    }
    forall i | 0 <= i < |emitted| ensures LfOnlyLast(emitted[i]) {
      assert emitted[i] == FileLines(text)[i];
    }
  }

  // No emitted line keeps a break inside it, but the file's lines do.

  predicate NoneBroken(lines: seq<Line>) {
    forall i :: 0 <= i < |lines| ==> !BreakFollowed(lines[i])
  }

  lemma {:induction false} PiecesAreUnbroken(text: Line)
    ensures NoneBroken(SplitLines(text))
    ensures forall i :: 0 <= i < |SplitLines(text)| ==> SplitLines(text)[i] != []
  {
    if text != [] {
      PiecesAreUnbroken(text[1..]);
    }
  }

  lemma {:induction false} SiftKeepsUnbroken(pieces: seq<Line>, emitted: seq<Line>, buffer: Line)
    requires NoneBroken(pieces) && NoneBroken(emitted) && !BreakFollowed(buffer)
    ensures NoneBroken(Sift(pieces, emitted, buffer).0) && !BreakFollowed(Sift(pieces, emitted, buffer).1)
  {
    if pieces != [] {
      if Complete(pieces[0]) {
        SiftKeepsUnbroken(pieces[1..], emitted + [pieces[0]], buffer);
      } else {
        SiftKeepsUnbroken(pieces[1..], emitted, pieces[0]);
      }
    }
  }

  lemma {:induction false} TailIsUnbroken(chunks: seq<Line>)
    ensures NoneBroken(ReadAll(chunks).0) && !BreakFollowed(ReadAll(chunks).1)
  {
    if chunks != [] {
      var front := chunks[..|chunks| - 1];
      TailIsUnbroken(front);
      var (emitted, buffer) := ReadAll(front);
      PiecesAreUnbroken(buffer + chunks[|chunks| - 1]);
      SiftKeepsUnbroken(SplitLines(buffer + chunks[|chunks| - 1]), emitted, []);
    }
  }

  lemma {:induction false} FileKeepsBreaks(text: Line)
    requires BreakFollowed(text)
    ensures !NoneBroken(FileLines(text))
  {
    var rest := FileLines(text[1..]);
    FileLinesShape(text[1..]);
    if text[0].Break? {
      assert text[1..] != [];
      assert rest != [];
      assert FileLines(text)[0] == [text[0]] + rest[0] && rest[0] != [];
      assert FileLines(text)[0][0].Break?;
    } else {
      var i :| 0 <= i < |text| - 1 && text[i].Break?;
      assert text[1..][i - 1].Break?;
      FileKeepsBreaks(text[1..]);
      var j :| 0 <= j < |rest| && BreakFollowed(rest[j]);
      if text[0] == Lf {
        assert FileLines(text)[j + 1] == rest[j];
      } else if j > 0 {
        assert FileLines(text)[j] == rest[j];
      } else {
        var k :| 0 <= k < |rest[0]| - 1 && rest[0][k].Break?;
        assert FileLines(text)[0][k + 1].Break?;
      }
    }
  }

  /** Over any chunking of a stream whose last read follows its last write, the tailer emits the same
      numbered lines as enumerating the file, if and only if no break other than LF is followed by
      another character. */
  lemma TailEqualsFileExactly(chunks: seq<Line>)
    ensures Numbered(Tailed(chunks)) == Numbered(FileLines(Concat(chunks))) <==> !BreakFollowed(Concat(chunks))
  {
    if BreakFollowed(Concat(chunks)) {
      FileKeepsBreaks(Concat(chunks));
      TailIsUnbroken(chunks);
      assert NoneBroken(Tailed(chunks));
      if Numbered(Tailed(chunks)) == Numbered(FileLines(Concat(chunks))) {
        NumberedIsInjective(Tailed(chunks), FileLines(Concat(chunks)));
      }
    } else {
      TailFollowsFile(chunks);
    }
  }

  lemma NumberedIsInjective(a: seq<Line>, b: seq<Line>)
    requires Numbered(a) == Numbered(b)
    ensures a == b
  {
    assert |a| == |Numbered(a)| == |b|;
    forall i | 0 <= i < |a| ensures a[i] == b[i] {
      assert Numbered(a)[i] == (i + 1, a[i]) && Numbered(b)[i] == (i + 1, b[i]);
    }
  }

  // ---------------------------------------------------------------------------------------------
  // Live delivery and replay

  /** Which stream of which run a line belongs to. */
  datatype Stream = Stream(run: Text, role: Role, invocation: Text, channel: Channel)

  function KeyOf(stream: Stream, sequence: nat): SourceKey {
    SourceKey(stream.role, stream.invocation, stream.channel, sequence)
  }

  /** `_record_activity_line` for lines in some order. `visible` is what `normalize_stream_line` makes of
      each line, nothing for a blank one; a payload is inserted under its position unless that position
      is already there. */
  function Record(rows: seq<ActivityRow>, stream: Stream, items: seq<(nat, Line)>, visible: imap<Line, Text>): seq<ActivityRow> {
    if items == [] then rows
    else
      var before := Record(rows, stream, items[..|items| - 1], visible);
      var (sequence, line) := items[|items| - 1];
      if line in visible then InsertActivity(before, ActivityRow(stream.run, KeyOf(stream, sequence), visible[line])) else before
  }

  function CountAt(rows: seq<ActivityRow>, run: Text, source: SourceKey): nat {
    if rows == [] then 0
    else
      CountAt(rows[..|rows| - 1], run, source)
      + (if rows[|rows| - 1].run == run && rows[|rows| - 1].source == source then 1 else 0)
  }

  lemma {:induction false} TakenIsCounted(rows: seq<ActivityRow>, run: Text, source: SourceKey)
    ensures SourceTaken(rows, run, source) <==> CountAt(rows, run, source) > 0
  {
    if rows != [] {
      TakenIsCounted(rows[..|rows| - 1], run, source);
    }
  }

  lemma InsertCounts(rows: seq<ActivityRow>, row: ActivityRow, run: Text, source: SourceKey)
    ensures CountAt(InsertActivity(rows, row), run, source)
            == if row.run == run && row.source == source && CountAt(rows, run, source) == 0 then 1 else CountAt(rows, run, source)
  {
    TakenIsCounted(rows, row.run, row.source);
    assert (rows + [row])[..|rows|] == rows;
  }

  /** One position: it ends with one event if a visible line was recorded there and with what it had
      before otherwise; other streams are untouched. */
  lemma {:induction false} RecordCounts(
    rows: seq<ActivityRow>, stream: Stream, items: seq<(nat, Line)>, visible: imap<Line, Text>, run: Text, source: SourceKey)
    ensures var here := exists i :: 0 <= i < |items| && items[i].1 in visible && run == stream.run && source == KeyOf(stream, items[i].0);
      CountAt(Record(rows, stream, items, visible), run, source)
        == if here && CountAt(rows, run, source) == 0 then 1 else CountAt(rows, run, source)
  {
    if items != [] {
      var front, last := items[..|items| - 1], items[|items| - 1];
      RecordCounts(rows, stream, front, visible, run, source);
      var before := Record(rows, stream, front, visible);
      if last.1 in visible {
        InsertCounts(before, ActivityRow(stream.run, KeyOf(stream, last.0), visible[last.1]), run, source);
      }
      assert forall i :: 0 <= i < |front| ==> front[i] == items[i];
    }
  }

  /** The event belongs to this stream. */
  predicate InStream(stream: Stream, run: Text, source: SourceKey) {
    run == stream.run && source.role == stream.role && source.invocation == stream.invocation && source.channel == stream.channel
  }

  /** Whatever subset of its lines was delivered live, in whatever order and however often, replaying
      the file leaves exactly one event for each visible line and none for a blank one, and leaves every
      other stream as it was. */
  lemma ReplayCompletesLiveDelivery(
    rows: seq<ActivityRow>, stream: Stream, text: Line, live: seq<(nat, Line)>, visible: imap<Line, Text>)
    requires forall i :: 0 <= i < |live| ==> live[i] in Numbered(FileLines(text))
    requires forall sequence :: CountAt(rows, stream.run, KeyOf(stream, sequence)) == 0
    ensures var after := Record(Record(rows, stream, live, visible), stream, Numbered(FileLines(text)), visible);
      && (forall i :: 0 <= i < |FileLines(text)| ==>
            CountAt(after, stream.run, KeyOf(stream, i + 1)) == if FileLines(text)[i] in visible then 1 else 0)
      && (forall run, source :: !InStream(stream, run, source) ==> CountAt(after, run, source) == CountAt(rows, run, source))
  {
    var lines := Numbered(FileLines(text));
    var between := Record(rows, stream, live, visible);
    forall i | 0 <= i < |FileLines(text)|
      ensures CountAt(Record(between, stream, lines, visible), stream.run, KeyOf(stream, i + 1)) == if FileLines(text)[i] in visible then 1 else 0
    {
      RecordCounts(rows, stream, live, visible, stream.run, KeyOf(stream, i + 1));
      RecordCounts(between, stream, lines, visible, stream.run, KeyOf(stream, i + 1));
      assert lines[i] == (i + 1, FileLines(text)[i]);
    }
    forall run, source | !InStream(stream, run, source)
      ensures CountAt(Record(between, stream, lines, visible), run, source) == CountAt(rows, run, source)
    {
      RecordCounts(rows, stream, live, visible, run, source);
      RecordCounts(between, stream, lines, visible, run, source);
    }
  }

  /** Every recorded event was there before or shows one of the lines, at its position. */
  lemma {:induction false} RecordShows(
    rows: seq<ActivityRow>, stream: Stream, items: seq<(nat, Line)>, visible: imap<Line, Text>, row: ActivityRow)
    requires row in Record(rows, stream, items, visible)
    ensures row in rows || exists i :: 0 <= i < |items| && Event(stream, items[i], visible, row)
  {
    if items != [] {
      var front, last := items[..|items| - 1], items[|items| - 1];
      if row in Record(rows, stream, front, visible) {
        RecordShows(rows, stream, front, visible, row);
        assert forall i :: 0 <= i < |front| ==> front[i] == items[i];
      } else {
        assert Event(stream, last, visible, row);
      }
    }
  }

  /** The event that a visible line is recorded as. */
  ghost predicate Event(stream: Stream, item: (nat, Line), visible: imap<Line, Text>, row: ActivityRow) {
    item.1 in visible && row == ActivityRow(stream.run, KeyOf(stream, item.0), visible[item.1])
  }

  lemma {:induction false} CountedIsThere(rows: seq<ActivityRow>, run: Text, source: SourceKey) returns (row: ActivityRow)
    requires CountAt(rows, run, source) > 0
    ensures row in rows && row.run == run && row.source == source
  {
    var last := rows[|rows| - 1];
    if last.run == run && last.source == source {
      row := last;
    } else {
      row := CountedIsThere(rows[..|rows| - 1], run, source);
    }
  }

  lemma {:induction false} ThereIsCounted(rows: seq<ActivityRow>, row: ActivityRow)
    requires row in rows
    ensures CountAt(rows, row.run, row.source) > 0
  {
    if rows[|rows| - 1] != row {
      ThereIsCounted(rows[..|rows| - 1], row);
    }
  }

  lemma PositionIsItsLine(stream: Stream, lines: seq<Line>, item: (nat, Line), i: nat)
    requires item in Numbered(lines) && i < |lines| && KeyOf(stream, item.0) == KeyOf(stream, i + 1)
    ensures item == (i + 1, lines[i])
  {
    var j :| 0 <= j < |lines| && Numbered(lines)[j] == item;
  }

  /** After the replay the event at the position of a visible line shows that line. */
  lemma EventShowsItsLine(
    rows: seq<ActivityRow>, stream: Stream, text: Line, live: seq<(nat, Line)>, visible: imap<Line, Text>, i: nat)
    requires forall k :: 0 <= k < |live| ==> live[k] in Numbered(FileLines(text))
    requires forall sequence :: CountAt(rows, stream.run, KeyOf(stream, sequence)) == 0
    requires i < |FileLines(text)| && FileLines(text)[i] in visible
    ensures var after := Record(Record(rows, stream, live, visible), stream, Numbered(FileLines(text)), visible);
      ActivityRow(stream.run, KeyOf(stream, i + 1), visible[FileLines(text)[i]]) in after
  {
    hide Record, CountAt, FileLines, Numbered, InStream;
    ReplayCompletesLiveDelivery(rows, stream, text, live, visible);
    var lines := Numbered(FileLines(text));
    var between := Record(rows, stream, live, visible);
    var after := Record(between, stream, lines, visible);
    var row := CountedIsThere(after, stream.run, KeyOf(stream, i + 1));
    RecordShows(between, stream, lines, visible, row);
    if row in between {
      RecordShows(rows, stream, live, visible, row);
      if row in rows {
        ThereIsCounted(rows, row);
        assert false;
      }
      var k :| 0 <= k < |live| && Event(stream, live[k], visible, row);
      PositionIsItsLine(stream, FileLines(text), live[k], i);
    } else {
      var j :| 0 <= j < |lines| && Event(stream, lines[j], visible, row);
      PositionIsItsLine(stream, FileLines(text), lines[j], i);
    }
  }

  /** The whole path: over a stream without a followed break, the tailer's own pairs, any part of them
      delivered, then the replay. */
  lemma TailThenReplay(
    rows: seq<ActivityRow>, stream: Stream, chunks: seq<Line>, delivered: seq<(nat, Line)>, visible: imap<Line, Text>)
    requires !BreakFollowed(Concat(chunks))
    requires forall i :: 0 <= i < |delivered| ==> delivered[i] in Numbered(Tailed(chunks))
    requires forall sequence :: CountAt(rows, stream.run, KeyOf(stream, sequence)) == 0
    ensures var lines := FileLines(Concat(chunks));
      var after := Record(Record(rows, stream, delivered, visible), stream, Numbered(lines), visible);
      forall i :: 0 <= i < |lines| ==>
        && CountAt(after, stream.run, KeyOf(stream, i + 1)) == (if lines[i] in visible then 1 else 0)
        && (lines[i] in visible ==> ActivityRow(stream.run, KeyOf(stream, i + 1), visible[lines[i]]) in after)
  {
    TailEqualsFileExactly(chunks);
    ReplayCompletesLiveDelivery(rows, stream, Concat(chunks), delivered, visible);
    hide Record, CountAt, Tailed, FileLines;
    forall i | 0 <= i < |FileLines(Concat(chunks))| && FileLines(Concat(chunks))[i] in visible
      ensures ActivityRow(stream.run, KeyOf(stream, i + 1), visible[FileLines(Concat(chunks))[i]])
        in Record(Record(rows, stream, delivered, visible), stream, Numbered(FileLines(Concat(chunks))), visible)
    {
      EventShowsItsLine(rows, stream, Concat(chunks), delivered, visible, i);
    }
  }

  // ---------------------------------------------------------------------------------------------
  // Through the store, with its session pin

  /** What `normalize_stream_line` makes of a line; some lines name the agent's session. */
  datatype Shown = Shown(payload: Text, session: Option<Text>)

  ghost function Payloads(visible: imap<Line, Shown>): imap<Line, Text> { imap line | line in visible :: visible[line].payload }

  /** `_record_activity_line`: one call of `append_activity_event`, and whether it raised nothing. */
  function Append(db: Db, stream: Stream, item: (nat, Line), visible: imap<Line, Shown>): (Db, bool) {
    if item.1 !in visible then (db, true)
    else
      var shown := visible[item.1];
      var pin := if shown.session.Some? then Some((stream.role, shown.session.value)) else None;
      var (db', r) := AppendActivity(db, ActivityRow(stream.run, KeyOf(stream, item.0), shown.payload), pin);
      (db', r.Ok?)
  }

  /** Live delivery goes on after an exception. */
  function Live(db: Db, stream: Stream, items: seq<(nat, Line)>, visible: imap<Line, Shown>): Db {
    if items == [] then db
    else Append(Live(db, stream, items[..|items| - 1], visible), stream, items[|items| - 1], visible).0
  }

  /** The replay ends at the first exception. */
  function CatchUp(db: Db, stream: Stream, items: seq<(nat, Line)>, visible: imap<Line, Shown>): (Db, bool) {
    if items == [] then (db, true)
    else
      var (before, ok) := CatchUp(db, stream, items[..|items| - 1], visible);
      if !ok then (before, false) else Append(before, stream, items[|items| - 1], visible)
  }

  predicate Names(item: (nat, Line), visible: imap<Line, Shown>, session: Text) {
    item.1 in visible && visible[item.1].session == Some(session)
  }

  ghost predicate SessionNamed(items: seq<(nat, Line)>, visible: imap<Line, Shown>, session: Text) {
    exists i :: 0 <= i < |items| && Names(items[i], visible, session)
  }

  /** All sessions that the lines name are one, and it is the persisted one if there is one. */
  ghost predicate SessionsAgree(persisted: Option<Text>, items: seq<(nat, Line)>, visible: imap<Line, Shown>) {
    && (forall session :: SessionNamed(items, visible, session) ==> persisted in {None, Some(session)})
    && (forall session, session' :: SessionNamed(items, visible, session) && SessionNamed(items, visible, session') ==> session == session')
  }

  lemma AppendSpelled(db: Db, stream: Stream, item: (nat, Line), visible: imap<Line, Shown>)
    requires stream.run in db.runs
    ensures var (db', ok) := Append(db, stream, item, visible);
      && stream.run in db'.runs
      && var before, after := SessionOf(db.runs[stream.run].usage, stream.role), SessionOf(db'.runs[stream.run].usage, stream.role);
      && (ok <==> forall session :: Names(item, visible, session) ==> before in {None, Some(session)})
      && (forall session :: ok && Names(item, visible, session) ==> after == Some(session))
      && ((forall session :: !Names(item, visible, session)) || !ok ==> after == before)
      && db'.activity == (if ok then Record(db.activity, stream, [item], Payloads(visible)) else db.activity)
  {
    assert [item][..0] == [];
    if item.1 in visible && visible[item.1].session.Some? {
      assert Names(item, visible, visible[item.1].session.value);
    }
  }

  lemma {:induction false} RecordOn(
    rows: seq<ActivityRow>, stream: Stream, items: seq<(nat, Line)>, item: (nat, Line), visible: imap<Line, Text>)
    ensures Record(rows, stream, items + [item], visible) == Record(Record(rows, stream, items, visible), stream, [item], visible)
  {
    assert (items + [item])[..|items|] == items;
    assert [item][..0] == [];
  }

  /** A replay that completes has recorded every line. */
  lemma {:induction false} CatchUpRecords(db: Db, stream: Stream, items: seq<(nat, Line)>, visible: imap<Line, Shown>)
    requires stream.run in db.runs
    ensures var (db', ok) := CatchUp(db, stream, items, visible);
      stream.run in db'.runs && (ok ==> db'.activity == Record(db.activity, stream, items, Payloads(visible)))
  {
    if items != [] {
      hide Append, Record;
      var front, last := items[..|items| - 1], items[|items| - 1];
      CatchUpRecords(db, stream, front, visible);
      AppendSpelled(CatchUp(db, stream, front, visible).0, stream, last, visible);
      assert items == front + [last];
      RecordOn(db.activity, stream, front, last, Payloads(visible));
    } else {
      hide Append;
    }
  }

  /** Live delivery has recorded some of the lines it was given. */
  lemma {:induction false} LiveRecords(db: Db, stream: Stream, items: seq<(nat, Line)>, visible: imap<Line, Shown>)
    returns (kept: seq<(nat, Line)>)
    requires stream.run in db.runs
    ensures stream.run in Live(db, stream, items, visible).runs
    ensures forall k :: k in kept ==> k in items
    ensures Live(db, stream, items, visible).activity == Record(db.activity, stream, kept, Payloads(visible))
  {
    kept := [];
    if items != [] {
      hide Append, Record;
      var front, last := items[..|items| - 1], items[|items| - 1];
      var some := LiveRecords(db, stream, front, visible);
      var before := Live(db, stream, front, visible);
      AppendSpelled(before, stream, last, visible);
      RecordOn(db.activity, stream, some, last, Payloads(visible));
      kept := if Append(before, stream, last, visible).1 then some + [last] else some;
    }
  }

  /** Where the persisted session stands after a replay so far. */
  lemma {:induction false} CatchUpCompletesExactly(db: Db, stream: Stream, items: seq<(nat, Line)>, visible: imap<Line, Shown>)
    requires stream.run in db.runs
    ensures var (db', ok) := CatchUp(db, stream, items, visible);
      && stream.run in db'.runs
      && var before, after := SessionOf(db.runs[stream.run].usage, stream.role), SessionOf(db'.runs[stream.run].usage, stream.role);
      && (ok <==> SessionsAgree(before, items, visible))
      && (ok ==> forall session :: SessionNamed(items, visible, session) ==> after == Some(session))
      && (ok && (forall session :: !SessionNamed(items, visible, session)) ==> after == before)
  {
    if items != [] {
      hide Append, Names, SessionOf;
      var front, last := items[..|items| - 1], items[|items| - 1];
      CatchUpCompletesExactly(db, stream, front, visible);
      AppendSpelled(CatchUp(db, stream, front, visible).0, stream, last, visible);
      AgreeOn(SessionOf(db.runs[stream.run].usage, stream.role), front, last, visible);
      assert items == front + [last];
    }
  }

  lemma NamedOn(front: seq<(nat, Line)>, last: (nat, Line), visible: imap<Line, Shown>, session: Text)
    ensures SessionNamed(front + [last], visible, session) <==> SessionNamed(front, visible, session) || Names(last, visible, session)
  {
    var items := front + [last];
    if SessionNamed(front, visible, session) {
      var i :| 0 <= i < |front| && Names(front[i], visible, session);
      assert Names(items[i], visible, session);
    }
    if Names(last, visible, session) {
      assert Names(items[|front|], visible, session);
    }
  }

  lemma AgreeOn(persisted: Option<Text>, front: seq<(nat, Line)>, last: (nat, Line), visible: imap<Line, Shown>)
    ensures SessionsAgree(persisted, front + [last], visible) <==>
      && SessionsAgree(persisted, front, visible)
      && forall session :: Names(last, visible, session) ==>
           persisted in {None, Some(session)} && forall session' :: SessionNamed(front, visible, session') ==> session' == session
    ensures forall session :: SessionNamed(front + [last], visible, session) <==>
                              SessionNamed(front, visible, session) || Names(last, visible, session)
  {
    forall session
      ensures SessionNamed(front + [last], visible, session) <==> SessionNamed(front, visible, session) || Names(last, visible, session)
    {
      NamedOn(front, last, visible, session);
    }
    hide SessionNamed;
  }

  /** The whole path through the store: over a stream without a followed break, any part of the tailer's
      pairs delivered live, some of it refused, then the replay. The replay completes exactly when the
      file names no session but the persisted one, and then every visible line has exactly one event. */
  lemma TailThenCatchUp(
    db: Db, stream: Stream, chunks: seq<Line>, delivered: seq<(nat, Line)>, visible: imap<Line, Shown>)
    requires !BreakFollowed(Concat(chunks)) && stream.run in db.runs
    requires forall i :: 0 <= i < |delivered| ==> delivered[i] in Numbered(Tailed(chunks))
    requires forall sequence :: CountAt(db.activity, stream.run, KeyOf(stream, sequence)) == 0
    ensures var lines, live := FileLines(Concat(chunks)), Live(db, stream, delivered, visible);
      && stream.run in live.runs
      && var (after, ok) := CatchUp(live, stream, Numbered(lines), visible);
      && (ok <==> SessionsAgree(SessionOf(live.runs[stream.run].usage, stream.role), Numbered(lines), visible))
      && (ok ==> forall i :: 0 <= i < |lines| ==>
            && CountAt(after.activity, stream.run, KeyOf(stream, i + 1)) == (if lines[i] in visible then 1 else 0)
            && (lines[i] in visible ==>
                  ActivityRow(stream.run, KeyOf(stream, i + 1), visible[lines[i]].payload) in after.activity))
  {
    var lines := Numbered(FileLines(Concat(chunks)));
    var live := Live(db, stream, delivered, visible);
    var kept := LiveRecords(db, stream, delivered, visible);
    CatchUpRecords(live, stream, lines, visible);
    CatchUpCompletesExactly(live, stream, lines, visible);
    hide CatchUp, Live, Record, SessionsAgree, Tailed, FileLines, BreakFollowed, SessionOf;
    forall i | 0 <= i < |kept| ensures kept[i] in Numbered(Tailed(chunks)) {
      assert kept[i] in delivered;
    }
    TailThenReplay(db.activity, stream, chunks, kept, Payloads(visible));
  }
}
