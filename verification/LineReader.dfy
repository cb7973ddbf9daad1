/**
  Lines out of a child process's output. The reader is fed whatever pieces the operating system
  makes of the output, holds a bounded buffer, and delivers each line once, an over-long one cut
  to its head.
*/
module LineReader {
  import opened Text

  const MAX_LINE_LENGTH := 64 * 1024

  const TRUNCATED := "\U{2026} (truncated, line exceeded 65536 characters)"

  function Bounded(line: string): (r: string)
    ensures |r| <= MAX_LINE_LENGTH + |TRUNCATED|
  {
    if |line| > MAX_LINE_LENGTH then line[..MAX_LINE_LENGTH] + TRUNCATED else line
  }

  function BoundedAll(lines: seq<string>): seq<string> {
    seq(|lines|, i requires 0 <= i < |lines| => Bounded(lines[i]))
  }

  /** What lines are worth delivering: the terminated ones, and a last one that is already too long. */
  function Report(lines: seq<string>): seq<string>
    requires lines != []
  {
    BoundedAll(Init(lines)) + if |Last(lines)| > MAX_LINE_LENGTH then [Bounded(Last(lines))] else []
  }

  /** What has been delivered once `stream` has been written, in one pass over all of it. */
  function Delivered(stream: string): seq<string> {
    Report(Split(stream, '\n'))
  }

  /** The line that is still being written. */
  function Tail(stream: string): string {
    Last(Split(stream, '\n'))
  }

  /** What a buffer still has to deliver; while skipping, not the line it starts in. */
  function Outstanding(buffer: string, skipping: bool): seq<string> {
    var lines := Split(buffer, '\n');
    if !skipping then Report(lines)
    else if |lines| == 1 then []
    else Report(lines[1..])
  }

  lemma ReportMore(first: string, rest: seq<string>)
    requires rest != []
    ensures Report([first] + rest) == [Bounded(first)] + Report(rest)
  {
    assert Init([first] + rest) == [first] + Init(rest);
  }

  lemma ReportGlued(xs: seq<string>, ys: seq<string>)
    requires xs != [] && ys != []
    ensures Report(Glue(xs, ys)) == BoundedAll(Init(xs)) + Report([Last(xs) + ys[0]] + ys[1..])
  {
    var end := [Last(xs) + ys[0]] + ys[1..];
    assert Glue(xs, ys) == Init(xs) + end;
    assert Init(Init(xs) + end) == Init(xs) + Init(end);
  }

  /** A chunk goes on where the buffer stopped. */
  lemma ChunkContinues(stream: string, chunk: string)
    ensures var skipping := |Tail(stream)| > MAX_LINE_LENGTH;
            Delivered(stream + chunk)
            == Delivered(stream) + Outstanding((if skipping then "" else Tail(stream)) + chunk, skipping)
  {
    hide Split, BoundedAll, Glue;
    var lines, more, tail := Split(stream, '\n'), Split(chunk, '\n'), Tail(stream);
    var done := BoundedAll(Init(lines));
    SplitAppend(stream, chunk, '\n');
    ReportGlued(lines, more);
    assert Delivered(stream + chunk) == done + Report([tail + more[0]] + more[1..]);
    assert Report(lines) == if |tail| > MAX_LINE_LENGTH then done + [Bounded(tail)] else done;
    hide Report, Init;
    if |tail| > MAX_LINE_LENGTH {
      assert "" + chunk == chunk;
      LongTailContinues(tail, more);
    } else {
      TailRuns(tail, chunk);
    }
  }

  lemma TailRuns(tail: string, chunk: string)
    requires '\n' !in tail
    ensures Split(tail + chunk, '\n') == [tail + Split(chunk, '\n')[0]] + Split(chunk, '\n')[1..]
  {
    SplitAppend(tail, chunk, '\n');
    SplitNoSeparator(tail, '\n');
  }

  /** The rest of a line that was cut adds nothing. */
  lemma LongTailContinues(tail: string, more: seq<string>)
    requires more != [] && |tail| > MAX_LINE_LENGTH
    ensures Report([tail + more[0]] + more[1..])
            == [Bounded(tail)] + if |more| == 1 then [] else Report(more[1..])
  {
    assert Bounded(tail + more[0]) == Bounded(tail);
    if |more| > 1 {
      ReportMore(tail + more[0], more[1..]);
    } else {
      assert [tail + more[0]] + more[1..] == [tail + more[0]];
    }
  }

  lemma TailContinues(stream: string, chunk: string)
    ensures Tail(stream + chunk) == if '\n' in chunk then Tail(chunk) else Tail(stream) + chunk
  {
    SplitAppend(stream, chunk, '\n');
    if '\n' in chunk {
      SplitAt(chunk, IndexOf(chunk, '\n'), '\n');
    } else {
      SplitNoSeparator(chunk, '\n');
    }
  }

  /** What has been delivered is never taken back, whatever is written next. */
  lemma DeliveredGrows(stream: string, chunk: string)
    ensures Delivered(stream) <= Delivered(stream + chunk)
  {
    ChunkContinues(stream, chunk);
  }

  /** Output made of terminated lines is delivered as exactly those lines. */
  lemma {:induction false} DeliversLines(lines: seq<string>)
    requires lines != [] && forall line :: line in lines ==> '\n' !in line
    ensures Delivered(Join(lines, "\n") + "\n") == BoundedAll(lines)
  {
    SplitJoin(lines, '\n');
    SplitAppend(Join(lines, "\n"), "\n", '\n');
    assert Split("\n", '\n') == ["", ""] by {
      assert "\n"[1..] == "";
    }
    assert Last(lines) + "" == Last(lines);
    assert Glue(lines, ["", ""]) == lines + [""];
  }

  lemma LineTaken(buffer: string, i: nat, skipping: bool)
    requires i < |buffer| && buffer[i] == '\n' && '\n' !in buffer[..i]
    ensures Outstanding(buffer, skipping)
            == (if skipping then [] else [Bounded(buffer[..i])]) + Outstanding(buffer[i + 1..], false)
    ensures Tail(buffer) == Tail(buffer[i + 1..])
  {
    SplitAt(buffer, i, '\n');
    hide Split;
    ReportMore(buffer[..i], Split(buffer[i + 1..], '\n'));
  }

  lemma NothingTaken(buffer: string, skipping: bool)
    requires '\n' !in buffer
    ensures Tail(buffer) == buffer
    ensures Outstanding(buffer, skipping)
            == if !skipping && |buffer| > MAX_LINE_LENGTH then [Bounded(buffer)] else []
  {
    SplitNoSeparator(buffer, '\n');
  }

  /** What the reader holds between two chunks, after `stream`. */
  ghost predicate Settled(emitted: seq<string>, buffer: string, skipping: bool, stream: string) {
    && emitted == Delivered(stream)
    && skipping == (|Tail(stream)| > MAX_LINE_LENGTH)
    && buffer == if skipping then "" else Tail(stream)
  }

  /** What it holds while it works through a chunk. */
  ghost predicate Reading(emitted: seq<string>, buffer: string, skipping: bool, stream: string) {
    && emitted + Outstanding(buffer, skipping) == Delivered(stream)
    && if skipping && '\n' !in buffer then |Tail(stream)| > MAX_LINE_LENGTH else Tail(buffer) == Tail(stream)
  }

  lemma ChunkTaken(emitted: seq<string>, buffer: string, skipping: bool, stream: string, chunk: string)
    requires Settled(emitted, buffer, skipping, stream)
    ensures Reading(emitted, buffer + chunk, skipping, stream + chunk)
  {
    ChunkContinues(stream, chunk);
    TailContinues(stream, chunk);
    TailContinues(buffer, chunk);
    NothingTaken(buffer, false);
    hide Delivered, Outstanding, Tail;
  }

  lemma LineRead(emitted: seq<string>, buffer: string, skipping: bool, stream: string, i: nat)
    requires Reading(emitted, buffer, skipping, stream)
    requires i < |buffer| && buffer[i] == '\n' && '\n' !in buffer[..i]
    ensures Reading(if skipping then emitted else emitted + [Bounded(buffer[..i])], buffer[i + 1..], false, stream)
  {
    LineTaken(buffer, i, skipping);
    hide Delivered, Outstanding, Tail, Bounded;
    var line, rest := [Bounded(buffer[..i])], Outstanding(buffer[i + 1..], false);
    if skipping {
      assert [] + rest == rest;
    } else {
      Regroup(emitted, line, rest);
    }
  }

  lemma ChunkRead(emitted: seq<string>, buffer: string, skipping: bool, stream: string)
    requires Reading(emitted, buffer, skipping, stream) && '\n' !in buffer
    ensures if !skipping && |buffer| > MAX_LINE_LENGTH
            then Settled(emitted + [Bounded(buffer)], "", true, stream)
            else Settled(emitted, if skipping then "" else buffer, skipping, stream)
  {
    NothingTaken(buffer, skipping);
    hide Delivered, Outstanding, Tail, Bounded;
    assert emitted + [] == emitted;
  }

  class LineReader {
    var buffer: string
    var skippingRest: bool
    var emitted: seq<string>
    /** Everything written so far. */
    ghost var stream: string

    ghost predicate Valid()
      reads this
    {
      Settled(emitted, buffer, skippingRest, stream)
    }

    constructor ()
      ensures Valid() && stream == ""
    {
      buffer, skippingRest, emitted, stream := "", false, [], "";
    }

    /** Takes in one chunk. The held buffer never exceeds the cap between two chunks. */
    method Feed(chunk: string)
      requires Valid()
      modifies this
      ensures Valid() && stream == old(stream) + chunk && |buffer| <= MAX_LINE_LENGTH
    {
      ChunkTaken(emitted, buffer, skippingRest, stream, chunk);
      hide Reading, IndexOf, Bounded;
      stream := stream + chunk;
      buffer := buffer + chunk;
      var terminator := IndexOf(buffer, '\n');
      while terminator != -1
        invariant stream == old(stream) + chunk && terminator == IndexOf(buffer, '\n')
        invariant Reading(emitted, buffer, skippingRest, stream)
        decreases |buffer|
      {
        LineRead(emitted, buffer, skippingRest, stream, terminator);
        var line := buffer[..terminator];
        buffer := buffer[terminator + 1..];
        if skippingRest {
          skippingRest := false;
        } else {
          emitted := emitted + [Bounded(line)];
        }
        terminator := IndexOf(buffer, '\n');
      }
      ChunkRead(emitted, buffer, skippingRest, stream);
      if skippingRest {
        buffer := "";
      } else if |buffer| > MAX_LINE_LENGTH {
        emitted := emitted + [Bounded(buffer)];
        buffer := "";
        skippingRest := true;
      }
    }
  }

  /** However a stream is cut into chunks, what is delivered depends on the stream alone. */
  method FeedAll(chunks: seq<string>) returns (reader: LineReader)
    ensures reader.Valid() && reader.emitted == Delivered(Concat(chunks))
    ensures |reader.buffer| <= MAX_LINE_LENGTH
  {
    reader := new LineReader();
    for i := 0 to |chunks|
      invariant reader.Valid() && fresh(reader) && reader.stream == Concat(chunks[..i])
      invariant |reader.buffer| <= MAX_LINE_LENGTH
    {
      reader.Feed(chunks[i]);
      assert chunks[..i + 1] == chunks[..i] + [chunks[i]];
      ConcatSnoc(chunks[..i], chunks[i]);
    }
    assert chunks[..|chunks|] == chunks;
  }
}
