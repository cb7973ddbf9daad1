/**
  Reading a streamed model answer: server-sent-event lines out of whatever chunks the network
  delivers, up to a size limit. What is done with a line is a parameter, because both providers'
  readers frame their streams alike.
*/
module EventStream {
  import opened Text

  const MAX_MODEL_RESPONSE_BYTES := 1024 * 1024

  datatype Failure = TooLarge | Unreadable | ProviderError | NoAnswer

  /** How far a reader has got, and what stopped it. */
  datatype Progress<+S> = Progress(state: S, error: Option<Failure>)

  /** One chunk of the response: its decoded text, and how many bytes it was. */
  datatype Chunk = Chunk(text: string, size: nat)

  function Texts(chunks: seq<Chunk>): seq<string> {
    seq(|chunks|, i requires 0 <= i < |chunks| => chunks[i].text)
  }

  function Size(chunks: seq<Chunk>): nat {
    if chunks == [] then 0 else Size(Init(chunks)) + Last(chunks).size
  }

  function StripReturn(line: string): string {
    if line != "" && Last(line) == '\r' then Init(line) else line
  }

  function Stripped(lines: seq<string>): seq<string> {
    seq(|lines|, i requires 0 <= i < |lines| => StripReturn(lines[i]))
  }

  /** The lines of a stream that are terminated. */
  function Terminated(stream: string): seq<string> {
    Stripped(Init(Split(stream, '\n')))
  }

  /** Hands lines over one by one until one of them fails. */
  function Fold<S>(handle: (S, string) -> Progress<S>, s: S, lines: seq<string>): Progress<S> {
    if lines == [] then Progress(s, None)
    else
      var p := handle(s, lines[0]);
      if p.error.Some? then p else Fold(handle, p.state, lines[1..])
  }

  /** Reading the whole stream in one piece: its lines, then what is left unterminated. */
  function Whole<S>(handle: (S, string) -> Progress<S>, s: S, stream: string): Progress<S> {
    var p := Fold(handle, s, Terminated(stream));
    var rest := Trim(Last(Split(stream, '\n')));
    if p.error.Some? || rest == "" then p else handle(p.state, rest)
  }

  /** What `p` becomes when more lines follow. */
  function Then<S>(handle: (S, string) -> Progress<S>, p: Progress<S>, lines: seq<string>): Progress<S> {
    if p.error.Some? then p else Fold(handle, p.state, lines)
  }

  lemma {:induction false} FoldAppend<S>(handle: (S, string) -> Progress<S>, s: S, xs: seq<string>, ys: seq<string>)
    ensures Fold(handle, s, xs + ys) == Then(handle, Fold(handle, s, xs), ys)
  {
    if xs == [] {
      assert xs + ys == ys;
    } else {
      FoldAppend(handle, handle(s, xs[0]).state, xs[1..], ys);
      assert (xs + ys)[1..] == xs[1..] + ys;
    }
  }

  /** Everything a reader hands over: the terminated lines, then the rest of the stream unless it is blank. */
  function LinesOf(stream: string): seq<string> {
    var rest := Trim(Last(Split(stream, '\n')));
    Terminated(stream) + if rest == "" then [] else [rest]
  }

  lemma WholeFolds<S>(handle: (S, string) -> Progress<S>, s: S, stream: string)
    ensures Whole(handle, s, stream) == Fold(handle, s, LinesOf(stream))
  {
    var rest := Trim(Last(Split(stream, '\n')));
    var end := if rest == "" then [] else [rest];
    FoldAppend(handle, s, Terminated(stream), end);
    var p := Fold(handle, s, Terminated(stream));
    if p.error.None? && rest != "" {
      var q := handle(p.state, rest);
      assert Fold(handle, p.state, [rest]) == if q.error.Some? then q else Fold(handle, q.state, [rest][1..]);
      assert [rest][1..] == [];
    }
  }

  // ----- Cutting the stream into chunks ------------------------------------------

  /** What is pending of a stream goes on into the next chunk; what was terminated stays. */
  lemma ChunkContinues(stream: string, text: string)
    ensures Terminated(stream + text) == Terminated(stream) + Terminated(Last(Split(stream, '\n')) + text)
    ensures Last(Split(stream + text, '\n')) == Last(Split(Last(Split(stream, '\n')) + text, '\n'))
  {
    hide Split;
    var lines, more, pending := Split(stream, '\n'), Split(text, '\n'), Last(Split(stream, '\n'));
    SplitAppend(stream, text, '\n');
    SplitAppend(pending, text, '\n');
    SplitNoSeparator(pending, '\n');
    var end := [pending + more[0]] + more[1..];
    assert Glue([pending], more) == end && Glue(lines, more) == Init(lines) + end;
    assert Init(Init(lines) + end) == Init(lines) + Init(end);
  }

  lemma TerminatedMore(line: string, rest: seq<string>)
    requires rest != []
    ensures Stripped(Init([line] + rest)) == [StripReturn(line)] + Stripped(Init(rest))
    ensures Last([line] + rest) == Last(rest)
  {
    assert Init([line] + rest) == [line] + Init(rest);
  }

  lemma {:induction false} LineTaken(pending: string, i: nat)
    requires i < |pending| && pending[i] == '\n' && '\n' !in pending[..i]
    ensures Terminated(pending) == [StripReturn(pending[..i])] + Terminated(pending[i + 1..])
    ensures Last(Split(pending, '\n')) == Last(Split(pending[i + 1..], '\n'))
  {
    SplitAt(pending, i, '\n');
    hide Split, StripReturn, Stripped, Init, Last;
    TerminatedMore(pending[..i], Split(pending[i + 1..], '\n'));
  }

  /** The reader between two lines of `stream`: what is pending is all that is left to hand over. */
  ghost predicate Reading<S>(handle: (S, string) -> Progress<S>, s0: S, stream: string,
                             p: Progress<S>, pending: string) {
    && Fold(handle, s0, Terminated(stream)) == Then(handle, p, Terminated(pending))
    && Last(Split(pending, '\n')) == Last(Split(stream, '\n'))
  }

  lemma ReadingChunk<S>(handle: (S, string) -> Progress<S>, s0: S, stream: string, p: Progress<S>,
                        pending: string, text: string)
    requires Reading(handle, s0, stream, p, pending) && '\n' !in pending
    ensures Reading(handle, s0, stream + text, p, pending + text)
  {
    SplitNoSeparator(pending, '\n');
    ChunkContinues(stream, text);
    FoldAppend(handle, s0, Terminated(stream), Terminated(pending + text));
  }

  lemma ReadingLine<S>(handle: (S, string) -> Progress<S>, s0: S, stream: string, p: Progress<S>,
                       pending: string, i: nat)
    requires Reading(handle, s0, stream, p, pending) && p.error.None?
    requires i < |pending| && pending[i] == '\n' && '\n' !in pending[..i]
    ensures Reading(handle, s0, stream, handle(p.state, StripReturn(pending[..i])), pending[i + 1..])
  {
    LineTaken(pending, i);
    hide Terminated, Split, StripReturn;
    var line, rest := StripReturn(pending[..i]), Terminated(pending[i + 1..]);
    assert ([line] + rest)[1..] == rest;
  }

  /** A failure in one chunk is the failure of the whole stream. */
  lemma FailureStays<S>(handle: (S, string) -> Progress<S>, s0: S, stream: string, more: string, p: Progress<S>,
                        pending: string)
    requires Reading(handle, s0, stream, p, pending) && p.error.Some?
    ensures Whole(handle, s0, stream + more) == p
  {
    ChunkContinues(stream, more);
    FoldAppend(handle, s0, Terminated(stream), Terminated(Last(Split(stream, '\n')) + more));
  }

  lemma ReadingEnds<S>(handle: (S, string) -> Progress<S>, s0: S, stream: string, p: Progress<S>, pending: string)
    requires Reading(handle, s0, stream, p, pending) && p.error.None? && '\n' !in pending
    ensures Whole(handle, s0, stream)
            == if Trim(pending) == "" then p else handle(p.state, Trim(pending))
  {
    SplitNoSeparator(pending, '\n');
  }

  lemma {:induction false} SizeGrows(chunks: seq<Chunk>, i: nat)
    requires i <= |chunks|
    ensures Size(chunks[..i]) <= Size(chunks)
    decreases |chunks|
  {
    if i < |chunks| {
      SizeGrows(Init(chunks), i);
      assert chunks[..i] == Init(chunks)[..i];
    } else {
      assert chunks[..i] == chunks;
    }
  }

  lemma OneMore(chunks: seq<Chunk>, i: nat)
    requires i < |chunks|
    ensures Size(chunks[..i + 1]) == Size(chunks[..i]) + chunks[i].size
    ensures Concat(Texts(chunks[..i + 1])) == Concat(Texts(chunks[..i])) + chunks[i].text
  {
    assert Init(chunks[..i + 1]) == chunks[..i];
    ConcatSnoc(Texts(chunks[..i]), chunks[i].text);
    assert Texts(chunks[..i + 1]) == Texts(chunks[..i]) + [chunks[i].text];
  }

  lemma RestOf(chunks: seq<Chunk>, i: nat)
    requires i <= |chunks|
    ensures Concat(Texts(chunks)) == Concat(Texts(chunks[..i])) + Concat(Texts(chunks[i..]))
  {
    ConcatAppend(Texts(chunks[..i]), Texts(chunks[i..]));
    assert Texts(chunks) == Texts(chunks[..i]) + Texts(chunks[i..]);
  }

  /**
    Within the size limit the outcome is that of the undivided stream, so it does not depend on
    how the network cut it. Beyond the limit reading never succeeds.
  */
  method ReadEvents<S>(chunks: seq<Chunk>, s0: S, handle: (S, string) -> Progress<S>) returns (p: Progress<S>)
    ensures Size(chunks) <= MAX_MODEL_RESPONSE_BYTES ==> p == Whole(handle, s0, Concat(Texts(chunks)))
    ensures Size(chunks) > MAX_MODEL_RESPONSE_BYTES ==> p.error.Some?
  {
    hide Reading, Whole, Fold, Split, Terminated, Texts;
    p := Progress(s0, None);
    var pending := "";
    var size := 0;
    ghost var stream := "";
    Begins(handle, s0);
    for i := 0 to |chunks|
      invariant size == Size(chunks[..i]) <= MAX_MODEL_RESPONSE_BYTES
      invariant stream == Concat(Texts(chunks[..i]))
      invariant Reading(handle, s0, stream, p, pending) && p.error.None? && '\n' !in pending
    {
      OneMore(chunks, i);
      SizeGrows(chunks, i + 1);
      RestOf(chunks, i + 1);
      size := size + chunks[i].size;
      if size > MAX_MODEL_RESPONSE_BYTES {
        return Progress(p.state, Some(TooLarge));
      }
      ReadingChunk(handle, s0, stream, p, pending, chunks[i].text);
      stream := stream + chunks[i].text;
      pending := pending + chunks[i].text;
      var newline := IndexOf(pending, '\n');
      while newline >= 0
        invariant newline == IndexOf(pending, '\n')
        invariant Reading(handle, s0, stream, p, pending) && p.error.None?
        decreases |pending|
      {
        ReadingLine(handle, s0, stream, p, pending, newline);
        p := handle(p.state, StripReturn(pending[..newline]));
        pending := pending[newline + 1..];
        if p.error.Some? {
          FailureStays(handle, s0, stream, Concat(Texts(chunks[i + 1..])), p, pending);
          return;
        }
        newline := IndexOf(pending, '\n');
      }
    }
    assert chunks[..|chunks|] == chunks;
    ReadingEnds(handle, s0, stream, p, pending);
    if Trim(pending) != "" {
      p := handle(p.state, Trim(pending));
    }
  }

  lemma Begins<S>(handle: (S, string) -> Progress<S>, s0: S)
    ensures Reading(handle, s0, "", Progress(s0, None), "")
    ensures Concat(Texts([])) == ""
  {
  }
}
