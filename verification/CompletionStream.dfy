/**
  Streamed chat completions, as OpenAI and OpenRouter send them: pieces of text, and pieces of
  tool calls under their indices.

  Decoding the JSON after `data:` is a parameter; what is decoded keeps the distinctions the
  reader makes.
*/
module CompletionStream {
  import opened Text
  import opened EventStream
  import opened ModelStreams

  /** A part of a tool call. What is missing is empty, as the reader treats both alike. */
  datatype CallPiece = CallPiece(index: Option<nat>, id: string, name: string, arguments: string)

  datatype Completion = Garbled | Problem | NoDelta | Delta(content: string, calls: seq<CallPiece>)

  datatype Entry = Entry(id: string, name: string, arguments: string)

  datatype Answer = Answer(content: string, deltas: seq<string>, calls: map<nat, Entry>, sawChoice: bool)

  const UNANSWERED := Answer("", [], map[], false)

  function EntryAt(calls: map<nat, Entry>, k: nat): Entry {
    if k in calls then calls[k] else Entry("", "", "")
  }

  function AddPiece(entry: Entry, piece: CallPiece): Entry {
    Entry(if piece.id != "" then piece.id else entry.id, if piece.name != "" then piece.name else entry.name,
          entry.arguments + piece.arguments)
  }

  function AddCall(calls: map<nat, Entry>, piece: CallPiece): map<nat, Entry> {
    var k := piece.index.GetOr(0);
    calls[k := AddPiece(EntryAt(calls, k), piece)]
  }

  function AddCalls(calls: map<nat, Entry>, pieces: seq<CallPiece>): map<nat, Entry>
    decreases pieces
  {
    if pieces == [] then calls else AddCalls(AddCall(calls, pieces[0]), pieces[1..])
  }

  function CompletionOf(decode: string -> Completion, line: string): Completion {
    var data := DataOf(line);
    if data.None? || data.value == "[DONE]" then NoDelta else decode(data.value)
  }

  function AddDelta(s: Answer, content: string, calls: seq<CallPiece>): Answer {
    Answer(s.content + content, if content == "" then s.deltas else s.deltas + [content],
           AddCalls(s.calls, calls), true)
  }

  function AddLine(decode: string -> Completion, s: Answer, line: string): Progress<Answer> {
    match CompletionOf(decode, line)
    case Garbled => Progress(s, Some(Unreadable))
    case Problem => Progress(s, Some(ProviderError))
    case NoDelta => Progress(s, None)
    case Delta(content, calls) => Progress(AddDelta(s, content, calls), None)
  }

  function Adder(decode: string -> Completion): (Answer, string) -> Progress<Answer> {
    (s, line) => AddLine(decode, s, line)
  }

  /** The tool calls of the entries in `order`; one that never got an id or a name is left out. */
  function Kept(order: seq<nat>, calls: map<nat, Entry>): seq<ToolCall> {
    if order == [] then []
    else
      var entry := EntryAt(calls, order[0]);
      if entry.id == "" || entry.name == "" then Kept(order[1..], calls)
      else [ToolCall(entry.id, entry.name, ArgumentsOf(entry.arguments))] + Kept(order[1..], calls)
  }

  /** The outcome of reading an undivided stream. */
  ghost function Completed(decode: string -> Completion, stream: string): Streamed {
    var p := Whole(Adder(decode), UNANSWERED, stream);
    if p.error.Some? then Streamed(p.state.deltas, None, p.error)
    else if !p.state.sawChoice then Streamed(p.state.deltas, None, Some(NoAnswer))
    else Streamed(p.state.deltas, Some(Reply(p.state.content, Kept(Ascending(p.state.calls.Keys), p.state.calls))), None)
  }

  /** `readStream`: however the response is cut, the outcome is that of the undivided stream. */
  method ReadStream(chunks: seq<Chunk>, decode: string -> Completion) returns (r: Streamed)
    ensures Size(chunks) <= MAX_MODEL_RESPONSE_BYTES ==> r == Completed(decode, Concat(Texts(chunks)))
    ensures Size(chunks) > MAX_MODEL_RESPONSE_BYTES ==> r.reply.None? && r.error.Some?
  {
    var p := ReadEvents(chunks, UNANSWERED, Adder(decode));
    if p.error.Some? {
      return Streamed(p.state.deltas, None, p.error);
    }
    if !p.state.sawChoice {
      return Streamed(p.state.deltas, None, Some(NoAnswer));
    }
    var order := SortKeys(p.state.calls.Keys);
    r := Streamed(p.state.deltas, Some(Reply(p.state.content, Kept(order, p.state.calls))), None);
  }

  // What the reader has to make of the chunks it accepts, each part said on its own.

  /** The chunks up to the first that fails. */
  function Accepted(decode: string -> Completion, lines: seq<string>): seq<Completion> {
    if lines == [] then []
    else
      var c := CompletionOf(decode, lines[0]);
      if c.Garbled? || c.Problem? then [] else [c] + Accepted(decode, lines[1..])
  }

  function Contents(cs: seq<Completion>): seq<string> {
    if cs == [] then []
    else if cs[0].Delta? && cs[0].content != "" then [cs[0].content] + Contents(cs[1..])
    else Contents(cs[1..])
  }

  function Pieces(cs: seq<Completion>): seq<CallPiece> {
    if cs == [] then []
    else if cs[0].Delta? then cs[0].calls + Pieces(cs[1..])
    else Pieces(cs[1..])
  }

  /** The argument fragments of one index, in the order they arrived. */
  function Fragments(pieces: seq<CallPiece>, k: nat): seq<string> {
    if pieces == [] then []
    else if pieces[0].index.GetOr(0) == k then [pieces[0].arguments] + Fragments(pieces[1..], k)
    else Fragments(pieces[1..], k)
  }

  /** The last id given for an index, and else `before`. */
  function LastId(pieces: seq<CallPiece>, k: nat, before: string): string {
    if pieces == [] then before
    else LastId(pieces[1..], k,
                if pieces[0].index.GetOr(0) == k && pieces[0].id != "" then pieces[0].id else before)
  }

  function LastName(pieces: seq<CallPiece>, k: nat, before: string): string {
    if pieces == [] then before
    else LastName(pieces[1..], k,
                  if pieces[0].index.GetOr(0) == k && pieces[0].name != "" then pieces[0].name else before)
  }

  function Indices(pieces: seq<CallPiece>): set<nat> {
    set piece | piece in pieces :: piece.index.GetOr(0)
  }

  /** The entry of an index after some pieces, by the parts of those pieces. */
  function Parts(before: Entry, pieces: seq<CallPiece>, k: nat): Entry {
    Entry(LastId(pieces, k, before.id), LastName(pieces, k, before.name),
          before.arguments + Concat(Fragments(pieces, k)))
  }

  lemma PartsFollow(before: Entry, piece: CallPiece, rest: seq<CallPiece>)
    ensures var k := piece.index.GetOr(0);
            Parts(before, [piece] + rest, k) == Parts(AddPiece(before, piece), rest, k)
  {
    var pieces, k := [piece] + rest, piece.index.GetOr(0);
    assert pieces[1..] == rest;
    assert Fragments(pieces, k) == [piece.arguments] + Fragments(rest, k);
    ConcatAppend([piece.arguments], Fragments(rest, k));
    ConcatOne(piece.arguments);
    hide Concat, Fragments;
    Regroup(before.arguments, piece.arguments, Concat(Fragments(rest, k)));
  }

  lemma PartsStay(before: Entry, piece: CallPiece, rest: seq<CallPiece>, k: nat)
    requires piece.index.GetOr(0) != k
    ensures Parts(before, [piece] + rest, k) == Parts(before, rest, k)
  {
    assert ([piece] + rest)[1..] == rest;
  }

  lemma {:induction false} AddCallsAt(calls: map<nat, Entry>, pieces: seq<CallPiece>, k: nat)
    ensures AddCalls(calls, pieces).Keys == calls.Keys + Indices(pieces)
    ensures EntryAt(AddCalls(calls, pieces), k) == Parts(EntryAt(calls, k), pieces, k)
    decreases pieces
  {
    if pieces == [] {
      assert EntryAt(calls, k).arguments + "" == EntryAt(calls, k).arguments;
    } else {
      AddCallsAt(AddCall(calls, pieces[0]), pieces[1..], k);
      assert pieces == [pieces[0]] + pieces[1..];
      IndicesFollow(pieces);
      if pieces[0].index.GetOr(0) == k {
        PartsFollow(EntryAt(calls, k), pieces[0], pieces[1..]);
      } else {
        PartsStay(EntryAt(calls, k), pieces[0], pieces[1..], k);
      }
      hide Parts, AddPiece, Indices;
    }
  }

  lemma IndicesFollow(pieces: seq<CallPiece>)
    requires pieces != []
    ensures Indices(pieces) == {pieces[0].index.GetOr(0)} + Indices(pieces[1..])
  {
    assert pieces == [pieces[0]] + pieces[1..];
  }

  lemma {:induction false} AddCallsAppend(calls: map<nat, Entry>, xs: seq<CallPiece>, ys: seq<CallPiece>)
    ensures AddCalls(calls, xs + ys) == AddCalls(AddCalls(calls, xs), ys)
    decreases xs
  {
    hide AddCall;
    if xs == [] {
      assert xs + ys == ys;
    } else {
      AddCallsAppend(AddCall(calls, xs[0]), xs[1..], ys);
      assert (xs + ys)[1..] == xs[1..] + ys;
    }
  }

  function AddAll(s: Answer, cs: seq<Completion>): Answer
    decreases cs
  {
    if cs == [] then s
    else AddAll(if cs[0].Delta? then AddDelta(s, cs[0].content, cs[0].calls) else s, cs[1..])
  }

  lemma {:induction false} LinesAdd(decode: string -> Completion, s: Answer, lines: seq<string>)
    ensures Fold(Adder(decode), s, lines).state == AddAll(s, Accepted(decode, lines))
    decreases lines
  {
    hide AddDelta, CompletionOf;
    if lines != [] {
      var p := AddLine(decode, s, lines[0]);
      if p.error.None? {
        LinesAdd(decode, p.state, lines[1..]);
        var c := CompletionOf(decode, lines[0]);
        assert ([c] + Accepted(decode, lines[1..]))[1..] == Accepted(decode, lines[1..]);
      }
    }
  }

  lemma {:induction false} TextAddsUp(s: Answer, cs: seq<Completion>)
    ensures AddAll(s, cs).content == s.content + Concat(Contents(cs))
    ensures AddAll(s, cs).deltas == s.deltas + Contents(cs)
    ensures AddAll(s, cs).sawChoice <==> s.sawChoice || exists i :: 0 <= i < |cs| && cs[i].Delta?
    decreases cs
  {
    hide AddCalls;
    if cs != [] {
      var rest := Contents(cs[1..]);
      if cs[0].Delta? {
        TextAddsUp(AddDelta(s, cs[0].content, cs[0].calls), cs[1..]);
        assert ([cs[0].content] + rest)[1..] == rest;
        Regroup(s.content, cs[0].content, Concat(rest));
        Regroup(s.deltas, [cs[0].content], rest);
      } else {
        TextAddsUp(s, cs[1..]);
      }
    }
  }

  lemma {:induction false} CallsAddUp(s: Answer, cs: seq<Completion>)
    ensures AddAll(s, cs).calls == AddCalls(s.calls, Pieces(cs))
    decreases cs
  {
    if cs != [] {
      if cs[0].Delta? {
        CallsAddUp(AddDelta(s, cs[0].content, cs[0].calls), cs[1..]);
        AddCallsAppend(s.calls, cs[0].calls, Pieces(cs[1..]));
      } else {
        CallsAddUp(s, cs[1..]);
      }
    }
  }

  /** The tool calls by their parts: each index with the last id and name it was given, and all its fragments. */
  function Assembled(order: seq<nat>, pieces: seq<CallPiece>): seq<ToolCall> {
    if order == [] then []
    else
      var k := order[0];
      if LastId(pieces, k, "") == "" || LastName(pieces, k, "") == "" then Assembled(order[1..], pieces)
      else [ToolCall(LastId(pieces, k, ""), LastName(pieces, k, ""), ArgumentsOf(Concat(Fragments(pieces, k))))]
           + Assembled(order[1..], pieces)
  }

  lemma {:induction false} KeptAreAssembled(order: seq<nat>, pieces: seq<CallPiece>)
    ensures Kept(order, AddCalls(map[], pieces)) == Assembled(order, pieces)
  {
    if order != [] {
      AddCallsAt(map[], pieces, order[0]);
      assert "" + Concat(Fragments(pieces, order[0])) == Concat(Fragments(pieces, order[0]));
      KeptAreAssembled(order[1..], pieces);
    }
  }

  /**
    A stream that is read to its end is the text of its deltas, in the order they were passed on,
    and the tool calls in ascending order of their indices, each with the in-order concatenation
    of its own fragments however the indices interleave.
  */
  lemma CompletionAddsUp(decode: string -> Completion, stream: string)
    ensures var cs := Accepted(decode, LinesOf(stream));
            var r := Completed(decode, stream);
            && r.deltas == Contents(cs)
            && (r.reply.Some? ==> r.reply.value.content == Concat(r.deltas))
            && (r.reply.Some? ==> r.reply.value.toolCalls == Assembled(Ascending(Indices(Pieces(cs))), Pieces(cs)))
  {
    var cs := Accepted(decode, LinesOf(stream));
    WholeFolds(Adder(decode), UNANSWERED, stream);
    LinesAdd(decode, UNANSWERED, LinesOf(stream));
    TextAddsUp(UNANSWERED, cs);
    CallsAddUp(UNANSWERED, cs);
    AddCallsAt(UNANSWERED.calls, Pieces(cs), 0);
    KeptAreAssembled(Ascending(Indices(Pieces(cs))), Pieces(cs));
    hide Whole, Fold, LinesOf, AddAll, AddCalls, Accepted, Concat, Contents, Pieces, Indices, Kept, Assembled, Ascending;
    assert "" + Concat(Contents(cs)) == Concat(Contents(cs)) && [] + Contents(cs) == Contents(cs);
    assert AddCalls(UNANSWERED.calls, Pieces(cs)).Keys == Indices(Pieces(cs));
  }
}
