/**
  Streamed messages, as Anthropic sends them: typed events, with tool calls opened by one event
  and their input delivered by others.

  Decoding the JSON after `data:` is a parameter; what is decoded keeps the distinctions the
  reader makes.
*/
module MessageStream {
  import opened Text
  import opened EventStream
  import opened ModelStreams

  datatype Event =
    | Garbled
    | Problem
    | MessageStart
    | ToolStart(index: Option<nat>, id: string, name: string)
    | TextDelta(text: string)
    | JsonDelta(index: Option<nat>, json: string)
    | Other

  datatype Tool = Tool(id: string, name: string, json: string)

  datatype Message = Message(content: string, deltas: seq<string>, tools: map<nat, Tool>, sawMessage: bool)

  const NOTHING := Message("", [], map[], false)

  function EventOf(decode: string -> Event, line: string): Event {
    var data := DataOf(line);
    if data.None? then Other else decode(data.value)
  }

  /** What an event does to the tool calls: input for a call that was never opened is dropped. */
  function AddTool(tools: map<nat, Tool>, e: Event): map<nat, Tool> {
    match e
    case ToolStart(index, id, name) => tools[index.GetOr(0) := Tool(id, name, "")]
    case JsonDelta(index, json) =>
      var k := index.GetOr(0);
      if k in tools then tools[k := tools[k].(json := tools[k].json + json)] else tools
    case _ => tools
  }

  function AddEvent(s: Message, e: Event): Message {
    match e
    case MessageStart => s.(sawMessage := true)
    case TextDelta(text) =>
      if text == "" then s else s.(content := s.content + text, deltas := s.deltas + [text])
    case _ => s.(tools := AddTool(s.tools, e))
  }

  function AddLine(decode: string -> Event, s: Message, line: string): Progress<Message> {
    var e := EventOf(decode, line);
    match e
    case Garbled => Progress(s, Some(Unreadable))
    case Problem => Progress(s, Some(ProviderError))
    case _ => Progress(AddEvent(s, e), None)
  }

  function Adder(decode: string -> Event): (Message, string) -> Progress<Message> {
    (s, line) => AddLine(decode, s, line)
  }

  function ToolCalls(order: seq<nat>, tools: map<nat, Tool>): seq<ToolCall>
    requires forall k :: k in order ==> k in tools
  {
    seq(|order|, i requires 0 <= i < |order| => Called(tools[order[i]]))
  }

  function Called(tool: Tool): ToolCall {
    ToolCall(tool.id, tool.name, ArgumentsOf(tool.json))
  }

  /** The outcome of reading an undivided stream. */
  ghost function Completed(decode: string -> Event, stream: string): Streamed {
    var p := Whole(Adder(decode), NOTHING, stream);
    if p.error.Some? then Streamed(p.state.deltas, None, p.error)
    else if !p.state.sawMessage then Streamed(p.state.deltas, None, Some(NoAnswer))
    else Streamed(p.state.deltas,
                  Some(Reply(p.state.content, ToolCalls(Ascending(p.state.tools.Keys), p.state.tools))), None)
  }

  /** `readAnthropicStream`: however the response is cut, the outcome is that of the undivided stream. */
  method ReadAnthropicStream(chunks: seq<Chunk>, decode: string -> Event) returns (r: Streamed)
    ensures Size(chunks) <= MAX_MODEL_RESPONSE_BYTES ==> r == Completed(decode, Concat(Texts(chunks)))
    ensures Size(chunks) > MAX_MODEL_RESPONSE_BYTES ==> r.reply.None? && r.error.Some?
  {
    var p := ReadEvents(chunks, NOTHING, Adder(decode));
    if p.error.Some? {
      return Streamed(p.state.deltas, None, p.error);
    }
    if !p.state.sawMessage {
      return Streamed(p.state.deltas, None, Some(NoAnswer));
    }
    var order := SortKeys(p.state.tools.Keys);
    r := Streamed(p.state.deltas, Some(Reply(p.state.content, ToolCalls(order, p.state.tools))), None);
  }

  // What the reader has to make of the events it accepts, each part said on its own.

  /** The events up to the first that fails. */
  function Accepted(decode: string -> Event, lines: seq<string>): seq<Event> {
    if lines == [] then []
    else
      var e := EventOf(decode, lines[0]);
      if e.Garbled? || e.Problem? then [] else [e] + Accepted(decode, lines[1..])
  }

  function Contents(es: seq<Event>): seq<string> {
    if es == [] then []
    else if es[0].TextDelta? && es[0].text != "" then [es[0].text] + Contents(es[1..])
    else Contents(es[1..])
  }

  predicate Opens(e: Event, k: nat) {
    e.ToolStart? && e.index.GetOr(0) == k
  }

  /** The last event that opens a tool call under the index, or -1. */
  function LastStart(es: seq<Event>, k: nat): (i: int)
    ensures -1 <= i < |es| && (i >= 0 ==> Opens(es[i], k))
    ensures forall j :: i < j < |es| ==> !Opens(es[j], k)
  {
    if es == [] then -1
    else
      var later := LastStart(es[1..], k);
      if later >= 0 then later + 1 else if Opens(es[0], k) then 0 else -1
  }

  /** The pieces of input for one index, in the order they arrived. */
  function Fragments(es: seq<Event>, k: nat): seq<string> {
    if es == [] then []
    else if es[0].JsonDelta? && es[0].index.GetOr(0) == k then [es[0].json] + Fragments(es[1..], k)
    else Fragments(es[1..], k)
  }

  function AddAll(s: Message, es: seq<Event>): Message
    decreases es
  {
    if es == [] then s else AddAll(AddEvent(s, es[0]), es[1..])
  }

  lemma {:induction false} LinesAdd(decode: string -> Event, s: Message, lines: seq<string>)
    ensures Fold(Adder(decode), s, lines).state == AddAll(s, Accepted(decode, lines))
    decreases lines
  {
    hide AddEvent, EventOf;
    if lines != [] {
      var p := AddLine(decode, s, lines[0]);
      if p.error.None? {
        LinesAdd(decode, p.state, lines[1..]);
        var e := EventOf(decode, lines[0]);
        assert ([e] + Accepted(decode, lines[1..]))[1..] == Accepted(decode, lines[1..]);
      }
    }
  }

  lemma {:induction false} TextAddsUp(s: Message, es: seq<Event>)
    ensures AddAll(s, es).content == s.content + Concat(Contents(es))
    ensures AddAll(s, es).deltas == s.deltas + Contents(es)
    ensures AddAll(s, es).sawMessage <==> s.sawMessage || MessageStart in es
    decreases es
  {
    hide AddTool;
    if es != [] {
      var rest := Contents(es[1..]);
      TextAddsUp(AddEvent(s, es[0]), es[1..]);
      assert es == [es[0]] + es[1..];
      if es[0].TextDelta? && es[0].text != "" {
        assert ([es[0].text] + rest)[1..] == rest;
        Regroup(s.content, es[0].text, Concat(rest));
        Regroup(s.deltas, [es[0].text], rest);
      }
    }
  }

  function At(tools: map<nat, Tool>, k: nat): Option<Tool> {
    if k in tools then Some(tools[k]) else None
  }

  /** The tool call under an index after some events: as last opened, and else as it was, continued. */
  function Expected(before: Option<Tool>, es: seq<Event>, k: nat): Option<Tool> {
    var i := LastStart(es, k);
    if i >= 0 then Some(Tool(es[i].id, es[i].name, Concat(Fragments(es[i + 1..], k))))
    else if before.Some? then Some(before.value.(json := before.value.json + Concat(Fragments(es, k))))
    else None
  }

  lemma ExpectedLater(before: Option<Tool>, after: Option<Tool>, e: Event, rest: seq<Event>, k: nat)
    requires LastStart(rest, k) >= 0
    ensures Expected(after, rest, k) == Expected(before, [e] + rest, k)
  {
    var es, i := [e] + rest, LastStart(rest, k);
    assert es[1..] == rest;
    assert LastStart(es, k) == i + 1;
    assert es[i + 1 + 1..] == rest[i + 1..] && es[i + 1] == rest[i];
    hide Concat, Fragments, LastStart;
  }

  lemma ExpectedOpens(before: Option<Tool>, e: Event, rest: seq<Event>, k: nat)
    requires Opens(e, k) && LastStart(rest, k) < 0
    ensures Expected(before, [e] + rest, k) == Expected(Some(Tool(e.id, e.name, "")), rest, k)
  {
    var es := [e] + rest;
    assert es[1..] == rest;
    assert LastStart(es, k) == 0;
    assert es[0 + 1..] == rest;
    hide Concat, Fragments, LastStart;
    assert "" + Concat(Fragments(rest, k)) == Concat(Fragments(rest, k));
  }

  lemma {:induction false} ExpectedContinues(before: Tool, e: Event, rest: seq<Event>, k: nat)
    requires LastStart(rest, k) < 0 && e.JsonDelta? && e.index.GetOr(0) == k
    ensures Expected(Some(before), [e] + rest, k) == Expected(Some(before.(json := before.json + e.json)), rest, k)
  {
    var es := [e] + rest;
    assert es[1..] == rest;
    assert LastStart(es, k) == -1;
    assert Fragments(es, k) == [e.json] + Fragments(rest, k);
    hide Concat, Fragments, LastStart;
    ConcatAppend([e.json], Fragments(rest, k));
    ConcatOne(e.json);
    Regroup(before.json, e.json, Concat(Fragments(rest, k)));
  }

  lemma ExpectedIgnores(before: Option<Tool>, e: Event, rest: seq<Event>, k: nat)
    requires LastStart(rest, k) < 0 && !Opens(e, k)
    requires before.Some? ==> !(e.JsonDelta? && e.index.GetOr(0) == k)
    ensures Expected(before, [e] + rest, k) == Expected(before, rest, k)
  {
    var es := [e] + rest;
    assert es[1..] == rest;
    assert LastStart(es, k) == -1;
    assert before.Some? ==> Fragments(es, k) == Fragments(rest, k);
    hide Concat, Fragments, LastStart;
  }

  lemma ToolAt(tools: map<nat, Tool>, e: Event, k: nat)
    ensures At(AddTool(tools, e), k) ==
            if Opens(e, k) then Some(Tool(e.id, e.name, ""))
            else if e.JsonDelta? && e.index.GetOr(0) == k && k in tools
            then Some(tools[k].(json := tools[k].json + e.json))
            else At(tools, k)
  {
  }

  lemma {:induction false} ToolAddsUp(s: Message, es: seq<Event>, k: nat)
    ensures At(AddAll(s, es).tools, k) == Expected(At(s.tools, k), es, k)
    decreases es
  {
    hide AddTool;
    if es == [] {
      if At(s.tools, k).Some? {
        NothingAdded(At(s.tools, k).value.json);
      }
      hide AddEvent;
    } else {
      var e, rest := es[0], es[1..];
      assert es == [e] + rest;
      assert AddAll(s, es) == AddAll(AddEvent(s, e), rest);
      hide Expected, AddAll, AddEvent, At, LastStart, Fragments;
      ToolAddsUp(AddEvent(s, e), rest, k);
      EventTools(s, e);
      ToolAt(s.tools, e, k);
      var before := At(s.tools, k);
      if LastStart(rest, k) >= 0 {
        ExpectedLater(before, At(AddTool(s.tools, e), k), e, rest, k);
      } else if Opens(e, k) {
        ExpectedOpens(before, e, rest, k);
      } else if e.JsonDelta? && e.index.GetOr(0) == k && k in s.tools {
        ExpectedContinues(s.tools[k], e, rest, k);
      } else {
        ExpectedIgnores(before, e, rest, k);
      }
    }
  }

  lemma EventTools(s: Message, e: Event)
    ensures AddEvent(s, e).tools == AddTool(s.tools, e)
  {
  }

  /** Where the tool calls of some events stand. */
  function Indices(es: seq<Event>): set<nat> {
    set e | e in es && e.ToolStart? :: e.index.GetOr(0)
  }

  lemma IndicesStart(es: seq<Event>, k: nat)
    ensures k in Indices(es) <==> LastStart(es, k) >= 0
  {
    if k in Indices(es) {
      var e :| e in es && Opens(e, k);
    }
    if LastStart(es, k) >= 0 {
      assert es[LastStart(es, k)] in es;
    }
  }

  /** The tool call of an index as it was last opened, with the input that followed. */
  function Latest(es: seq<Event>, k: nat): ToolCall
    requires LastStart(es, k) >= 0
  {
    var i := LastStart(es, k);
    ToolCall(es[i].id, es[i].name, ArgumentsOf(Concat(Fragments(es[i + 1..], k))))
  }

  function Assembled(order: seq<nat>, es: seq<Event>): seq<ToolCall>
    requires forall k :: k in order ==> LastStart(es, k) >= 0
  {
    seq(|order|, j requires 0 <= j < |order| => Latest(es, order[j]))
  }

  /**
    A stream that is read to its end is the text of its deltas, in the order they were passed on,
    and the tool calls in ascending order of their indices: each as it was last opened, with the
    in-order concatenation of the input for its index that followed, however the indices interleave.
  */
  lemma MessageAddsUp(decode: string -> Event, stream: string)
    ensures var es := Accepted(decode, LinesOf(stream));
            var r := Completed(decode, stream);
            && r.deltas == Contents(es)
            && (r.reply.Some? ==> r.reply.value.content == Concat(r.deltas))
            && (r.reply.Some? ==>
                  && (forall k :: k in Ascending(Indices(es)) ==> LastStart(es, k) >= 0)
                  && r.reply.value.toolCalls == Assembled(Ascending(Indices(es)), es))
  {
    var es := Accepted(decode, LinesOf(stream));
    WholeFolds(Adder(decode), NOTHING, stream);
    LinesAdd(decode, NOTHING, LinesOf(stream));
    TextAddsUp(NOTHING, es);
    ToolsAddUp(es);
    hide Whole, Fold, LinesOf, AddAll, Accepted, Concat, Contents, Indices, Fragments, LastStart, Assembled, ToolCalls;
    assert "" + Concat(Contents(es)) == Concat(Contents(es)) && [] + Contents(es) == Contents(es);
  }

  ghost predicate ToolIs(tools: map<nat, Tool>, es: seq<Event>, k: nat) {
    && (k in tools <==> k in Indices(es))
    && (k in tools ==> LastStart(es, k) >= 0 && Called(tools[k]) == Latest(es, k))
  }

  lemma ToolFollows(es: seq<Event>, k: nat)
    ensures ToolIs(AddAll(NOTHING, es).tools, es, k)
  {
    hide AddAll, Indices, Fragments, LastStart, Concat;
    IndicesStart(es, k);
    ToolAddsUp(NOTHING, es, k);
  }

  lemma ToolsAddUp(es: seq<Event>)
    ensures var tools := AddAll(NOTHING, es).tools;
            && tools.Keys == Indices(es)
            && (forall k :: k in Ascending(Indices(es)) ==> LastStart(es, k) >= 0)
            && ToolCalls(Ascending(Indices(es)), tools) == Assembled(Ascending(Indices(es)), es)
  {
    forall k
      ensures ToolIs(AddAll(NOTHING, es).tools, es, k)
    {
      ToolFollows(es, k);
    }
    ToolsAre(AddAll(NOTHING, es).tools, es);
    hide *;
  }

  lemma ToolsAre(tools: map<nat, Tool>, es: seq<Event>)
    requires forall k :: ToolIs(tools, es, k)
    ensures tools.Keys == Indices(es)
    ensures forall k :: k in Ascending(Indices(es)) ==> LastStart(es, k) >= 0
    ensures ToolCalls(Ascending(Indices(es)), tools) == Assembled(Ascending(Indices(es)), es)
  {
    hide Latest, LastStart, Called;
    forall k | k in tools.Keys
      ensures k in Indices(es) && LastStart(es, k) >= 0 && Called(tools[k]) == Latest(es, k)
    {
      assert ToolIs(tools, es, k);
    }
    forall k | k in Indices(es)
      ensures k in tools.Keys
    {
      assert ToolIs(tools, es, k);
    }
    SameKeys(tools.Keys, Indices(es));
  }
}
