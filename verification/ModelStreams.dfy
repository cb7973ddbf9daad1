/**
  What the two providers' streams have in common: data lines, the shape of a reply, and the order
  of tool calls whose parts arrive under an index.
*/
module ModelStreams {
  import opened Text
  import opened EventStream

  /** The payload of a data line; none for comments, event names and keep-alives. */
  function DataOf(line: string): Option<string> {
    if "data:" <= line && Trim(line[5..]) != "" then Some(Trim(line[5..])) else None
  }

  /** The payloads among the lines of a stream. */
  function Payloads(lines: seq<string>): seq<string> {
    if lines == [] then []
    else if DataOf(lines[0]).Some? then [DataOf(lines[0]).value] + Payloads(lines[1..])
    else Payloads(lines[1..])
  }

  /** One data line per payload, each followed by a blank line, with either line ending. */
  function Framed(payloads: seq<string>, ending: string): string {
    if payloads == [] then ""
    else "data:" + payloads[0] + ending + (ending + Framed(payloads[1..], ending))
  }

  function Trimmed(payloads: seq<string>): seq<string> {
    if payloads == [] then [] else [Trim(payloads[0])] + Trimmed(payloads[1..])
  }

  lemma LinesOfLine(line: string, ending: string, rest: string)
    requires '\n' !in line && '\r' !in line && (ending == "\n" || ending == "\r\n")
    ensures LinesOf(line + ending + rest) == [line] + LinesOf(rest)
  {
    var stream := line + ending + rest;
    var i := |line| + |ending| - 1;
    assert stream[i] == '\n' && stream[..i] == line + ending[..|ending| - 1] && stream[i + 1..] == rest;
    LineTaken(stream, i);
    hide Split;
    assert StripReturn(stream[..i]) == line;
  }

  lemma PayloadFirst(payload: string, rest: seq<string>)
    requires Trim(payload) != ""
    ensures Payloads(["data:" + payload] + ([""] + rest)) == [Trim(payload)] + Payloads(rest)
  {
    hide Trim;
    var line := "data:" + payload;
    assert line[5..] == payload;
    assert ([line] + ([""] + rest))[1..] == [""] + rest && ([""] + rest)[1..] == rest;
  }

  lemma LinesOfFrame(payload: string, ending: string, rest: string)
    requires '\n' !in payload && '\r' !in payload && (ending == "\n" || ending == "\r\n")
    ensures LinesOf("data:" + payload + ending + (ending + rest)) == ["data:" + payload] + ([""] + LinesOf(rest))
  {
    hide LinesOf;
    LinesOfLine("data:" + payload, ending, ending + rest);
    assert "" + ending + rest == ending + rest;
    LinesOfLine("", ending, rest);
  }

  /** Framing and reading back: the payloads of a framed stream are the ones that were framed. */
  lemma {:induction false} FramesRead(payloads: seq<string>, ending: string)
    requires forall p :: p in payloads ==> '\n' !in p && '\r' !in p && Trim(p) != ""
    requires ending == "\n" || ending == "\r\n"
    ensures Payloads(LinesOf(Framed(payloads, ending))) == Trimmed(payloads)
  {
    if payloads == [] {
      assert LinesOf("") == [];
    } else {
      hide LinesOf, Trim;
      var rest := Framed(payloads[1..], ending);
      LinesOfFrame(payloads[0], ending, rest);
      FramesRead(payloads[1..], ending);
      PayloadFirst(payloads[0], LinesOf(rest));
      hide *;
    }
  }

  datatype ToolCall = ToolCall(id: string, name: string, arguments: string)

  datatype Reply = Reply(content: string, toolCalls: seq<ToolCall>)

  /** The outcome of a stream, and the deltas passed on by then, also when it failed. */
  datatype Streamed = Streamed(deltas: seq<string>, reply: Option<Reply>, error: Option<Failure>)

  function ArgumentsOf(text: string): string {
    if text == "" then "{}" else text
  }

  // ----- Tool calls in the order of their indices ---------------------------------------

  lemma SameKeys(a: set<nat>, b: set<nat>)
    requires forall k :: k in a <==> k in b
    ensures a == b
  {
  }

  ghost predicate IsLeast(k: nat, keys: set<nat>) {
    k in keys && forall other :: other in keys ==> k <= other
  }

  lemma {:induction false} LeastExists(keys: set<nat>)
    requires |keys| > 0
    ensures exists k :: IsLeast(k, keys)
    decreases keys
  {
    var k :| k in keys;
    var rest := keys - {k};
    assert keys == rest + {k};
    if |rest| == 0 {
      assert IsLeast(k, keys);
    } else {
      LeastExists(rest);
      var other :| IsLeast(other, rest);
      assert IsLeast(if k < other then k else other, keys);
    }
  }

  /** The keys in ascending order. */
  ghost function Ascending(keys: set<nat>): (order: seq<nat>)
    ensures forall k :: k in order <==> k in keys
    ensures forall i, j :: 0 <= i < j < |order| ==> order[i] < order[j]
  {
    if |keys| == 0 then []
    else
      LeastExists(keys);
      var k :| IsLeast(k, keys);
      [k] + Ascending(keys - {k})
  }

  method Least(keys: set<nat>) returns (k: nat)
    requires |keys| > 0
    ensures IsLeast(k, keys)
  {
    k :| k in keys;
    var rest := keys;
    while |rest| > 0
      invariant k in keys && rest <= keys
      invariant forall other :: other in keys && other !in rest ==> k <= other
    {
      var other :| other in rest;
      rest := rest - {other};
      if other < k {
        k := other;
      }
    }
  }

  method SortKeys(keys: set<nat>) returns (order: seq<nat>)
    ensures order == Ascending(keys)
  {
    order := [];
    var rest := keys;
    while |rest| > 0
      invariant order + Ascending(rest) == Ascending(keys)
    {
      var k := Least(rest);
      Regroup(order, [k], Ascending(rest - {k}));
      order := order + [k];
      rest := rest - {k};
    }
  }
}
