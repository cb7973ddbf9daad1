/**
  The model responder: a bounded loop of model steps and tool calls. What the model says while it
  streams goes to the caller at once; what it said in all is saved as the message.

  The model and the tools are parameters. They may answer anything, also depending on everything
  said so far.
*/
module Responder {
  import opened Text
  import EventStream
  import ModelStreams
  import CompletionStream
  import MessageStream

  datatype Call = Call(id: string, name: string, arguments: string)

  datatype Message =
    | System(content: string)
    | User(content: string)
    | Assistant(content: string, calls: seq<Call>)
    | ToolResult(callId: string, content: string)

  /** One step of the model: the pieces it streamed, and then its result or a failure. */
  datatype Step = Broken(deltas: seq<string>) | Generated(deltas: seq<string>, content: string, calls: seq<Call>)

  /** How a tool call ended, with its JSON text; a refusal may ask for approval. */
  datatype Outcome = Outcome(ok: bool, approval: Option<string>, text: string)

  datatype Status = Done | Refused | Awaiting

  datatype Event =
    | TextDelta(delta: string)
    | ToolRunning(id: string)
    | ToolEnded(id: string, status: Status)
    | ApprovalAsked(id: string)

  datatype Reply = Reply(content: string, activity: seq<Status>, approvalIds: seq<string>)

  const NOTHING_TO_ADD := "I have nothing to add."
  const OUT_OF_STEPS := "I could not finish that within the allowed number of steps."

  function MaxSteps(option: Option<int>): (n: nat)
    ensures 1 <= n <= 10
  {
    var asked := option.GetOr(5);
    if asked > 10 then 10 else if asked < 1 then 1 else asked
  }

  function StatusOf(outcome: Outcome): Status {
    if !outcome.ok && outcome.approval.Some? then Awaiting else if outcome.ok then Done else Refused
  }

  // ----- What is said and shown ---------------------------------------------------------

  /** The text a caller has been shown. */
  function TextOf(events: seq<Event>): string {
    if events == [] then ""
    else TextOf(Init(events)) + if Last(events).TextDelta? then Last(events).delta else ""
  }

  /** Text that is passed on is never empty. */
  predicate NoEmptyText(events: seq<Event>) {
    forall i :: 0 <= i < |events| && events[i].TextDelta? ==> events[i].delta != ""
  }

  /** What the model said, step by step, without blank steps. */
  function SaidIn(steps: seq<Step>): seq<string> {
    if steps == [] then []
    else if Last(steps).Generated? && Trim(Last(steps).content) != ""
    then SaidIn(Init(steps)) + [Trim(Last(steps).content)]
    else SaidIn(Init(steps))
  }

  function AnswerOf(said: seq<string>): string {
    Trim(Join(said, "\n\n"))
  }

  /** The message that is saved: what was said, or a sentence of the responder's own. */
  function SavedText(steps: seq<Step>, fallback: string): string {
    var answer := AnswerOf(SaidIn(steps));
    if answer != "" then answer else fallback
  }

  /** The provider passes on its text as it arrives: the pieces make up the content. */
  predicate Streams(step: Step) {
    step.Generated? && Concat(step.deltas) == step.content
  }

  /** A provider that cannot stream passes on nothing. */
  predicate Silent(step: Step) {
    step.Generated? && forall i :: 0 <= i < |step.deltas| ==> step.deltas[i] == ""
  }

  /** The text of one step as it is shown: separated from what was said before, when something was. */
  function ShownPiece(text: string, said: seq<string>): string {
    if text == "" then "" else if said == [] then text else "\n\n" + text
  }

  /** The text that is shown of some steps. */
  function Shown(steps: seq<Step>): string {
    if steps == [] then ""
    else
      Shown(Init(steps)) + ShownPiece(Concat(Last(steps).deltas), SaidIn(Init(steps)))
  }

  lemma {:induction false} SqueezeJoin(parts: seq<string>)
    ensures Squeeze(Join(parts, "\n\n")) == Squeeze(Concat(parts))
  {
    if |parts| == 1 {
      ConcatOne(parts[0]);
      assert parts == [parts[0]];
    } else if |parts| > 1 {
      SqueezeJoin(parts[1..]);
      SqueezeConcat(parts[0] + "\n\n", Join(parts[1..], "\n\n"));
      SqueezeConcat(parts[0], "\n\n");
      SqueezeSpaces("\n\n");
      SqueezeConcat(parts[0], Concat(parts[1..]));
    }
  }

  /** White space apart, what is shown of streaming steps is what they said. */
  lemma {:induction false} ShownIsSaid(steps: seq<Step>)
    requires forall step :: step in steps ==> Streams(step)
    ensures Squeeze(Shown(steps)) == Squeeze(Concat(SaidIn(steps)))
  {
    if steps != [] {
      assert Last(steps) in steps;
      var before, text := Init(steps), Last(steps).content;
      ShownIsSaid(before);
      SqueezeTrim(text);
      SqueezeConcat(Shown(before), "\n\n" + text);
      SqueezeConcat(Shown(before), text);
      SqueezeConcat("\n\n", text);
      SqueezeSpaces("\n\n");
      ConcatSnoc(SaidIn(before), Trim(text));
      SqueezeConcat(Concat(SaidIn(before)), Trim(text));
      hide Squeeze, Trim, Concat;
      assert Squeeze("") == "" by {
        SqueezeSpaces("");
      }
    }
  }

  /** The answer is what was said, white space apart. */
  lemma AnswerIsSaid(said: seq<string>)
    ensures Squeeze(AnswerOf(said)) == Squeeze(Concat(said))
  {
    SqueezeTrim(Join(said, "\n\n"));
    SqueezeJoin(said);
  }

  // ----- The transcript -------------------------------------------------------------------

  /** One tool message per call, in the order of the calls. */
  predicate Answers(messages: seq<Message>, calls: seq<Call>, outcomes: seq<Outcome>) {
    && |messages| == |calls| == |outcomes|
    && forall k :: 0 <= k < |calls| ==> messages[k] == ToolResult(calls[k].id, outcomes[k].text)
  }

  /** Assistant messages with calls, each followed by exactly one tool message per call, in order, and nothing else. */
  ghost predicate Paired(messages: seq<Message>, outcomes: seq<Outcome>) {
    if messages == [] then outcomes == []
    else
      && messages[0].Assistant?
      && var n := |messages[0].calls|;
         && n > 0 && |messages| > n && |outcomes| >= n
         && Answers(messages[1..1 + n], messages[0].calls, outcomes[..n])
         && Paired(messages[1 + n..], outcomes[n..])
  }

  lemma PairedRound(content: string, calls: seq<Call>, results: seq<Message>, outcomes: seq<Outcome>)
    requires calls != [] && Answers(results, calls, outcomes)
    ensures Paired([Assistant(content, calls)] + results, outcomes)
  {
    var round := [Assistant(content, calls)] + results;
    AnswersCounted(results, calls, outcomes);
    hide Answers;
    assert round[1..1 + |calls|] == results && round[1 + |calls|..] == [];
    assert outcomes[..|calls|] == outcomes && outcomes[|calls|..] == [];
  }

  lemma PairedCons(first: Message, rest: seq<Message>, outcomes: seq<Outcome>, more: seq<Message>, ended: seq<Outcome>)
    requires first.Assistant? && |first.calls| > 0 && |rest| >= |first.calls| && |outcomes| >= |first.calls|
    requires Answers(rest[..|first.calls|], first.calls, outcomes[..|first.calls|])
    requires Paired(rest[|first.calls|..] + more, outcomes[|first.calls|..] + ended)
    ensures Paired([first] + rest + more, outcomes + ended)
  {
    hide Answers;
    var n := |first.calls|;
    var all := [first] + rest + more;
    assert all[1..1 + n] == rest[..n] && all[1 + n..] == rest[n..] + more;
    assert (outcomes + ended)[..n] == outcomes[..n] && (outcomes + ended)[n..] == outcomes[n..] + ended;
  }

  lemma {:induction false} PairedMore(messages: seq<Message>, outcomes: seq<Outcome>, content: string, calls: seq<Call>,
                                      results: seq<Message>, more: seq<Outcome>)
    requires Paired(messages, outcomes) && calls != [] && Answers(results, calls, more)
    ensures Paired(messages + ([Assistant(content, calls)] + results), outcomes + more)
  {
    hide Answers;
    var round := [Assistant(content, calls)] + results;
    if messages == [] {
      assert messages + round == round && outcomes + more == more;
      PairedRound(content, calls, results, more);
    } else {
      var rest, n := messages[1..], |messages[0].calls|;
      assert messages[1 + n..] == rest[n..] && messages[1..1 + n] == rest[..n];
      PairedMore(rest[n..], outcomes[n..], content, calls, results, more);
      PairedCons(messages[0], rest, outcomes, round, more);
      assert [messages[0]] + rest == messages;
    }
  }

  lemma AnswersCounted(messages: seq<Message>, calls: seq<Call>, outcomes: seq<Outcome>)
    requires Answers(messages, calls, outcomes)
    ensures |messages| == |calls| == |outcomes|
  {
  }

  // ----- The loop ----------------------------------------------------------------------------

  lemma TextMore(events: seq<Event>, e: Event)
    ensures TextOf(events + [e]) == if e.TextDelta? then TextOf(events) + e.delta else TextOf(events)
  {
    assert Init(events + [e]) == events;
  }

  lemma ShownMore(said: seq<string>, text: string, delta: string)
    requires delta != ""
    ensures ShownPiece(text + delta, said)
            == ShownPiece(text, said) + (if text == "" && said != [] then "\n\n" else "") + delta
  {
    var before := ShownPiece(text, said);
    NothingAdded(before);
    NothingAdded(delta);
    NothingAdded("\n\n");
    assert text + delta != "";
    if text != "" && said != [] {
      Regroup("\n\n", text, delta);
    }
  }

  /** Passes on the pieces of one step; the first is set apart from what was said before. */
  method PassOn(deltas: seq<string>, events: seq<Event>, said: seq<string>) returns (more: seq<Event>)
    requires NoEmptyText(events)
    ensures NoEmptyText(more)
    ensures TextOf(more) == TextOf(events) + ShownPiece(Concat(deltas), said)
  {
    hide TextOf, Concat, ShownPiece;
    more := events;
    var started := false;
    ghost var text := "";
    Nothing(events, said);
    for i := 0 to |deltas|
      invariant text == Concat(deltas[..i]) && (started <==> text != "")
      invariant NoEmptyText(more) && TextOf(more) == TextOf(events) + ShownPiece(text, said)
    {
      var delta := deltas[i];
      assert deltas[..i + 1] == deltas[..i] + [delta];
      ConcatSnoc(deltas[..i], delta);
      if delta == "" {
        assert text + delta == text;
        continue;
      }
      ShownMore(said, text, delta);
      if !started {
        started := true;
        if |said| > 0 {
          TextMore(more, TextDelta("\n\n"));
          more := more + [TextDelta("\n\n")];
        }
      }
      TextMore(more, TextDelta(delta));
      more := more + [TextDelta(delta)];
      text := text + delta;
    }
    assert deltas[..|deltas|] == deltas;
  }

  lemma Nothing(events: seq<Event>, said: seq<string>)
    ensures TextOf(events) == TextOf(events) + ShownPiece("", said) && Concat([]) == ""
  {
  }

  function Statuses(outcomes: seq<Outcome>): seq<Status> {
    seq(|outcomes|, i requires 0 <= i < |outcomes| => StatusOf(outcomes[i]))
  }

  /** The requests for approval among the outcomes, in their order. */
  function Approvals(outcomes: seq<Outcome>): seq<string> {
    if outcomes == [] then []
    else if StatusOf(Last(outcomes)).Awaiting? && Last(outcomes).approval.Some?
    then Approvals(Init(outcomes)) + [Last(outcomes).approval.value]
    else Approvals(Init(outcomes))
  }

  lemma {:induction false} ApprovalsAppend(xs: seq<Outcome>, ys: seq<Outcome>)
    ensures Approvals(xs + ys) == Approvals(xs) + Approvals(ys)
  {
    if ys == [] {
      assert xs + ys == xs;
    } else {
      ApprovalsAppend(xs, Init(ys));
      assert Init(xs + ys) == xs + Init(ys);
    }
  }

  /** Every outcome is what its call came to, after the results before it. */
  ghost predicate RanInOrder(outcomes: seq<Outcome>, calls: seq<Call>, messages: seq<Message>, results: seq<Message>,
                             run: (seq<Message>, Call) -> Outcome)
  {
    && |outcomes| == |results| <= |calls|
    && forall k :: 0 <= k < |outcomes| ==> outcomes[k] == run(messages + results[..k], calls[k])
  }

  lemma RanOneMore(outcomes: seq<Outcome>, calls: seq<Call>, messages: seq<Message>, results: seq<Message>,
                   run: (seq<Message>, Call) -> Outcome, result: Message)
    requires RanInOrder(outcomes, calls, messages, results, run) && |results| < |calls|
    ensures RanInOrder(outcomes + [run(messages + results, calls[|results|])], calls, messages, results + [result], run)
  {
    assert forall k :: 0 <= k <= |results| ==> (results + [result])[..k] == results[..k];
    assert results[..|results|] == results;
  }

  lemma AwaitingAsks(outcome: Outcome)
    requires StatusOf(outcome).Awaiting?
    ensures outcome.approval.Some?
  {
  }

  /** Runs one tool call and reports on it. */
  method RunCall(call: Call, messages: seq<Message>, events: seq<Event>, listening: bool,
                 run: (seq<Message>, Call) -> Outcome)
    returns (outcome: Outcome, more: seq<Event>)
    ensures outcome == run(messages, call)
    ensures TextOf(more) == TextOf(events) && (!listening ==> more == events)
    ensures NoEmptyText(events) ==> NoEmptyText(more)
  {
    hide TextOf, StatusOf;
    more := events;
    if listening {
      TextMore(more, ToolRunning(call.id));
      more := more + [ToolRunning(call.id)];
    }
    outcome := run(messages, call);
    var status := StatusOf(outcome);
    if listening {
      TextMore(more, ToolEnded(call.id, status));
      more := more + [ToolEnded(call.id, status)];
    }
    if status.Awaiting? && listening {
      AwaitingAsks(outcome);
      TextMore(more, ApprovalAsked(outcome.approval.value));
      more := more + [ApprovalAsked(outcome.approval.value)];
    }
  }

  /** Runs the tool calls of one step, one after the other. */
  method RunCalls(calls: seq<Call>, messages: seq<Message>, events: seq<Event>, listening: bool,
                  run: (seq<Message>, Call) -> Outcome)
    returns (results: seq<Message>, more: seq<Event>, activity: seq<Status>, approvalIds: seq<string>,
             ghost outcomes: seq<Outcome>)
    ensures Answers(results, calls, outcomes) && RanInOrder(outcomes, calls, messages, results, run)
    ensures activity == Statuses(outcomes) && approvalIds == Approvals(outcomes)
    ensures TextOf(more) == TextOf(events) && (!listening ==> more == events)
    ensures NoEmptyText(events) ==> NoEmptyText(more)
  {
    hide TextOf, StatusOf, RanInOrder, NoEmptyText;
    results, more, activity, approvalIds, outcomes := [], events, [], [], [];
    RanNone(calls, messages, run);
    for i := 0 to |calls|
      invariant |results| == |outcomes| == i
      invariant forall k :: 0 <= k < i ==> results[k] == ToolResult(calls[k].id, outcomes[k].text)
      invariant RanInOrder(outcomes, calls, messages, results, run)
      invariant activity == Statuses(outcomes) && approvalIds == Approvals(outcomes)
      invariant TextOf(more) == TextOf(events) && (!listening ==> more == events)
      invariant NoEmptyText(events) ==> NoEmptyText(more)
    {
      var outcome, reported := RunCall(calls[i], messages + results, more, listening, run);
      more := reported;
      RanOneMore(outcomes, calls, messages, results, run, ToolResult(calls[i].id, outcome.text));
      assert Init(outcomes + [outcome]) == outcomes;
      activity := activity + [StatusOf(outcome)];
      if StatusOf(outcome).Awaiting? {
        AwaitingAsks(outcome);
        approvalIds := approvalIds + [outcome.approval.value];
      }
      outcomes := outcomes + [outcome];
      results := results + [ToolResult(calls[i].id, outcome.text)];
    }
  }

  lemma RanNone(calls: seq<Call>, messages: seq<Message>, run: (seq<Message>, Call) -> Outcome)
    ensures RanInOrder([], calls, messages, [], run)
  {
  }

  /** What one more step adds to what is said and shown. */
  lemma StepMore(steps: seq<Step>, result: Step)
    ensures Shown(steps + [result]) == Shown(steps) + ShownPiece(Concat(result.deltas), SaidIn(steps))
    ensures SaidIn(steps + [result])
            == if result.Generated? && Trim(result.content) != "" then SaidIn(steps) + [Trim(result.content)]
               else SaidIn(steps)
    ensures Last(steps + [result]) == result
  {
    assert Init(steps + [result]) == steps;
    hide Concat, ShownPiece, Trim;
  }

  /** What the outcomes of one more step add to the reply. */
  lemma OutcomesMore(outcomes: seq<Outcome>, more: seq<Outcome>)
    ensures Statuses(outcomes + more) == Statuses(outcomes) + Statuses(more)
    ensures Approvals(outcomes + more) == Approvals(outcomes) + Approvals(more)
  {
    ApprovalsAppend(outcomes, more);
  }

  /** What the model was asked in one step. */
  datatype Asked = Asked(messages: seq<Message>, tools: seq<string>)

  /** Each step is the model's answer to what it was asked; the last one allowed is offered no tools. */
  ghost predicate AskedRight(steps: seq<Step>, asked: seq<Asked>, start: seq<Message>, messages: seq<Message>,
                             maxSteps: nat, tools: seq<string>, generate: (seq<Message>, seq<string>) -> Step)
  {
    && |steps| == |asked|
    && forall i :: 0 <= i < |steps| ==>
         && steps[i] == generate(asked[i].messages, asked[i].tools)
         && asked[i].tools == (if i == maxSteps - 1 then [] else tools)
         && start <= asked[i].messages <= messages
  }

  lemma AskedOnce(steps: seq<Step>, asked: seq<Asked>, start: seq<Message>, messages: seq<Message>,
                  maxSteps: nat, tools: seq<string>, generate: (seq<Message>, seq<string>) -> Step)
    requires AskedRight(steps, asked, start, messages, maxSteps, tools, generate) && start <= messages
    ensures var offered := if |steps| == maxSteps - 1 then [] else tools;
            AskedRight(steps + [generate(messages, offered)], asked + [Asked(messages, offered)], start, messages,
                       maxSteps, tools, generate)
  {
  }

  lemma AskedGrows(steps: seq<Step>, asked: seq<Asked>, start: seq<Message>, messages: seq<Message>,
                   maxSteps: nat, tools: seq<string>, generate: (seq<Message>, seq<string>) -> Step, more: seq<Message>)
    requires AskedRight(steps, asked, start, messages, maxSteps, tools, generate)
    ensures AskedRight(steps, asked, start, messages + more, maxSteps, tools, generate)
  {
    forall i | 0 <= i < |steps|
      ensures asked[i].messages <= messages + more
    {
      assert asked[i].messages <= messages <= messages + more;
    }
  }

  lemma NothingYet(start: seq<Message>, maxSteps: nat, tools: seq<string>,
                   generate: (seq<Message>, seq<string>) -> Step)
    ensures TextOf([]) == Shown([]) == "" && NoEmptyText([]) && Paired([], []) && Approvals([]) == []
    ensures SaidIn([]) == [] && Statuses([]) == []
    ensures AskedRight([], [], start, start, maxSteps, tools, generate)
    ensures start == start + []
  {
  }

  /**
    `respond`. No reply comes out when a step of the model fails. The number of steps is bounded,
    and the last one is offered no tools.
  */
  method Respond(start: seq<Message>, toolbox: Option<seq<string>>, option: Option<int>, listening: bool,
                 generate: (seq<Message>, seq<string>) -> Step, run: (seq<Message>, Call) -> Outcome)
    returns (reply: Option<Reply>, events: seq<Event>, messages: seq<Message>,
             ghost steps: seq<Step>, ghost asked: seq<Asked>, ghost outcomes: seq<Outcome>)
    ensures 1 <= |steps| <= MaxSteps(option)
    ensures AskedRight(steps, asked, start, messages, MaxSteps(option), toolbox.GetOr([]), generate)
    ensures start <= messages && Paired(messages[|start|..], outcomes)
    ensures if listening then TextOf(events) == Shown(steps) else events == []
    ensures NoEmptyText(events)
    ensures reply.None? <==> Last(steps).Broken?
    ensures forall i :: 0 <= i < |steps| - 1 ==> steps[i].Generated?
    ensures reply.Some? ==>
              && reply.value.activity == Statuses(outcomes) && reply.value.approvalIds == Approvals(outcomes)
              && reply.value.content
                 == SavedText(steps, if Last(steps).calls == [] || toolbox.None? then NOTHING_TO_ADD else OUT_OF_STEPS)
  {
    hide TextOf, Answers, Statuses, Approvals, Trim, Paired, AnswerOf, AskedRight, Concat, ShownPiece, NoEmptyText,
         Shown, SaidIn, RanInOrder;
    events, messages, steps, asked, outcomes := [], start, [], [], [];
    var said, activity, approvalIds: seq<string> := [], [], [];
    ghost var dialogue: seq<Message> := [];
    var maxSteps := MaxSteps(option);
    NothingYet(start, maxSteps, toolbox.GetOr([]), generate);
    for step := 0 to maxSteps
      invariant |steps| == step && AskedRight(steps, asked, start, messages, maxSteps, toolbox.GetOr([]), generate)
      invariant messages == start + dialogue && Paired(dialogue, outcomes)
      invariant if listening then TextOf(events) == Shown(steps) else events == []
      invariant NoEmptyText(events)
      invariant forall i :: 0 <= i < step ==> steps[i].Generated?
      invariant step > 0 ==> Last(steps).calls != [] && toolbox.Some?
      invariant said == SaidIn(steps) && activity == Statuses(outcomes) && approvalIds == Approvals(outcomes)
    {
      AskedOnce(steps, asked, start, messages, maxSteps, toolbox.GetOr([]), generate);
      var tools := if step == maxSteps - 1 then [] else toolbox.GetOr([]);
      var result := generate(messages, tools);
      StepMore(steps, result);
      steps := steps + [result];
      asked := asked + [Asked(messages, tools)];
      if listening {
        events := PassOn(result.deltas, events, said);
      }
      if result.Broken? {
        assert messages[|start|..] == dialogue;
        return None, events, messages, steps, asked, outcomes;
      }
      if Trim(result.content) != "" {
        said := said + [Trim(result.content)];
      }
      if |result.calls| == 0 || toolbox.None? {
        assert messages[|start|..] == dialogue;
        var answer := AnswerOf(said);
        return Some(Reply(if answer != "" then answer else NOTHING_TO_ADD, activity, approvalIds)),
               events, messages, steps, asked, outcomes;
      }
      var spoken := Assistant(result.content, result.calls);
      var results, more, statuses, asks, ended := RunCalls(result.calls, messages + [spoken], events, listening, run);
      events, activity, approvalIds := more, activity + statuses, approvalIds + asks;
      OutcomesMore(outcomes, ended);
      PairedMore(dialogue, outcomes, result.content, result.calls, results, ended);
      AskedGrows(steps, asked, start, messages, maxSteps, toolbox.GetOr([]), generate, [spoken] + results);
      Regroup(start, dialogue, [spoken] + results);
      messages := messages + ([spoken] + results);
      dialogue := dialogue + ([spoken] + results);
      outcomes := outcomes + ended;
    }
    assert messages[|start|..] == dialogue;
    var answer := AnswerOf(said);
    reply := Some(Reply(if answer != "" then answer else OUT_OF_STEPS, activity, approvalIds));
  }

  // ----- What is shown is what is saved ----------------------------------------------------------

  /** The end of `appendMessage`: a reply that was not streamed is shown whole. */
  method ShowReply(listening: bool, events: seq<Event>, content: string) returns (shown: seq<Event>)
    requires NoEmptyText(events)
    ensures if listening then TextOf(shown) == ShownText(TextOf(events), content) else shown == events
  {
    var streamedText := false;
    for i := 0 to |events|
      invariant streamedText <==> exists k :: 0 <= k < i && events[k].TextDelta?
    {
      if events[i].TextDelta? {
        streamedText := true;
      }
    }
    TextShows(events);
    shown := events;
    if listening && !streamedText && content != "" {
      TextMore(events, TextDelta(content));
      shown := events + [TextDelta(content)];
    }
  }

  function ShownText(streamed: string, content: string): string {
    if streamed == "" then content else streamed
  }

  lemma {:induction false} TextShows(events: seq<Event>)
    requires NoEmptyText(events)
    ensures TextOf(events) == "" <==> forall i :: 0 <= i < |events| ==> !events[i].TextDelta?
  {
    if events != [] {
      TextShows(Init(events));
    }
  }

  lemma {:induction false} SaidIsText(steps: seq<Step>)
    requires SaidIn(steps) != []
    ensures Squeeze(Concat(SaidIn(steps))) != ""
  {
    var before := Init(steps);
    if Last(steps).Generated? && Trim(Last(steps).content) != "" {
      var text := Trim(Last(steps).content);
      ConcatSnoc(SaidIn(before), text);
      SqueezeConcat(Concat(SaidIn(before)), text);
      assert Squeeze(text) == [text[0]] + Squeeze(text[1..]);
    } else {
      SaidIsText(before);
    }
  }

  /**
    When the model streams, the text a caller was shown is the saved message, white space apart,
    exactly if the model said something that is not blank or nothing at all was streamed.
  */
  lemma StreamedIsSaved(steps: seq<Step>, fallback: string)
    requires forall step :: step in steps ==> Streams(step)
    requires fallback in {NOTHING_TO_ADD, OUT_OF_STEPS}
    ensures Squeeze(ShownText(Shown(steps), SavedText(steps, fallback))) == Squeeze(SavedText(steps, fallback))
            <==> SaidIn(steps) != [] || Shown(steps) == ""
  {
    ShownIsSaid(steps);
    AnswerIsSaid(SaidIn(steps));
    NothingSqueezes(fallback);
    if SaidIn(steps) != [] {
      SaidIsText(steps);
    }
    hide Squeeze, Shown, AnswerOf, SaidIn, Concat;
  }

  lemma NothingSqueezes(fallback: string)
    requires fallback in {NOTHING_TO_ADD, OUT_OF_STEPS}
    ensures Squeeze("") == "" && Squeeze(Concat([])) == "" && AnswerOf([]) == "" && Squeeze(fallback) != ""
  {
    assert Last(NOTHING_TO_ADD) == '.' && Last(OUT_OF_STEPS) == '.';
    assert Trim("") == "";
    SqueezeSome(fallback);
  }

  lemma SqueezeSome(s: string)
    requires s != "" && !IsSpace(Last(s))
    ensures Squeeze(s) != ""
  {
    SqueezeConcat(Init(s), [Last(s)]);
    assert s == Init(s) + [Last(s)];
  }

  /** When the model does not stream, the caller is shown the saved message as it is. */
  lemma {:induction false} SilentIsSaved(steps: seq<Step>, fallback: string)
    requires forall step :: step in steps ==> Silent(step)
    ensures ShownText(Shown(steps), SavedText(steps, fallback)) == SavedText(steps, fallback)
  {
    SilentShowsNothing(steps);
  }

  lemma {:induction false} SilentShowsNothing(steps: seq<Step>)
    requires forall step :: step in steps ==> Silent(step)
    ensures Shown(steps) == ""
  {
    if steps != [] {
      assert Last(steps) in steps;
      ConcatNothing(Last(steps).deltas);
      SilentShowsNothing(Init(steps));
    }
  }

  lemma {:induction false} ConcatNothing(parts: seq<string>)
    requires forall i :: 0 <= i < |parts| ==> parts[i] == ""
    ensures Concat(parts) == ""
  {
    if parts != [] {
      ConcatNothing(parts[1..]);
    }
  }

  // ----- From the stream to the thread ------------------------------------------------------------

  /** A step of the model as a reader makes it of a response. */
  function StepOf(r: ModelStreams.Streamed): Step {
    if r.reply.None? then Broken(r.deltas)
    else
      var calls := r.reply.value.toolCalls;
      Generated(r.deltas, r.reply.value.content,
                seq(|calls|, i requires 0 <= i < |calls| => Call(calls[i].id, calls[i].name, calls[i].arguments)))
  }

  /** Both readers of streams make steps whose pieces make up their content. */
  lemma ReadStepsStream(stream: string, completion: string -> CompletionStream.Completion,
                        event: string -> MessageStream.Event)
    ensures var step := StepOf(CompletionStream.Completed(completion, stream)); step.Generated? ==> Streams(step)
    ensures var step := StepOf(MessageStream.Completed(event, stream)); step.Generated? ==> Streams(step)
  {
    CompletionStream.CompletionAddsUp(completion, stream);
    MessageStream.MessageAddsUp(event, stream);
    hide CompletionStream.Completed, MessageStream.Completed, Concat;
  }

  /**
    `appendMessage`, from the prompt on: asks the responder, shows its reply if it was not streamed,
    and saves it. What a listening caller was shown is the saved message: as it is if the model does
    not stream; if it does, white space apart, exactly if it said something that is not blank or
    streamed nothing.
  */
  method AppendMessage(start: seq<Message>, toolbox: Option<seq<string>>, option: Option<int>, listening: bool,
                       generate: (seq<Message>, seq<string>) -> Step, run: (seq<Message>, Call) -> Outcome)
    returns (saved: Option<Reply>, shown: seq<Event>, ghost steps: seq<Step>)
    ensures steps != [] && (saved.None? <==> Last(steps).Broken?)
    ensures !listening ==> shown == []
    ensures listening && saved.None? ==> TextOf(shown) == Shown(steps)
    ensures listening && saved.Some? && (forall step :: step in steps ==> Silent(step)) ==>
              TextOf(shown) == saved.value.content
    ensures listening && saved.Some? && (forall step :: step in steps ==> Streams(step)) ==>
              (Squeeze(TextOf(shown)) == Squeeze(saved.value.content) <==> SaidIn(steps) != [] || Shown(steps) == "")
  {
    hide TextOf, Squeeze, Shown, SaidIn, SavedText, Streams, Silent, ShownText, NoEmptyText, Paired, AskedRight;
    var events, messages;
    ghost var asked, outcomes;
    saved, events, messages, steps, asked, outcomes := Respond(start, toolbox, option, listening, generate, run);
    if saved.None? {
      return saved, events, steps;
    }
    shown := ShowReply(listening, events, saved.value.content);
    ghost var fallback := if Last(steps).calls == [] || toolbox.None? then NOTHING_TO_ADD else OUT_OF_STEPS;
    if forall step :: step in steps ==> Silent(step) {
      SilentIsSaved(steps, fallback);
    }
    if forall step :: step in steps ==> Streams(step) {
      StreamedIsSaved(steps, fallback);
    }
  }
}
