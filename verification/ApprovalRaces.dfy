/**
  A run that separates what a caller is told from what happened: the answer "that request expired"
  is given even when the caller lost the race to expire it, and then says nothing.
*/
module ApprovalRaces {
  import opened Text
  import opened SystemStore
  import opened Approvals
  import opened ApprovalProtocol
  import opened ApprovalTheorems

  /** `s` is reached by some run. */
  ghost predicate Reached(s: State) {
    exists run: seq<State> :: IsRun(run) && Last(run) == s
  }

  lemma Push(s: State, e: Event) returns (s': State)
    requires Reached(s) && s.worlds != [] && Enabled(s, e)
    ensures Reached(s') && s' == Next(s, e)
  {
    var run: seq<State> :| IsRun(run) && Last(run) == s;
    s' := Next(s, e);
    var more := run + [s'];
    forall i | 1 <= i < |more|
      ensures StepsTo(more, i)
    {
      if i < |run| {
        assert StepsTo(run, i);
      } else {
        assert Follows(more[i - 1], e, more[i]);
      }
    }
    assert IsRun(more) && Last(more) == s';
  }

  const YES := Env(true, false, "", "", TargetRef("", ""))

  const MARK := "as requested"

  /** In the beginning `who` may make the change, and its target is what the fingerprint says. */
  function OpenWorld(who: string, tool: string, arguments: Json): World {
    World(0, {Grant(who, tool, arguments)}, {}, map[(tool, arguments) := MARK])
  }

  /** A state in which `who` has asked for a permitted change and nobody has decided it yet. */
  ghost predicate Asked(s: State, who: string, slot: string, a: Approval) {
    && Slot(a.threadId, a.id) == Ok(slot)
    && s.worlds == [OpenWorld(who, a.tool, a.arguments)]
    && a.tool in s.toolbox && s.toolbox[a.tool].pinned
    && s.spawned == 1 && s.executions == []
    && slot in s.records && s.records[slot].value == a
    && a.principalId == who && a.status == Pending && !a.irreversible && a.fingerprint == Some(MARK)
    && a.expiresAt == APPROVAL_TTL_MS
  }

  /** A call for a change has been told apart from a reading one and is about to list the thread. */
  lemma CallStarted(who: string, tool: string, raw: Json, threadId: string) returns (s: State)
    ensures Reached(s) && s == Initial(map[tool := Tool(true, false, true, map[raw := raw])], OpenWorld(who, tool, raw))
                               .(spawned := 1, tasks := s.tasks)
    ensures 0 in s.tasks && s.tasks[0] == Calling(who, tool, raw, Some(threadId), None, Listing(raw))
  {
    s := Initial(map[tool := Tool(true, false, true, map[raw := raw])], OpenWorld(who, tool, raw));
    assert Reached(s) by {
      assert IsRun([s]) && Last([s]) == s;
    }
    hide Reached;
    s := Push(s, AskCall(who, tool, raw, Some(threadId), None));
    s := Push(s, Advance(0, YES));
  }

  lemma CallPinned(who: string, tool: string, raw: Json, threadId: string, id: string) returns (s: State, a: Approval)
    requires IsApprovalId(id)
    ensures Reached(s) && s.records == map[] && s.executions == [] && s.audit == [] && s.spawned == 1
    ensures s.worlds == [OpenWorld(who, tool, raw)] && tool in s.toolbox && s.toolbox[tool].pinned
    ensures a == Approval(id, threadId, who, tool, raw, "", TargetRef("", ""), false, Some(MARK),
                          Pending, 0, APPROVAL_TTL_MS, None, None)
    ensures 0 in s.tasks && s.tasks[0] == Calling(who, tool, raw, Some(threadId), None, Announcing(a))
  {
    hide Reached, Trim;
    s := CallStarted(who, tool, raw, threadId);
    assert Waiting(s, threadId) == {};
    s := Push(s, Advance(0, YES));
    assert s.tasks[0].at == Pinning(raw);
    hide Waiting, ListWaiting;
    s := Push(s, Advance(0, YES.(id := id)));
    a := s.tasks[0].at.approval;
  }

  lemma CallAnnounced(who: string, tool: string, raw: Json, threadId: string, id: string) returns (s: State, a: Approval)
    requires IsApprovalId(id)
    ensures Reached(s) && s.records == map[] && s.executions == [] && s.spawned == 1
    ensures s.worlds == [OpenWorld(who, tool, raw)] && tool in s.toolbox && s.toolbox[tool].pinned
    ensures a == Approval(id, threadId, who, tool, raw, "", TargetRef("", ""), false, Some(MARK),
                          Pending, 0, APPROVAL_TTL_MS, None, None)
    ensures 0 in s.tasks && s.tasks[0] == Calling(who, tool, raw, Some(threadId), None, Creating(a, 0))
  {
    hide Slot, Reached, Trim, Waiting, NewApproval, Pin, ListWaiting, StoreRequest;
    s, a := CallPinned(who, tool, raw, threadId, id);
    s := Push(s, Advance(0, YES));
  }

  lemma RequestMade(who: string, tool: string, raw: Json, threadId: string, id: string)
    returns (s: State, slot: string, a: Approval)
    requires IsApprovalId(id)
    ensures Reached(s) && Asked(s, who, slot, a) && a.id == id && a.threadId == threadId
  {
    slot := Slot(threadId, id).value;
    assert Slot(threadId, id) == Ok(slot);
    hide Slot, Reached, IsApprovalId;
    s, a := CallAnnounced(who, tool, raw, threadId, id);
    s := CallCreates(s, slot, a);
  }

  lemma CallCreates(s0: State, slot: string, a: Approval) returns (s: State)
    requires Reached(s0) && s0.records == map[] && s0.worlds != [] && Slot(a.threadId, a.id) == Ok(slot)
    requires 0 in s0.tasks && s0.tasks[0].Calling? && s0.tasks[0].at == Creating(a, 0)
    ensures Reached(s) && slot in s.records && s.records[slot].value == a
    ensures s.worlds == s0.worlds && s.toolbox == s0.toolbox && s.spawned == s0.spawned && s.executions == s0.executions
  {
    hide Slot, Reached, Trim, NamespaceOf;
    s := Push(s0, Advance(0, YES));
  }

  /** Reasons for which a call says that the change was not run. */
  predicate IsLate(why: Why) {
    why.Expiring? || why.Refusing? || why.Changed?
  }

  /** How the world has changed when the second call looks: the deadline, the permission or the target. */
  function Later(why: Why, world: World): World {
    if why.Expiring? then world.(clock := APPROVAL_TTL_MS)
    else if why.Refusing? then world.(grants := {})
    else world.(fingerprints := map[])
  }

  function LateGates(why: Why): Gates {
    if why.Refusing? then Gates(0, 0) else Gates(1, 1)
  }

  function LateCode(why: Why): Code {
    if why.Expiring? then TooLate else if why.Refusing? then Forbidden else TargetChanged
  }

  function Approving(who: string, a: Approval, step: ResolveStep): Task {
    Resolving(who, Input(a.threadId, a.id, Approve, None), 0, step)
  }

  /** Two approvals of one request have read it. */
  lemma BothRead(s0: State, who: string, slot: string, a: Approval) returns (s: State)
    requires Reached(s0) && Asked(s0, who, slot, a)
    ensures Reached(s) && s.worlds == s0.worlds && s.executions == [] && s.toolbox == s0.toolbox
    ensures slot in s.records && s.records[slot].value == a
    ensures 1 in s.tasks && s.tasks[1] == Approving(who, a, Evaluating(Some(a)))
    ensures 2 in s.tasks && s.tasks[2] == Approving(who, a, Evaluating(Some(a)))
  {
    hide Slot, Reached, CompareFingerprint, DecideRead, DecideWrite, FinishRead, FinishWrite, CallTool, Proceed,
         RecordRefused, Evaluate;
    s := s0;
    var input := Input(a.threadId, a.id, Approve, None);
    s := Push(s, AskResolve(who, input));
    s := Push(s, AskResolve(who, input));
    s := Push(s, Advance(1, YES));
    s := Push(s, Advance(2, YES));
  }

  /** The first passes the gates. */
  lemma FirstPasses(s0: State, who: string, slot: string, a: Approval, second: Task) returns (s: State)
    requires Reached(s0) && s0.executions == [] && slot in s0.records && s0.records[slot].value == a
    requires s0.worlds == [OpenWorld(who, a.tool, a.arguments)] && a.tool in s0.toolbox && s0.toolbox[a.tool].pinned
    requires a.principalId == who && a.status == Pending && !a.irreversible && a.fingerprint == Some(MARK)
    requires a.expiresAt == APPROVAL_TTL_MS
    requires 1 in s0.tasks && s0.tasks[1] == Approving(who, a, Evaluating(Some(a)))
    requires 2 in s0.tasks && s0.tasks[2] == second
    ensures Reached(s) && s.worlds == s0.worlds && s.executions == [] && s.toolbox == s0.toolbox
    ensures slot in s.records && s.records[slot].value == a
    ensures 1 in s.tasks && s.tasks[1] == Approving(who, a, DecideReading(a, Gates(0, 0), Claiming))
    ensures 2 in s.tasks && s.tasks[2] == second
  {
    hide Slot, Reached, ReadRequest, DecideRead, DecideWrite, FinishRead, FinishWrite, CallTool, Proceed, RecordRefused;
    s := Push(s0, Advance(1, YES));
    assert s.tasks[1].step == Fingerprinting(a, Gates(0, 0));
    hide Evaluate;
    s := Push(s, Advance(1, YES));
  }

  /** The world changes before the second call looks at it. */
  lemma WorldChanges(s0: State, who: string, slot: string, a: Approval, why: Why, first: Task) returns (s: State)
    requires Reached(s0) && s0.executions == [] && slot in s0.records && s0.records[slot].value == a && IsLate(why)
    requires s0.worlds == [OpenWorld(who, a.tool, a.arguments)] && a.tool in s0.toolbox && s0.toolbox[a.tool].pinned
    requires a.principalId == who && a.status == Pending && !a.irreversible && a.fingerprint == Some(MARK)
    requires a.expiresAt == APPROVAL_TTL_MS
    requires 1 in s0.tasks && s0.tasks[1] == first
    requires 2 in s0.tasks && s0.tasks[2] == Approving(who, a, Evaluating(Some(a)))
    ensures Reached(s) && s.worlds != [] && s.executions == []
    ensures slot in s.records && s.records[slot].value == a
    ensures 1 in s.tasks && s.tasks[1] == first
    ensures 2 in s.tasks && s.tasks[2] == Approving(who, a, DecideReading(a, LateGates(why), why))
  {
    hide Slot, Reached, ReadRequest, DecideRead, DecideWrite, FinishRead, FinishWrite, CallTool, Proceed;
    s := Push(s0, Turn(Later(why, s0.worlds[0])));
    s := Push(s, Advance(2, YES));
    if !why.Expiring? {
      assert s.tasks[2].step == if why.Refusing? then RecordingRefusal(a) else Fingerprinting(a, Gates(1, 1));
      hide Evaluate;
      s := Push(s, Advance(2, YES));
    }
  }

  /** The first claims the request; the second then finds it decided and reports it as not run all the same. */
  lemma SecondComesLate(s0: State, who: string, slot: string, a: Approval, why: Why) returns (s: State)
    requires Reached(s0) && s0.worlds != [] && s0.executions == [] && IsLate(why)
    requires slot in s0.records && s0.records[slot].value == a && a.status == Pending
    requires Slot(a.threadId, a.id) == Ok(slot)
    requires 1 in s0.tasks && s0.tasks[1] == Approving(who, a, DecideReading(a, Gates(0, 0), Claiming))
    requires 2 in s0.tasks && s0.tasks[2] == Approving(who, a, DecideReading(a, LateGates(why), why))
    ensures Reached(s) && s.worlds != [] && s.executions == []
    ensures 1 in s.tasks && s.tasks[1].Resolving? && s.tasks[1].step.RecordingApproval? && s.tasks[1].step.current == a
    ensures 2 in s.tasks && s.tasks[2].Resolving? && s.tasks[2].step == Answered(Answer(LateCode(why), Some(a)))
  {
    hide Slot, Reached;
    s := FirstClaims(s0, who, slot, a, s0.tasks[2]);
    hide DecideWrite, Decide;
    s := Push(s, Advance(2, YES));
    if why.Changed? {
      assert s.tasks[2].step == RecordingChange(a, None);
      hide DecideRead, AfterDecide;
      s := Push(s, Advance(2, YES));
    }
  }

  lemma FirstClaims(s0: State, who: string, slot: string, a: Approval, second: Task) returns (s: State)
    requires Reached(s0) && s0.worlds != [] && s0.executions == []
    requires slot in s0.records && s0.records[slot].value == a && a.status == Pending
    requires Slot(a.threadId, a.id) == Ok(slot) && 2 in s0.tasks && s0.tasks[2] == second
    requires 1 in s0.tasks && s0.tasks[1] == Approving(who, a, DecideReading(a, Gates(0, 0), Claiming))
    ensures Reached(s) && s.worlds != [] && s.executions == [] && 2 in s.tasks && s.tasks[2] == second
    ensures 1 in s.tasks && s.tasks[1].Resolving? && s.tasks[1].step.RecordingApproval? && s.tasks[1].step.current == a
    ensures slot in s.records && s.records[slot].value.status == Running
  {
    hide Slot, Reached, NamespaceOf, Trim, ReadRequest, Evaluate, RecordRefused, CompareFingerprint, FinishRead,
         FinishWrite, CallTool, Proceed;
    s := Push(s0, Advance(1, YES));
    hide DecideRead;
    s := Push(s, Advance(1, YES));
  }

  /** A call that has claimed its request runs the change. */
  lemma FirstRuns(s0: State, a: Approval) returns (s: State)
    requires Reached(s0) && s0.worlds != [] && s0.executions == []
    requires 1 in s0.tasks && s0.tasks[1].Resolving? && s0.tasks[1].step.RecordingApproval? && s0.tasks[1].step.current == a
    ensures Reached(s) && ExecutionsOf(s, a.id) != {}
    ensures forall q :: q in s0.tasks && q != 1 ==> q in s.tasks && s.tasks[q] == s0.tasks[q]
  {
    hide Slot, Reached, ReadRequest, Evaluate, RecordRefused, CompareFingerprint, DecideRead, DecideWrite, FinishRead,
         FinishWrite, Proceed;
    s := Push(s0, Advance(1, YES));
    assert s.tasks[1].step.Executing? && s.tasks[1].step.current == a;
    s := Push(s, Advance(1, YES));
    assert 0 in ExecutionsOf(s, a.id);
  }

  /**
    Two decisions race on one request as its deadline passes, the permission is withdrawn or the target
    changes. The first approves in time and runs the change; the second is answered that the request
    expired, or that it was not run, with the request still shown as pending. What such an answer is worth is
    `ApprovalAnswers.NotRunIsFinalExactly`.
  */
  lemma ToldNotRunYetExecuted(who: string, tool: string, raw: Json, threadId: string, id: string, why: Why)
    returns (s: State, p: nat, a: Approval)
    requires IsApprovalId(id) && IsLate(why)
    ensures Reached(s) && p in s.tasks && s.tasks[p].Resolving?
    ensures s.tasks[p].step == Answered(Answer(LateCode(why), Some(a)))
    ensures a.id == id && a.status == Pending
    ensures ExecutionsOf(s, id) != {}
  {
    var slot;
    s, slot, a := RequestMade(who, tool, raw, threadId, id);
    hide Reached, ExecutionsOf, Slot;
    s := BothRead(s, who, slot, a);
    s := FirstPasses(s, who, slot, a, s.tasks[2]);
    hide Asked;
    s := WorldChanges(s, who, slot, a, why, s.tasks[1]);
    s := SecondComesLate(s, who, slot, a, why);
    s := FirstRuns(s, a);
    p := 2;
  }
}
