/**
  What the answers of `resolveApproval` are worth. A call that finds a request expired, forbidden or
  changed reports so whether or not it was the one to decide the request.

  - Only the task that takes a step moves, decides or executes anything (`OnlyBy`, `NextAside`).
  - Every task knows at every await whether it has decided something, and what it read is still
    stored unless the request was decided (`StepTells`, `RunTells`).
  - A request that is decided or gone can only be run by a call that has it in hand, and nobody comes
    to have it in hand any more (`SettledStays`); who has it in hand may still run it (`InHandRuns`).
    So what such a call says is final exactly if nobody does (`NotRunIsFinalExactly`).
  - A call that had no competition decided the request itself, or found it gone (`AloneIsFinal`).

  Events are looked at twice: once for the tasks that stand aside, by what no step does to others,
  and once for the task that moves, step by step.
*/
module ApprovalAnswers {
  import opened Text
  import opened SystemStore
  import opened Approvals
  import opened ApprovalProtocol
  import opened ApprovalSafety
  import opened ApprovalTheorems

  // ----- What one event leaves alone -------------------------------------------------------------

  /** Task `p` has decided nothing. */
  ghost predicate Undecided(s: State, p: nat) {
    forall i :: 0 <= i < |s.decisions| ==> s.decisions[i].task != p
  }

  /** Only task `p` has moved, made decisions or executed anything. */
  ghost predicate OnlyBy(s: State, s': State, p: nat) {
    && (forall q :: q != p ==> (q in s'.tasks <==> q in s.tasks) && (q in s.tasks ==> s'.tasks[q] == s.tasks[q]))
    && s.decisions <= s'.decisions
    && (forall i :: |s.decisions| <= i < |s'.decisions| ==> s'.decisions[i].task == p)
  }

  /** Likewise, for a call of `run`, which stays one. */
  ghost predicate CallsOn(s: State, s': State, p: nat) {
    OnlyBy(s, s', p) && (p in s'.tasks ==> s'.tasks[p].Calling?)
  }

  /** What happens to the records and the log does not matter for who moves. */
  lemma RecordsAside(s: State, s1: State, s': State, p: nat)
    requires OnlyBy(s1, s', p) && s1.tasks == s.tasks && s1.decisions == s.decisions
    ensures OnlyBy(s, s', p)
  {
  }

  lemma GotoMoves(s: State, p: nat, t: Task, step: ResolveStep)
    requires t.Resolving?
    ensures OnlyBy(s, Goto(s, p, t, step), p)
  {
  }

  lemma StopMoves(s: State, p: nat)
    ensures CallsOn(s, Stop(s, p), p)
  {
  }

  lemma ResumeMoves(s: State, p: nat, t: Task, at: CallStep)
    requires t.Calling?
    ensures CallsOn(s, Resume(s, p, t, at), p)
  {
  }

  lemma RecordRefusedMoves(s: State, p: nat, t: Task, env: Env)
    requires t.Resolving? && (t.step.RecordingDenial? || t.step.RecordingRefusal? || t.step.RecordingChange?)
    ensures OnlyBy(s, RecordRefused(s, p, t, env), p)
  {
    hide AuditOf;
  }

  lemma RecordingMoves(s: State, p: nat, t: Task, env: Env)
    requires t.Resolving?
    ensures t.step.RecordingApproval? ==> OnlyBy(s, RecordApproved(s, p, t, env), p)
    ensures t.step.Executing? ==> OnlyBy(s, CallTool(s, p, t, env), p)
    ensures t.step.RecordingOutcome? ==> OnlyBy(s, RecordEnding(s, p, t, env), p)
  {
    hide AuditOf, ExecutionOf;
  }

  lemma ReadingMoves(s: State, p: nat, t: Task, env: Env)
    requires t.Resolving? && s.worlds != []
    ensures t.step.Reading? ==> OnlyBy(s, ReadRequest(s, p, t, env), p)
    ensures t.step.Fingerprinting? ==> OnlyBy(s, CompareFingerprint(s, p, t, env), p)
  {
    hide Slot, FingerprintNow;
  }

  lemma DecideReadMoves(s: State, p: nat, t: Task, env: Env)
    requires t.Resolving? && t.step.DecideReading?
    ensures OnlyBy(s, DecideRead(s, p, t, env), p)
  {
    var current, gates, why := t.step.current, t.step.gates, t.step.why;
    var slot := Slot(current.threadId, current.id);
    StopMoves(s, p);
    GotoMoves(s, p, t, AfterDecide(current, gates, why, None));
    if slot.Ok? && slot.value in s.records {
      GotoMoves(s, p, t, DecideWriting(current, gates, why, s.records[slot.value]));
    }
    hide Slot, AfterDecide, Goto, Stop, OnlyBy;
  }

  lemma DecideWriteMoves(s: State, p: nat, t: Task, env: Env)
    requires t.Resolving? && t.step.DecideWriting? && s.worlds != []
    ensures OnlyBy(s, DecideWrite(s, p, t, env), p)
  {
    var current, gates, why, found := t.step.current, t.step.gates, t.step.why, t.step.found;
    var slot := Slot(current.threadId, current.id);
    StopMoves(s, p);
    GotoMoves(s, p, t, AfterDecide(current, gates, why, None));
    hide Slot, AfterDecide, Matches, Decided, Trim;
    if slot.Ok? && Matches(s.records, slot.value, found.updatedAt, Some(found.value)) {
      assert slot.value in s.records;
      var s1 := Decide(s, p, current.id, slot.value, found, why);
      assert OnlyBy(s, s1, p) && s1.tasks == s.tasks;
      GotoDecided(s, s1, p, t, AfterDecide(current, gates, why, Some(s1.records[slot.value].value)));
    }
    hide Goto, Stop, OnlyBy, Decide;
  }

  lemma GotoDecided(s: State, s1: State, p: nat, t: Task, step: ResolveStep)
    requires t.Resolving? && OnlyBy(s, s1, p)
    ensures OnlyBy(s, Goto(s1, p, t, step), p)
  {
  }

  lemma FinishThrewMoves(s: State, p: nat, t: Task, claimed: Approval, ending: Ending, reason: string)
    requires t.Resolving?
    ensures OnlyBy(s, FinishThrew(s, p, t, claimed, ending, reason), p)
  {
  }

  lemma FinishReadMoves(s: State, p: nat, t: Task, env: Env)
    requires t.Resolving? && t.step.FinishReading?
    ensures OnlyBy(s, FinishRead(s, p, t, env), p)
  {
    FinishThrewMoves(s, p, t, t.step.claimed, t.step.ending, env.text);
    hide Slot, Ended, EndCode, FinishThrew;
  }

  lemma FinishWriteMoves(s: State, p: nat, t: Task, env: Env)
    requires t.Resolving? && t.step.FinishWriting? && s.worlds != []
    ensures OnlyBy(s, FinishWrite(s, p, t, env), p)
  {
    var claimed, ending, found := t.step.claimed, t.step.ending, t.step.found;
    var slot := Slot(claimed.threadId, claimed.id);
    if slot.Ok? {
      var matched := Matches(s.records, slot.value, found.updatedAt, Some(found.value));
      var s1 := if matched && (!env.throws || env.ok) then Finish(s, slot.value, found, ending) else s;
      var end := Answered(Answer(EndCode(ending), Some(Ended(if matched then found.value else claimed, ending))));
      assert s1.tasks == s.tasks && s1.decisions == s.decisions;
      FinishThrewMoves(s1, p, t, claimed, ending, env.text);
      GotoMoves(s1, p, t, end);
      hide Slot, Ended, EndCode, Matches, Finish, FinishThrew, Goto, OnlyBy;
      RecordsAside(s, s1, FinishWrite(s, p, t, env), p);
    } else {
      StopMoves(s, p);
      hide Slot, Stop, OnlyBy, Finish;
    }
  }

  lemma CallMoves(s: State, p: nat, t: Task, env: Env)
    requires t.Calling? && s.worlds != []
    ensures t.at.RecordingRefused? || t.at.RecordingRead? ==> CallsOn(s, RecordCall(s, p, t, env), p)
    ensures t.at.ReadExecuting? ==> CallsOn(s, ReadTool(s, p, t, env), p)
    ensures t.at.Announcing? ==> CallsOn(s, Announce(s, p, t, env), p)
  {
  }

  lemma StoreRequestMoves(s: State, p: nat, t: Task, env: Env)
    requires t.Calling? && t.at.Creating? && s.worlds != []
    ensures CallsOn(s, StoreRequest(s, p, t, env), p)
  {
    hide Slot, Trim, NamespaceOf;
  }

  lemma ListWaitingMoves(s: State, p: nat, t: Task, env: Env)
    requires t.Calling? && t.at.Listing? && s.worlds != []
    ensures CallsOn(s, ListWaiting(s, p, t, env), p)
  {
    hide Waiting;
  }

  lemma PinMoves(s: State, p: nat, t: Task, env: Env)
    requires t.Calling? && t.at.Pinning? && s.worlds != []
    ensures CallsOn(s, Pin(s, p, t, env), p)
  {
    StopMoves(s, p);
    ResumeMoves(s, p, t, RecordingRefused(FailedCall, false, CallFailed));
    hide FingerprintNow, NewApproval;
    if t.threadId.Some? {
      var approval := NewApproval(s, t, t.at.parsed, FingerprintNow(s, t.tool, t.at.parsed), env);
      var s1 := s.(issued := s.issued + {approval.id});
      ResumeMoves(s1, p, t, Announcing(approval));
      RecordsAside(s, s1, Resume(s1, p, t, Announcing(approval)), p);
    }
    hide Resume, Stop, OnlyBy;
  }

  lemma ProceedMoves(s: State, p: nat, t: Task, env: Env)
    requires t.Calling? && s.worlds != [] && p in s.tasks && s.tasks[p] == t
    ensures CallsOn(s, Proceed(s, p, t, env), p)
  {
    hide Start, RecordCall, ReadTool, ListWaiting, Pin, Announce, StoreRequest;
    match t.at
    case Listing(_) => ListWaitingMoves(s, p, t, env);
    case Pinning(_) => PinMoves(s, p, t, env);
    case Creating(_, _) => StoreRequestMoves(s, p, t, env);
    case _ => CallMoves(s, p, t, env);
  }

  lemma ResolveMoves(s: State, p: nat, t: Task, env: Env)
    requires t.Resolving? && s.worlds != []
    ensures OnlyBy(s, Resolve(s, p, t, env), p)
  {
    hide Evaluate, RecordRefused, RecordApproved, RecordEnding, ReadRequest, CompareFingerprint, DecideRead, FinishRead,
         DecideWrite, FinishWrite, CallTool;
    match t.step
    case DecideReading(_, _, _) => DecideReadMoves(s, p, t, env);
    case DecideWriting(_, _, _, _) => DecideWriteMoves(s, p, t, env);
    case FinishReading(_, _) => FinishReadMoves(s, p, t, env);
    case FinishWriting(_, _, _) => FinishWriteMoves(s, p, t, env);
    case RecordingDenial(_) => RecordRefusedMoves(s, p, t, env);
    case RecordingRefusal(_) => RecordRefusedMoves(s, p, t, env);
    case RecordingChange(_, _) => RecordRefusedMoves(s, p, t, env);
    case _ =>
      ReadingMoves(s, p, t, env);
      RecordingMoves(s, p, t, env);
  }

  /** What an event does to a task other than the one it moves: it may start or end it, no more. */
  ghost predicate Aside(s: State, s': State, q: nat) {
    && (q in s'.tasks && q in s.tasks ==> s'.tasks[q] == s.tasks[q])
    && (q in s'.tasks && q !in s.tasks ==> q == s.spawned && (s'.tasks[q].Resolving? ==> s'.tasks[q].step == Reading))
    && (forall i :: |s.decisions| <= i < |s'.decisions| ==> s'.decisions[i].task != q)
  }

  lemma NextAside(s: State, e: Event, q: nat)
    requires Inv(s) && Enabled(s, e) && (e.Advance? ==> e.p != q)
    ensures Aside(s, Next(s, e), q)
  {
    if e.Advance? {
      hide Inv, Resolve, Proceed;
      if s.tasks[e.p].Resolving? {
        ResolveMoves(s, e.p, s.tasks[e.p], e.env);
      } else {
        ProceedMoves(s, e.p, s.tasks[e.p], e.env);
      }
    } else if e.AskResolve? || e.AskCall? {
      assert q in s.tasks ==> TaskFits(s, q, s.tasks[q]);
    }
  }

  // ----- What a call knows about its request --------------------------------------------------------

  predicate SameSlot(a: Approval, input: Input) {
    Slot(a.threadId, a.id) == Slot(input.threadId, input.approvalId)
  }

  /** Task `p` decided the request, and not to run it. */
  ghost predicate RefusedBy(s: State, p: nat, id: string) {
    && id in s.decidedAt && s.decidedAt[id] < |s.decisions|
    && s.decisions[s.decidedAt[id]].task == p && s.decisions[s.decidedAt[id]].status != Running
  }

  /** The request was made, and is no longer stored. */
  ghost predicate Gone(s: State, a: Approval) {
    Known(s, a) && Slot(a.threadId, a.id).Ok? && Slot(a.threadId, a.id).value !in s.records
  }

  /** The answer of `decide`: the caller decided the request, or somebody else did, or it is gone. */
  ghost predicate Tells(s: State, p: nat, a: Approval, mine: bool) {
    if mine then RefusedBy(s, p, a.id)
    else Undecided(s, p) && (a.id in s.decidedAt || Gone(s, a))
  }

  /** The record that `decide` has read is still the one that is stored, unless the request was decided. */
  ghost predicate StillFound(s: State, a: Approval, found: Record<Approval>) {
    var slot := Slot(a.threadId, a.id);
    slot.Ok? && slot.value in s.records && s.records[slot.value].value.status == Pending ==>
      s.records[slot.value] == found
  }

  /** Answers by which a call says that the change was not run. */
  predicate SaysNotRun(answer: Answer) {
    answer.code in {TooLate, Forbidden, TargetChanged}
  }

  ghost predicate StepTells(s: State, p: nat, t: Task)
    requires t.Resolving?
  {
    match t.step
    case Reading => Undecided(s, p)
    case Evaluating(seen) => Undecided(s, p) && (seen.Some? ==> SameSlot(seen.value, t.input))
    case RecordingDenial(current) => Undecided(s, p) && SameSlot(current, t.input)
    case RecordingRefusal(current) => Undecided(s, p) && SameSlot(current, t.input)
    case Fingerprinting(current, _) => Undecided(s, p) && SameSlot(current, t.input)
    case DecideReading(current, _, _) => Undecided(s, p) && SameSlot(current, t.input)
    case DecideWriting(current, _, _, found) =>
      Undecided(s, p) && SameSlot(current, t.input) && StillFound(s, current, found)
    case RecordingChange(current, refused) =>
      var shown := if refused.Some? then refused.value else current;
      SameSlot(shown, t.input) && Tells(s, p, shown, refused.Some?) && (refused.Some? <==> shown.status != Pending)
    case Answered(answer) =>
      SaysNotRun(answer) ==>
        && answer.approval.Some? && Known(s, answer.approval.value) && SameSlot(answer.approval.value, t.input)
        && Tells(s, p, answer.approval.value, answer.approval.value.status != Pending)
    case _ => true
  }

  ghost predicate TaskTells(s: State, p: nat) {
    p in s.tasks && s.tasks[p].Resolving? ==> StepTells(s, p, s.tasks[p])
  }

  /** What is stored of a request after an event was stored before it. */
  lemma StoredBefore(s: State, e: Event, a: Approval)
    requires Inv(s) && Enabled(s, e) && Known(s, a) && Slot(a.threadId, a.id).Ok?
    requires Slot(a.threadId, a.id).value in Next(s, e).records
    ensures Slot(a.threadId, a.id).value in s.records && Continues(s, Next(s, e), Slot(a.threadId, a.id).value)
    ensures Next(s, e).records[Slot(a.threadId, a.id).value].value.id == a.id
  {
    var s', slot := Next(s, e), Slot(a.threadId, a.id).value;
    NextKeeps(s, e);
    NextContinues(s, e);
    hide Next, Inv, Enabled, Slot;
    assert Known(s', a);
    SlotTellsId(s', a, slot);
    assert Continues(s, s', slot);
  }

  lemma GoneStays(s: State, e: Event, a: Approval)
    requires Inv(s) && Enabled(s, e) && Gone(s, a)
    ensures Gone(Next(s, e), a)
  {
    NextContinues(s, e);
    hide Inv, Enabled, Slot;
    if Slot(a.threadId, a.id).value in Next(s, e).records {
      hide Next;
      StoredBefore(s, e, a);
    }
    hide Next;
  }

  lemma FoundStays(s: State, e: Event, a: Approval, found: Record<Approval>)
    requires Inv(s) && Enabled(s, e) && Known(s, a) && StillFound(s, a, found)
    ensures StillFound(Next(s, e), a, found)
  {
    var slot := Slot(a.threadId, a.id);
    assert s.worlds != [];
    hide Next, Inv, Enabled, Slot;
    if slot.Ok? && slot.value in Next(s, e).records {
      StoredBefore(s, e, a);
    }
  }

  lemma TellsStays(s: State, e: Event, q: nat, a: Approval, mine: bool)
    requires Inv(s) && Enabled(s, e) && Aside(s, Next(s, e), q) && Tells(s, q, a, mine)
    ensures Tells(Next(s, e), q, a, mine)
  {
    NextContinues(s, e);
    if !mine && Gone(s, a) {
      GoneStays(s, e, a);
    }
    hide Next, Inv, Enabled, AllContinue, Gone;
  }

  lemma UndecidedStays(s: State, s': State, q: nat)
    requires Undecided(s, q) && Aside(s, s', q) && s.decisions <= s'.decisions
    ensures Undecided(s', q)
  {
  }

  lemma StepTellsOn(s: State, e: Event, q: nat, t: Task)
    requires Inv(s) && Enabled(s, e) && Aside(s, Next(s, e), q)
    requires t.Resolving? && TaskFits(s, q, t) && StepTells(s, q, t)
    ensures StepTells(Next(s, e), q, t)
  {
    var s' := Next(s, e);
    NextContinues(s, e);
    match t.step {
      case DecideWriting(current, _, _, found) =>
        FoundStays(s, e, current, found);
        hide Inv, AllContinue;
        UndecidedStays(s, s', q);
        hide Next, Enabled, StillFound, SameSlot, TaskFits, Undecided;
      case RecordingChange(current, refused) =>
        TellsStays(s, e, q, if refused.Some? then refused.value else current, refused.Some?);
        hide Next, Inv, Enabled, AllContinue, Tells, SameSlot, TaskFits;
      case Answered(answer) =>
        if SaysNotRun(answer) {
          TellsStays(s, e, q, answer.approval.value, answer.approval.value.status != Pending);
        }
        hide Next, Inv, Enabled, AllContinue, Tells, SameSlot, TaskFits;
      case _ =>
        if Undecided(s, q) {
          UndecidedStays(s, s', q);
        }
        hide Next, Inv, Enabled, AllContinue, SameSlot, TaskFits, Undecided;
    }
  }

  /** A new task knows that it has decided nothing. */
  lemma NewcomerTells(s: State, s': State, q: nat)
    requires Histories(s) && Aside(s, s', q) && s.decisions <= s'.decisions && q !in s.tasks
    ensures TaskTells(s', q)
  {
    forall i | 0 <= i < |s'.decisions| && q == s.spawned
      ensures s'.decisions[i].task != q
    {
      if i < |s.decisions| {
        assert DecisionFits(s, i);
      }
    }
  }

  /** What a task knows survives the steps of others. */
  lemma OthersTell(s: State, e: Event, q: nat)
    requires Inv(s) && Enabled(s, e) && TaskTells(s, q) && (e.Advance? ==> e.p != q)
    ensures TaskTells(Next(s, e), q)
  {
    NextAside(s, e, q);
    if q !in s.tasks {
      NextContinues(s, e);
      NewcomerTells(s, Next(s, e), q);
    } else if s.tasks[q].Resolving? {
      assert TaskFits(s, q, s.tasks[q]);
      StepTellsOn(s, e, q, s.tasks[q]);
    }
    hide StepTells, TaskFits, Inv, Next, Enabled, AllContinue, Grows, Histories;
  }

  // ----- What a call learns by its own steps ------------------------------------------------------------

  lemma TellsAside(s: State, s': State, p: nat, t: Task)
    requires t.Resolving? && StepTells(s, p, t)
    requires s'.records == s.records && s'.decisions == s.decisions && s'.decidedAt == s.decidedAt
    requires s'.requested == s.requested
    ensures StepTells(s', p, t)
  {
    hide Slot, SameSlot;
  }

  lemma ReadTells(s: State, p: nat, t: Task, env: Env)
    requires Inv(s) && t.Resolving? && t.step.Reading? && Undecided(s, p)
    ensures var s' := ReadRequest(s, p, t, env); p in s'.tasks ==> StepTells(s', p, s'.tasks[p])
  {
    var slot := Slot(t.input.threadId, t.input.approvalId);
    if !env.throws && slot.Ok? {
      assert slot.value in s.records ==> RecordFits(s, slot.value);
      var t' := t.(step := Evaluating(if slot.value in s.records then Some(s.records[slot.value].value) else None));
      assert StepTells(s, p, t');
      hide Slot, Inv, StepTells;
      TellsAside(s, Put(s, p, t'), p, t');
    }
  }

  lemma EvaluateTells(s: State, p: nat, t: Task)
    requires s.worlds != [] && t.Resolving? && t.step.Evaluating? && StepTells(s, p, t)
    ensures StepTells(s, p, t.(step := Evaluate(s, t, t.step.seen)))
  {
    hide SameSlot, Undecided, Tells;
  }

  lemma AfterDecideTells(s: State, p: nat, t: Task, current: Approval, gates: Gates, why: Why, decided: Option<Approval>)
    requires t.Resolving?
    requires decided.None? ==>
               Known(s, current) && SameSlot(current, t.input) && current.status == Pending && Tells(s, p, current, false)
    requires decided.Some? ==>
               Known(s, decided.value) && SameSlot(decided.value, t.input) && decided.value.status != Pending
    requires decided.Some? && !why.Claiming? ==> Tells(s, p, decided.value, true)
    ensures StepTells(s, p, t.(step := AfterDecide(current, gates, why, decided)))
  {
    hide SameSlot, Tells, Known;
  }

  /** A request that is no longer pending, or no longer stored, was decided by somebody or is gone. */
  lemma NotPending(s: State, p: nat, current: Approval)
    requires Inv(s) && Known(s, current) && Undecided(s, p) && Slot(current.threadId, current.id).Ok?
    requires var slot := Slot(current.threadId, current.id).value;
             slot in s.records ==> s.records[slot].value.status != Pending
    ensures Tells(s, p, current, false)
  {
    var slot := Slot(current.threadId, current.id).value;
    if slot in s.records {
      SlotTellsId(s, current, slot);
      assert RecordFits(s, slot);
    }
  }

  lemma DecideReadTells(s: State, p: nat, t: Task, env: Env)
    requires Inv(s) && t.Resolving? && t.step.DecideReading? && TaskFits(s, p, t) && StepTells(s, p, t)
    ensures var s' := DecideRead(s, p, t, env); p in s'.tasks ==> StepTells(s', p, s'.tasks[p])
  {
    var current, gates, why := t.step.current, t.step.gates, t.step.why;
    var slot := Slot(current.threadId, current.id);
    if !env.throws && slot.Ok? {
      var t';
      if slot.value in s.records && s.records[slot.value].value.status == Pending {
        t' := t.(step := DecideWriting(current, gates, why, s.records[slot.value]));
        assert StepTells(s, p, t');
      } else {
        NotPending(s, p, current);
        AfterDecideTells(s, p, t, current, gates, why, None);
        t' := t.(step := AfterDecide(current, gates, why, None));
      }
      hide Inv, TaskFits, AfterDecide, Slot, StepTells;
      TellsAside(s, Put(s, p, t'), p, t');
    }
  }

  lemma MatchedTells(s: State, p: nat, t: Task, slot: string)
    requires t.Resolving? && t.step.DecideWriting? && s.worlds != [] && StepTells(s, p, t)
    requires Known(s, t.step.current) && Known(s, t.step.found.value) && t.step.found.value.id == t.step.current.id
    requires Slot(t.step.current.threadId, t.step.current.id) == Ok(slot) && slot in s.records
    ensures var s1 := Decide(s, p, t.step.current.id, slot, t.step.found, t.step.why);
            var t' := t.(step := AfterDecide(t.step.current, t.step.gates, t.step.why, Some(s1.records[slot].value)));
            StepTells(Put(s1, p, t'), p, t')
  {
    var s1 := Decide(s, p, t.step.current.id, slot, t.step.found, t.step.why);
    var decided := s1.records[slot].value;
    hide AfterDecide, Decide, Slot, StepTells, Tells, SameSlot, Known;
    DecidedTells(s, p, t);
    AfterDecideTells(s1, p, t, t.step.current, t.step.gates, t.step.why, Some(decided));
    var t' := t.(step := AfterDecide(t.step.current, t.step.gates, t.step.why, Some(decided)));
    TellsAside(s1, Put(s1, p, t'), p, t');
  }

  lemma MissedTells(s: State, p: nat, t: Task, slot: string)
    requires Inv(s) && t.Resolving? && t.step.DecideWriting? && TaskFits(s, p, t) && StepTells(s, p, t)
    requires Slot(t.step.current.threadId, t.step.current.id) == Ok(slot)
    requires !Matches(s.records, slot, t.step.found.updatedAt, Some(t.step.found.value))
    ensures var t' := t.(step := AfterDecide(t.step.current, t.step.gates, t.step.why, None));
            StepTells(Put(s, p, t'), p, t')
  {
    var current := t.step.current;
    NotPending(s, p, current);
    assert Known(s, current) && SameSlot(current, t.input) && current.status == Pending;
    hide Inv, TaskFits, AfterDecide, Slot, StepTells, Matches, Tells, SameSlot, Known;
    AfterDecideTells(s, p, t, current, t.step.gates, t.step.why, None);
    var t' := t.(step := AfterDecide(current, t.step.gates, t.step.why, None));
    TellsAside(s, Put(s, p, t'), p, t');
  }

  /** The one step that decides: it matched the record that was read, or the request is pending no more. */
  lemma DecideWriteTells(s: State, p: nat, t: Task, env: Env)
    requires Inv(s) && t.Resolving? && t.step.DecideWriting? && TaskFits(s, p, t) && StepTells(s, p, t)
    ensures var s' := DecideWrite(s, p, t, env); p in s'.tasks ==> StepTells(s', p, s'.tasks[p])
  {
    var found, slot := t.step.found, Slot(t.step.current.threadId, t.step.current.id);
    assert s.worlds != [] && Known(s, t.step.current) && Known(s, found.value) && found.value.id == t.step.current.id;
    hide Inv, TaskFits, Known, AfterDecide, Decide, Slot, StepTells, Matches;
    if !env.throws && slot.Ok? {
      if Matches(s.records, slot.value, found.updatedAt, Some(found.value)) {
        MatchedTells(s, p, t, slot.value);
      } else {
        MissedTells(s, p, t, slot.value);
      }
    }
  }

  lemma DecidedTells(s: State, p: nat, t: Task)
    requires t.Resolving? && t.step.DecideWriting? && s.worlds != [] && StepTells(s, p, t)
    requires Known(s, t.step.current) && Known(s, t.step.found.value) && t.step.found.value.id == t.step.current.id
    requires Slot(t.step.current.threadId, t.step.current.id).Ok?
    requires Slot(t.step.current.threadId, t.step.current.id).value in s.records
    ensures var slot := Slot(t.step.current.threadId, t.step.current.id).value;
            var s1 := Decide(s, p, t.step.current.id, slot, t.step.found, t.step.why);
            var decided := s1.records[slot].value;
            && Known(s1, decided) && SameSlot(decided, t.input) && decided.status != Pending
            && (!t.step.why.Claiming? ==> Tells(s1, p, decided, true))
  {
    hide Slot, Trim, NamespaceOf;
  }

  lemma RefusedTells(s: State, p: nat, t: Task, env: Env)
    requires t.Resolving? && StepTells(s, p, t) && (t.step.RecordingDenial? || t.step.RecordingRefusal?)
    ensures var s' := RecordRefused(s, p, t, env); StepTells(s', p, s'.tasks[p])
  {
    hide SameSlot, AuditOf;
  }

  lemma ChangeTells(s: State, p: nat, t: Task, env: Env)
    requires t.Resolving? && t.step.RecordingChange? && TaskFits(s, p, t) && StepTells(s, p, t)
    ensures var s' := RecordRefused(s, p, t, env); StepTells(s', p, s'.tasks[p])
  {
    var shown := if t.step.refused.Some? then t.step.refused.value else t.step.current;
    var t' := t.(step := Answered(Answer(TargetChanged, Some(shown))));
    hide TaskFits, StepTells, AuditOf, Log;
    ShownTells(s, p, t, shown);
    TellsAside(s, RecordRefused(s, p, t, env), p, t');
  }

  lemma ShownTells(s: State, p: nat, t: Task, shown: Approval)
    requires t.Resolving? && t.step.RecordingChange? && TaskFits(s, p, t) && StepTells(s, p, t)
    requires shown == if t.step.refused.Some? then t.step.refused.value else t.step.current
    ensures StepTells(s, p, t.(step := Answered(Answer(TargetChanged, Some(shown)))))
  {
    hide Known, Tells, SameSlot, DecidedAs;
  }

  lemma OwnTells(s: State, p: nat, env: Env)
    requires Inv(s) && p in s.tasks && s.tasks[p].Resolving? && TaskTells(s, p)
    ensures TaskTells(Resolve(s, p, s.tasks[p], env), p)
  {
    var t := s.tasks[p];
    assert TaskFits(s, p, t);
    hide Evaluate, RecordRefused, RecordApproved, RecordEnding, ReadRequest, CompareFingerprint, DecideRead, FinishRead,
         DecideWrite, FinishWrite, CallTool;
    hide Tells, SameSlot, StillFound;
    match t.step
    case Reading => ReadTells(s, p, t, env);
    case Evaluating(seen) =>
      EvaluateTells(s, p, t);
      var t' := t.(step := Evaluate(s, t, seen));
      TellsAside(s, Put(s, p, t'), p, t');
    case RecordingDenial(_) => RefusedTells(s, p, t, env);
    case RecordingRefusal(_) => RefusedTells(s, p, t, env);
    case Fingerprinting(_, _) => ComparedTells(s, p, t, env);
    case DecideReading(_, _, _) => DecideReadTells(s, p, t, env);
    case DecideWriting(_, _, _, _) => DecideWriteTells(s, p, t, env);
    case RecordingChange(_, _) => ChangeTells(s, p, t, env);
    case Answered(_) =>
    case RecordingApproval(_, _, _) => ApprovedMovesOn(s, p, t, env);
    case Executing(_, _, _, _) => ExecutedMovesOn(s, p, t, env);
    case RecordingOutcome(_, _, _) => ExecutedMovesOn(s, p, t, env);
    case FinishReading(_, _) => FinishReadMovesOn(s, p, t, env);
    case FinishWriting(_, _, _) => FinishWriteMovesOn(s, p, t, env);
  }

  lemma ComparedTells(s: State, p: nat, t: Task, env: Env)
    requires t.Resolving? && t.step.Fingerprinting? && s.worlds != [] && StepTells(s, p, t)
    ensures var s' := CompareFingerprint(s, p, t, env); p in s'.tasks && StepTells(s', p, s'.tasks[p])
  {
    hide SameSlot, FingerprintNow;
  }

  /** A call whose change was run, or failed to be, and that will not say otherwise. */
  predicate WindingUp(t: Task) {
    t.Resolving? &&
    match t.step
    case RecordingOutcome(_, _, _) => true
    case FinishReading(_, _) => true
    case FinishWriting(_, _, _) => true
    case Answered(answer) => !SaysNotRun(answer)
    case _ => false
  }

  lemma ApprovedMovesOn(s: State, p: nat, t: Task, env: Env)
    requires t.Resolving? && t.step.RecordingApproval?
    ensures var t' := RecordApproved(s, p, t, env).tasks[p];
            WindingUp(t') || (t'.Resolving? && t'.step.Executing? && t'.step.current == t.step.current)
  {
    hide AuditOf;
  }

  lemma ExecutedMovesOn(s: State, p: nat, t: Task, env: Env)
    requires t.Resolving?
    ensures t.step.Executing? ==> WindingUp(CallTool(s, p, t, env).tasks[p])
    ensures t.step.RecordingOutcome? ==> WindingUp(RecordEnding(s, p, t, env).tasks[p])
  {
    hide AuditOf, ExecutionOf;
  }

  ghost predicate WindsUp(s: State, p: nat) {
    p in s.tasks ==> WindingUp(s.tasks[p])
  }

  lemma FinishThrewMovesOn(s: State, p: nat, t: Task, claimed: Approval, ending: Ending, reason: string)
    requires t.Resolving?
    ensures WindsUp(FinishThrew(s, p, t, claimed, ending, reason), p)
  {
  }

  lemma EndMovesOn(s: State, p: nat, t: Task, ending: Ending, shown: Option<Approval>)
    requires t.Resolving?
    ensures WindsUp(Goto(s, p, t, Answered(Answer(EndCode(ending), shown))), p)
  {
  }

  lemma FinishReadMovesOn(s: State, p: nat, t: Task, env: Env)
    requires t.Resolving? && t.step.FinishReading?
    ensures WindsUp(FinishRead(s, p, t, env), p)
  {
    var claimed, ending := t.step.claimed, t.step.ending;
    FinishThrewMovesOn(s, p, t, claimed, ending, env.text);
    EndMovesOn(s, p, t, ending, Some(Ended(claimed, ending)));
    hide Slot, Ended, EndCode, FinishThrew;
  }

  lemma FinishWriteMovesOn(s: State, p: nat, t: Task, env: Env)
    requires t.Resolving? && t.step.FinishWriting? && s.worlds != []
    ensures WindsUp(FinishWrite(s, p, t, env), p)
  {
    var claimed, ending, found := t.step.claimed, t.step.ending, t.step.found;
    var slot := Slot(claimed.threadId, claimed.id);
    if slot.Ok? {
      var matched := Matches(s.records, slot.value, found.updatedAt, Some(found.value));
      hide Matches;
      var s1 := if matched && (!env.throws || env.ok) then Finish(s, slot.value, found, ending) else s;
      FinishThrewMovesOn(s1, p, t, claimed, ending, env.text);
      EndMovesOn(s1, p, t, ending, Some(Ended(if matched then found.value else claimed, ending)));
      hide Slot, Ended, EndCode, Finish, FinishThrew, Goto, WindsUp;
    } else {
      hide Slot, Finish;
    }
  }

  lemma NextTells(s: State, e: Event, q: nat)
    requires Inv(s) && Enabled(s, e) && TaskTells(s, q)
    ensures TaskTells(Next(s, e), q)
  {
    if e.Advance? && e.p == q && s.tasks[q].Resolving? {
      OwnTells(s, q, e.env);
    } else if e.Advance? && e.p == q {
      ProceedMoves(s, q, s.tasks[q], e.env);
    } else {
      OthersTell(s, e, q);
    }
  }

  lemma {:induction false} RunTells(run: seq<State>, i: nat, p: nat)
    requires IsRun(run) && i < |run|
    ensures TaskTells(run[i], p)
  {
    if i > 0 {
      RunTells(run, i - 1, p);
      var e := EventBefore(run, i);
      NextTells(run[i - 1], e, p);
    } else {
      assert exists toolbox, world :: run[0] == Initial(toolbox, world);
    }
  }

  // ----- What can still be run ------------------------------------------------------------------------

  /** The task has claimed the request and not called its tool yet. */
  predicate InHand(t: Task, id: string) {
    t.Resolving? && (t.step.RecordingApproval? || t.step.Executing?) && t.step.current.id == id
  }

  /** The change was run, or a call has claimed it and is still alive. */
  ghost predicate MayRun(s: State, id: string) {
    id in s.executedAt || exists q :: q in s.tasks && InHand(s.tasks[q], id)
  }

  /** Nobody can decide the request any more: it is decided, or gone. */
  ghost predicate Closed(s: State, a: Approval) {
    Known(s, a) && (a.id in s.decidedAt || Gone(s, a))
  }

  lemma ClosedStays(s: State, e: Event, a: Approval)
    requires Inv(s) && Enabled(s, e) && Closed(s, a)
    ensures Closed(Next(s, e), a)
  {
    NextContinues(s, e);
    if Gone(s, a) {
      GoneStays(s, e, a);
    }
    hide Next, Inv, Enabled, Slot, AllContinue;
  }

  /** The step that claims a request: its record is the pending one that was read. */
  ghost predicate Claims(s: State, t: Task, id: string) {
    && t.Resolving? && t.step.DecideWriting? && t.step.current.id == id
    && var slot := Slot(t.step.current.threadId, t.step.current.id);
       slot.Ok? && Matches(s.records, slot.value, t.step.found.updatedAt, Some(t.step.found.value))
  }

  /** The request that a call is about, once it has read it as pending. */
  function Subject(t: Task): Option<Approval> {
    if !t.Resolving? then None
    else
      match t.step
      case Evaluating(seen) => if seen.Some? && seen.value.status == Pending then seen else None
      case RecordingDenial(current) => Some(current)
      case RecordingRefusal(current) => Some(current)
      case Fingerprinting(current, _) => Some(current)
      case DecideReading(current, _, _) => Some(current)
      case DecideWriting(current, _, _, _) => Some(current)
      case RecordingChange(current, refused) => Some(if refused.Some? then refused.value else current)
      case Answered(answer) => if SaysNotRun(answer) then answer.approval else None
      case _ => None
  }

  /** The request that a call reads is stored as pending. */
  ghost predicate ReadsPending(s: State, t: Task, id: string) {
    && t.Resolving? && t.step.Reading?
    && var slot := Slot(t.input.threadId, t.input.approvalId);
       slot.Ok? && slot.value in s.records && s.records[slot.value].value.status == Pending
       && s.records[slot.value].value.id == id
  }

  /** A step leaves a call with the same request in hand and in mind, or one it has just claimed, or just read. */
  ghost predicate HandsOn(s: State, t: Task, t': Task, id: string) {
    && (InHand(t', id) ==> InHand(t, id) || Claims(s, t, id))
    && (Subject(t').Some? && Subject(t').value.id == id ==>
          (Subject(t).Some? && Subject(t).value.id == id) || ReadsPending(s, t, id))
  }

  ghost predicate HandedOn(s: State, s': State, p: nat, t: Task, id: string) {
    p in s'.tasks ==> HandsOn(s, t, s'.tasks[p], id)
  }

  lemma AfterDecideHandsOn(s: State, t: Task, current: Approval, gates: Gates, why: Why,
                           decided: Option<Approval>, id: string)
    requires t.Resolving? && Subject(t) == Some(current)
    requires decided.Some? ==> decided.value.id == current.id && Claims(s, t, current.id)
    ensures HandsOn(s, t, t.(step := AfterDecide(current, gates, why, decided)), id)
  {
    hide Claims;
  }

  lemma DecideReadHandsOn(s: State, p: nat, t: Task, env: Env, id: string)
    requires t.Resolving? && t.step.DecideReading?
    ensures HandedOn(s, DecideRead(s, p, t, env), p, t, id)
  {
    var current := t.step.current;
    var slot := Slot(current.threadId, current.id);
    AfterDecideHandsOn(s, t, current, t.step.gates, t.step.why, None, id);
    hide Slot, AfterDecide, Claims, ReadsPending;
    if !env.throws && slot.Ok? && slot.value in s.records && s.records[slot.value].value.status == Pending {
      assert HandsOn(s, t, t.(step := DecideWriting(current, t.step.gates, t.step.why, s.records[slot.value])), id);
    }
    hide HandsOn;
  }

  lemma DecideWriteHandsOn(s: State, p: nat, t: Task, env: Env, id: string)
    requires t.Resolving? && t.step.DecideWriting? && s.worlds != [] && t.step.found.value.id == t.step.current.id
    ensures HandedOn(s, DecideWrite(s, p, t, env), p, t, id)
  {
    var current, gates, why, found := t.step.current, t.step.gates, t.step.why, t.step.found;
    var slot := Slot(current.threadId, current.id);
    if !env.throws && slot.Ok? {
      AfterDecideHandsOn(s, t, current, gates, why, None, id);
      if Matches(s.records, slot.value, found.updatedAt, Some(found.value)) {
        var decided := Decide(s, p, current.id, slot.value, found, why).records[slot.value].value;
        assert decided.id == current.id;
        AfterDecideHandsOn(s, t, current, gates, why, Some(decided), id);
      }
    }
    hide Slot, Matches, Decide, AfterDecide, HandsOn;
  }

  lemma RefusingHandsOn(s: State, p: nat, t: Task, env: Env, id: string)
    requires t.Resolving? && (t.step.RecordingDenial? || t.step.RecordingRefusal? || t.step.RecordingChange?)
    ensures HandedOn(s, RecordRefused(s, p, t, env), p, t, id)
  {
    hide AuditOf, Claims, ReadsPending;
  }

  lemma ReadingHandsOn(s: State, p: nat, t: Task, env: Env, id: string)
    requires t.Resolving? && s.worlds != []
    ensures t.step.Reading? ==> HandedOn(s, ReadRequest(s, p, t, env), p, t, id)
    ensures t.step.Fingerprinting? ==> HandedOn(s, CompareFingerprint(s, p, t, env), p, t, id)
  {
    hide Slot, FingerprintNow, Claims;
  }

  lemma EvaluatingHandsOn(s: State, t: Task, id: string)
    requires t.Resolving? && s.worlds != [] && t.step.Evaluating?
    ensures HandsOn(s, t, t.(step := Evaluate(s, t, t.step.seen)), id)
  {
    hide Claims, ReadsPending;
  }

  /** Only a call that decides a request comes to have it in hand. */
  lemma ResolveHandsOn(s: State, p: nat, t: Task, env: Env, id: string)
    requires t.Resolving? && s.worlds != [] && p in s.tasks && s.tasks[p] == t && TaskFits(s, p, t)
    ensures HandedOn(s, Resolve(s, p, t, env), p, t, id)
  {
    hide Evaluate, RecordRefused, RecordApproved, RecordEnding, ReadRequest, CompareFingerprint, DecideRead, FinishRead,
         DecideWrite, FinishWrite, CallTool;
    match t.step
    case Reading => ReadingHandsOn(s, p, t, env, id);
    case Evaluating(_) => EvaluatingHandsOn(s, t, id);
    case RecordingDenial(_) => RefusingHandsOn(s, p, t, env, id);
    case RecordingRefusal(_) => RefusingHandsOn(s, p, t, env, id);
    case RecordingChange(_, _) => RefusingHandsOn(s, p, t, env, id);
    case Fingerprinting(_, _) => ReadingHandsOn(s, p, t, env, id);
    case DecideReading(_, _, _) => DecideReadHandsOn(s, p, t, env, id);
    case DecideWriting(_, _, _, _) => DecideWriteHandsOn(s, p, t, env, id);
    case RecordingApproval(_, _, _) => ApprovedMovesOn(s, p, t, env);
    case Executing(_, _, _, _) => ExecutedMovesOn(s, p, t, env);
    case RecordingOutcome(_, _, _) => ExecutedMovesOn(s, p, t, env);
    case FinishReading(_, _) => FinishReadMovesOn(s, p, t, env);
    case FinishWriting(_, _, _) => FinishWriteMovesOn(s, p, t, env);
    case Answered(_) =>
  }

  /** Only a call that has the request in hand executes it. */
  lemma ResolveExecutes(s: State, p: nat, t: Task, env: Env, id: string)
    requires t.Resolving? && s.worlds != [] && id !in s.executedAt && !InHand(t, id)
    ensures id !in Resolve(s, p, t, env).executedAt
  {
    hide Evaluate, RecordRefused, RecordApproved, RecordEnding, ReadRequest, CompareFingerprint, DecideRead, FinishRead,
         FinishWrite, AfterDecide, Slot, ExecutionOf, Matches;
    if IsQuiet(t) {
      QuietResolve(s, p, t, env);
      hide Resolve;
    } else if t.step.FinishWriting? {
      var s1 := FinishWrites(s, p, t, env);
    } else if t.step.DecideWriting? {
      var s1 := DecideWrites(s, p, t, env);
      hide DecideWrite;
    }
  }

  lemma ProceedExecutes(s: State, p: nat, t: Task, env: Env, id: string)
    requires t.Calling? && s.worlds != []
    ensures id in Proceed(s, p, t, env).executedAt ==> id in s.executedAt
  {
    hide RecordCall, ListWaiting, Pin, Announce, Start, Slot, NamespaceOf, Trim;
    if IsQuiet(t) {
      QuietProceed(s, p, t, env);
      hide Proceed;
    }
  }

  /** A closed request that nobody has in hand is never run. */
  lemma SettledStays(s: State, e: Event, a: Approval)
    requires Inv(s) && Enabled(s, e) && Closed(s, a) && !MayRun(s, a.id)
    ensures Closed(Next(s, e), a) && !MayRun(Next(s, e), a.id)
  {
    var s' := Next(s, e);
    ClosedStays(s, e, a);
    forall q | q in s'.tasks
      ensures !InHand(s'.tasks[q], a.id)
    {
      NobodyTakes(s, e, a, q);
    }
    if e.Advance? {
      var t := s.tasks[e.p];
      hide Resolve, Proceed, Inv, Closed;
      if t.Resolving? {
        assert !InHand(t, a.id);
        ResolveExecutes(s, e.p, t, e.env, a.id);
      } else {
        ProceedExecutes(s, e.p, t, e.env, a.id);
      }
    }
  }

  lemma NobodyTakes(s: State, e: Event, a: Approval, q: nat)
    requires Inv(s) && Enabled(s, e) && Closed(s, a) && !MayRun(s, a.id) && q in Next(s, e).tasks
    ensures !InHand(Next(s, e).tasks[q], a.id)
  {
    if e.Advance? && e.p == q {
      var t := s.tasks[q];
      assert TaskFits(s, q, t);
      assert !InHand(t, a.id);
      hide Resolve, Proceed;
      if t.Resolving? {
        ResolveHandsOn(s, q, t, e.env, a.id);
        if Claims(s, t, a.id) {
          ClaimedIsOpen(s, q, t, a);
        }
      } else {
        ProceedMoves(s, q, t, e.env);
      }
    } else {
      NextAside(s, e, q);
      hide Inv, Next, Closed;
    }
  }

  lemma ClaimedIsOpen(s: State, p: nat, t: Task, a: Approval)
    requires Inv(s) && Known(s, a) && TaskFits(s, p, t) && Claims(s, t, a.id)
    ensures !Closed(s, a)
  {
    var current, found := t.step.current, t.step.found;
    var slot := Slot(current.threadId, current.id).value;
    DecideKeeps(s, p, current, slot, found, t.step.why);
    hide Inv, Matches;
  }

  /** No run that comes through this state executes the change, before or after. */
  ghost predicate Final(s: State, id: string) {
    forall run: seq<State>, i, j {:trigger IsRun(run), ExecutionsOf(run[i], id), ExecutionsOf(run[j], id)} ::
      IsRun(run) && 0 <= i < |run| && 0 <= j < |run| && run[i] == s ==> ExecutionsOf(run[j], id) == {}
  }

  lemma {:induction false} SettledOn(run: seq<State>, i: nat, j: nat, a: Approval)
    requires IsRun(run) && i <= j < |run| && Closed(run[i], a) && !MayRun(run[i], a.id)
    ensures !MayRun(run[j], a.id) && Closed(run[j], a)
    decreases j
  {
    hide IsRun, Closed, MayRun, Inv, Enabled, Next;
    if i < j {
      SettledOn(run, i, j - 1, a);
      var e := EventBefore(run, j);
      SettledStays(run[j - 1], e, a);
    }
  }

  lemma SettledIsFinal(s: State, a: Approval)
    requires Closed(s, a) && !MayRun(s, a.id)
    ensures Final(s, a.id)
  {
    forall run: seq<State>, i, j | IsRun(run) && 0 <= i < |run| && 0 <= j < |run| && run[i] == s
      ensures ExecutionsOf(run[j], a.id) == {}
    {
      RunKeeps(run, j);
      ExecutionsCounted(run[j], a.id);
      if i <= j {
        SettledOn(run, i, j, a);
      } else {
        RunGrows(run, j, i);
      }
    }
  }

  lemma Prolong(run: seq<State>, e: Event) returns (more: seq<State>)
    requires IsRun(run) && Last(run).worlds != [] && Enabled(Last(run), e)
    ensures more == run + [Next(Last(run), e)] && IsRun(more)
  {
    more := run + [Next(Last(run), e)];
    forall i | 1 <= i < |more|
      ensures StepsTo(more, i)
    {
      if i < |run| {
        assert StepsTo(run, i);
      } else {
        assert Follows(more[i - 1], e, more[i]);
      }
    }
  }

  const SUCCESS := Env(true, false, "", "", TargetRef("", ""))

  lemma ApprovedGoesOn(s: State, q: nat, id: string)
    requires s.worlds != [] && q in s.tasks && InHand(s.tasks[q], id) && s.tasks[q].step.RecordingApproval?
    ensures var s' := Next(s, Advance(q, SUCCESS));
            s'.worlds != [] && q in s'.tasks && InHand(s'.tasks[q], id) && s'.tasks[q].step.Executing?
  {
    hide AuditOf;
  }

  lemma ExecutingRuns(s: State, q: nat, id: string)
    requires s.worlds != [] && q in s.tasks && InHand(s.tasks[q], id) && s.tasks[q].step.Executing?
    ensures |s.executions| in ExecutionsOf(Next(s, Advance(q, SUCCESS)), id)
  {
  }

  /** A call that has the request in hand and is left to itself runs the change. */
  lemma InHandRuns(run: seq<State>, q: nat, id: string) returns (more: seq<State>)
    requires IsRun(run) && q in Last(run).tasks && InHand(Last(run).tasks[q], id)
    ensures IsRun(more) && run <= more && ExecutionsOf(Last(more), id) != {}
  {
    RunKeeps(run, |run| - 1);
    more := run;
    hide IsRun, Inv, Next, InHand, ExecutionsOf;
    if Last(run).tasks[q].step.RecordingApproval? {
      ApprovedGoesOn(Last(run), q, id);
      more := Prolong(more, Advance(q, SUCCESS));
    }
    ExecutingRuns(Last(more), q, id);
    more := Prolong(more, Advance(q, SUCCESS));
  }

  /** A closed request is final exactly if it was not run and nobody has it in hand. */
  lemma PastIsRun(run: seq<State>, k: nat)
    requires IsRun(run) && k < |run|
    ensures IsRun(run[..k + 1])
  {
    var past := run[..k + 1];
    forall i | 1 <= i < |past|
      ensures StepsTo(past, i)
    {
      assert StepsTo(run, i);
    }
  }

  lemma OpenIsNotFinal(run: seq<State>, k: nat, id: string)
    requires IsRun(run) && k < |run| && MayRun(run[k], id)
    ensures !Final(run[k], id)
  {
    var s := run[k];
    if id in s.executedAt {
      RunKeeps(run, k);
      ExecutionsCounted(s, id);
      hide Inv, IsRun;
      assert ExecutionsOf(run[k], id) != {};
    } else {
      var q :| q in s.tasks && InHand(s.tasks[q], id);
      PastIsRun(run, k);
      hide IsRun, InHand, ExecutionsOf;
      var more := InHandRuns(run[..k + 1], q, id);
      assert more[k] == s;
      assert ExecutionsOf(more[k], id) == {} || ExecutionsOf(more[k], id) != {};
      assert ExecutionsOf(more[|more| - 1], id) != {};
    }
  }

  /** A closed request is final exactly if it was not run and nobody has it in hand. */
  lemma FinalExactly(run: seq<State>, k: nat, a: Approval)
    requires IsRun(run) && k < |run| && Closed(run[k], a)
    ensures Final(run[k], a.id) <==> !MayRun(run[k], a.id)
  {
    if !MayRun(run[k], a.id) {
      SettledIsFinal(run[k], a);
    } else {
      OpenIsNotFinal(run, k, a.id);
    }
    hide Final, MayRun;
  }

  // ----- What callers can rely on -----------------------------------------------------------------------

  ghost predicate SaidNotRun(s: State, p: nat) {
    && p in s.tasks && s.tasks[p].Resolving? && s.tasks[p].step.Answered?
    && SaysNotRun(s.tasks[p].step.answer)
  }

  /** Another task decided to run the request. */
  ghost predicate ClaimedByOther(s: State, p: nat, id: string) {
    DecidedAs(s, id, Running) && s.decisions[s.decidedAt[id]].task != p
  }

  /**
    A call that says that a change was not run shows the request as decided exactly if it decided it
    itself. Otherwise it decided nothing, and the request was decided by another call or is gone.
  */
  lemma NotRunTells(run: seq<State>, k: nat, p: nat)
    requires IsRun(run) && k < |run| && SaidNotRun(run[k], p)
    ensures var answer := run[k].tasks[p].step.answer;
            && answer.approval.Some?
            && var a := answer.approval.value;
               && Closed(run[k], a)
               && (a.status != Pending <==> RefusedBy(run[k], p, a.id))
               && (a.status == Pending ==> Undecided(run[k], p))
  {
    RunTells(run, k, p);
    hide IsRun, SameSlot, Gone;
  }

  /**
    What such a call says is final exactly if the change was not run and nobody has claimed it and is
    still at it. It always is if the call decided the request itself: only another call can have claimed it.
  */
  lemma NotRunIsFinalExactly(run: seq<State>, k: nat, p: nat, a: Approval)
    requires IsRun(run) && k < |run| && SaidNotRun(run[k], p) && run[k].tasks[p].step.answer.approval == Some(a)
    ensures Final(run[k], a.id) <==> !MayRun(run[k], a.id)
    ensures MayRun(run[k], a.id) ==> ClaimedByOther(run[k], p, a.id)
    ensures RefusedBy(run[k], p, a.id) ==> Final(run[k], a.id)
  {
    var s := run[k];
    NotRunTells(run, k, p);
    FinalExactly(run, k, a);
    RunKeeps(run, k);
    MayRunIsClaimed(s, a.id);
    hide IsRun, Inv, Final, MayRun, Closed, SaidNotRun;
  }

  lemma MayRunIsClaimed(s: State, id: string)
    requires Inv(s)
    ensures MayRun(s, id) ==> DecidedAs(s, id, Running)
  {
    if id in s.executedAt {
      assert ExecutedFits(s, id);
    } else if MayRun(s, id) {
      var q :| q in s.tasks && InHand(s.tasks[q], id);
      assert TaskFits(s, q, s.tasks[q]);
    }
  }

  // ----- A call without competition -----------------------------------------------------------------------

  /** Nobody but `p` has decided what it is about. */
  ghost predicate Untouched(s: State, p: nat) {
    p in s.tasks && Subject(s.tasks[p]).Some? ==>
      var id := Subject(s.tasks[p]).value.id;
      id in s.decidedAt ==> s.decidedAt[id] < |s.decisions| && s.decisions[s.decidedAt[id]].task == p
  }

  /** No other call that has not been answered yet is about the same request. */
  ghost predicate Alone(s: State, p: nat) {
    p in s.tasks && s.tasks[p].Resolving? ==>
      forall q :: q in s.tasks && q != p && s.tasks[q].Resolving? && !s.tasks[q].step.Answered? ==>
        Slot(s.tasks[q].input.threadId, s.tasks[q].input.approvalId)
          != Slot(s.tasks[p].input.threadId, s.tasks[p].input.approvalId)
  }

  /** Task `p` decided the request just now, by the write that matched the record it had read. */
  ghost predicate DecidedNow(s: State, s': State, p: nat, t: Task, id: string) {
    id in s'.decidedAt && id !in s.decidedAt ==>
      Claims(s, t, id) && s'.decidedAt[id] < |s'.decisions| && s'.decisions[s'.decidedAt[id]].task == p
  }

  lemma DecideWriteDecides(s: State, p: nat, t: Task, env: Env, id: string)
    requires t.Resolving? && t.step.DecideWriting? && s.worlds != []
    ensures DecidedNow(s, DecideWrite(s, p, t, env), p, t, id)
  {
    hide AfterDecide, Slot, Matches, Decided, Trim;
  }

  lemma ResolveDecides(s: State, p: nat, t: Task, env: Env, id: string)
    requires t.Resolving? && s.worlds != []
    ensures DecidedNow(s, Resolve(s, p, t, env), p, t, id)
  {
    hide DecideWrite, FinishWrite, Claims;
    if t.step.DecideWriting? {
      DecideWriteDecides(s, p, t, env, id);
      hide DecidedNow;
    } else if t.step.FinishWriting? {
      var s1 := FinishWrites(s, p, t, env);
      hide Slot, Matches;
    } else if t.step.Executing? {
      hide ExecutionOf;
    } else {
      QuietResolve(s, p, t, env);
      hide Resolve;
    }
  }

  lemma ProceedDecides(s: State, p: nat, t: Task, env: Env)
    requires t.Calling? && s.worlds != []
    ensures Proceed(s, p, t, env).decidedAt == s.decidedAt
  {
    hide RecordCall, ListWaiting, Pin, Announce, Start, Slot, NamespaceOf, Trim;
    if IsQuiet(t) {
      QuietProceed(s, p, t, env);
      hide Proceed;
    }
  }

  lemma NextDecides(s: State, e: Event, id: string)
    requires Inv(s) && Enabled(s, e)
    ensures if e.Advance? then DecidedNow(s, Next(s, e), e.p, s.tasks[e.p], id) else Next(s, e).decidedAt == s.decidedAt
  {
    assert s.worlds != [];
    hide Inv, Resolve, Proceed, Claims;
    if e.Advance? && s.tasks[e.p].Resolving? {
      ResolveDecides(s, e.p, s.tasks[e.p], e.env, id);
    } else if e.Advance? {
      ProceedDecides(s, e.p, s.tasks[e.p], e.env);
    }
  }

  /** A call that reads a request as pending finds it undecided. */
  lemma PendingIsUndecided(s: State, t: Task, id: string)
    requires Inv(s) && ReadsPending(s, t, id)
    ensures id !in s.decidedAt
  {
    assert RecordFits(s, Slot(t.input.threadId, t.input.approvalId).value);
  }

  lemma OwnUntouched(s: State, p: nat, env: Env)
    requires Inv(s) && p in s.tasks && s.tasks[p].Resolving? && Untouched(s, p)
    ensures Untouched(Resolve(s, p, s.tasks[p], env), p)
  {
    var e, t := Advance(p, env), s.tasks[p];
    var s' := Resolve(s, p, t, env);
    assert TaskFits(s, p, t);
    if p in s'.tasks && Subject(s'.tasks[p]).Some? {
      var id := Subject(s'.tasks[p]).value.id;
      ResolveHandsOn(s, p, t, env, id);
      NextDecides(s, e, id);
      NextContinues(s, e);
      if ReadsPending(s, t, id) {
        PendingIsUndecided(s, t, id);
      }
      hide Resolve, Inv, TaskFits, ReadsPending, Claims, Subject, InHand, AllContinue;
    }
  }

  lemma SubjectKnown(s: State, p: nat, t: Task)
    requires TaskFits(s, p, t) && t.Resolving? && StepTells(s, p, t) && Subject(t).Some?
    ensures Known(s, Subject(t).value) && SameSlot(Subject(t).value, t.input)
  {
    hide SameSlot, Tells, StillFound;
  }

  lemma OthersUntouched(s: State, e: Event, p: nat)
    requires Inv(s) && Enabled(s, e) && (e.Advance? ==> e.p != p)
    requires Untouched(s, p) && Alone(s, p) && TaskTells(s, p) && (e.Advance? ==> TaskTells(s, e.p))
    ensures Untouched(Next(s, e), p)
  {
    var s' := Next(s, e);
    NextAside(s, e, p);
    NextContinues(s, e);
    if p in s'.tasks && Subject(s'.tasks[p]).Some? {
      var t := s.tasks[p];
      var a := Subject(t).value;
      NextDecides(s, e, a.id);
      assert TaskFits(s, p, t);
      SubjectKnown(s, p, t);
      if e.Advance? && Claims(s, s.tasks[e.p], a.id) {
        assert TaskFits(s, e.p, s.tasks[e.p]);
        SubjectKnown(s, e.p, s.tasks[e.p]);
      }
      hide Next, Inv, TaskFits, TaskTells, AllContinue;
    }
  }

  lemma NextUntouched(s: State, e: Event, p: nat)
    requires Inv(s) && Enabled(s, e) && Untouched(s, p) && Alone(s, p)
    requires TaskTells(s, p) && (e.Advance? ==> TaskTells(s, e.p))
    ensures Untouched(Next(s, e), p)
  {
    hide Alone;
    if e.Advance? && e.p == p && s.tasks[p].Resolving? {
      OwnUntouched(s, p, e.env);
    } else if e.Advance? && e.p == p {
      assert s.worlds != [];
      ProceedMoves(s, p, s.tasks[p], e.env);
      hide Proceed, Inv;
    } else {
      OthersUntouched(s, e, p);
      hide Next;
    }
    hide Untouched, TaskTells, Inv;
  }

  lemma InitialUntouched(run: seq<State>, p: nat)
    requires IsRun(run)
    ensures Untouched(run[0], p)
  {
    assert exists toolbox, world :: run[0] == Initial(toolbox, world);
    hide StepsTo;
  }

  lemma {:induction false} AloneUntouched(run: seq<State>, k: nat, p: nat)
    requires IsRun(run) && k < |run|
    requires forall i :: 0 <= i <= k ==> Alone(run[i], p)
    ensures Untouched(run[k], p)
  {
    hide Alone, TaskTells, IsRun, Untouched, Inv, Next, Enabled;
    if k == 0 {
      InitialUntouched(run, p);
    } else {
      AloneUntouched(run, k - 1, p);
      var e := EventBefore(run, k);
      RunTells(run, k - 1, p);
      if e.Advance? {
        RunTells(run, k - 1, e.p);
      }
      NextUntouched(run[k - 1], e, p);
    }
  }

  /** Without another call about the same request while it is under way, what such a call says is final. */
  lemma AloneIsFinal(run: seq<State>, k: nat, p: nat, a: Approval)
    requires IsRun(run) && k < |run| && SaidNotRun(run[k], p) && run[k].tasks[p].step.answer.approval == Some(a)
    requires forall i :: 0 <= i <= k ==> Alone(run[i], p)
    ensures Final(run[k], a.id)
  {
    AloneUntouched(run, k, p);
    NotRunIsFinalExactly(run, k, p, a);
    hide IsRun, Final, Alone;
  }
}
