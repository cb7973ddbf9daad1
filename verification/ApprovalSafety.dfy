/**
  What every interleaving of the approval protocol keeps, and that every run keeps it.

  The invariant `Inv` has five parts:

  - `Histories`: requests, decisions and executions on file name each other, and a request has at
    most one decision and one execution.
  - `ExecutionsFit`: an execution under a request was claimed, approved and audited as it must be.
  - `RecordsFit`: what is stored was requested, says how it was decided, and is undecided while pending.
  - `TasksFit`: every task knows something at each await that the steps of others cannot make untrue.
  - `Distinct`: requests that have an id but are not stored yet have different ones.

  What tasks know only ever speaks of histories that grow, so it survives other tasks' steps
  (`StepSurvives`). Each building block of a step keeps the invariant, then each step, and then each
  event (`NextKeeps`) and run (`RunKeeps`).
*/
module ApprovalSafety {
  import opened Text
  import opened SystemStore
  import opened Approvals
  import opened ApprovalProtocol

  // ----- The invariant ---------------------------------------------------------------

  ghost predicate IsAudit(s: State, i: nat, principal: string, tool: string, decision: AuditDecision, id: string) {
    && i < |s.audit|
    && s.audit[i].principal == principal && s.audit[i].tool == tool
    && s.audit[i].decision == decision && s.audit[i].approval == Some(id)
  }

  /** `a` is a version of a request that was really made. */
  ghost predicate Known(s: State, a: Approval) {
    a.id in s.requested && SameRequest(s.requested[a.id].approval, a)
  }

  ghost predicate DecidedAs(s: State, id: string, status: Status) {
    && id in s.decidedAt && s.decidedAt[id] < |s.decisions|
    && s.decisions[s.decidedAt[id]].id == id
    && s.decisions[s.decidedAt[id]].status == status
  }

  /** Task `p` made the decision to run the request. */
  ghost predicate Owns(s: State, p: nat, id: string) {
    DecidedAs(s, id, Running) && s.decisions[s.decidedAt[id]].task == p
  }

  /** A status somebody has seen: it says how the request was decided, unless it said `Pending`. */
  ghost predicate Seen(s: State, a: Approval) {
    Known(s, a) &&
    match a.status
    case Pending => true
    case Running => DecidedAs(s, a.id, Running)
    case Failed => DecidedAs(s, a.id, Running)
    case Executed => DecidedAs(s, a.id, Running) && a.id in s.executedAt
    case _ => DecidedAs(s, a.id, a.status)
  }

  /** The gates an approval has to pass, in the worlds they were checked in. */
  ghost predicate PassedFirst(s: State, since: nat, confirm: Option<string>, a: Approval, gates: Gates) {
    && since <= gates.at < |s.worlds|
    && a.expiresAt > s.worlds[gates.at].clock
    && (a.irreversible ==> confirm == Some(a.target.id))
    && a.tool in s.toolbox
    && Grant(a.principalId, a.tool, a.arguments) in s.worlds[gates.at].grants
  }

  ghost predicate PassedAll(s: State, since: nat, confirm: Option<string>, a: Approval, gates: Gates) {
    && PassedFirst(s, since, confirm, a, gates)
    && (a.fingerprint.Some? ==>
          && gates.at <= gates.pinnedAt < |s.worlds|
          && s.toolbox[a.tool].pinned
          && (a.tool, a.arguments) in s.worlds[gates.pinnedAt].fingerprints
          && a.fingerprint == Some(s.worlds[gates.pinnedAt].fingerprints[(a.tool, a.arguments)]))
  }

  ghost predicate RequestedFits(s: State, id: string)
    requires id in s.requested
  {
    var request := s.requested[id];
    && id in s.issued && IsApprovalId(id)
    && request.approval.id == id && request.approval.status == Pending
    && IsAudit(s, request.auditAt, request.approval.principalId, request.approval.tool, PendingApproval, id)
  }

  /** The decision at `i` is the only one about its request. */
  ghost predicate DecisionFits(s: State, i: nat)
    requires i < |s.decisions|
  {
    && s.decisions[i].id in s.decidedAt && s.decidedAt[s.decisions[i].id] == i
    && s.decisions[i].id in s.requested && s.decisions[i].task < s.spawned
  }

  ghost predicate DecidedFits(s: State, id: string)
    requires id in s.decidedAt
  {
    s.decidedAt[id] < |s.decisions| && s.decisions[s.decidedAt[id]].id == id
  }

  ghost predicate ExecutedFits(s: State, id: string)
    requires id in s.executedAt
  {
    && DecidedAs(s, id, Running)
    && s.executedAt[id] < |s.executions| && s.executions[s.executedAt[id]].approval == Some(id)
  }

  ghost predicate Histories(s: State) {
    && s.worlds != []
    && (forall id {:trigger RequestedFits(s, id)} :: id in s.requested ==> RequestedFits(s, id))
    && (forall i {:trigger DecisionFits(s, i)} :: 0 <= i < |s.decisions| ==> DecisionFits(s, i))
    && (forall id {:trigger DecidedFits(s, id)} :: id in s.decidedAt ==> DecidedFits(s, id))
    && (forall id {:trigger ExecutedFits(s, id)} :: id in s.executedAt ==> ExecutedFits(s, id))
  }

  ghost predicate ExecutionFits(s: State, i: nat)
    requires i < |s.executions|
  {
    var x := s.executions[i];
    match x.approval
    case None => x.tool in s.toolbox && !s.toolbox[x.tool].mutates
    case Some(id) =>
      && id in s.executedAt && s.executedAt[id] == i
      && id in s.requested
      && var request := s.requested[id];
         && x.principal == request.approval.principalId
         && x.tool == request.approval.tool && x.arguments == request.approval.arguments
         && PassedAll(s, x.since, x.confirm, request.approval, x.gates)
         && x.gates.at < x.worldsSeen <= |s.worlds|
         && request.auditAt < x.allowedAt < x.audited <= |s.audit|
         && IsAudit(s, x.allowedAt, x.principal, x.tool, AllowedCall, id)
         && Owns(s, x.task, id)
  }

  ghost predicate ExecutionsFit(s: State) {
    forall i {:trigger ExecutionFits(s, i)} :: 0 <= i < |s.executions| ==> ExecutionFits(s, i)
  }

  ghost predicate RecordsFit(s: State) {
    forall slot {:trigger RecordFits(s, slot)} :: slot in s.records ==> RecordFits(s, slot)
  }

  ghost predicate RecordFits(s: State, slot: string)
    requires slot in s.records
  {
    var a := s.records[slot].value;
    && Seen(s, a)
    && (a.status == Pending ==> a.id !in s.decidedAt)
    && Slot(a.threadId, a.id) == Ok(slot)
  }

  /** The request a call goes on with: pending when it was read, and the caller's own. */
  ghost predicate Mine(s: State, t: Task, a: Approval) {
    t.Resolving? && Known(s, a) && a.status == Pending && a.principalId == t.principal
  }

  ghost predicate Claim(s: State, p: nat, current: Approval, claimed: Approval) {
    Known(s, claimed) && claimed.id == current.id && Owns(s, p, current.id)
  }

  ghost predicate Cleared(s: State, t: Task, current: Approval, gates: Gates)
    requires t.Resolving?
  {
    Mine(s, t, current) && PassedAll(s, t.since, t.input.confirm, current, gates)
  }

  ghost predicate StepFits(s: State, p: nat, t: Task)
    requires t.Resolving?
  {
    match t.step
    case Reading => true
    case Evaluating(seen) => seen.Some? ==> Seen(s, seen.value)
    case RecordingDenial(current) => Mine(s, t, current)
    case RecordingRefusal(current) => Mine(s, t, current)
    case Fingerprinting(current, gates) =>
      Mine(s, t, current) && PassedFirst(s, t.since, t.input.confirm, current, gates)
    case DecideReading(current, gates, why) =>
      Mine(s, t, current) && (why.Claiming? ==> Cleared(s, t, current, gates))
    case DecideWriting(current, gates, why, found) =>
      && Mine(s, t, current) && (why.Claiming? ==> Cleared(s, t, current, gates))
      && Known(s, found.value) && found.value.status == Pending && found.value.id == current.id
    case RecordingChange(current, refused) =>
      Mine(s, t, current) && (refused.Some? ==> Seen(s, refused.value))
    case RecordingApproval(current, gates, claimed) =>
      Cleared(s, t, current, gates) && Claim(s, p, current, claimed) && current.id !in s.executedAt
    case Executing(current, gates, claimed, allowedAt) =>
      && Cleared(s, t, current, gates) && Claim(s, p, current, claimed) && current.id !in s.executedAt
      && s.requested[current.id].auditAt < allowedAt
      && IsAudit(s, allowedAt, t.principal, current.tool, AllowedCall, current.id)
    case RecordingOutcome(current, claimed, ending) =>
      Known(s, current) && Claim(s, p, current, claimed) && current.id in s.executedAt && !ending.Unrecorded?
    case FinishReading(claimed, ending) =>
      Claim(s, p, claimed, claimed) && (!ending.Unrecorded? ==> claimed.id in s.executedAt)
    case FinishWriting(claimed, ending, found) =>
      && Claim(s, p, claimed, claimed) && (!ending.Unrecorded? ==> claimed.id in s.executedAt)
      && Known(s, found.value) && found.value.status == Running && found.value.id == claimed.id
    case Answered(answer) => answer.approval.Some? ==> Seen(s, answer.approval.value)
  }

  /** A request that has been given an id but not been created yet. */
  function Unborn(t: Task): Option<Approval> {
    if t.Calling? && t.at.Announcing? then Some(t.at.approval)
    else if t.Calling? && t.at.Creating? then Some(t.at.approval)
    else None
  }

  ghost predicate CallFits(s: State, t: Task)
    requires t.Calling?
  {
    && (Unborn(t).Some? ==>
          var a := Unborn(t).value;
          a.id in s.issued && a.id !in s.requested && IsApprovalId(a.id) && a.status == Pending
          && a.principalId == t.principal && a.tool == t.tool)
    && match t.at
       case RecordingRead(_) => t.tool in s.toolbox && !s.toolbox[t.tool].mutates
       case ReadExecuting(_) => t.tool in s.toolbox && !s.toolbox[t.tool].mutates
       case Creating(a, auditAt) => IsAudit(s, auditAt, a.principalId, a.tool, PendingApproval, a.id)
       case _ => true
  }

  ghost predicate TaskFits(s: State, p: nat, t: Task) {
    p < s.spawned && (if t.Resolving? then t.since < |s.worlds| && StepFits(s, p, t) else CallFits(s, t))
  }

  ghost predicate TasksFit(s: State) {
    forall p {:trigger TaskFits(s, p, s.tasks[p])} :: p in s.tasks ==> TaskFits(s, p, s.tasks[p])
  }

  ghost predicate Distinct(s: State) {
    forall p, q :: p in s.tasks && q in s.tasks && p != q && Unborn(s.tasks[p]).Some? && Unborn(s.tasks[q]).Some?
      ==> Unborn(s.tasks[p]).value.id != Unborn(s.tasks[q]).value.id
  }

  ghost predicate Inv(s: State) {
    Histories(s) && ExecutionsFit(s) && RecordsFit(s) && TasksFit(s) && Distinct(s)
  }

  // ----- How the state grows --------------------------------------------------------------

  /** Nothing that has happened is forgotten. */
  ghost predicate Grows(s: State, s': State) {
    && s'.toolbox == s.toolbox
    && s.worlds <= s'.worlds && s.audit <= s'.audit && s.spawned <= s'.spawned
    && s.issued <= s'.issued
    && (forall id :: id in s.requested ==> id in s'.requested && s'.requested[id] == s.requested[id])
    && s.decisions <= s'.decisions
    && (forall id :: id in s.decidedAt ==> id in s'.decidedAt && s'.decidedAt[id] == s.decidedAt[id])
    && s.executions <= s'.executions
    && (forall id :: id in s.executedAt ==> id in s'.executedAt && s'.executedAt[id] == s.executedAt[id])
  }

  lemma SeenSurvives(s: State, s': State)
    requires Grows(s, s')
    ensures forall a :: Known(s, a) ==> Known(s', a)
    ensures forall a :: Seen(s, a) ==> Seen(s', a)
    ensures forall id, status :: DecidedAs(s, id, status) ==> DecidedAs(s', id, status)
    ensures forall q, id :: Owns(s, q, id) ==> Owns(s', q, id)
  {
  }

  lemma PassedSurvives(s: State, s': State)
    requires Grows(s, s')
    ensures forall since, confirm, a, gates ::
              PassedFirst(s, since, confirm, a, gates) ==> PassedFirst(s', since, confirm, a, gates)
    ensures forall since, confirm, a, gates ::
              PassedAll(s, since, confirm, a, gates) ==> PassedAll(s', since, confirm, a, gates)
    ensures forall i, principal, tool, decision, id ::
              IsAudit(s, i, principal, tool, decision, id) ==> IsAudit(s', i, principal, tool, decision, id)
  {
  }

  lemma StepSurvives(s: State, s': State, p: nat, t: Task)
    requires Histories(s) && Grows(s, s') && t.Resolving? && t.since < |s.worlds| && StepFits(s, p, t)
    requires t.step.RecordingApproval? || t.step.Executing? ==>
      t.step.current.id in s'.executedAt ==> t.step.current.id in s.executedAt
    ensures StepFits(s', p, t)
  {
    SeenSurvives(s, s');
    PassedSurvives(s, s');
    hide DecidedAs, Seen, Owns, PassedFirst, PassedAll, IsAudit;
    match t.step
    case Reading =>
    case Evaluating(_) =>
    case RecordingDenial(_) =>
    case RecordingRefusal(_) =>
    case Fingerprinting(_, _) =>
    case DecideReading(_, _, _) =>
    case DecideWriting(_, _, _, _) =>
    case RecordingChange(_, _) =>
    case RecordingApproval(_, _, _) =>
    case Executing(_, _, _, _) =>
    case RecordingOutcome(_, _, _) =>
    case FinishReading(_, _) =>
    case FinishWriting(_, _, _) =>
    case Answered(_) =>
  }

  /** What is known about a task's own step survives the steps of others. */
  lemma TaskSurvives(s: State, s': State, p: nat, t: Task)
    requires Histories(s) && Grows(s, s') && TaskFits(s, p, t)
    requires t.Resolving? && (t.step.RecordingApproval? || t.step.Executing?) ==>
      t.step.current.id in s'.executedAt ==> t.step.current.id in s.executedAt
    requires Unborn(t).Some? ==> Unborn(t).value.id in s'.requested ==> Unborn(t).value.id in s.requested
    ensures TaskFits(s', p, t)
  {
    if t.Resolving? {
      StepSurvives(s, s', p, t);
      hide StepFits;
    }
  }

  lemma ExecutionSurvives(s: State, s': State, i: nat)
    requires Histories(s) && Grows(s, s') && i < |s.executions| && ExecutionFits(s, i)
    ensures ExecutionFits(s', i)
  {
  }

  /** Histories only need looking at where something was added. */
  lemma HistoriesSurvive(s: State, s': State)
    requires Histories(s) && Grows(s, s')
    requires forall id :: id in s'.requested && id !in s.requested ==> RequestedFits(s', id)
    requires forall i :: |s.decisions| <= i < |s'.decisions| ==> DecisionFits(s', i)
    requires forall id :: id in s'.decidedAt && id !in s.decidedAt ==> DecidedFits(s', id)
    requires forall id :: id in s'.executedAt && id !in s.executedAt ==> ExecutedFits(s', id)
    ensures Histories(s')
  {
    forall id | id in s'.requested
      ensures RequestedFits(s', id)
    {
      if id in s.requested {
        assert RequestedFits(s, id);
      }
    }
    forall i | 0 <= i < |s'.decisions|
      ensures DecisionFits(s', i)
    {
      if i < |s.decisions| {
        assert DecisionFits(s, i);
      }
    }
    forall id | id in s'.decidedAt
      ensures DecidedFits(s', id)
    {
      if id in s.decidedAt {
        assert DecidedFits(s, id);
      }
    }
    forall id | id in s'.executedAt
      ensures ExecutedFits(s', id)
    {
      if id in s.executedAt {
        assert ExecutedFits(s, id);
      }
    }
  }

  lemma RecordSurvives(s: State, s': State, slot: string)
    requires Grows(s, s') && slot in s.records && RecordFits(s, slot)
    requires slot in s'.records && s'.records[slot] == s.records[slot]
    requires s.records[slot].value.id in s'.decidedAt ==> s.records[slot].value.id in s.decidedAt
    ensures RecordFits(s', slot)
  {
  }

  /** What a step of one task must not do to the others. */
  ghost predicate Undisturbed(s: State, s': State) {
    && Grows(s, s')
    && (forall q :: q in s'.tasks ==>
          && q in s.tasks && s'.tasks[q] == s.tasks[q]
          && (Unborn(s.tasks[q]).Some? ==>
                Unborn(s.tasks[q]).value.id in s'.requested ==> Unborn(s.tasks[q]).value.id in s.requested))
    && (forall id, q :: q in s'.tasks && Owns(s, q, id) && id in s'.executedAt ==> id in s.executedAt)
  }

  lemma OthersSurvive(s: State, s': State)
    requires Inv(s) && Undisturbed(s, s')
    ensures TasksFit(s') && Distinct(s')
    ensures forall i {:trigger ExecutionFits(s', i)} :: 0 <= i < |s.executions| ==> ExecutionFits(s', i)
  {
    forall q | q in s'.tasks
      ensures TaskFits(s', q, s'.tasks[q])
    {
      assert TaskFits(s, q, s.tasks[q]);
      TaskSurvives(s, s', q, s'.tasks[q]);
    }
    hide TaskFits, ExecutionFits;
    forall i | 0 <= i < |s.executions|
      ensures ExecutionFits(s', i)
    {
      assert ExecutionFits(s, i);
      ExecutionSurvives(s, s', i);
    }
  }

  // ----- Each building block keeps the invariant ---------------------------------------------

  lemma PutKeeps(s: State, p: nat, t: Task)
    requires Inv(s) && TaskFits(s, p, t)
    requires Unborn(t).Some? ==>
      forall q :: q in s.tasks && q != p && Unborn(s.tasks[q]).Some? ==>
        Unborn(s.tasks[q]).value.id != Unborn(t).value.id
    ensures Inv(Put(s, p, t))
  {
    hide TaskFits, ExecutionFits, RecordFits;
    var s' := Put(s, p, t);
    RestSurvives(s, s', p);
    TaskSurvives(s, s', p, t);
  }

  lemma RestSurvives(s: State, s': State, p: nat)
    requires Inv(s) && s' == s.(tasks := s'.tasks)
    requires forall q :: q in s'.tasks && q != p ==> q in s.tasks && s'.tasks[q] == s.tasks[q]
    ensures Histories(s') && ExecutionsFit(s') && RecordsFit(s')
    ensures forall q {:trigger TaskFits(s', q, s'.tasks[q])} :: q in s'.tasks && q != p ==> TaskFits(s', q, s'.tasks[q])
  {
    hide TaskFits, ExecutionFits, RecordFits;
    HistoriesSurvive(s, s');
    forall q | q in s'.tasks && q != p
      ensures TaskFits(s', q, s'.tasks[q])
    {
      assert TaskFits(s, q, s.tasks[q]);
      TaskSurvives(s, s', q, s.tasks[q]);
    }
    forall i | 0 <= i < |s.executions|
      ensures ExecutionFits(s', i)
    {
      assert ExecutionFits(s, i);
      ExecutionSurvives(s, s', i);
    }
    forall slot | slot in s.records
      ensures RecordFits(s', slot)
    {
      assert RecordFits(s, slot);
      RecordSurvives(s, s', slot);
    }
  }

  lemma StopKeeps(s: State, p: nat)
    requires Inv(s)
    ensures Inv(Stop(s, p))
  {
    hide TaskFits, ExecutionFits, RecordFits;
    RestSurvives(s, Stop(s, p), p);
  }

  /** Growth of the logs alone, with the tasks and the records as they were. */
  lemma GrowthKeeps(s: State, s': State)
    requires Inv(s) && Grows(s, s') && Histories(s')
    requires s'.tasks == s.tasks && s'.executions == s.executions && s'.executedAt == s.executedAt
    requires s'.requested == s.requested && s'.decidedAt == s.decidedAt
    requires forall slot :: slot in s'.records ==> slot in s.records && s'.records[slot] == s.records[slot]
    ensures Inv(s')
  {
    hide TaskFits, ExecutionFits, RecordFits;
    OthersSurvive(s, s');
    forall slot | slot in s'.records
      ensures RecordFits(s', slot)
    {
      assert RecordFits(s, slot);
      RecordSurvives(s, s', slot);
    }
  }

  lemma LogKeeps(s: State, record: AuditRecord)
    requires Inv(s)
    ensures Inv(Log(s, record)) && Grows(s, Log(s, record))
  {
    hide TaskFits, ExecutionFits, RecordFits;
    HistoriesSurvive(s, Log(s, record));
    GrowthKeeps(s, Log(s, record));
  }

  /** The other records survive a write to one of them. */
  lemma RecordsSurvive(s: State, s': State, slot: string)
    requires Inv(s) && Grows(s, s') && slot in s'.records && Histories(s')
    requires forall other :: other in s'.records && other != slot ==>
               other in s.records && s'.records[other] == s.records[other]
    requires forall id :: id in s'.decidedAt ==> id in s.decidedAt || id == s'.records[slot].value.id
    requires RecordFits(s', slot)
    ensures RecordsFit(s')
  {
    hide TaskFits, ExecutionFits;
    forall other | other in s'.records
      ensures RecordFits(s', other)
    {
      if other != slot {
        assert RecordFits(s, other);
        assert s.records[other].value.id != s'.records[slot].value.id;
        RecordSurvives(s, s', other);
      }
    }
  }

  lemma DecidedFitsRecord(s: State, p: nat, id: string, slot: string, found: Record<Approval>, why: Why)
    requires s.worlds != [] && slot in s.records && RecordFits(s, slot) && s.records[slot].value == found.value
    requires found.value.id == id
    ensures var s' := Decide(s, p, id, slot, found, why); RecordFits(s', slot)
  {
    hide Slot;
  }

  /** A request that has never been decided gains its one decision. */
  lemma DecideGrows(s: State, p: nat, id: string, slot: string, found: Record<Approval>, why: Why)
    requires Histories(s) && slot in s.records && p < s.spawned
    requires id in s.requested && id !in s.decidedAt && id !in s.executedAt
    ensures var s' := Decide(s, p, id, slot, found, why);
            && Grows(s, s') && Histories(s') && DecidedAs(s', id, StatusOf(why))
            && (forall q, other :: Owns(s', q, other) && other != id ==> Owns(s, q, other))
  {
    var s' := Decide(s, p, id, slot, found, why);
    assert Grows(s, s');
    assert DecisionFits(s', |s.decisions|) && DecidedFits(s', id);
    HistoriesSurvive(s, s');
    forall q, other | Owns(s', q, other) && other != id
      ensures Owns(s, q, other)
    {
      assert DecidedFits(s, other);
    }
  }

  /** The request that leaves `Pending` had never been decided: a decision is made once. */
  lemma DecideKeeps(s: State, p: nat, current: Approval, slot: string, found: Record<Approval>, why: Why)
    requires Inv(s) && p < s.spawned
    requires Known(s, current) && found.value.id == current.id && found.value.status == Pending
    requires Matches(s.records, slot, found.updatedAt, Some(found.value))
    ensures current.id !in s.decidedAt
    ensures var s' := Decide(s, p, current.id, slot, found, why);
            Inv(s') && Grows(s, s') && Seen(s', s'.records[slot].value)
  {
    hide TaskFits, ExecutionFits, Slot, Trim, NamespaceOf;
    assert RecordFits(s, slot);
    var s' := Decide(s, p, current.id, slot, found, why);
    assert current.id in s.executedAt ==> ExecutedFits(s, current.id);
    DecideGrows(s, p, current.id, slot, found, why);
    DecidedFitsRecord(s, p, current.id, slot, found, why);
    assert Seen(s', s'.records[slot].value);
    hide RecordFits, Seen, Owns, Histories, DecidedAs;
    assert Undisturbed(s, s') by {
      hide Grows;
    }
    hide Grows, Undisturbed;
    OthersSurvive(s, s');
    RecordsSurvive(s, s', slot);
  }

  lemma FinishGrows(s: State, slot: string, found: Record<Approval>, ending: Ending)
    requires Histories(s) && slot in s.records
    ensures var s' := Finish(s, slot, found, ending); Grows(s, s') && Histories(s')
  {
    var s' := Finish(s, slot, found, ending);
    assert Grows(s, s') && s' == s.(records := s'.records);
    hide Finish;
    HistoriesSurvive(s, s');
  }

  lemma EndedSeen(s: State, a: Approval, ending: Ending)
    requires Seen(s, a) && a.status == Running && (!ending.Unrecorded? ==> a.id in s.executedAt)
    ensures Seen(s, Ended(a, ending)) && Ended(a, ending).status in {Executed, Failed}
    ensures Ended(a, ending).threadId == a.threadId && Ended(a, ending).id == a.id
  {
  }

  lemma FinishedFitsRecord(s: State, slot: string, found: Record<Approval>, ending: Ending)
    requires s.worlds != [] && slot in s.records && RecordFits(s, slot) && s.records[slot].value == found.value
    requires found.value.status == Running && (!ending.Unrecorded? ==> found.value.id in s.executedAt)
    ensures var s' := Finish(s, slot, found, ending); RecordFits(s', slot)
  {
    EndedSeen(s, found.value, ending);
    var s' := Finish(s, slot, found, ending);
    assert Known(s, Ended(found.value, ending)) ==> Known(s', Ended(found.value, ending));
    hide Slot, Ended, Known;
  }

  lemma FinishKeeps(s: State, slot: string, found: Record<Approval>, ending: Ending)
    requires Inv(s)
    requires Known(s, found.value) && found.value.status == Running
    requires !ending.Unrecorded? ==> found.value.id in s.executedAt
    requires Matches(s.records, slot, found.updatedAt, Some(found.value))
    ensures Inv(Finish(s, slot, found, ending)) && Grows(s, Finish(s, slot, found, ending))
  {
    assert RecordFits(s, slot) && s.worlds != [] && s.records[slot].value == found.value;
    hide Matches, TaskFits, ExecutionFits, Slot, Trim, NamespaceOf, Histories;
    var s' := Finish(s, slot, found, ending);
    FinishedFitsRecord(s, slot, found, ending);
    FinishGrows(s, slot, found, ending);
    FinishedAlone(s, s', slot);
  }

  /** A write to one stored request that keeps its id and fits keeps the invariant. */
  lemma FinishedAlone(s: State, s': State, slot: string)
    requires Inv(s) && Grows(s, s') && Histories(s') && slot in s.records
    requires slot in s'.records && RecordFits(s', slot) && s' == s.(records := s.records[slot := s'.records[slot]])
    ensures Inv(s')
  {
    hide RecordFits, TaskFits, ExecutionFits, Histories, Owns;
    assert Undisturbed(s, s') by {
      hide Grows;
    }
    hide Grows, Undisturbed;
    OthersSurvive(s, s');
    RecordsSurvive(s, s', slot);
  }

  lemma ExecutedFitsRequest(s: State, p: nat, t: Task)
    requires TaskFits(s, p, t) && t.Resolving? && t.step.Executing?
    ensures var s' := Execute(s, p, t.step.current.id, ExecutionOf(s, p, t));
            && ExecutionFits(s', |s.executions|)
            && DecidedAs(s, t.step.current.id, Running) && t.step.current.id !in s.executedAt
  {
  }

  /** Only the owner of the decision gets to the tool, and only once. */
  lemma ExecuteKeeps(s: State, p: nat, t: Task)
    requires Inv(s) && p !in s.tasks && TaskFits(s, p, t) && t.Resolving? && t.step.Executing?
    ensures var s' := Execute(s, p, t.step.current.id, ExecutionOf(s, p, t)); Inv(s') && Grows(s, s')
  {
    var id := t.step.current.id;
    var s' := Execute(s, p, id, ExecutionOf(s, p, t));
    assert Owns(s, p, id);
    ExecutedFitsRequest(s, p, t);
    hide TaskFits, ExecutionFits, ExecutionOf, RecordFits;
    assert ExecutedFits(s', id) && Grows(s, s');
    HistoriesSurvive(s, s');
    assert Undisturbed(s, s') by {
      hide Grows, Histories;
    }
    hide Histories, Grows, Undisturbed, Owns, DecidedAs;
    OthersSurvive(s, s');
    RecordsStand(s, s');
  }

  lemma RecordsStand(s: State, s': State)
    requires RecordsFit(s) && Grows(s, s') && s'.records == s.records && s'.decidedAt == s.decidedAt
    ensures RecordsFit(s')
  {
    hide RecordFits, Grows;
    forall slot | slot in s'.records
      ensures RecordFits(s', slot)
    {
      assert RecordFits(s, slot);
      RecordSurvives(s, s', slot);
    }
  }

  lemma CreateGrows(s: State, slot: string, a: Approval, auditAt: nat)
    requires Histories(s) && a.id in s.issued && a.id !in s.requested && a.status == Pending && IsApprovalId(a.id)
    requires IsAudit(s, auditAt, a.principalId, a.tool, PendingApproval, a.id)
    ensures var s' := Create(s, slot, a, auditAt); Grows(s, s') && Histories(s') && a.id !in s.decidedAt
  {
    var s' := Create(s, slot, a, auditAt);
    assert a.id in s.decidedAt ==> DecidedFits(s, a.id) && DecisionFits(s, s.decidedAt[a.id]);
    assert RequestedFits(s', a.id);
    HistoriesSurvive(s, s');
  }

  lemma CreatedFitsRecord(s: State, slot: string, a: Approval, auditAt: nat)
    requires s.worlds != [] && a.status == Pending && a.id !in s.decidedAt && Slot(a.threadId, a.id) == Ok(slot)
    ensures RecordFits(Create(s, slot, a, auditAt), slot)
  {
    hide Slot, Trim, NamespaceOf;
  }

  lemma CreateKeeps(s: State, p: nat, t: Task, slot: string)
    requires Inv(s) && p !in s.tasks && TaskFits(s, p, t) && t.Calling? && t.at.Creating?
    requires forall q :: q in s.tasks && Unborn(s.tasks[q]).Some? ==> Unborn(s.tasks[q]).value.id != t.at.approval.id
    requires Slot(t.at.approval.threadId, t.at.approval.id) == Ok(slot) && slot !in s.records
    ensures var s' := Create(s, slot, t.at.approval, t.at.auditAt); Inv(s') && Grows(s, s')
  {
    var a := t.at.approval;
    var s' := Create(s, slot, a, t.at.auditAt);
    CreateGrows(s, slot, a, t.at.auditAt);
    CreatedFitsRecord(s, slot, a, t.at.auditAt);
    hide TaskFits, ExecutionFits, RecordFits, Histories, Slot, Trim, NamespaceOf, IsApprovalId, IsAudit;
    assert Undisturbed(s, s') by {
      hide Grows;
    }
    hide Grows, Undisturbed, Owns;
    OthersSurvive(s, s');
    RecordsSurvive(s, s', slot);
  }

  // ----- Each step of a decision keeps the invariant -------------------------------------------

  /** One task moves on; everything else stands still. */
  lemma GotoKeeps(s: State, p: nat, t: Task, step: ResolveStep)
    requires Inv(s) && p < s.spawned && t.Resolving? && t.since < |s.worlds|
    requires StepFits(s, p, t.(step := step))
    ensures Inv(Goto(s, p, t, step))
  {
    PutKeeps(s, p, t.(step := step));
  }

  lemma AnswerKeeps(s: State, p: nat, t: Task, answer: Answer)
    requires Inv(s) && p < s.spawned && t.Resolving? && t.since < |s.worlds|
    requires answer.approval.Some? ==> Seen(s, answer.approval.value)
    ensures Inv(Goto(s, p, t, Answered(answer)))
  {
    GotoKeeps(s, p, t, Answered(answer));
  }

  /** As above, after what was logged in between. */
  lemma LogGotoKeeps(s: State, record: AuditRecord, p: nat, t: Task, step: ResolveStep)
    requires Inv(s) && p < s.spawned && t.Resolving? && t.since < |s.worlds|
    requires StepFits(Log(s, record), p, t.(step := step))
    ensures Inv(Goto(Log(s, record), p, t, step))
  {
    LogKeeps(s, record);
    GotoKeeps(Log(s, record), p, t, step);
  }

  /** The gates that do not need an await are all checked in the world the call evaluates in. */
  lemma EvaluateFits(s: State, p: nat, t: Task)
    requires t.Resolving? && t.step.Evaluating? && TaskFits(s, p, t) && s.worlds != []
    ensures StepFits(s, p, t.(step := Evaluate(s, t, t.step.seen)))
  {
  }

  lemma EvaluateKeeps(s: State, p: nat, t: Task)
    requires Inv(s) && t.Resolving? && t.step.Evaluating? && TaskFits(s, p, t)
    ensures Inv(Goto(s, p, t, Evaluate(s, t, t.step.seen)))
  {
    EvaluateFits(s, p, t);
    hide Inv, StepFits, Evaluate;
    GotoKeeps(s, p, t, Evaluate(s, t, t.step.seen));
  }

  lemma AfterDecideKeeps(s: State, p: nat, t: Task, current: Approval, gates: Gates, why: Why,
                         decided: Option<Approval>)
    requires Inv(s) && t.Resolving? && p < s.spawned && t.since < |s.worlds|
    requires Mine(s, t, current) && (why.Claiming? ==> Cleared(s, t, current, gates))
    requires decided.Some? ==> Seen(s, decided.value) && decided.value.id == current.id
    requires decided.Some? && why.Claiming? ==> Claim(s, p, current, decided.value) && current.id !in s.executedAt
    ensures Inv(Goto(s, p, t, AfterDecide(current, gates, why, decided)))
  {
    hide Inv;
    GotoKeeps(s, p, t, AfterDecide(current, gates, why, decided));
  }

  lemma ReadKeeps(s: State, p: nat, t: Task, env: Env)
    requires Inv(s) && t.Resolving? && t.step.Reading? && TaskFits(s, p, t)
    ensures Inv(ReadRequest(s, p, t, env))
  {
    var slot := Slot(t.input.threadId, t.input.approvalId);
    if env.throws || slot.Rejected? {
      StopKeeps(s, p);
    } else {
      assert slot.value in s.records ==> RecordFits(s, slot.value);
      hide Slot, RecordFits, Inv;
      GotoKeeps(s, p, t, Evaluating(if slot.value in s.records then Some(s.records[slot.value].value) else None));
    }
  }

  lemma RecordingKeeps(s: State, p: nat, t: Task, env: Env)
    requires Inv(s) && t.Resolving? && TaskFits(s, p, t)
    requires t.step.RecordingDenial? || t.step.RecordingRefusal? || t.step.RecordingChange?
    ensures Inv(RecordRefused(s, p, t, env))
  {
    var s1 := if env.ok then Log(s, AuditOf(t, t.step.current, DeniedCall)) else s;
    LogKeeps(s, AuditOf(t, t.step.current, DeniedCall));
    TaskSurvives(s, s1, p, t);
    hide Inv, Log, AuditOf;
    match t.step
    case RecordingDenial(current) =>
      if env.ok {
        GotoKeeps(s1, p, t, DecideReading(current, Gates(0, 0), Denying));
      } else {
        AnswerKeeps(s1, p, t, Answer(AuditUnavailable, None));
      }
    case RecordingRefusal(current) =>
      GotoKeeps(s1, p, t, DecideReading(current, Gates(0, 0), Refusing));
    case RecordingChange(current, refused) =>
      AnswerKeeps(s1, p, t, Answer(TargetChanged, Some(if refused.Some? then refused.value else current)));
  }

  lemma FingerprintingKeeps(s: State, p: nat, t: Task, env: Env)
    requires Inv(s) && t.Resolving? && t.step.Fingerprinting? && TaskFits(s, p, t)
    ensures Inv(CompareFingerprint(s, p, t, env))
  {
    var s' := CompareFingerprint(s, p, t, env);
    hide Inv;
    GotoKeeps(s, p, t, s'.tasks[p].step);
  }

  lemma DecideReadingKeeps(s: State, p: nat, t: Task, env: Env)
    requires Inv(s) && t.Resolving? && t.step.DecideReading? && TaskFits(s, p, t)
    ensures Inv(DecideRead(s, p, t, env))
  {
    var current := t.step.current;
    var slot := Slot(current.threadId, current.id);
    if env.throws || slot.Rejected? {
      StopKeeps(s, p);
    } else if slot.value in s.records && s.records[slot.value].value.status == Pending {
      assert RecordFits(s, slot.value);
      var found := s.records[slot.value].value;
      assert RequestedFits(s, current.id) && RequestedFits(s, found.id);
      SlotsDiffer(current.threadId, current.id, found.threadId, found.id);
      hide Slot, Inv, RecordFits;
      GotoKeeps(s, p, t, DecideWriting(current, t.step.gates, t.step.why, s.records[slot.value]));
    } else {
      hide Slot, Inv;
      AfterDecideKeeps(s, p, t, current, t.step.gates, t.step.why, None);
    }
  }

  lemma DecideWritingKeeps(s: State, p: nat, t: Task, env: Env)
    requires Inv(s) && t.Resolving? && t.step.DecideWriting? && TaskFits(s, p, t)
    ensures Inv(DecideWrite(s, p, t, env))
  {
    var current, gates, why, found := t.step.current, t.step.gates, t.step.why, t.step.found;
    var slot := Slot(current.threadId, current.id);
    hide Slot;
    if env.throws || slot.Rejected? {
      StopKeeps(s, p);
    } else if Matches(s.records, slot.value, found.updatedAt, Some(found.value)) {
      DecideKeeps(s, p, current, slot.value, found, why);
      var s1 := Decide(s, p, current.id, slot.value, found, why);
      assert current.id !in s.executedAt by {
        assert current.id in s.executedAt ==> ExecutedFits(s, current.id);
      }
      hide Inv;
      AfterDecideKeeps(s1, p, t, current, gates, why, Some(s1.records[slot.value].value));
    } else {
      hide Inv;
      AfterDecideKeeps(s, p, t, current, gates, why, None);
    }
  }

  lemma RecordingApprovalKeeps(s: State, p: nat, t: Task, env: Env)
    requires Inv(s) && t.Resolving? && t.step.RecordingApproval? && TaskFits(s, p, t)
    ensures Inv(RecordApproved(s, p, t, env))
  {
    var current := t.step.current;
    assert RequestedFits(s, current.id);
    hide Inv;
    if env.ok {
      LogGotoKeeps(s, AuditOf(t, current, AllowedCall), p, t, Executing(current, t.step.gates, t.step.claimed, |s.audit|));
    } else {
      GotoKeeps(s, p, t, FinishReading(t.step.claimed, Unrecorded));
    }
  }

  lemma PutAfterStop(s: State, p: nat, t: Task)
    ensures Put(Stop(s, p), p, t) == Put(s, p, t)
  {
    assert (s.tasks - {p})[p := t] == s.tasks[p := t];
  }

  lemma OutcomeFits(s: State, p: nat, t: Task, execution: Execution, ending: Ending)
    requires t.Resolving? && t.step.Executing? && TaskFits(s, p, t) && !ending.Unrecorded?
    ensures var s1 := Execute(s, p, t.step.current.id, execution);
            TaskFits(s1, p, t.(step := RecordingOutcome(t.step.current, t.step.claimed, ending)))
  {
  }

  lemma ExecutingKeeps(s: State, p: nat, t: Task, env: Env)
    requires Inv(s) && t.Resolving? && t.step.Executing? && TaskFits(s, p, t)
    ensures Inv(CallTool(s, p, t, env))
  {
    var s0, ending := Stop(s, p), if env.throws then Broke(env.text) else Ran;
    var next := RecordingOutcome(t.step.current, t.step.claimed, ending);
    StopKeeps(s, p);
    TaskSurvives(s, s0, p, t);
    assert s.worlds != [] && s0.worlds != [];
    hide Inv, Histories, TaskFits;
    ExecuteKeeps(s0, p, t);
    var execution := ExecutionOf(s0, p, t);
    assert execution == ExecutionOf(s, p, t);
    hide ExecutionOf;
    OutcomeFits(s0, p, t, execution, ending);
    var s1 := Execute(s0, p, t.step.current.id, execution);
    PutKeeps(s1, p, t.(step := next));
    PutAfterStop(Execute(s, p, t.step.current.id, execution), p, t.(step := next));
  }

  lemma RecordingOutcomeKeeps(s: State, p: nat, t: Task, env: Env)
    requires Inv(s) && t.Resolving? && t.step.RecordingOutcome? && TaskFits(s, p, t)
    ensures Inv(RecordEnding(s, p, t, env))
  {
    hide Inv;
    var next := FinishReading(t.step.claimed, t.step.ending);
    if env.ok {
      LogGotoKeeps(s, AuditOf(t, t.step.current, if t.step.ending.Ran? then ExecutedCall else FailedCall), p, t, next);
    } else {
      GotoKeeps(s, p, t, next);
    }
  }

  lemma FinishThrewKeeps(s: State, p: nat, t: Task, claimed: Approval, ending: Ending, reason: string)
    requires Inv(s) && t.Resolving? && p < s.spawned && t.since < |s.worlds|
    requires Claim(s, p, claimed, claimed) && (!ending.Unrecorded? ==> claimed.id in s.executedAt)
    ensures Inv(FinishThrew(s, p, t, claimed, ending, reason))
  {
    StopKeeps(s, p);
    hide Inv;
    if ending.Ran? {
      GotoKeeps(s, p, t, RecordingOutcome(claimed, claimed, Broke(reason)));
    }
  }

  /** A request and a record that share a slot are one. */
  lemma SlotTellsId(s: State, a: Approval, slot: string)
    requires Inv(s) && Known(s, a) && Slot(a.threadId, a.id) == Ok(slot) && slot in s.records
    ensures s.records[slot].value.id == a.id
  {
    assert RecordFits(s, slot);
    var b := s.records[slot].value;
    assert RequestedFits(s, a.id) && RequestedFits(s, b.id);
    SlotsDiffer(a.threadId, a.id, b.threadId, b.id);
  }

  lemma StoredIsKnown(s: State, slot: string)
    requires Inv(s) && slot in s.records
    ensures Known(s, s.records[slot].value)
  {
    assert RecordFits(s, slot);
  }

  lemma FoundFits(s: State, p: nat, t: Task, slot: string)
    requires Inv(s) && t.Resolving? && t.step.FinishReading? && TaskFits(s, p, t)
    requires Slot(t.step.claimed.threadId, t.step.claimed.id) == Ok(slot)
    requires slot in s.records && s.records[slot].value.status == Running
    ensures TaskFits(s, p, t.(step := FinishWriting(t.step.claimed, t.step.ending, s.records[slot])))
  {
    hide Slot, Inv;
    StoredIsKnown(s, slot);
    assert Known(s, t.step.claimed);
    SlotTellsId(s, t.step.claimed, slot);
    hide Known, DecidedAs;
  }

  lemma EndFits(s: State, p: nat, t: Task)
    requires t.Resolving? && t.step.FinishReading? && TaskFits(s, p, t)
    ensures var end := Answer(EndCode(t.step.ending), Some(Ended(t.step.claimed, t.step.ending)));
            TaskFits(s, p, t.(step := Answered(end)))
  {
  }

  lemma FinishReadingKeeps(s: State, p: nat, t: Task, env: Env)
    requires Inv(s) && t.Resolving? && t.step.FinishReading? && TaskFits(s, p, t)
    ensures Inv(FinishRead(s, p, t, env))
  {
    var claimed, ending := t.step.claimed, t.step.ending;
    var slot := Slot(claimed.threadId, claimed.id);
    hide Slot, Inv, Ended, EndCode;
    if env.throws || slot.Rejected? {
      FinishThrewKeeps(s, p, t, claimed, ending, env.text);
    } else if slot.value in s.records && s.records[slot.value].value.status == Running {
      FoundFits(s, p, t, slot.value);
      hide TaskFits;
      PutKeeps(s, p, t.(step := FinishWriting(claimed, ending, s.records[slot.value])));
    } else {
      EndFits(s, p, t);
      hide TaskFits;
      PutKeeps(s, p, t.(step := Answered(Answer(EndCode(ending), Some(Ended(claimed, ending))))));
    }
  }

  /** What a call knows as it is about to write how its change ended. */
  ghost predicate Finishing(s: State, p: nat, t: Task, held: Approval)
    requires t.Resolving? && t.step.FinishWriting?
  {
    && p < s.spawned && t.since < |s.worlds|
    && Claim(s, p, t.step.claimed, t.step.claimed) && Known(s, held) && held.id == t.step.claimed.id
    && (!t.step.ending.Unrecorded? ==> t.step.claimed.id in s.executedAt)
  }

  lemma FinishingFits(s: State, p: nat, t: Task)
    requires t.Resolving? && t.step.FinishWriting? && TaskFits(s, p, t)
    ensures Finishing(s, p, t, t.step.found.value) && Finishing(s, p, t, t.step.claimed)
    ensures t.step.found.value.status == Running
  {
  }

  lemma FinishingStands(s: State, s': State, p: nat, t: Task, held: Approval)
    requires t.Resolving? && t.step.FinishWriting? && Finishing(s, p, t, held) && Grows(s, s')
    ensures Finishing(s', p, t, held)
  {
  }

  lemma FinishWritingKeeps(s: State, p: nat, t: Task, env: Env)
    requires Inv(s) && t.Resolving? && t.step.FinishWriting? && TaskFits(s, p, t)
    ensures Inv(FinishWrite(s, p, t, env))
  {
    var claimed, ending, found := t.step.claimed, t.step.ending, t.step.found;
    var slot := Slot(claimed.threadId, claimed.id);
    FinishingFits(s, p, t);
    assert s.worlds != [];
    hide Slot, TaskFits, Inv, Finish, Matches;
    if slot.Rejected? {
      StopKeeps(s, p);
    } else {
      var matched := Matches(s.records, slot.value, found.updatedAt, Some(found.value));
      var held := if matched then found.value else claimed;
      if matched && (!env.throws || env.ok) {
        assert Known(s, found.value) && (!ending.Unrecorded? ==> found.value.id in s.executedAt);
        hide Finishing, Grows;
        FinishKeeps(s, slot.value, found, ending);
        var s1 := Finish(s, slot.value, found, ending);
        FinishingStands(s, s1, p, t, held);
        FinishWrittenKeeps(s1, p, t, env, held);
      } else {
        FinishWrittenKeeps(s, p, t, env, held);
      }
      hide FinishThrew, Goto, Ended, EndCode;
    }
  }

  lemma FinishWrittenKeeps(s: State, p: nat, t: Task, env: Env, held: Approval)
    requires Inv(s) && t.Resolving? && t.step.FinishWriting? && Finishing(s, p, t, held)
    ensures Inv(if env.throws then FinishThrew(s, p, t, t.step.claimed, t.step.ending, env.text)
                else Goto(s, p, t, Answered(Answer(EndCode(t.step.ending), Some(Ended(held, t.step.ending))))))
  {
    if env.throws {
      FinishThrewKeeps(s, p, t, t.step.claimed, t.step.ending, env.text);
    } else {
      assert Seen(s, Ended(held, t.step.ending));
      hide Inv, Ended, EndCode, Seen;
      AnswerKeeps(s, p, t, Answer(EndCode(t.step.ending), Some(Ended(held, t.step.ending))));
    }
  }

  lemma ResolveKeeps(s: State, p: nat, env: Env)
    requires Inv(s) && p in s.tasks && s.tasks[p].Resolving?
    ensures Inv(Resolve(s, p, s.tasks[p], env))
  {
    var t := s.tasks[p];
    assert TaskFits(s, p, t);
    hide TaskFits, Inv;
    match t.step
    case Reading => ReadKeeps(s, p, t, env);
    case Evaluating(_) => EvaluateKeeps(s, p, t);
    case RecordingDenial(_) => RecordingKeeps(s, p, t, env);
    case RecordingRefusal(_) => RecordingKeeps(s, p, t, env);
    case Fingerprinting(_, _) => FingerprintingKeeps(s, p, t, env);
    case DecideReading(_, _, _) => DecideReadingKeeps(s, p, t, env);
    case DecideWriting(_, _, _, _) => DecideWritingKeeps(s, p, t, env);
    case RecordingChange(_, _) => RecordingKeeps(s, p, t, env);
    case RecordingApproval(_, _, _) => RecordingApprovalKeeps(s, p, t, env);
    case Executing(_, _, _, _) => ExecutingKeeps(s, p, t, env);
    case RecordingOutcome(_, _, _) => RecordingOutcomeKeeps(s, p, t, env);
    case FinishReading(_, _) => FinishReadingKeeps(s, p, t, env);
    case FinishWriting(_, _, _) => FinishWritingKeeps(s, p, t, env);
    case Answered(_) =>
  }

  // ----- Each step of a call keeps the invariant --------------------------------------------------

  lemma ResumeKeeps(s: State, p: nat, t: Task, at: CallStep)
    requires Inv(s) && p < s.spawned && t.Calling? && CallFits(s, t.(at := at))
    requires Unborn(t.(at := at)).Some? ==>
      forall q :: q in s.tasks && q != p && Unborn(s.tasks[q]).Some? ==>
        Unborn(s.tasks[q]).value.id != Unborn(t.(at := at)).value.id
    ensures Inv(Resume(s, p, t, at))
  {
    PutKeeps(s, p, t.(at := at));
  }

  lemma LogResumeKeeps(s: State, record: AuditRecord, p: nat, t: Task, at: CallStep)
    requires Inv(s) && p < s.spawned && t.Calling? && CallFits(Log(s, record), t.(at := at))
    requires Unborn(t.(at := at)).Some? ==>
      forall q :: q in s.tasks && q != p && Unborn(s.tasks[q]).Some? ==>
        Unborn(s.tasks[q]).value.id != Unborn(t.(at := at)).value.id
    ensures Inv(Resume(Log(s, record), p, t, at))
  {
    LogKeeps(s, record);
    PutKeeps(Log(s, record), p, t.(at := at));
  }

  lemma StartKeeps(s: State, p: nat, t: Task)
    requires Inv(s) && t.Calling? && t.at.Starting? && TaskFits(s, p, t)
    ensures Inv(Resume(s, p, t, Start(s, t)))
  {
    assert s.worlds != [];
    hide Inv;
    assert CallFits(s, t.(at := Start(s, t)));
    hide CallFits;
    ResumeKeeps(s, p, t, Start(s, t));
  }

  lemma RecordingCallKeeps(s: State, p: nat, t: Task, env: Env)
    requires Inv(s) && t.Calling? && TaskFits(s, p, t)
    requires t.at.RecordingRefused? || t.at.RecordingRead?
    ensures Inv(RecordCall(s, p, t, env))
  {
    var s' := RecordCall(s, p, t, env);
    hide Inv;
    var decision := if t.at.RecordingRead? then AllowedCall else t.at.decision;
    if env.ok {
      LogResumeKeeps(s, AuditRecord(t.principal, t.tool, t.raw, decision, None), p, t, s'.tasks[p].at);
    } else {
      ResumeKeeps(s, p, t, s'.tasks[p].at);
    }
  }

  /** `run` calls a tool itself only if the tool changes nothing. */
  lemma ReadExecutingKeeps(s: State, p: nat, t: Task, env: Env)
    requires Inv(s) && t.Calling? && t.at.ReadExecuting? && TaskFits(s, p, t)
    ensures Inv(ReadTool(s, p, t, env))
  {
    var s' := ReadTool(s, p, t, env);
    var s1 := s.(executions := s'.executions);
    hide TaskFits, RecordFits;
    HistoriesSurvive(s, s1);
    OthersSurvive(s, s1);
    assert ExecutionFits(s1, |s.executions|);
    forall slot | slot in s1.records
      ensures RecordFits(s1, slot)
    {
      assert RecordFits(s, slot);
      RecordSurvives(s, s1, slot);
    }
    assert Inv(s1);
    hide Inv;
    ResumeKeeps(s1, p, t, s'.tasks[p].at);
  }

  lemma ListingKeeps(s: State, p: nat, t: Task, env: Env)
    requires Inv(s) && t.Calling? && t.at.Listing? && TaskFits(s, p, t)
    ensures Inv(ListWaiting(s, p, t, env))
  {
    assert s.worlds != [];
    hide Inv, Waiting;
    if env.throws || t.threadId.None? {
      StopKeeps(s, p);
    } else if |Waiting(s, t.threadId.value)| >= MAX_PENDING_APPROVALS_PER_THREAD {
      ResumeKeeps(s, p, t, Returned(ApprovalUnavailable));
    } else {
      ResumeKeeps(s, p, t, Pinning(t.at.parsed));
    }
  }

  lemma PinningKeeps(s: State, p: nat, t: Task, env: Env)
    requires Inv(s) && t.Calling? && t.at.Pinning? && TaskFits(s, p, t)
    requires IsApprovalId(env.id) && env.id !in s.issued
    ensures Inv(Pin(s, p, t, env))
  {
    if t.threadId.None? {
      StopKeeps(s, p);
    } else if t.tool in s.toolbox && s.toolbox[t.tool].pinned
              && (!env.ok || FingerprintNow(s, t.tool, t.at.parsed).None?) {
      hide Inv;
      ResumeKeeps(s, p, t, RecordingRefused(FailedCall, false, CallFailed));
    } else {
      var approval := NewApproval(s, t, t.at.parsed, FingerprintNow(s, t.tool, t.at.parsed), env);
      var s1 := s.(issued := s.issued + {approval.id});
      forall q | q in s.tasks && Unborn(s.tasks[q]).Some?
        ensures Unborn(s.tasks[q]).value.id != approval.id
      {
        assert TaskFits(s, q, s.tasks[q]);
      }
      assert approval.id in s.requested ==> RequestedFits(s, approval.id);
      HistoriesSurvive(s, s1);
      GrowthKeeps(s, s1);
      hide Inv;
      ResumeKeeps(s1, p, t, Announcing(approval));
    }
  }

  lemma AnnouncingKeeps(s: State, p: nat, t: Task, env: Env)
    requires Inv(s) && t.Calling? && t.at.Announcing? && TaskFits(s, p, t) && p in s.tasks && s.tasks[p] == t
    ensures Inv(Announce(s, p, t, env))
  {
    assert Distinct(s);
    hide Inv;
    if env.ok {
      LogResumeKeeps(s, AuditRecord(t.principal, t.tool, t.raw, PendingApproval, Some(t.at.approval.id)), p, t,
                     Creating(t.at.approval, |s.audit|));
    } else {
      ResumeKeeps(s, p, t, Returned(CallUnrecorded));
    }
  }

  lemma CreatingKeeps(s: State, p: nat, t: Task, env: Env)
    requires Inv(s) && t.Calling? && t.at.Creating? && TaskFits(s, p, t) && p in s.tasks && s.tasks[p] == t
    ensures Inv(StoreRequest(s, p, t, env))
  {
    var approval, auditAt := t.at.approval, t.at.auditAt;
    var slot := Slot(approval.threadId, approval.id);
    hide Slot;
    StopKeeps(s, p);
    if !(env.throws || slot.Rejected? || slot.value in s.records) {
      var s0 := Stop(s, p);
      TaskSurvives(s, s0, p, t);
      assert forall q :: q in s0.tasks && Unborn(s0.tasks[q]).Some? ==> Unborn(s0.tasks[q]).value.id != approval.id;
      assert s.worlds != [];
      hide Inv, TaskFits, Histories, Create;
      CreateKeeps(s0, p, t, slot.value);
      var done := Returned(ApprovalRequired(approval.id));
      ResumeKeeps(Create(s0, slot.value, approval, auditAt), p, t, done);
      PutAfterStop(Create(s, slot.value, approval, auditAt), p, t.(at := done));
    }
  }

  lemma CallKeeps(s: State, p: nat, env: Env)
    requires Inv(s) && Enabled(s, Advance(p, env)) && s.tasks[p].Calling?
    ensures Inv(Proceed(s, p, s.tasks[p], env))
  {
    var t := s.tasks[p];
    assert TaskFits(s, p, t);
    hide TaskFits, Inv;
    match t.at
    case Starting => StartKeeps(s, p, t);
    case RecordingRefused(_, _, _) => RecordingCallKeeps(s, p, t, env);
    case RecordingRead(_) => RecordingCallKeeps(s, p, t, env);
    case ReadExecuting(_) => ReadExecutingKeeps(s, p, t, env);
    case Listing(_) => ListingKeeps(s, p, t, env);
    case Pinning(_) => PinningKeeps(s, p, t, env);
    case Announcing(_) => AnnouncingKeeps(s, p, t, env);
    case Creating(_, _) => CreatingKeeps(s, p, t, env);
    case Returned(_) =>
  }

  // ----- Every event keeps the invariant -------------------------------------------------------------

  lemma AskKeeps(s: State, t: Task)
    requires Inv(s) && Unborn(t).None?
    requires TaskFits(s.(spawned := s.spawned + 1), s.spawned, t)
    ensures Inv(Put(s, s.spawned, t).(spawned := s.spawned + 1))
  {
    hide TaskFits, RecordFits, ExecutionFits;
    var s1 := s.(spawned := s.spawned + 1);
    HistoriesSurvive(s, s1);
    GrowthKeeps(s, s1);
    PutKeeps(s1, s.spawned, t);
  }

  lemma NextKeeps(s: State, e: Event)
    requires Inv(s) && Enabled(s, e)
    ensures Inv(Next(s, e))
  {
    match e
    case Turn(world) =>
      hide TaskFits, RecordFits, ExecutionFits;
      HistoriesSurvive(s, Next(s, e));
      GrowthKeeps(s, Next(s, e));
    case AskResolve(principal, input) =>
      AskKeeps(s, Resolving(principal, input, |s.worlds| - 1, Reading));
    case AskCall(principal, tool, raw, threadId, projectId) =>
      AskKeeps(s, Calling(principal, tool, raw, threadId, projectId, Starting));
    case Advance(p, env) =>
      hide Inv, TaskFits;
      if s.tasks[p].Resolving? {
        ResolveKeeps(s, p, env);
      } else {
        CallKeeps(s, p, env);
      }
    case Crash(p) => StopKeeps(s, p);
    case Remove(slot) =>
      hide TaskFits, RecordFits, ExecutionFits;
      HistoriesSurvive(s, Next(s, e));
      GrowthKeeps(s, Next(s, e));
  }

  lemma {:induction false} RunKeeps(run: seq<State>, i: nat)
    requires IsRun(run) && i < |run|
    ensures Inv(run[i])
  {
    if i == 0 {
      assert exists toolbox, world :: run[0] == Initial(toolbox, world);
    } else {
      RunKeeps(run, i - 1);
      assert StepsTo(run, i);
      var e :| Follows(run[i - 1], e, run[i]);
      NextKeeps(run[i - 1], e);
    }
  }

  /** The event that led to a state of a run. */
  lemma EventBefore(run: seq<State>, i: nat) returns (e: Event)
    requires IsRun(run) && 1 <= i < |run|
    ensures Inv(run[i - 1]) && Enabled(run[i - 1], e) && run[i] == Next(run[i - 1], e)
  {
    RunKeeps(run, i - 1);
    assert StepsTo(run, i);
    e :| Follows(run[i - 1], e, run[i]);
  }
}
