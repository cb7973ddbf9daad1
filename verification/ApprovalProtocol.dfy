/**
  The approval protocol as a state machine: any number of tool calls and of people's decisions
  in flight at once, interleaved at every await, over one approval store and one audit log.

  A task is one call of the toolbox. Between two awaits it runs alone; at an await anything may
  happen: other tasks advance, the clock, permissions and targets change, the store or the audit
  log fails, a thread is deleted, the process dies. `Next` says what each event does.

  The fields from `requested` on are history. No guard reads them; they record what happened so
  that whole runs can be spoken about.
*/
module ApprovalProtocol {
  import opened Text
  import opened SystemStore
  import opened Approvals

  // ----- What the toolbox sees ---------------------------------------------------

  /** A registered tool; `parsed` maps the arguments its `access` accepts to what it makes of them. */
  datatype Tool = Tool(mutates: bool, irreversible: bool, pinned: bool, parsed: map<Json, Json>)

  /** The principal holds every permission these exact arguments require. */
  datatype Grant = Grant(principal: string, tool: string, arguments: Json)

  /** These arguments are about this Project and nothing else. */
  datatype Cover = Cover(projectId: string, tool: string, arguments: Json)

  datatype World = World(clock: int, grants: set<Grant>, covers: set<Cover>,
                         fingerprints: map<(string, Json), string>)

  datatype AuditDecision = AllowedCall | DeniedCall | InvalidCall | FailedCall | PendingApproval | ExecutedCall

  /** `approval` is the request that the record's reason names. */
  datatype AuditRecord = AuditRecord(principal: string, tool: string, arguments: Json,
                                     decision: AuditDecision, approval: Option<string>)

  // ----- Tasks ---------------------------------------------------------------------

  datatype Choice = Approve | Deny

  datatype Input = Input(threadId: string, approvalId: string, choice: Choice, confirm: Option<string>)

  datatype Code =
    | Done | NotFound | AlreadyDecided | TooLate | Forbidden | ConfirmationRequired
    | TargetChanged | AuditUnavailable | ToolFailed

  datatype Answer = Answer(code: Code, approval: Option<Approval>)

  /** Which worlds the gates of an approving call were checked in, as positions in `worlds`. */
  datatype Gates = Gates(at: nat, pinnedAt: nat)

  datatype Why = Expiring | Denying | Refusing | Changed | Claiming

  datatype Ending = Ran | Broke(reason: string) | Unrecorded

  /** Where a call of `resolveApproval` waits. */
  datatype ResolveStep =
    | Reading
    | Evaluating(seen: Option<Approval>)
    | RecordingDenial(current: Approval)
    | RecordingRefusal(current: Approval)
    | Fingerprinting(current: Approval, gates: Gates)
    | DecideReading(current: Approval, gates: Gates, why: Why)
    | DecideWriting(current: Approval, gates: Gates, why: Why, found: Record<Approval>)
    | RecordingChange(current: Approval, refused: Option<Approval>)
    | RecordingApproval(current: Approval, gates: Gates, claimed: Approval)
    | Executing(current: Approval, gates: Gates, claimed: Approval, allowedAt: nat)
    | RecordingOutcome(current: Approval, claimed: Approval, ending: Ending)
    | FinishReading(claimed: Approval, ending: Ending)
    | FinishWriting(claimed: Approval, ending: Ending, found: Record<Approval>)
    | Answered(answer: Answer)

  datatype CallResult =
    | UnknownTool | InvalidArguments | NotAllowed | CallUnrecorded | ApprovalUnavailable
    | CallFailed | Value | ApprovalRequired(id: string)

  /** Where a call of `run` waits. */
  datatype CallStep =
    | Starting
    | RecordingRefused(decision: AuditDecision, mustRecord: bool, result: CallResult)
    | RecordingRead(parsed: Json)
    | ReadExecuting(parsed: Json)
    | Listing(parsed: Json)
    | Pinning(parsed: Json)
    | Announcing(approval: Approval)
    | Creating(approval: Approval, auditAt: nat)
    | Returned(result: CallResult)

  datatype Task =
    | Resolving(principal: string, input: Input, since: nat, step: ResolveStep)
    | Calling(principal: string, tool: string, raw: Json, threadId: Option<string>,
              projectId: Option<string>, at: CallStep)

  // ----- The whole system ------------------------------------------------------------

  datatype Requested = Requested(approval: Approval, auditAt: nat)

  datatype DecisionMade = DecisionMade(id: string, status: Status, task: nat)

  datatype Execution = Execution(approval: Option<string>, task: nat, principal: string, tool: string,
                                 arguments: Json, confirm: Option<string>, since: nat, gates: Gates,
                                 worldsSeen: nat, allowedAt: nat, audited: nat)

  datatype State = State(
    toolbox: map<string, Tool>,
    worlds: seq<World>,
    records: Records<Approval>,
    audit: seq<AuditRecord>,
    tasks: map<nat, Task>,
    spawned: nat,
    issued: set<string>,
    requested: map<string, Requested>,
    decisions: seq<DecisionMade>,
    decidedAt: map<string, nat>,
    executions: seq<Execution>,
    executedAt: map<string, nat>)

  /** What the surroundings decide about one step of a task. */
  datatype Env = Env(ok: bool, throws: bool, text: string, id: string, target: TargetRef)

  datatype Event =
    | Turn(world: World)
    | AskResolve(principal: string, input: Input)
    | AskCall(principal: string, tool: string, raw: Json, threadId: Option<string>, projectId: Option<string>)
    | Advance(p: nat, env: Env)
    | Crash(p: nat)
    | Remove(slot: string)

  function Now(s: State): World
    requires s.worlds != []
  {
    Last(s.worlds)
  }

  // ----- Building blocks of a step -----------------------------------------------------

  function Put(s: State, p: nat, t: Task): State {
    s.(tasks := s.tasks[p := t])
  }

  function Stop(s: State, p: nat): State {
    s.(tasks := s.tasks - {p})
  }

  function Goto(s: State, p: nat, t: Task, step: ResolveStep): State
    requires t.Resolving?
  {
    Put(s, p, t.(step := step))
  }

  function Resume(s: State, p: nat, t: Task, at: CallStep): State
    requires t.Calling?
  {
    Put(s, p, t.(at := at))
  }

  function Log(s: State, record: AuditRecord): (s': State)
    ensures s.audit <= s'.audit
  {
    s.(audit := s.audit + [record])
  }

  /** The fingerprint of what these arguments name now; none when it cannot be taken. */
  function FingerprintNow(s: State, tool: string, arguments: Json): Option<string>
    requires s.worlds != []
  {
    if tool in s.toolbox && s.toolbox[tool].pinned && (tool, arguments) in Now(s).fingerprints
    then Some(Now(s).fingerprints[(tool, arguments)])
    else None
  }

  function StatusOf(why: Why): Status {
    match why
    case Expiring => Expired
    case Claiming => Running
    case _ => Denied
  }

  function OutcomeOf(why: Why): string {
    match why
    case Expiring => "It was not decided in time."
    case Denying => "Nothing was changed."
    case Refusing => "Not run: you no longer have permission for this."
    case Changed => "Not run: the target changed since this was requested."
    case Claiming => "Running..."
  }

  function EndStatus(ending: Ending): Status {
    if ending.Ran? then Executed else Failed
  }

  function EndOutcome(ending: Ending, caption: string): string {
    match ending
    case Ran => "Done: " + caption + "."
    case Broke(reason) => reason
    case Unrecorded => "Not run: the decision could not be recorded."
  }

  function Ended(a: Approval, ending: Ending): Approval {
    Finished(a, EndStatus(ending), EndOutcome(ending, a.caption))
  }

  function EndCode(ending: Ending): Code {
    match ending
    case Ran => Done
    case Broke(_) => ToolFailed
    case Unrecorded => AuditUnavailable
  }

  function AuditOf(t: Task, a: Approval, decision: AuditDecision): AuditRecord {
    AuditRecord(t.principal, a.tool, a.arguments, decision, Some(a.id))
  }

  // ----- resolveApproval -----------------------------------------------------------------

  /** From the first read to the next await: where the call waits next. */
  function Evaluate(s: State, t: Task, seen: Option<Approval>): ResolveStep
    requires t.Resolving? && s.worlds != []
  {
    if seen.None? || seen.value.principalId != t.principal || seen.value.threadId != t.input.threadId then
      Answered(Answer(NotFound, None))
    else
      var current := seen.value;
      var gates := Gates(|s.worlds| - 1, |s.worlds| - 1);
      if current.status != Pending then
        Answered(Answer(AlreadyDecided, Some(current)))
      else if current.expiresAt <= Now(s).clock then
        DecideReading(current, gates, Expiring)
      else if t.input.choice.Deny? then
        RecordingDenial(current)
      else if current.irreversible && t.input.confirm != Some(current.target.id) then
        Answered(Answer(ConfirmationRequired, Some(current)))
      else if current.tool !in s.toolbox || Grant(t.principal, current.tool, current.arguments) !in Now(s).grants then
        RecordingRefusal(current)
      else if current.fingerprint.Some? then
        Fingerprinting(current, gates)
      else
        DecideReading(current, gates, Claiming)
  }

  /** What a call does once `decide` has returned. */
  function AfterDecide(current: Approval, gates: Gates, why: Why, decided: Option<Approval>): ResolveStep {
    var shown := Some(if decided.Some? then decided.value else current);
    match why
    case Expiring => Answered(Answer(TooLate, shown))
    case Denying => Answered(if decided.Some? then Answer(Done, decided) else Answer(AlreadyDecided, None))
    case Refusing => Answered(Answer(Forbidden, shown))
    case Changed => RecordingChange(current, decided)
    case Claiming =>
      if decided.None? then Answered(Answer(AlreadyDecided, None))
      else RecordingApproval(current, gates, decided.value)
  }

  /** The write by which a request leaves `Pending`, when nobody wrote the record since it was read. */
  function Decide(s: State, p: nat, id: string, slot: string, found: Record<Approval>, why: Why): State
    requires s.worlds != [] && slot in s.records
  {
    var decided := Decided(found.value, StatusOf(why), OutcomeOf(why), Now(s).clock);
    s.(records := s.records[slot := Record(Trim(NamespaceOf(found.value.threadId)), Trim(found.value.id), decided,
                                           TimestampAfter(s.records[slot].updatedAt, Now(s).clock))],
       decisions := s.decisions + [DecisionMade(id, StatusOf(why), p)],
       decidedAt := s.decidedAt[id := |s.decisions|])
  }

  /** The write by which a running request is marked executed or failed. */
  function Finish(s: State, slot: string, found: Record<Approval>, ending: Ending): State
    requires s.worlds != [] && slot in s.records
  {
    s.(records := s.records[slot := Record(Trim(NamespaceOf(found.value.threadId)), Trim(found.value.id),
                                           Ended(found.value, ending),
                                           TimestampAfter(s.records[slot].updatedAt, Now(s).clock))])
  }

  /** The moment a tool is called. `throws` is how it ends; either way it was called. */
  function Execute(s: State, p: nat, id: string, execution: Execution): State {
    s.(executions := s.executions + [execution], executedAt := s.executedAt[id := |s.executions|])
  }

  function ExecutionOf(s: State, p: nat, t: Task): Execution
    requires t.Resolving? && t.step.Executing?
  {
    var a := t.step.current;
    Execution(Some(a.id), p, t.principal, a.tool, a.arguments, t.input.confirm, t.since, t.step.gates,
              |s.worlds|, t.step.allowedAt, |s.audit|)
  }

  /** A store failure while recording success is caught, and recorded as the tool's failure. */
  function FinishThrew(s: State, p: nat, t: Task, claimed: Approval, ending: Ending, reason: string): State
    requires t.Resolving?
  {
    if ending.Ran? then Goto(s, p, t, RecordingOutcome(claimed, claimed, Broke(reason))) else Stop(s, p)
  }

  function ReadRequest(s: State, p: nat, t: Task, env: Env): State
    requires t.Resolving? && t.step.Reading?
  {
    var slot := Slot(t.input.threadId, t.input.approvalId);
    if env.throws || slot.Rejected? then Stop(s, p)
    else Goto(s, p, t, Evaluating(if slot.value in s.records then Some(s.records[slot.value].value) else None))
  }

  /** The audit record of a decision not to run something; only a person's denial insists on it. */
  function RecordRefused(s: State, p: nat, t: Task, env: Env): State
    requires t.Resolving? && (t.step.RecordingDenial? || t.step.RecordingRefusal? || t.step.RecordingChange?)
  {
    var current := t.step.current;
    var recorded := if env.ok then Log(s, AuditOf(t, current, DeniedCall)) else s;
    match t.step
    case RecordingDenial(_) =>
      if env.ok then Goto(recorded, p, t, DecideReading(current, Gates(0, 0), Denying))
      else Goto(s, p, t, Answered(Answer(AuditUnavailable, None)))
    case RecordingRefusal(_) =>
      Goto(recorded, p, t, DecideReading(current, Gates(0, 0), Refusing))
    case RecordingChange(_, refused) =>
      Goto(recorded, p, t, Answered(Answer(TargetChanged, Some(if refused.Some? then refused.value else current))))
  }

  function CompareFingerprint(s: State, p: nat, t: Task, env: Env): State
    requires t.Resolving? && t.step.Fingerprinting? && s.worlds != []
  {
    var current, gates := t.step.current, t.step.gates;
    if env.ok && FingerprintNow(s, current.tool, current.arguments) == current.fingerprint
    then Goto(s, p, t, DecideReading(current, gates.(pinnedAt := |s.worlds| - 1), Claiming))
    else Goto(s, p, t, DecideReading(current, gates, Changed))
  }

  function DecideRead(s: State, p: nat, t: Task, env: Env): State
    requires t.Resolving? && t.step.DecideReading?
  {
    var current, gates, why := t.step.current, t.step.gates, t.step.why;
    var slot := Slot(current.threadId, current.id);
    if env.throws || slot.Rejected? then Stop(s, p)
    else if slot.value in s.records && s.records[slot.value].value.status == Pending
    then Goto(s, p, t, DecideWriting(current, gates, why, s.records[slot.value]))
    else Goto(s, p, t, AfterDecide(current, gates, why, None))
  }

  function DecideWrite(s: State, p: nat, t: Task, env: Env): State
    requires t.Resolving? && t.step.DecideWriting? && s.worlds != []
  {
    var current, gates, why, found := t.step.current, t.step.gates, t.step.why, t.step.found;
    var slot := Slot(current.threadId, current.id);
    if env.throws || slot.Rejected? then Stop(s, p)
    else if Matches(s.records, slot.value, found.updatedAt, Some(found.value))
    then
      var s1 := Decide(s, p, current.id, slot.value, found, why);
      Goto(s1, p, t, AfterDecide(current, gates, why, Some(s1.records[slot.value].value)))
    else Goto(s, p, t, AfterDecide(current, gates, why, None))
  }

  function RecordApproved(s: State, p: nat, t: Task, env: Env): State
    requires t.Resolving? && t.step.RecordingApproval?
  {
    var current := t.step.current;
    if env.ok
    then Goto(Log(s, AuditOf(t, current, AllowedCall)), p, t, Executing(current, t.step.gates, t.step.claimed, |s.audit|))
    else Goto(s, p, t, FinishReading(t.step.claimed, Unrecorded))
  }

  function CallTool(s: State, p: nat, t: Task, env: Env): State
    requires t.Resolving? && t.step.Executing?
  {
    Goto(Execute(s, p, t.step.current.id, ExecutionOf(s, p, t)), p, t,
         RecordingOutcome(t.step.current, t.step.claimed, if env.throws then Broke(env.text) else Ran))
  }

  function RecordEnding(s: State, p: nat, t: Task, env: Env): State
    requires t.Resolving? && t.step.RecordingOutcome?
  {
    var ending := t.step.ending;
    var record := AuditOf(t, t.step.current, if ending.Ran? then ExecutedCall else FailedCall);
    Goto(if env.ok then Log(s, record) else s, p, t, FinishReading(t.step.claimed, ending))
  }

  function FinishRead(s: State, p: nat, t: Task, env: Env): State
    requires t.Resolving? && t.step.FinishReading?
  {
    var claimed, ending := t.step.claimed, t.step.ending;
    var slot := Slot(claimed.threadId, claimed.id);
    if env.throws || slot.Rejected? then FinishThrew(s, p, t, claimed, ending, env.text)
    else if slot.value in s.records && s.records[slot.value].value.status == Running
    then Goto(s, p, t, FinishWriting(claimed, ending, s.records[slot.value]))
    else Goto(s, p, t, Answered(Answer(EndCode(ending), Some(Ended(claimed, ending)))))
  }

  /** The write may reach the store and its answer still be lost: then `throws` and `ok` both hold. */
  function FinishWrite(s: State, p: nat, t: Task, env: Env): State
    requires t.Resolving? && t.step.FinishWriting? && s.worlds != []
  {
    var claimed, ending, found := t.step.claimed, t.step.ending, t.step.found;
    var slot := Slot(claimed.threadId, claimed.id);
    if slot.Rejected? then Stop(s, p)
    else
      var matched := Matches(s.records, slot.value, found.updatedAt, Some(found.value));
      var s1 := if matched && (!env.throws || env.ok) then Finish(s, slot.value, found, ending) else s;
      if env.throws then FinishThrew(s1, p, t, claimed, ending, env.text)
      else Goto(s1, p, t, Answered(Answer(EndCode(ending), Some(Ended(if matched then found.value else claimed, ending)))))
  }

  function Resolve(s: State, p: nat, t: Task, env: Env): State
    requires t.Resolving? && s.worlds != []
  {
    match t.step
    case Reading => ReadRequest(s, p, t, env)
    case Evaluating(seen) => Goto(s, p, t, Evaluate(s, t, seen))
    case RecordingDenial(_) => RecordRefused(s, p, t, env)
    case RecordingRefusal(_) => RecordRefused(s, p, t, env)
    case Fingerprinting(_, _) => CompareFingerprint(s, p, t, env)
    case DecideReading(_, _, _) => DecideRead(s, p, t, env)
    case DecideWriting(_, _, _, _) => DecideWrite(s, p, t, env)
    case RecordingChange(_, _) => RecordRefused(s, p, t, env)
    case RecordingApproval(_, _, _) => RecordApproved(s, p, t, env)
    case Executing(_, _, _, _) => CallTool(s, p, t, env)
    case RecordingOutcome(_, _, _) => RecordEnding(s, p, t, env)
    case FinishReading(_, _) => FinishRead(s, p, t, env)
    case FinishWriting(_, _, _) => FinishWrite(s, p, t, env)
    case Answered(_) => s
  }

  // ----- run -------------------------------------------------------------------------------

  /** Requests of a thread that are still waiting for a decision. */
  function Waiting(s: State, threadId: string): set<string>
    requires s.worlds != []
  {
    set slot | slot in s.records
            && s.records[slot].namespace == Trim(NamespaceOf(threadId))
            && s.records[slot].value.status == Pending
            && s.records[slot].value.expiresAt > Now(s).clock
  }

  /** From the call to its first await: where it waits. */
  function Start(s: State, t: Task): CallStep
    requires t.Calling? && s.worlds != []
  {
    if t.tool !in s.toolbox then RecordingRefused(InvalidCall, false, UnknownTool)
    else if t.raw !in s.toolbox[t.tool].parsed then RecordingRefused(InvalidCall, true, InvalidArguments)
    else
      var parsed := s.toolbox[t.tool].parsed[t.raw];
      if t.projectId.Some? && Cover(t.projectId.value, t.tool, t.raw) !in Now(s).covers then
        RecordingRefused(DeniedCall, true, NotAllowed)
      else if Grant(t.principal, t.tool, t.raw) !in Now(s).grants then
        RecordingRefused(DeniedCall, true, NotAllowed)
      else if s.toolbox[t.tool].mutates then
        if t.threadId.None? then RecordingRefused(DeniedCall, false, ApprovalUnavailable) else Listing(parsed)
      else RecordingRead(parsed)
  }

  function NewApproval(s: State, t: Task, parsed: Json, fingerprint: Option<string>, env: Env): Approval
    requires t.Calling? && t.threadId.Some? && s.worlds != []
  {
    Approval(env.id, t.threadId.value, t.principal, t.tool, parsed, env.text, env.target,
             t.tool in s.toolbox && s.toolbox[t.tool].irreversible,
             if fingerprint == Some("") then None else fingerprint,
             Pending, Now(s).clock, Now(s).clock + APPROVAL_TTL_MS, None, None)
  }

  /** The write by which a request comes into being. */
  function Create(s: State, slot: string, approval: Approval, auditAt: nat): State
    requires s.worlds != []
  {
    s.(records := s.records[slot := Record(Trim(NamespaceOf(approval.threadId)), Trim(approval.id), approval,
                                           Now(s).clock)],
       requested := s.requested[approval.id := Requested(approval, auditAt)])
  }

  function RecordCall(s: State, p: nat, t: Task, env: Env): State
    requires t.Calling? && (t.at.RecordingRefused? || t.at.RecordingRead?)
  {
    var decision := if t.at.RecordingRead? then AllowedCall else t.at.decision;
    var next := if t.at.RecordingRead?
                then (if env.ok then ReadExecuting(t.at.parsed) else Returned(CallUnrecorded))
                else Returned(if t.at.mustRecord && !env.ok then CallUnrecorded else t.at.result);
    Resume(if env.ok then Log(s, AuditRecord(t.principal, t.tool, t.raw, decision, None)) else s, p, t, next)
  }

  function ReadTool(s: State, p: nat, t: Task, env: Env): State
    requires t.Calling? && t.at.ReadExecuting?
  {
    var execution := Execution(None, p, t.principal, t.tool, t.at.parsed, None, 0, Gates(0, 0), |s.worlds|, 0, |s.audit|);
    Resume(s.(executions := s.executions + [execution]), p, t,
           if env.throws then RecordingRefused(FailedCall, false, CallFailed) else Returned(Value))
  }

  function ListWaiting(s: State, p: nat, t: Task, env: Env): State
    requires t.Calling? && t.at.Listing? && s.worlds != []
  {
    if env.throws || t.threadId.None? then Stop(s, p)
    else if |Waiting(s, t.threadId.value)| >= MAX_PENDING_APPROVALS_PER_THREAD
    then Resume(s, p, t, Returned(ApprovalUnavailable))
    else Resume(s, p, t, Pinning(t.at.parsed))
  }

  function Pin(s: State, p: nat, t: Task, env: Env): State
    requires t.Calling? && t.at.Pinning? && s.worlds != []
  {
    if t.threadId.None? then Stop(s, p)
    else if t.tool in s.toolbox && s.toolbox[t.tool].pinned && (!env.ok || FingerprintNow(s, t.tool, t.at.parsed).None?)
    then Resume(s, p, t, RecordingRefused(FailedCall, false, CallFailed))
    else
      var approval := NewApproval(s, t, t.at.parsed, FingerprintNow(s, t.tool, t.at.parsed), env);
      Resume(s.(issued := s.issued + {approval.id}), p, t, Announcing(approval))
  }

  function Announce(s: State, p: nat, t: Task, env: Env): State
    requires t.Calling? && t.at.Announcing?
  {
    if env.ok
    then Resume(Log(s, AuditRecord(t.principal, t.tool, t.raw, PendingApproval, Some(t.at.approval.id))), p, t,
                Creating(t.at.approval, |s.audit|))
    else Resume(s, p, t, Returned(CallUnrecorded))
  }

  function StoreRequest(s: State, p: nat, t: Task, env: Env): State
    requires t.Calling? && t.at.Creating? && s.worlds != []
  {
    var slot := Slot(t.at.approval.threadId, t.at.approval.id);
    if env.throws || slot.Rejected? || slot.value in s.records then Stop(s, p)
    else Resume(Create(s, slot.value, t.at.approval, t.at.auditAt), p, t, Returned(ApprovalRequired(t.at.approval.id)))
  }

  function Proceed(s: State, p: nat, t: Task, env: Env): State
    requires t.Calling? && s.worlds != []
  {
    match t.at
    case Starting => Resume(s, p, t, Start(s, t))
    case RecordingRefused(_, _, _) => RecordCall(s, p, t, env)
    case RecordingRead(_) => RecordCall(s, p, t, env)
    case ReadExecuting(_) => ReadTool(s, p, t, env)
    case Listing(_) => ListWaiting(s, p, t, env)
    case Pinning(_) => Pin(s, p, t, env)
    case Announcing(_) => Announce(s, p, t, env)
    case Creating(_, _) => StoreRequest(s, p, t, env)
    case Returned(_) => s
  }

  // ----- Events --------------------------------------------------------------------------------

  /** Generated ids are well formed and never generated twice. */
  predicate Enabled(s: State, e: Event) {
    match e
    case Advance(p, env) =>
      && p in s.tasks
      && (s.tasks[p].Calling? && s.tasks[p].at.Pinning? ==> IsApprovalId(env.id) && env.id !in s.issued)
    case Crash(p) => p in s.tasks
    case _ => true
  }

  function Next(s: State, e: Event): State
    requires s.worlds != [] && Enabled(s, e)
  {
    match e
    case Turn(world) => s.(worlds := s.worlds + [world])
    case AskResolve(principal, input) =>
      Put(s, s.spawned, Resolving(principal, input, |s.worlds| - 1, Reading)).(spawned := s.spawned + 1)
    case AskCall(principal, tool, raw, threadId, projectId) =>
      Put(s, s.spawned, Calling(principal, tool, raw, threadId, projectId, Starting)).(spawned := s.spawned + 1)
    case Advance(p, env) =>
      if s.tasks[p].Resolving? then Resolve(s, p, s.tasks[p], env) else Proceed(s, p, s.tasks[p], env)
    case Crash(p) => Stop(s, p)
    case Remove(slot) => s.(records := s.records - {slot})
  }

  function Initial(toolbox: map<string, Tool>, world: World): State {
    State(toolbox, [world], map[], [], map[], 0, {}, map[], [], map[], [], map[])
  }

  /** `run` lists the states from an initial one, each reached from the one before by an event. */
  ghost predicate IsRun(run: seq<State>) {
    && run != []
    && (exists toolbox, world :: run[0] == Initial(toolbox, world))
    && forall i {:trigger StepsTo(run, i)} | 1 <= i < |run| :: StepsTo(run, i)
  }

  ghost predicate StepsTo(run: seq<State>, i: nat)
    requires 1 <= i < |run|
  {
    MayFollow(run[i - 1], run[i])
  }

  ghost predicate MayFollow(s: State, s': State) {
    exists e :: Follows(s, e, s')
  }

  ghost predicate Follows(s: State, e: Event, s': State) {
    s.worlds != [] && Enabled(s, e) && s' == Next(s, e)
  }
}
