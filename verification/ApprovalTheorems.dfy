/**
  The approval protocol's promises, for every run: any interleaving of any number of calls and
  decisions, with failures, removals and crashes between any two awaits. What was executed follows
  from the invariant. How stored requests change needs what one event does to the records: most
  steps are quiet, and the others are calls of the store.
*/
module ApprovalTheorems {
  import opened Text
  import opened SystemStore
  import opened Approvals
  import opened ApprovalProtocol
  import opened ApprovalSafety

  /** The executions of one request, by their place in the history. */
  ghost function ExecutionsOf(s: State, id: string): set<int> {
    set i | 0 <= i < |s.executions| && s.executions[i].approval == Some(id)
  }

  /** An approved change runs at most once, and a request is decided at most once. */
  lemma ExecutesAtMostOnce(run: seq<State>, k: nat)
    requires IsRun(run) && k < |run|
    ensures forall id :: |ExecutionsOf(run[k], id)| <= 1
    ensures forall i, j :: 0 <= i < j < |run[k].decisions| ==> run[k].decisions[i].id != run[k].decisions[j].id
  {
    RunKeeps(run, k);
    var s := run[k];
    forall id
      ensures |ExecutionsOf(s, id)| <= 1
    {
      ExecutionsCounted(s, id);
    }
    forall i, j | 0 <= i < j < |s.decisions|
      ensures s.decisions[i].id != s.decisions[j].id
    {
      assert DecisionFits(s, i) && DecisionFits(s, j);
    }
  }

  lemma ExecutionsCounted(s: State, id: string)
    requires Inv(s)
    ensures ExecutionsOf(s, id) == if id in s.executedAt then {s.executedAt[id]} else {}
  {
    hide TaskFits, RecordFits;
    forall i | i in ExecutionsOf(s, id)
      ensures id in s.executedAt && s.executedAt[id] == i
    {
      assert ExecutionFits(s, i);
    }
    if id in s.executedAt {
      assert ExecutedFits(s, id);
      assert s.executedAt[id] in ExecutionsOf(s, id);
    }
  }

  /** What a stored status says about executions, in every reachable or crashed state. */
  lemma StatusTellsExecutions(run: seq<State>, k: nat, slot: string)
    requires IsRun(run) && k < |run| && slot in run[k].records
    ensures var a := run[k].records[slot].value;
            && (a.status in {Pending, Denied, Expired} ==> ExecutionsOf(run[k], a.id) == {})
            && (a.status == Executed ==> |ExecutionsOf(run[k], a.id)| == 1)
  {
    RunKeeps(run, k);
    var s := run[k];
    var a := s.records[slot].value;
    ExecutionsCounted(s, a.id);
    assert RecordFits(s, slot);
    assert a.id in s.executedAt ==> ExecutedFits(s, a.id);
  }

  /**
    Every executed change was requested and approved by one principal, runs the arguments that
    were stored, passed every gate within the approving call, and stands in the audit log as
    requested and then as allowed before it ran.
  */
  lemma ExecutedAsApproved(run: seq<State>, k: nat, i: nat)
    requires IsRun(run) && k < |run| && i < |run[k].executions| && run[k].executions[i].approval.Some?
    ensures var s := run[k]; var x := s.executions[i]; var id := x.approval.value;
            && id in s.requested
            && var request := s.requested[id];
               && x.principal == request.approval.principalId
               && x.tool == request.approval.tool && x.arguments == request.approval.arguments
               && PassedAll(s, x.since, x.confirm, request.approval, x.gates) && x.gates.at < x.worldsSeen
               && request.auditAt < x.allowedAt < x.audited
               && IsAudit(s, request.auditAt, x.principal, x.tool, PendingApproval, id)
               && IsAudit(s, x.allowedAt, x.principal, x.tool, AllowedCall, id)
               && Owns(s, x.task, id)
  {
    RunKeeps(run, k);
    assert ExecutionFits(run[k], i);
    assert RequestedFits(run[k], run[k].executions[i].approval.value);
  }

  /** A tool that changes something is never executed by `run` itself. */
  lemma MutationsNeedApproval(run: seq<State>, k: nat, i: nat)
    requires IsRun(run) && k < |run| && i < |run[k].executions|
    requires run[k].executions[i].tool in run[k].toolbox && run[k].toolbox[run[k].executions[i].tool].mutates
    ensures run[k].executions[i].approval.Some?
  {
    RunKeeps(run, k);
    assert ExecutionFits(run[k], i);
  }

  // ----- The steps are calls of the store -----------------------------------------------------

  /** The write of a decision, as the store's compare-and-set does it. */
  lemma DecideIsCompareAndSet(s: State, p: nat, current: Approval, slot: string, found: Record<Approval>, why: Why)
    requires Inv(s) && Known(s, current) && Known(s, found.value) && found.value.id == current.id
    requires Slot(current.threadId, current.id) == Ok(slot)
    requires Matches(s.records, slot, found.updatedAt, Some(found.value))
    ensures var decided := Decided(found.value, StatusOf(why), OutcomeOf(why), Now(s).clock);
            var call := CompareAndSet(NamespaceOf(current.threadId), current.id, found.updatedAt, decided,
                                      Some(found.value), Now(s).clock);
            Writes(call, s.records) && Decide(s, p, current.id, slot, found, why).records == Apply(call, s.records)
  {
    hide Trim, NamespaceOf, Address;
  }

  /** The write of an outcome, likewise. */
  lemma FinishIsCompareAndSet(s: State, claimed: Approval, slot: string, found: Record<Approval>, ending: Ending)
    requires Inv(s) && Known(s, claimed) && Known(s, found.value) && found.value.id == claimed.id
    requires Slot(claimed.threadId, claimed.id) == Ok(slot)
    requires Matches(s.records, slot, found.updatedAt, Some(found.value))
    ensures var call := CompareAndSet(NamespaceOf(claimed.threadId), claimed.id, found.updatedAt,
                                      Ended(found.value, ending), Some(found.value), Now(s).clock);
            Writes(call, s.records) && Finish(s, slot, found, ending).records == Apply(call, s.records)
  {
    hide Trim, NamespaceOf, Address;
  }

  /** The creation of a request, as the store's set-if-absent does it. */
  lemma CreateIsSetIfAbsent(s: State, a: Approval, slot: string, auditAt: nat)
    requires s.worlds != [] && Slot(a.threadId, a.id) == Ok(slot)
    ensures var call := SetIfAbsent(NamespaceOf(a.threadId), a.id, a, Now(s).clock);
            && (Writes(call, s.records) <==> slot !in s.records)
            && (slot !in s.records ==> Create(s, slot, a, auditAt).records == Apply(call, s.records))
  {
    hide Trim, NamespaceOf, Address;
  }

  // ----- Stored requests change only forward ------------------------------------------------

  /** One event either leaves a stored record alone or moves its status one step forward. */
  ghost predicate Continues(s: State, s': State, slot: string)
    requires slot in s'.records
  {
    var a' := s'.records[slot].value;
    a'.id in s.requested ==>
      && slot in s.records
      && SameRequest(s.records[slot].value, a')
      && (s.records[slot] == s'.records[slot] || Moves(s.records[slot].value.status, a'.status))
  }

  /** Only five kinds of step touch the store or the history; the others move a task and may log. */
  predicate IsQuiet(t: Task) {
    if t.Resolving? then !t.step.DecideWriting? && !t.step.Executing? && !t.step.FinishWriting?
    else !t.at.ReadExecuting? && !t.at.Creating?
  }

  ghost predicate Quietly(s: State, s': State) {
    && s.audit <= s'.audit && s.issued <= s'.issued
    && s' == s.(tasks := s'.tasks, audit := s'.audit, issued := s'.issued)
  }

  lemma QuietlyLogged(s: State, record: AuditRecord, tasks: map<nat, Task>)
    ensures Quietly(s, Log(s, record).(tasks := tasks))
  {
  }

  lemma QuietRefused(s: State, p: nat, t: Task, env: Env)
    requires t.Resolving? && (t.step.RecordingDenial? || t.step.RecordingRefusal? || t.step.RecordingChange?)
    ensures Quietly(s, RecordRefused(s, p, t, env))
  {
    QuietlyLogged(s, AuditOf(t, t.step.current, DeniedCall), RecordRefused(s, p, t, env).tasks);
  }

  lemma QuietApproved(s: State, p: nat, t: Task, env: Env)
    requires t.Resolving? && t.step.RecordingApproval?
    ensures Quietly(s, RecordApproved(s, p, t, env))
  {
    QuietlyLogged(s, AuditOf(t, t.step.current, AllowedCall), RecordApproved(s, p, t, env).tasks);
  }

  lemma QuietEnding(s: State, p: nat, t: Task, env: Env)
    requires t.Resolving? && t.step.RecordingOutcome?
    ensures Quietly(s, RecordEnding(s, p, t, env))
  {
    var decision := if t.step.ending.Ran? then ExecutedCall else FailedCall;
    QuietlyLogged(s, AuditOf(t, t.step.current, decision), RecordEnding(s, p, t, env).tasks);
  }

  lemma QuietReading(s: State, p: nat, t: Task, env: Env)
    requires t.Resolving? && s.worlds != []
    ensures t.step.Reading? ==> Quietly(s, ReadRequest(s, p, t, env))
    ensures t.step.Fingerprinting? ==> Quietly(s, CompareFingerprint(s, p, t, env))
  {
    hide Slot, FingerprintNow;
  }

  lemma QuietDeciding(s: State, p: nat, t: Task, env: Env)
    requires t.Resolving? && t.step.DecideReading?
    ensures Quietly(s, DecideRead(s, p, t, env))
  {
    hide AfterDecide, Slot;
  }

  lemma QuietFinishing(s: State, p: nat, t: Task, env: Env)
    requires t.Resolving? && t.step.FinishReading?
    ensures Quietly(s, FinishRead(s, p, t, env))
  {
    hide Slot, Ended, EndCode;
  }

  lemma QuietResolve(s: State, p: nat, t: Task, env: Env)
    requires t.Resolving? && IsQuiet(t) && s.worlds != []
    ensures Quietly(s, Resolve(s, p, t, env))
  {
    hide Evaluate, RecordRefused, RecordApproved, RecordEnding, ReadRequest, CompareFingerprint, DecideRead, FinishRead,
         DecideWrite, FinishWrite, CallTool;
    match t.step
    case Reading => QuietReading(s, p, t, env);
    case Evaluating(_) =>
    case RecordingDenial(_) => QuietRefused(s, p, t, env);
    case RecordingRefusal(_) => QuietRefused(s, p, t, env);
    case Fingerprinting(_, _) => QuietReading(s, p, t, env);
    case DecideReading(_, _, _) => QuietDeciding(s, p, t, env);
    case RecordingChange(_, _) => QuietRefused(s, p, t, env);
    case RecordingApproval(_, _, _) => QuietApproved(s, p, t, env);
    case RecordingOutcome(_, _, _) => QuietEnding(s, p, t, env);
    case FinishReading(_, _) => QuietFinishing(s, p, t, env);
    case Answered(_) =>
  }

  lemma QuietRecording(s: State, p: nat, t: Task, env: Env)
    requires t.Calling? && (t.at.RecordingRefused? || t.at.RecordingRead?)
    ensures Quietly(s, RecordCall(s, p, t, env))
  {
    var decision := if t.at.RecordingRead? then AllowedCall else t.at.decision;
    QuietlyLogged(s, AuditRecord(t.principal, t.tool, t.raw, decision, None), RecordCall(s, p, t, env).tasks);
  }

  lemma QuietAnnouncing(s: State, p: nat, t: Task, env: Env)
    requires t.Calling? && t.at.Announcing?
    ensures Quietly(s, Announce(s, p, t, env))
  {
    QuietlyLogged(s, AuditRecord(t.principal, t.tool, t.raw, PendingApproval, Some(t.at.approval.id)),
                  Announce(s, p, t, env).tasks);
  }

  lemma QuietListing(s: State, p: nat, t: Task, env: Env)
    requires t.Calling? && t.at.Listing? && s.worlds != []
    ensures Quietly(s, ListWaiting(s, p, t, env))
  {
    hide Waiting;
  }

  lemma QuietPinning(s: State, p: nat, t: Task, env: Env)
    requires t.Calling? && t.at.Pinning? && s.worlds != []
    ensures Quietly(s, Pin(s, p, t, env))
  {
    hide FingerprintNow, NewApproval;
  }

  lemma QuietProceed(s: State, p: nat, t: Task, env: Env)
    requires t.Calling? && IsQuiet(t) && s.worlds != []
    ensures Quietly(s, Proceed(s, p, t, env))
  {
    hide Start, RecordCall, Announce, StoreRequest, ReadTool, ListWaiting, Pin;
    match t.at
    case Starting =>
    case RecordingRefused(_, _, _) => QuietRecording(s, p, t, env);
    case RecordingRead(_) => QuietRecording(s, p, t, env);
    case Listing(_) => QuietListing(s, p, t, env);
    case Pinning(_) => QuietPinning(s, p, t, env);
    case Announcing(_) => QuietAnnouncing(s, p, t, env);
    case Returned(_) =>
  }

  /** A step that writes the store or the history, told by what it leaves apart from where tasks wait. */
  lemma DecideContinues(s: State, p: nat, id: string, slot: string, found: Record<Approval>, why: Why)
    requires s.worlds != [] && slot in s.records && s.records[slot].value == found.value
    requires found.value.status == Pending
    ensures AllContinue(s, Decide(s, p, id, slot, found, why))
  {
  }

  lemma FinishContinues(s: State, slot: string, found: Record<Approval>, ending: Ending)
    requires s.worlds != [] && slot in s.records && s.records[slot].value == found.value
    requires found.value.status == Running
    ensures AllContinue(s, Finish(s, slot, found, ending)) && Grows(s, Finish(s, slot, found, ending))
  {
  }

  /** Which tasks there are makes no difference to the store and the history. */
  lemma TasksAside(s: State, s1: State, s': State)
    requires Grows(s, s1) && AllContinue(s, s1) && s' == s1.(tasks := s'.tasks)
    ensures Grows(s, s') && AllContinue(s, s')
  {
  }

  lemma NothingChanged(s: State)
    ensures Grows(s, s) && AllContinue(s, s)
  {
  }

  /** Apart from where its task waits, the write of a decision changes the record and the history, or nothing. */
  lemma DecideWrites(s: State, p: nat, t: Task, env: Env) returns (s1: State)
    requires t.Resolving? && t.step.DecideWriting? && s.worlds != []
    ensures var slot := Slot(t.step.current.threadId, t.step.current.id);
            || s1 == s
            || (&& slot.Ok? && Matches(s.records, slot.value, t.step.found.updatedAt, Some(t.step.found.value))
                && s1 == Decide(s, p, t.step.current.id, slot.value, t.step.found, t.step.why))
    ensures DecideWrite(s, p, t, env) == s1.(tasks := DecideWrite(s, p, t, env).tasks)
  {
    var current, found, why := t.step.current, t.step.found, t.step.why;
    var slot := Slot(current.threadId, current.id);
    hide Slot, AfterDecide;
    if !env.throws && slot.Ok? && Matches(s.records, slot.value, found.updatedAt, Some(found.value)) {
      s1 := Decide(s, p, current.id, slot.value, found, why);
    } else {
      s1 := s;
    }
    hide Decide, Matches;
  }

  lemma DecidingContinues(s: State, p: nat, t: Task, env: Env)
    requires Inv(s) && TaskFits(s, p, t) && t.Resolving? && t.step.DecideWriting?
    ensures Grows(s, DecideWrite(s, p, t, env)) && AllContinue(s, DecideWrite(s, p, t, env))
  {
    var current, found, why := t.step.current, t.step.found, t.step.why;
    var slot := Slot(current.threadId, current.id);
    assert s.worlds != [] && p < s.spawned && Known(s, current);
    assert found.value.id == current.id && found.value.status == Pending;
    hide Slot, Inv, TaskFits, Decide, DecideWrite, Grows, AllContinue, Known, Seen;
    NothingChanged(s);
    var s1 := DecideWrites(s, p, t, env);
    if s1 != s {
      DecideKeeps(s, p, current, slot.value, found, why);
      DecideContinues(s, p, current.id, slot.value, found, why);
    }
    TasksAside(s, s1, DecideWrite(s, p, t, env));
  }

  lemma ExecutingContinues(s: State, p: nat, t: Task, env: Env)
    requires Inv(s) && TaskFits(s, p, t) && t.Resolving? && t.step.Executing?
    ensures Grows(s, CallTool(s, p, t, env)) && AllContinue(s, CallTool(s, p, t, env))
  {
    assert t.step.current.id !in s.executedAt;
    hide Inv, TaskFits;
  }

  lemma FoundRunning(s: State, p: nat, t: Task)
    requires TaskFits(s, p, t) && t.Resolving? && t.step.FinishWriting?
    ensures t.step.found.value.status == Running
  {
  }

  /** Apart from where its task waits, the write of an outcome changes the record and nothing else. */
  lemma FinishWrites(s: State, p: nat, t: Task, env: Env) returns (s1: State)
    requires t.Resolving? && t.step.FinishWriting? && s.worlds != []
    ensures var slot := Slot(t.step.claimed.threadId, t.step.claimed.id);
            || s1 == s
            || (&& slot.Ok? && Matches(s.records, slot.value, t.step.found.updatedAt, Some(t.step.found.value))
                && s1 == Finish(s, slot.value, t.step.found, t.step.ending))
    ensures FinishWrite(s, p, t, env) == s1.(tasks := FinishWrite(s, p, t, env).tasks)
  {
    hide Slot, Finish, Ended, EndCode;
    var found, slot := t.step.found, Slot(t.step.claimed.threadId, t.step.claimed.id);
    if slot.Ok? && Matches(s.records, slot.value, found.updatedAt, Some(found.value)) && (!env.throws || env.ok) {
      s1 := Finish(s, slot.value, found, t.step.ending);
    } else {
      s1 := s;
    }
  }

  lemma FinishingContinues(s: State, p: nat, t: Task, env: Env)
    requires Inv(s) && TaskFits(s, p, t) && t.Resolving? && t.step.FinishWriting?
    ensures Grows(s, FinishWrite(s, p, t, env)) && AllContinue(s, FinishWrite(s, p, t, env))
  {
    assert s.worlds != [];
    hide Slot, Inv, TaskFits, Finish, FinishWrite, Grows, AllContinue;
    FoundRunning(s, p, t);
    NothingChanged(s);
    var slot := Slot(t.step.claimed.threadId, t.step.claimed.id);
    var s1 := FinishWrites(s, p, t, env);
    if s1 != s {
      FinishContinues(s, slot.value, t.step.found, t.step.ending);
    }
    TasksAside(s, s1, FinishWrite(s, p, t, env));
  }

  lemma CreateContinues(s: State, slot: string, a: Approval, auditAt: nat)
    requires s.worlds != [] && a.id !in s.requested
    ensures AllContinue(s, Create(s, slot, a, auditAt)) && Grows(s, Create(s, slot, a, auditAt))
  {
  }

  lemma CreatingContinues(s: State, p: nat, t: Task, env: Env)
    requires Inv(s) && TaskFits(s, p, t) && t.Calling? && t.at.Creating?
    ensures Grows(s, StoreRequest(s, p, t, env)) && AllContinue(s, StoreRequest(s, p, t, env))
  {
    var s' := StoreRequest(s, p, t, env);
    var slot := Slot(t.at.approval.threadId, t.at.approval.id);
    hide Slot;
    if !env.throws && slot.Ok? && slot.value !in s.records {
      var s1 := Create(s, slot.value, t.at.approval, t.at.auditAt);
      CreateContinues(s, slot.value, t.at.approval, t.at.auditAt);
      assert s' == s1.(tasks := s'.tasks);
      hide Create, Grows, AllContinue, Inv, TaskFits;
      TasksAside(s, s1, s');
    } else {
      NothingChanged(s);
      hide Grows, AllContinue, Inv, TaskFits;
      TasksAside(s, s, s');
    }
  }

  lemma ReadingContinues(s: State, p: nat, t: Task, env: Env)
    requires t.Calling? && t.at.ReadExecuting?
    ensures Grows(s, ReadTool(s, p, t, env)) && AllContinue(s, ReadTool(s, p, t, env))
  {
  }

  lemma LoudProceed(s: State, p: nat, t: Task, env: Env)
    requires Inv(s) && TaskFits(s, p, t) && t.Calling? && !IsQuiet(t)
    ensures Grows(s, Proceed(s, p, t, env)) && AllContinue(s, Proceed(s, p, t, env))
  {
    hide Inv, TaskFits, StoreRequest, ReadTool, RecordCall, ListWaiting, Pin, Announce, Start, Grows, AllContinue;
    if t.at.Creating? {
      CreatingContinues(s, p, t, env);
    } else {
      ReadingContinues(s, p, t, env);
    }
  }

  ghost predicate AllContinue(s: State, s': State) {
    forall slot :: slot in s'.records ==> Continues(s, s', slot)
  }

  lemma ResolveContinues(s: State, p: nat, t: Task, env: Env)
    requires Inv(s) && TaskFits(s, p, t) && t.Resolving?
    ensures Grows(s, Resolve(s, p, t, env)) && AllContinue(s, Resolve(s, p, t, env))
  {
    hide TaskFits, DecideWrite, CallTool, FinishWrite;
    if t.step.DecideWriting? {
      DecidingContinues(s, p, t, env);
      hide Inv, Grows, AllContinue;
    } else if t.step.Executing? {
      ExecutingContinues(s, p, t, env);
      hide Inv, Grows, AllContinue;
    } else if t.step.FinishWriting? {
      FinishingContinues(s, p, t, env);
      hide Inv, Grows, AllContinue;
    } else {
      QuietResolve(s, p, t, env);
      hide Inv, Resolve;
    }
  }

  lemma NextContinues(s: State, e: Event)
    requires Inv(s) && Enabled(s, e)
    ensures Grows(s, Next(s, e)) && AllContinue(s, Next(s, e))
  {
    if e.Advance? {
      var t := s.tasks[e.p];
      assert TaskFits(s, e.p, t);
      hide TaskFits, Proceed, Resolve;
      if t.Resolving? {
        ResolveContinues(s, e.p, t, e.env);
      } else if IsQuiet(t) {
        QuietProceed(s, e.p, t, e.env);
        hide Inv;
      } else {
        LoudProceed(s, e.p, t, e.env);
      }
    }
  }

  /** Nothing that has happened is ever forgotten. */
  lemma {:induction false} RunGrows(run: seq<State>, i: nat, j: nat)
    requires IsRun(run) && i <= j < |run|
    ensures Grows(run[i], run[j])
    decreases j
  {
    if i < j {
      RunGrows(run, i, j - 1);
      var e := EventBefore(run, j);
      NextContinues(run[j - 1], e);
      hide Inv, Enabled, Next;
    }
  }

  /** What a status may become after any number of events. */
  predicate Leads(before: Status, after: Status) {
    before == after || Moves(before, after) || (before == Pending && after in {Executed, Failed})
  }

  /**
    While a request is stored it keeps its id, principal, tool, arguments, target, fingerprint
    and deadline, and its status only moves from pending to running, denied or expired and from
    running to executed or failed. A removed request never comes back.
  */
  lemma {:induction false} StatusMovesForward(run: seq<State>, i: nat, j: nat, slot: string)
    requires IsRun(run) && i <= j < |run| && slot in run[j].records
    requires run[j].records[slot].value.id in run[i].requested
    ensures slot in run[i].records
    ensures SameRequest(run[i].records[slot].value, run[j].records[slot].value)
    ensures Leads(run[i].records[slot].value.status, run[j].records[slot].value.status)
    decreases j
  {
    if i < j {
      var e := EventBefore(run, j);
      NextContinues(run[j - 1], e);
      assert Continues(run[j - 1], run[j], slot);
      RunGrows(run, i, j - 1);
      hide Inv, Enabled, Next;
      StatusMovesForward(run, i, j - 1, slot);
    } else {
      RunKeeps(run, i);
      assert RecordFits(run[i], slot);
    }
  }

  // ----- What callers are told -------------------------------------------------------------

  /**
    A caller who is shown a request as denied or expired can rely on it: the change has not run
    and never will, whatever else is in flight.
  */
  lemma ShownRefusalIsFinal(run: seq<State>, i: nat, j: nat, p: nat)
    requires IsRun(run) && i <= j < |run| && p in run[i].tasks
    requires run[i].tasks[p].Resolving? && run[i].tasks[p].step.Answered?
    requires run[i].tasks[p].step.answer.approval.Some?
    requires run[i].tasks[p].step.answer.approval.value.status in {Denied, Expired}
    ensures ExecutionsOf(run[j], run[i].tasks[p].step.answer.approval.value.id) == {}
  {
    var a := run[i].tasks[p].step.answer.approval.value;
    RunKeeps(run, i);
    RunKeeps(run, j);
    RunGrows(run, i, j);
    assert TaskFits(run[i], p, run[i].tasks[p]);
    assert DecidedAs(run[i], a.id, a.status);
    assert DecidedAs(run[j], a.id, a.status);
    ExecutionsCounted(run[j], a.id);
    assert a.id in run[j].executedAt ==> ExecutedFits(run[j], a.id);
  }
}
