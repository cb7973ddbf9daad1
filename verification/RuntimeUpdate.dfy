/**
  Upgrading a Project's recipe or engine under a durable intent. The driver hands over from the
  previous selection to the target one and keeps a journal of what it commits to; the record
  follows. Every await may fail, or be where the process dies.

  Operations hold the Project's lifecycle permit, so they run one after the other. A pass of
  reconciliation takes the permit twice, and other operations may come in between.
*/
module RuntimeUpdate {
  import opened Text

  datatype Recipe = Recipe(name: string, version: string, artifact: Option<string>)

  datatype UpgradeNote = UpgradeNote(from: string, version: string)

  /** What an update replaces as a whole. */
  datatype Selection = Selection(kind: string, recipe: Recipe, history: seq<UpgradeNote>, engine: Option<string>)

  datatype Choice = Previous | Target

  datatype Intent = Intent(previous: Selection, target: Selection, error: bool) {
    function Chosen(choice: Choice): Selection {
      if choice.Previous? then previous else target
    }
  }

  datatype Runtime = Provisioning | Starting | Running | Stopping | Stopped | Failed

  datatype Project = Project(name: string, selection: Selection, desiredRunning: bool, runtime: Runtime,
                             deleting: bool, intent: Option<Intent>)

  datatype Fault = Fine | Fails | Dies

  /**
    What the surroundings do at one await. A write may reach the store although it is not seen to
    succeed. The driver may commit to `choice`, and may go on when it has (`more`).
  */
  datatype Turn = Turn(fault: Fault, reached: bool, commits: bool, choice: Choice, more: bool, runtime: Runtime)

  datatype Result = Done | NotFound | Refused | Errored | ProcessDied

  /** An intent that has been cleared, what the driver had committed to then, and the selection that was left. */
  datatype Settlement = Settlement(intent: Intent, journal: seq<Choice>, selection: Selection)

  /** How far a pass of reconciliation has come: it still has to recover an update, or has seen that there is none. */
  datatype Pass = Idle | Recovering | Ready(wanted: bool)

  /**
    `record` is what is stored. `journal` is the driver's own: what it has durably committed to since
    the intent was stored. The rest is history: whether the record was seen to follow the last
    commit, every intent that was cleared, and of every time that the driver was asked to start the
    runtime whether an intent was stored then.
  */
  datatype State = State(record: Option<Project>, journal: seq<Choice>, pass: Pass,
                         follows: bool, settlements: seq<Settlement>, starts: seq<bool>)

  /** An operation that has come to an end, or to where the process died; turns are used up from the front. */
  datatype Run = Run(s: State, turns: seq<Turn>, r: Result)

  /** What the driver has durably in force. */
  function InForce(journal: seq<Choice>): Choice {
    if journal == [] then Previous else Last(journal)
  }

  /** `assertProjectIsOperable`. */
  predicate Operable(p: Project) {
    !p.deleting && p.intent.None?
  }

  predicate HasIntent(s: State) {
    s.record.Some? && s.record.value.intent.Some?
  }

  // ----- Awaits ----------------------------------------------------------------------------------

  function Ended(f: Fault): Result {
    match f
    case Fine => Done
    case Fails => Errored
    case Dies => ProcessDied
  }

  /** The record is replaced; an intent that this clears is history. */
  function Put(s: State, p: Project): State {
    s.(record := Some(p),
       settlements := if HasIntent(s) && p.intent.None?
                      then s.settlements + [Settlement(s.record.value.intent.value, s.journal, p.selection)]
                      else s.settlements)
  }

  function Write(s: State, p: Project, turns: seq<Turn>): (run: Run)
    ensures s.record.Some? ==> run.s.record.Some?
    ensures run.r.Done? ==> run.s.record == Some(p)
  {
    if turns == [] then Run(s, turns, ProcessDied)
    else Run(if turns[0].fault.Fine? || turns[0].reached then Put(s, p) else s, turns[1..], Ended(turns[0].fault))
  }

  /** The driver, the catalogue or an integration is asked for something. */
  function Ask(s: State, turns: seq<Turn>): Run {
    if turns == [] then Run(s, turns, ProcessDied) else Run(s, turns[1..], Ended(turns[0].fault))
  }

  /** The runtime that the driver reports with its answer. */
  function Snapshot(turns: seq<Turn>): Runtime {
    if turns == [] then Stopped else turns[0].runtime
  }

  // ----- Starting ----------------------------------------------------------------------------------

  function FailStart(s: State, p: Project, turns: seq<Turn>): Run {
    var noted := Write(s, p.(runtime := Failed), turns);
    if noted.r.ProcessDied? then noted else noted.(r := Errored)
  }

  /** The driver prepares and starts the runtime, and what came of it is recorded. */
  function Launch(s: State, p: Project, turns: seq<Turn>): Run {
    var prepared := Ask(s, turns);
    if prepared.r.ProcessDied? then prepared
    else if !prepared.r.Done? then FailStart(s, p, prepared.turns)
    else
      var asked := s.(starts := s.starts + [p.intent.Some?]);
      var started := Ask(asked, prepared.turns);
      if started.r.ProcessDied? then started
      else if !started.r.Done? then FailStart(asked, p, started.turns)
      else
        var noted := Write(asked, p.(runtime := Snapshot(prepared.turns)), started.turns);
        if noted.r.Errored? then FailStart(noted.s, p, noted.turns) else noted
  }

  /** `startLocally`. */
  function StartLocally(s: State, turns: seq<Turn>): Run
    requires s.record.Some?
  {
    var p := s.record.value.(desiredRunning := true, runtime := Starting);
    var noted := Write(s, p, turns);
    if noted.r.Done? then Launch(noted.s, p, noted.turns) else noted
  }

  /** `start`, for a Project that is placed on this node. */
  function Start(s: State, turns: seq<Turn>): Run {
    if s.record.None? then Run(s, turns, NotFound)
    else if !Operable(s.record.value) then Run(s, turns, Refused)
    else StartLocally(s, turns)
  }

  /** `restart`. */
  function Restart(s: State, turns: seq<Turn>): Run {
    if s.record.None? then Run(s, turns, NotFound)
    else if !Operable(s.record.value) then Run(s, turns, Refused)
    else
      var p := s.record.value.(desiredRunning := true, runtime := Stopping);
      var isolated := Ask(s, turns);
      if !isolated.r.Done? then isolated
      else
        var stopping := Write(s, p, isolated.turns);
        if !stopping.r.Done? then stopping
        else
          var stopped := Ask(stopping.s, stopping.turns);
          if !stopped.r.Done? then stopped
          else
            var starting := Write(stopping.s, p.(runtime := Starting), stopped.turns);
            if starting.r.Done? then Launch(starting.s, p.(runtime := Starting), starting.turns) else starting
  }

  /** Whether reconciliation starts a Project. It asks less than an operator's start: not for a finished update. */
  predicate StartsOnReconcile(p: Project, running: bool) {
    !p.deleting && p.desiredRunning && !running
  }

  /** The start that reconciliation makes; `running` is what the driver reports. */
  function ReconcileStart(s: State, running: bool, turns: seq<Turn>): Run {
    if s.record.Some? && StartsOnReconcile(s.record.value, running) then StartLocally(s, turns) else Run(s, turns, Done)
  }

  /** `update`: a new name, and nothing else. */
  function Rename(s: State, name: string, turns: seq<Turn>): Run {
    if s.record.None? then Run(s, turns, NotFound)
    else if !Operable(s.record.value) then Run(s, turns, Refused)
    else Write(s, s.record.value.(name := name), turns)
  }

  // ----- Ending an update ----------------------------------------------------------------------------

  /**
    `recoverProjectUpdate`: the driver says what it has in force, perhaps settling that only now, and
    the record takes it over as the intent is cleared.
  */
  function Recover(s: State, turns: seq<Turn>): Run
    requires s.record.Some?
  {
    var p := s.record.value;
    if p.intent.None? then Run(s, turns, Done)
    else if turns == [] then Run(s, turns, ProcessDied)
    else
      var asked := if turns[0].commits then s.(journal := s.journal + [turns[0].choice], follows := false) else s;
      if !turns[0].fault.Fine? then Run(asked, turns[1..], Ended(turns[0].fault))
      else Write(asked, p.(intent := None, selection := p.intent.value.Chosen(InForce(asked.journal))), turns[1..])
  }

  /** The recovery that reconciliation makes; a deletion is left to go on instead. */
  function ReconcileUpdate(s: State, turns: seq<Turn>): Run {
    if s.record.None? then Run(s, turns, NotFound)
    else if s.record.value.deleting then Run(s, turns, Done)
    else Recover(s, turns)
  }

  /** `stop`: also for a Project with an unfinished update, which it settles. */
  function Stop(s: State, turns: seq<Turn>): Run {
    if s.record.None? then Run(s, turns, NotFound)
    else if s.record.value.deleting then Run(s, turns, Refused)
    else
      var p := s.record.value;
      var noted := Write(s, if p.intent.Some? then p.(desiredRunning := false)
                            else p.(desiredRunning := false, runtime := Stopping), turns);
      if !noted.r.Done? then noted
      else
        var stopped := Ask(noted.s, noted.turns);
        if !stopped.r.Done? then stopped
        else
          var settled := Recover(noted.s, stopped.turns);
          if !settled.r.Done? then settled
          else Write(settled.s, settled.s.record.value.(runtime := Snapshot(noted.turns)), settled.turns)
  }

  /** Deletion begins: from here on it wins over the update, whose intent stays on record. */
  function BeginDeletion(s: State, turns: seq<Turn>): Run {
    if s.record.None? then Run(s, turns, NotFound)
    else Write(s, s.record.value.(deleting := true, desiredRunning := false, runtime := Stopping), turns)
  }

  // ----- Upgrading --------------------------------------------------------------------------------------

  /** The last ten upgrades. */
  function Noted(history: seq<UpgradeNote>, upgrade: UpgradeNote): seq<UpgradeNote> {
    var all := history + [upgrade];
    if |all| > 10 then all[|all| - 10..] else all
  }

  /** The selection an upgrade aims at. */
  function Upgraded(from: Selection, kind: string, recipe: Recipe, engine: Option<string>): Selection {
    Selection(kind, recipe, Noted(from.history, UpgradeNote(from.recipe.name, from.recipe.version)),
              if engine.Some? then engine else from.engine)
  }

  /** What is asked of an upgrade, and what the driver and the catalogue make of it. */
  datatype Request = Request(
    engine: Option<string>,
    supportsLive: bool,
    integration: bool,
    accepted: bool,
    kind: string,
    recipe: Recipe,
    selected: Option<string>,
    executed: Recipe)

  /** An upgrade that was asked for again after it had been interrupted is already done. */
  predicate AlreadyThere(selection: Selection, interrupted: Option<Intent>, engine: Option<string>) {
    && interrupted.Some?
    && selection.recipe.name == interrupted.value.target.recipe.name
    && selection.recipe.version == interrupted.value.target.recipe.version
    && (engine.None? || selection.engine == engine)
  }

  predicate AlreadyRuns(selection: Selection, request: Request) {
    && request.recipe.name == selection.recipe.name && request.recipe.version == selection.recipe.version
    && selection.recipe.artifact.Some?
    && (request.selected.None? || selection.engine == request.selected)
  }

  predicate IsLive(p: Project, request: Request) {
    p.runtime.Running? && request.supportsLive
  }

  predicate MayUpgrade(p: Project, request: Request) {
    && (IsLive(p, request) || p.runtime.Stopped? || p.runtime.Failed?)
    && request.accepted && !AlreadyRuns(p.selection, request)
  }

  /**
    The driver's handover. It commits to either selection, any number of times, and has the record
    follow each time; it ends well only with the target in force.
  */
  function Apply(s: State, p: Project, upgraded: Project, intent: Intent, turns: seq<Turn>): (run: Run)
    ensures s.record.Some? ==> run.s.record.Some?
    decreases |turns|
  {
    if turns == [] then Run(s, turns, ProcessDied)
    else if turns[0].more then
      var committed := s.(journal := s.journal + [turns[0].choice], follows := false);
      var noted := Write(committed, (if turns[0].choice.Target? then upgraded else p).(intent := Some(intent)), turns[1..]);
      if noted.r.ProcessDied? then noted
      else Apply(noted.s.(follows := noted.r.Done?), p, upgraded, intent, noted.turns)
    else if turns[0].fault.Fine? && InForce(s.journal).Previous? then Run(s, turns[1..], Errored)
    else Run(s, turns[1..], Ended(turns[0].fault))
  }

  /** What follows when any of a handover fails. */
  function GiveUp(s: State, intent: Intent, turns: seq<Turn>): Run
    requires s.record.Some?
  {
    var latest := Ask(s, turns);
    if !latest.r.Done? then latest
    else
      var settled := Recover(s, latest.turns);
      if settled.r.Errored? then
        var noted := Write(settled.s, s.record.value.(intent := Some(intent.(error := true))), settled.turns);
        if noted.r.ProcessDied? then noted else noted.(r := Errored)
      else if settled.r.Done? then settled.(r := Errored)
      else settled
  }

  /** The handover under an intent. */
  function HandOver(s: State, p: Project, upgraded: Project, turns: seq<Turn>): Run {
    var intent := Intent(p.selection, upgraded.selection, false);
    var stored := Write(s.(journal := [], follows := true), p.(intent := Some(intent)), turns);
    if !stored.r.Done? then stored
    else
      var applied := Apply(stored.s, p, upgraded, intent, stored.turns);
      if applied.r.ProcessDied? then applied
      else if !applied.r.Done? then GiveUp(applied.s, intent, applied.turns)
      else
        var noted := Write(applied.s, upgraded.(runtime := Snapshot(applied.turns)), applied.turns);
        if noted.r.Errored? then GiveUp(noted.s, intent, noted.turns) else noted
  }

  /** The upgrade of a Project that has no unfinished one. */
  function Replace(s: State, p: Project, request: Request, turns: seq<Turn>): Run {
    if !MayUpgrade(p, request) then Run(s, turns, Refused)
    else
      var prepared := Ask(s, turns);
      if !prepared.r.Done? then prepared
      else if IsLive(p, request) || request.integration then
        HandOver(s, p, p.(selection := Upgraded(p.selection, request.kind, request.executed, request.selected)),
                 prepared.turns)
      else
        Write(s, p.(selection := Upgraded(p.selection, request.kind, request.recipe, request.selected), runtime := Stopped),
              prepared.turns)
  }

  /** `upgrade`. What was interrupted is recovered first. */
  function Upgrade(s: State, request: Request, turns: seq<Turn>): Run {
    if s.record.None? then Run(s, turns, NotFound)
    else if s.record.value.deleting then Run(s, turns, Refused)
    else
      var recovered := Recover(s, turns);
      if !recovered.r.Done? then recovered
      else
        var p := recovered.s.record.value;
        if AlreadyThere(p.selection, s.record.value.intent, request.engine) then recovered
        else Replace(recovered.s, p, request, recovered.turns)
  }

  // ----- What every operation keeps ------------------------------------------------------------------------

  /** While an intent is stored the record holds one of its selections: the committed one, if it was seen to follow. */
  ghost predicate Fits(s: State) {
    HasIntent(s) ==>
      var p := s.record.value;
      && p.selection in {p.intent.value.previous, p.intent.value.target}
      && (s.follows ==> p.selection == p.intent.value.Chosen(InForce(s.journal)))
  }

  /** Whatever cleared an intent left the selection that the driver had in force. */
  ghost predicate Settled(s: State) {
    forall i :: 0 <= i < |s.settlements| ==>
      s.settlements[i].selection == s.settlements[i].intent.Chosen(InForce(s.settlements[i].journal))
  }

  ghost predicate Inv(s: State) {
    Fits(s) && Settled(s)
  }

  /** Selection and intent stand as they were. */
  ghost predicate SameUpdate(s: State, s': State) {
    && s.record.Some? && s'.record.Some?
    && s'.record.value.selection == s.record.value.selection && s'.record.value.intent == s.record.value.intent
    && s'.record.value.deleting == s.record.value.deleting
    && s' == s.(record := s'.record, starts := s'.starts)
  }

  lemma SameKeeps(s: State, s': State)
    requires Inv(s) && SameUpdate(s, s')
    ensures Inv(s')
  {
  }

  lemma WriteSame(s: State, p: Project, turns: seq<Turn>)
    requires s.record.Some? && p.selection == s.record.value.selection && p.intent == s.record.value.intent
    requires p.deleting == s.record.value.deleting
    ensures var run := Write(s, p, turns); SameUpdate(s, run.s) && run.s.starts == s.starts
  {
  }

  /** A start leaves the update alone, and is made at most once. */
  lemma StartKeeps(s: State, turns: seq<Turn>)
    requires s.record.Some?
    ensures var run := StartLocally(s, turns);
            SameUpdate(s, run.s) && run.s.starts in {s.starts, s.starts + [HasIntent(s)]}
  {
    var p := s.record.value.(desiredRunning := true, runtime := Starting);
    var noted := Write(s, p, turns);
    WriteSame(s, p, turns);
    if noted.r.Done? {
      LaunchKeeps(noted.s, p, noted.turns);
    }
    hide Write, Launch;
  }

  lemma FailStartKeeps(s: State, p: Project, turns: seq<Turn>)
    requires s.record.Some? && p.selection == s.record.value.selection && p.intent == s.record.value.intent
    requires p.deleting == s.record.value.deleting
    ensures var run := FailStart(s, p, turns); SameUpdate(s, run.s) && run.s.starts == s.starts
  {
    WriteSame(s, p.(runtime := Failed), turns);
  }

  lemma LaunchKeeps(s: State, p: Project, turns: seq<Turn>)
    requires s.record.Some? && p.selection == s.record.value.selection && p.intent == s.record.value.intent
    requires p.deleting == s.record.value.deleting
    ensures var run := Launch(s, p, turns);
            SameUpdate(s, run.s) && run.s.starts in {s.starts, s.starts + [p.intent.Some?]}
  {
    var prepared := Ask(s, turns);
    if prepared.r.Errored? {
      FailStartKeeps(s, p, prepared.turns);
    } else if prepared.r.Done? {
      var asked := s.(starts := s.starts + [p.intent.Some?]);
      var started := Ask(asked, prepared.turns);
      var noted := Write(asked, p.(runtime := Snapshot(prepared.turns)), started.turns);
      WriteSame(asked, p.(runtime := Snapshot(prepared.turns)), started.turns);
      if started.r.Errored? {
        FailStartKeeps(asked, p, started.turns);
      } else if started.r.Done? && noted.r.Errored? {
        FailStartKeeps(noted.s, p, noted.turns);
      }
    }
    hide Write, FailStart;
  }

  lemma RestartKeeps(s: State, turns: seq<Turn>)
    requires s.record.Some? && Operable(s.record.value)
    ensures var run := Restart(s, turns); SameUpdate(s, run.s) && run.s.starts in {s.starts, s.starts + [false]}
  {
    var p := s.record.value.(desiredRunning := true, runtime := Stopping);
    var isolated := Ask(s, turns);
    var stopping := Write(s, p, isolated.turns);
    WriteSame(s, p, isolated.turns);
    if isolated.r.Done? && stopping.r.Done? {
      var stopped := Ask(stopping.s, stopping.turns);
      var starting := Write(stopping.s, p.(runtime := Starting), stopped.turns);
      WriteSame(stopping.s, p.(runtime := Starting), stopped.turns);
      if stopped.r.Done? && starting.r.Done? {
        LaunchKeeps(starting.s, p.(runtime := Starting), starting.turns);
      }
    }
    hide Write, Launch;
  }

  /** Recovery leaves the record as it was, or takes over what the driver has in force as it clears the intent. */
  lemma RecoverKeeps(s: State, turns: seq<Turn>)
    requires Inv(s) && s.record.Some?
    ensures var run := Recover(s, turns);
            var p := s.record.value;
            && Inv(run.s) && s.settlements <= run.s.settlements && run.s.starts == s.starts && run.s.pass == s.pass
            && (p.intent.None? ==> run == Run(s, turns, Done))
            && !run.r.NotFound? && !run.r.Refused?
            && (run.s.record == s.record
                || (p.intent.Some?
                    && run.s.record
                       == Some(p.(intent := None, selection := p.intent.value.Chosen(InForce(run.s.journal))))))
            && (run.r.Done? ==> run.s.record.value.intent.None?)
            && (run.r.Done? && p.intent.Some? ==>
                  && run.s.settlements != []
                  && Last(run.s.settlements) == Settlement(p.intent.value, run.s.journal, run.s.record.value.selection))
  {
  }

  /** The handover's two selections, whatever else the record says. */
  ghost predicate Holds(s: State, intent: Intent) {
    HasIntent(s) && s.record.value.intent.value.(error := false) == intent
  }

  /**
    The record holds one of the two selections throughout, and the committed one whenever it was seen
    to follow. The driver ends well only with the target in force.
  */
  lemma {:induction false} ApplyKeeps(s: State, p: Project, upgraded: Project, intent: Intent, turns: seq<Turn>)
    requires Inv(s) && HasIntent(s) && s.record.value.intent == Some(intent)
    requires p.selection == intent.previous && upgraded.selection == intent.target
    ensures var run := Apply(s, p, upgraded, intent, turns);
            && Inv(run.s) && HasIntent(run.s) && run.s.record.value.intent == Some(intent)
            && run.s.settlements == s.settlements && run.s.starts == s.starts && run.s.pass == s.pass
            && s.journal <= run.s.journal
            && (run.r.Done? ==> InForce(run.s.journal) == Target) && !run.r.Refused? && !run.r.NotFound?
    decreases |turns|
  {
    if turns != [] && turns[0].more {
      var choice := turns[0].choice;
      var committed := s.(journal := s.journal + [choice], follows := false);
      var noted := Write(committed, (if choice.Target? then upgraded else p).(intent := Some(intent)), turns[1..]);
      if !noted.r.ProcessDied? {
        ApplyKeeps(noted.s.(follows := noted.r.Done?), p, upgraded, intent, noted.turns);
      }
    }
  }

  /** Putting the intent back, with its error, over what a failed recovery may have left. */
  lemma PutBackKeeps(s: State, settled: State, intent: Intent, turns: seq<Turn>)
    requires s.record.Some? && settled.record.Some? && (HasIntent(s) ==> Holds(s, intent)) && !intent.error
    requires s.record.value.selection in {intent.previous, intent.target}
    requires settled.follows ==> s.record.value.selection == intent.Chosen(InForce(settled.journal))
    requires Inv(settled) && (HasIntent(settled) ==> Holds(settled, intent))
    requires settled.record.value.selection in {intent.previous, intent.target}
    ensures var noted := Write(settled, s.record.value.(intent := Some(intent.(error := true))), turns);
            && Inv(noted.s) && noted.s.settlements == settled.settlements && noted.s.starts == settled.starts
            && noted.s.pass == settled.pass && (HasIntent(noted.s) ==> Holds(noted.s, intent))
            && noted.s.record.Some? && noted.s.record.value.selection in {intent.previous, intent.target}
            && !noted.r.NotFound? && !noted.r.Refused?
  {
    hide InForce;
  }

  lemma GiveUpKeeps(s: State, intent: Intent, turns: seq<Turn>)
    requires Inv(s) && s.record.Some? && (HasIntent(s) ==> Holds(s, intent))
    requires s.record.value.selection in {intent.previous, intent.target} && !intent.error
    ensures var run := GiveUp(s, intent, turns);
            && Inv(run.s) && s.settlements <= run.s.settlements && run.s.starts == s.starts && run.s.pass == s.pass
            && (HasIntent(run.s) ==> Holds(run.s, intent))
            && run.s.record.Some? && run.s.record.value.selection in {intent.previous, intent.target}
            && (run.r.Errored? || run.r.ProcessDied?)
  {
    var latest := Ask(s, turns);
    if latest.r.Done? {
      var settled := Recover(s, latest.turns);
      RecoverKeeps(s, latest.turns);
      RecoverFollows(s, latest.turns);
      hide Recover, InForce, Settled, Write;
      if settled.r.Errored? {
        PutBackKeeps(s, settled.s, intent, settled.turns);
      }
    }
  }

  /** What was seen to follow before a recovery and after it was followed by no commit. */
  lemma RecoverFollows(s: State, turns: seq<Turn>)
    requires s.record.Some?
    ensures var run := Recover(s, turns); run.s.follows ==> s.follows && run.s.journal == s.journal
  {
  }

  /** While the intent is stored the record holds one of its two selections; when it is cleared, the one in force. */
  lemma HandOverKeeps(s: State, p: Project, upgraded: Project, turns: seq<Turn>)
    requires Inv(s) && s.record == Some(p) && p.intent.None? && upgraded.intent.None?
    ensures var run := HandOver(s, p, upgraded, turns);
            var intent := Intent(p.selection, upgraded.selection, false);
            && Inv(run.s) && s.settlements <= run.s.settlements && run.s.starts == s.starts && run.s.pass == s.pass
            && (HasIntent(run.s) ==> Holds(run.s, intent))
            && run.s.record.Some? && run.s.record.value.selection in {p.selection, upgraded.selection}
            && run.r in {Done, Errored, ProcessDied}
            && (run.r.Done? ==>
                  && run.s.record.value.intent.None? && run.s.record.value.selection == upgraded.selection
                  && run.s.settlements != []
                  && Last(run.s.settlements) == Settlement(intent, run.s.journal, upgraded.selection)
                  && InForce(run.s.journal) == Target)
  {
    var intent := Intent(p.selection, upgraded.selection, false);
    var stored := Write(s.(journal := [], follows := true), p.(intent := Some(intent)), turns);
    assert Inv(stored.s);
    if stored.r.Done? {
      ApplyKeeps(stored.s, p, upgraded, intent, stored.turns);
      var applied := Apply(stored.s, p, upgraded, intent, stored.turns);
      hide Apply, GiveUp;
      if applied.r.Errored? {
        hide Settled;
        GiveUpKeeps(applied.s, intent, applied.turns);
      } else if applied.r.Done? {
        AppliedKeeps(applied.s, p, upgraded, intent, applied.turns);
        var noted := Write(applied.s, upgraded.(runtime := Snapshot(applied.turns)), applied.turns);
        hide Settled;
        if noted.r.Errored? {
          GiveUpKeeps(noted.s, intent, noted.turns);
        }
      }
    }
    hide Settled, Apply, GiveUp;
  }

  /** What a handover that went well leaves, whether or not it is seen to be written. */
  lemma AppliedKeeps(s: State, p: Project, upgraded: Project, intent: Intent, turns: seq<Turn>)
    requires Inv(s) && HasIntent(s) && s.record.value.intent == Some(intent) && InForce(s.journal) == Target
    requires upgraded.selection == intent.target && upgraded.intent.None?
    ensures var noted := Write(s, upgraded.(runtime := Snapshot(turns)), turns);
            && Inv(noted.s) && s.settlements <= noted.s.settlements
            && noted.s.starts == s.starts && noted.s.pass == s.pass && noted.s.journal == s.journal
            && (noted.s.record == s.record || noted.s.record == Some(upgraded.(runtime := Snapshot(turns))))
            && (noted.r.Done? ==>
                  && noted.s.settlements != []
                  && Last(noted.s.settlements) == Settlement(intent, s.journal, upgraded.selection))
  {
  }

  lemma ReplaceKeeps(s: State, p: Project, request: Request, turns: seq<Turn>)
    requires Inv(s) && s.record == Some(p) && p.intent.None?
    ensures var run := Replace(s, p, request, turns);
            && Inv(run.s) && s.settlements <= run.s.settlements && run.s.starts == s.starts && run.s.pass == s.pass
            && (run.r.Done? ==> run.s.record.Some? && run.s.record.value.intent.None?)
            && (run.r.Done? ==>
                  || run.s.record.value.selection == Upgraded(p.selection, request.kind, request.recipe, request.selected)
                  || (&& run.s.record.value.selection
                         == Upgraded(p.selection, request.kind, request.executed, request.selected)
                      && run.s.settlements != [] && Last(run.s.settlements).intent.previous == p.selection
                      && InForce(Last(run.s.settlements).journal) == Target
                      && Last(run.s.settlements).selection == run.s.record.value.selection))
            && !run.r.NotFound? && (HasIntent(run.s) ==> !run.r.Done? && !run.r.Refused?)
  {
    var prepared := Ask(s, turns);
    hide Upgraded, HandOver;
    HandOverKeeps(s, p, p.(selection := Upgraded(p.selection, request.kind, request.executed, request.selected)),
                  prepared.turns);
  }

  predicate BrokeOff(run: Run) {
    HasIntent(run.s) && (run.r.Errored? || run.r.ProcessDied?)
  }

  /**
    An upgrade that ends well leaves no intent, and either what was there once the interrupted one was
    recovered, if that was the target already, or the upgraded selection, which after a handover is
    what the driver has in force.
  */
  lemma UpgradeKeeps(s: State, request: Request, turns: seq<Turn>)
    requires Inv(s)
    ensures var run := Upgrade(s, request, turns);
            && Inv(run.s) && s.settlements <= run.s.settlements && run.s.starts == s.starts && run.s.pass == s.pass
            && (run.r.NotFound? <==> s.record.None?)
            && (s.record.Some? && s.record.value.deleting ==> run == Run(s, turns, Refused))
            && (HasIntent(run.s) ==> BrokeOff(run) || s.record.value.deleting)
            && (run.r.Done? ==> run.s.record.Some? && UpgradedFrom(s.record.value, request, run.s))
  {
    if s.record.Some? && !s.record.value.deleting {
      var recovered := Recover(s, turns);
      RecoverKeeps(s, turns);
      if recovered.r.Done? {
        ReplaceKeeps(recovered.s, recovered.s.record.value, request, recovered.turns);
        hide Recover, Replace, Inv, Upgraded;
      }
    }
  }

  /** What an upgrade may have made of `p`. */
  ghost predicate UpgradedFrom(p: Project, request: Request, s: State)
    requires s.record.Some?
  {
    var selection := s.record.value.selection;
    exists base: Selection ::
      && (if p.intent.None? then base == p.selection else base in {p.intent.value.previous, p.intent.value.target})
      && (|| (selection == base && AlreadyThere(base, p.intent, request.engine))
          || selection == Upgraded(base, request.kind, request.recipe, request.selected)
          || (&& selection == Upgraded(base, request.kind, request.executed, request.selected)
              && s.settlements != [] && Last(s.settlements).intent.previous == base
              && InForce(Last(s.settlements).journal) == Target && Last(s.settlements).selection == selection))
  }

  /** Stopping settles an unfinished update on what the driver has in force. */
  lemma StopKeeps(s: State, turns: seq<Turn>)
    requires Inv(s)
    ensures var run := Stop(s, turns);
            && Inv(run.s) && s.settlements <= run.s.settlements && run.s.starts == s.starts && run.s.pass == s.pass
            && (HasIntent(run.s) ==> HasIntent(s) && run.s.record.value.intent == s.record.value.intent)
            && (run.r.NotFound? <==> s.record.None?)
            && (run.r.Refused? <==> s.record.Some? && s.record.value.deleting)
            && (run.r.NotFound? || run.r.Refused? ==> run.s == s)
            && (run.r.Done? ==>
                  && run.s.record.Some? && run.s.record.value.intent.None? && !run.s.record.value.desiredRunning
                  && run.s.record.value.selection
                     == (if HasIntent(s) then s.record.value.intent.value.Chosen(InForce(run.s.journal))
                         else s.record.value.selection))
  {
    if s.record.Some? && !s.record.value.deleting {
      var p := s.record.value;
      var p' := if p.intent.Some? then p.(desiredRunning := false) else p.(desiredRunning := false, runtime := Stopping);
      var noted := Write(s, p', turns);
      WriteSame(s, p', turns);
      hide Inv, Recover, InForce;
      SameKeeps(s, noted.s);
      if noted.r.Done? {
        var stopped := Ask(noted.s, noted.turns);
        RecoverKeeps(noted.s, stopped.turns);
        var settled := Recover(noted.s, stopped.turns);
        if stopped.r.Done? && settled.r.Done? {
          var p'' := settled.s.record.value.(runtime := Snapshot(noted.turns));
          WriteSame(settled.s, p'', settled.turns);
          SameKeeps(settled.s, Write(settled.s, p'', settled.turns).s);
        }
      }
    }
  }

  // ----- Runs of all operations ------------------------------------------------------------------------------

  /**
    Operations of operators, and the steps of a pass of reconciliation: it lists the record, recovers
    an update that it has listed, and later starts what it found wanted. Between any two of these steps
    it does not hold the permit.
  */
  datatype Operation =
    | DoRename(name: string) | DoStart | DoRestart | DoStop | DoUpgrade(request: Request) | DoDelete | Erase
    | PassList | PassRecover | PassStart(running: bool) | PassEnd

  datatype Event = Event(op: Operation, turns: seq<Turn>)

  function Perform(s: State, e: Event): Run {
    match e.op
    case DoRename(name) => Rename(s, name, e.turns)
    case DoStart => Start(s, e.turns)
    case DoRestart => Restart(s, e.turns)
    case DoStop => Stop(s, e.turns)
    case DoUpgrade(request) => Upgrade(s, request, e.turns)
    case DoDelete => BeginDeletion(s, e.turns)
    case Erase => Run(if s.record.Some? && s.record.value.deleting then s.(record := None) else s, e.turns, Done)
    case PassList => Ask(s, e.turns)
    case PassRecover => if s.pass.Recovering? then ReconcileUpdate(s, e.turns) else Run(s, e.turns, Done)
    case PassStart(running) =>
      if s.pass == Ready(true) then ReconcileStart(s, running, e.turns) else Run(s, e.turns, Done)
    case PassEnd => Run(s, e.turns, Done)
  }

  /** Where the pass stands after an event; it does not survive the process. */
  function PassAfter(s: State, e: Event, run: Run): Pass {
    if run.r.ProcessDied? then Idle
    else
      match e.op
      case PassList =>
        if !s.pass.Idle? then s.pass
        else if !run.r.Done? || s.record.None? || s.record.value.deleting then Idle
        else if s.record.value.intent.Some? then Recovering
        else Ready(s.record.value.desiredRunning)
      case PassRecover =>
        if !s.pass.Recovering? then s.pass
        else if run.r.Done? && run.s.record.Some? then Ready(run.s.record.value.desiredRunning)
        else Idle
      case PassStart(_) => Idle
      case PassEnd => Idle
      case _ => s.pass
  }

  function Next(s: State, e: Event): State {
    Perform(s, e).s.(pass := PassAfter(s, e, Perform(s, e)))
  }

  function Initial(p: Project): State {
    State(Some(p), [], Idle, true, [], [])
  }

  /** The states from an operable Project on, each after the event before it. */
  ghost predicate IsRun(run: seq<State>, events: seq<Event>) {
    && |run| == |events| + 1
    && (exists p: Project :: p.intent.None? && run[0] == Initial(p))
    && forall i {:trigger StepsTo(run, events, i)} :: 0 <= i < |events| ==> StepsTo(run, events, i)
  }

  ghost predicate StepsTo(run: seq<State>, events: seq<Event>, i: nat)
    requires i < |events| < |run|
  {
    run[i + 1] == Next(run[i], events[i])
  }

  lemma PerformKeeps(s: State, e: Event)
    requires Inv(s)
    ensures Inv(Perform(s, e).s) && s.settlements <= Perform(s, e).s.settlements
    ensures Perform(s, e).s.pass == s.pass
  {
    match e.op {
      case DoRename(name) =>
        if s.record.Some? {
          WriteSame(s, s.record.value.(name := name), e.turns);
        }
      case DoStart =>
        if s.record.Some? {
          StartKeeps(s, e.turns);
        }
        hide StartLocally;
      case DoRestart =>
        if s.record.Some? && Operable(s.record.value) {
          RestartKeeps(s, e.turns);
        }
      case DoStop =>
        StopKeeps(s, e.turns);
        hide Stop;
      case DoUpgrade(request) =>
        UpgradeKeeps(s, request, e.turns);
        hide Upgrade;
      case PassRecover =>
        if s.record.Some? {
          RecoverKeeps(s, e.turns);
        }
        hide Recover;
      case PassStart(running) =>
        if s.record.Some? {
          StartKeeps(s, e.turns);
        }
        hide StartLocally;
      case _ =>
    }
  }

  /**
    At any moment of any run, also where the process dies: while an intent is stored the record holds
    one of its selections, the committed one if it was seen to follow, and every intent that was ever
    cleared left the selection that the driver had in force.
  */
  lemma {:induction false} Session(run: seq<State>, events: seq<Event>, k: nat)
    requires IsRun(run, events) && k < |run|
    ensures Inv(run[k])
  {
    if k > 0 {
      Session(run, events, k - 1);
      PerformKeeps(run[k - 1], events[k - 1]);
      assert StepsTo(run, events, k - 1);
      hide Perform;
    }
  }

  // ----- When reconciliation starts under an unfinished update ----------------------------------------------

  /** An unfinished update of a Project that is not being deleted. */
  predicate Unfinished(s: State) {
    HasIntent(s) && !s.record.value.deleting
  }

  /** An unfinished update was there before, or an upgrade has just broken off. */
  lemma OnlyUpgradesLeaveOne(s: State, e: Event)
    requires Inv(s) && Unfinished(Next(s, e))
    ensures if e.op.DoUpgrade? then BrokeOff(Perform(s, e)) else Unfinished(s)
  {
    match e.op {
      case DoStart =>
        if s.record.Some? {
          StartKeeps(s, e.turns);
        }
        hide StartLocally;
      case DoRestart =>
        if s.record.Some? && Operable(s.record.value) {
          RestartKeeps(s, e.turns);
        }
        hide Restart;
      case DoStop =>
        StopKeeps(s, e.turns);
        hide Stop;
      case DoUpgrade(request) =>
        UpgradeKeeps(s, request, e.turns);
        hide Upgrade;
      case PassRecover =>
        if s.record.Some? {
          RecoverKeeps(s, e.turns);
        }
        hide Recover;
      case PassStart(running) =>
        if s.record.Some? {
          StartKeeps(s, e.turns);
        }
        hide StartLocally;
      case _ =>
    }
  }

  /** The pass comes to its start, finds the Project wanted and not running, and gets as far as asking the driver. */
  predicate AsksDriver(s: State, e: Event) {
    && e.op.PassStart? && s.pass == Ready(true) && s.record.Some? && StartsOnReconcile(s.record.value, e.op.running)
    && |e.turns| >= 2 && e.turns[0].fault.Fine? && e.turns[1].fault.Fine?
  }

  lemma LaunchAsks(s: State, p: Project, turns: seq<Turn>)
    ensures Launch(s, p, turns).s.starts
            == if turns != [] && turns[0].fault.Fine? then s.starts + [p.intent.Some?] else s.starts
  {
  }

  /** Only reconciliation starts under an intent, and exactly when one is stored as it gets to ask the driver. */
  lemma OnlyPassStartsUnderIntent(s: State, e: Event)
    requires Inv(s)
    ensures Next(s, e).starts == s.starts + [true] <==> AsksDriver(s, e) && Unfinished(s)
    ensures Next(s, e).starts in {s.starts, s.starts + [false], s.starts + [true]}
  {
    assert (s.starts + [true])[|s.starts|] && !(s.starts + [false])[|s.starts|] && |s.starts + [true]| > |s.starts|;
    match e.op {
      case DoStart =>
        if s.record.Some? {
          StartKeeps(s, e.turns);
        }
        hide StartLocally;
      case DoRestart =>
        if s.record.Some? && Operable(s.record.value) {
          RestartKeeps(s, e.turns);
        }
        hide Restart;
      case DoStop =>
        StopKeeps(s, e.turns);
        hide Stop;
      case DoUpgrade(request) =>
        UpgradeKeeps(s, request, e.turns);
        hide Upgrade;
      case PassRecover =>
        if s.record.Some? {
          RecoverKeeps(s, e.turns);
        }
        hide Recover;
      case PassStart(running) =>
        if s.record.Some? {
          StartKeeps(s, e.turns);
          var p := s.record.value.(desiredRunning := true, runtime := Starting);
          LaunchAsks(Write(s, p, e.turns).s, p, Write(s, p, e.turns).turns);
        }
        hide Launch;
      case _ =>
    }
  }

  /** From `c` to `k` the pass is past its own look at the record. */
  ghost predicate LookedAt(run: seq<State>, c: nat, k: nat)
    requires c < k < |run|
  {
    !run[c].pass.Ready? && forall j :: c < j <= k ==> run[j].pass.Ready?
  }

  /** An upgrade broke off at `i`, and its update is still unfinished at `k`. */
  ghost predicate LeftUnfinished(run: seq<State>, events: seq<Event>, i: nat, k: nat)
    requires i < k < |run| && |run| == |events| + 1
  {
    events[i].op.DoUpgrade? && BrokeOff(Perform(run[i], events[i])) && forall j :: i < j <= k ==> Unfinished(run[j])
  }

  /** A pass looks: afterwards there is no unfinished update. */
  lemma LookSeesNone(s: State, e: Event)
    requires Inv(s) && !s.pass.Ready? && Next(s, e).pass.Ready?
    ensures !Unfinished(Next(s, e)) && !e.op.DoUpgrade?
  {
    PerformKeeps(s, e);
    if e.op.PassRecover? && s.record.Some? {
      RecoverKeeps(s, e.turns);
      hide Recover;
    }
    hide Inv;
  }

  lemma {:induction false} ReadyHasLooked(run: seq<State>, events: seq<Event>, k: nat) returns (c: nat)
    requires IsRun(run, events) && k < |run| && run[k].pass.Ready?
    ensures c < k && LookedAt(run, c, k) && !Unfinished(run[c + 1])
  {
    if run[k - 1].pass.Ready? {
      c := ReadyHasLooked(run, events, k - 1);
    } else {
      c := k - 1;
      Session(run, events, c);
      assert StepsTo(run, events, c);
      LookSeesNone(run[c], events[c]);
    }
  }

  lemma LeftLonger(run: seq<State>, events: seq<Event>, i: nat, k: nat)
    requires i + 1 <= k < |run| == |events| + 1 && Unfinished(run[k])
    requires if i + 1 == k then events[i].op.DoUpgrade? && BrokeOff(Perform(run[i], events[i]))
             else LeftUnfinished(run, events, i, k - 1)
    ensures LeftUnfinished(run, events, i, k)
  {
    hide Perform, Unfinished, BrokeOff;
  }

  lemma {:induction false} UnfinishedHasOrigin(run: seq<State>, events: seq<Event>, c: nat, k: nat) returns (i: nat)
    requires IsRun(run, events) && c < k < |run| && !Unfinished(run[c]) && Unfinished(run[k])
    ensures c <= i < k && LeftUnfinished(run, events, i, k)
  {
    Session(run, events, k - 1);
    assert |run| == |events| + 1 && run[k] == Next(run[k - 1], events[k - 1]) by {
      assert StepsTo(run, events, k - 1);
    }
    hide IsRun, Inv, Perform, PassAfter, LeftUnfinished, Next, Unfinished, BrokeOff;
    OnlyUpgradesLeaveOne(run[k - 1], events[k - 1]);
    if events[k - 1].op.DoUpgrade? {
      i := k - 1;
    } else {
      i := UnfinishedHasOrigin(run, events, c, k - 1);
    }
    LeftLonger(run, events, i, k);
  }

  /**
    In every run, a start is made under an intent exactly when a pass of reconciliation gets to ask
    the driver and, after the pass's own look at the record, an upgrade broke off and is still unfinished.
  */
  lemma StartsUnderIntentExactly(run: seq<State>, events: seq<Event>, k: nat)
    requires IsRun(run, events) && k < |events|
    ensures run[k + 1].starts == run[k].starts + [true] <==>
              AsksDriver(run[k], events[k])
              && exists c: nat, i: nat :: c < i < k && LookedAt(run, c, k) && LeftUnfinished(run, events, i, k)
  {
    var s, e := run[k], events[k];
    Session(run, events, k);
    assert StepsTo(run, events, k);
    OnlyPassStartsUnderIntent(s, e);
    if AsksDriver(s, e) && Unfinished(s) {
      var c := ReadyHasLooked(run, events, k);
      var i := UnfinishedHasOrigin(run, events, c + 1, k);
      assert c < i < k && LookedAt(run, c, k) && LeftUnfinished(run, events, i, k);
    }
    hide Perform, Inv, IsRun;
  }

  const FINE := Turn(Fine, true, false, Previous, false, Stopped)
  const FAIL := FINE.(fault := Fails)

  const LOOK := Event(PassList, [FINE])
  const START_ANYWAY := Event(PassStart(false), [FINE, FINE])

  function BreakOff(request: Request): Event {
    Event(DoUpgrade(request), [FINE, FINE, FAIL, FAIL])
  }

  lemma UpgradeBreaksOff(s: State, p: Project, request: Request)
    requires Inv(s) && s.record == Some(p) && Operable(p) && MayUpgrade(p, request)
    requires IsLive(p, request) || request.integration
    ensures var s' := Next(s, BreakOff(request));
            && Inv(s') && Unfinished(s') && s'.pass == s.pass && s'.starts == s.starts && s'.journal == []
            && s'.record == Some(p.(intent := Some(Intent(p.selection,
                 Upgraded(p.selection, request.kind, request.executed, request.selected), false))))
  {
    var upgraded := p.(selection := Upgraded(p.selection, request.kind, request.executed, request.selected));
    var turns := [FINE, FINE, FAIL, FAIL];
    assert turns[1..] == [FINE, FAIL, FAIL];
    PerformKeeps(s, BreakOff(request));
    BrokenOff(s, p, upgraded);
    assert Recover(s, turns) == Run(s, turns, Done);
    hide HandOver, Upgraded, Inv, Recover;
    assert Replace(s, p, request, turns) == HandOver(s, p, upgraded, [FINE, FAIL, FAIL]);
  }

  lemma LookIsReady(p: Project)
    requires Operable(p) && p.desiredRunning
    ensures Next(Initial(p), LOOK) == Initial(p).(pass := Ready(true)) && Inv(Next(Initial(p), LOOK))
  {
  }

  lemma RunOfThree(p: Project, e0: Event, e1: Event, e2: Event) returns (run: seq<State>)
    requires p.intent.None?
    ensures |run| == 4 && IsRun(run, [e0, e1, e2]) && run[3] == Next(Next(Next(Initial(p), e0), e1), e2)
  {
    hide Next;
    var s1 := Next(Initial(p), e0);
    var s2 := Next(s1, e1);
    run := [Initial(p), s1, s2, Next(s2, e2)];
    assert StepsTo(run, [e0, e1, e2], 0) && StepsTo(run, [e0, e1, e2], 1) && StepsTo(run, [e0, e1, e2], 2);
  }

  /** Such a run: a handover breaks off between a pass's look and its start, and the pass starts all the same. */
  lemma InterruptedUpgradeIsStarted(p: Project, request: Request)
    requires Operable(p) && p.desiredRunning && MayUpgrade(p, request) && (IsLive(p, request) || request.integration)
    ensures exists run: seq<State> :: IsRun(run, [LOOK, BreakOff(request), START_ANYWAY]) && run[3].starts == [true]
  {
    LookIsReady(p);
    var s1 := Next(Initial(p), LOOK);
    hide Next, Inv, MayUpgrade;
    UpgradeBreaksOff(s1, p, request);
    var s2 := Next(s1, BreakOff(request));
    assert AsksDriver(s2, START_ANYWAY);
    hide AsksDriver;
    OnlyPassStartsUnderIntent(s2, START_ANYWAY);
    var run := RunOfThree(p, LOOK, BreakOff(request), START_ANYWAY);
  }

  lemma BrokenOff(s: State, p: Project, upgraded: Project)
    requires s.record == Some(p) && p.intent.None?
    ensures var run := HandOver(s, p, upgraded, [FINE, FAIL, FAIL]);
            && run.r == Errored && run.s.starts == s.starts && run.s.pass == s.pass && run.s.journal == []
            && run.s.record == Some(p.(intent := Some(Intent(p.selection, upgraded.selection, false))))
  {
    assert [FINE, FAIL, FAIL][1..] == [FAIL, FAIL];
    assert [FAIL, FAIL][1..] == [FAIL];
  }

  // ----- Asking again ---------------------------------------------------------------------------------------

  predicate SameRecipe(a: Selection, b: Selection) {
    a.recipe.name == b.recipe.name && a.recipe.version == b.recipe.version
  }

  /**
    Asking again for an interrupted upgrade ends at once if the driver settled on the target, unless
    another engine is asked for. It also does, wrongly, if the driver settled on the previous
    selection: exactly when the update only changed the engine and no version, or the previous one, is asked for.
  */
  lemma RetryIsDoneExactly(s: State, request: Request, turns: seq<Turn>)
    requires Inv(s) && Unfinished(s) && Recover(s, turns).r.Done?
    ensures var settled := Recover(s, turns);
            var intent := s.record.value.intent.value;
            var ends := Upgrade(s, request, turns) == settled;
            if InForce(settled.s.journal).Target? then
              settled.s.record.value.selection == intent.target
              && (ends <==> request.engine.None? || intent.target.engine == request.engine)
            else
              settled.s.record.value.selection == intent.previous
              && (ends <==> SameRecipe(intent.previous, intent.target)
                            && (request.engine.None? || intent.previous.engine == request.engine))
  {
    var settled := Recover(s, turns);
    RecoverKeeps(s, turns);
    hide Recover, Inv;
    ReplaceIsNot(settled.s, settled.s.record.value, request, settled.turns);
  }

  function Retry(request: Request): Event {
    Event(DoUpgrade(request), [FINE, FINE])
  }

  /**
    Such a run: an upgrade to another engine under the same recipe breaks off before the driver commits
    to anything, and asking for it again is answered as done with the previous engine left.
  */
  lemma RetryCanDoNothing(p: Project, request: Request) returns (run: seq<State>)
    requires Operable(p) && MayUpgrade(p, request) && (IsLive(p, request) || request.integration)
    requires request.engine.None? && request.selected.Some? && request.selected != p.selection.engine
    requires request.executed.name == p.selection.recipe.name && request.executed.version == p.selection.recipe.version
    ensures IsRun(run, [BreakOff(request), Retry(request)]) && |run| == 3
    ensures HasIntent(run[1]) && run[1].record.value.intent.value.target.engine == request.selected
    ensures Perform(run[1], Retry(request)).r == Done && run[2].record == Some(p)
  {
    var s0 := Initial(p);
    var s1, s2 := Next(s0, BreakOff(request)), Next(Next(s0, BreakOff(request)), Retry(request));
    UpgradeBreaksOff(s0, p, request);
    RetryRecovers(s1, p, request);
    hide Next, Perform, Inv, MayUpgrade, Noted;
    run := [s0, s1, s2];
    assert StepsTo(run, [BreakOff(request), Retry(request)], 0) && StepsTo(run, [BreakOff(request), Retry(request)], 1);
  }

  lemma RetryRecovers(s: State, p: Project, request: Request)
    requires Inv(s) && p.intent.None? && !p.deleting && s.journal == []
    requires s.record == Some(p.(intent := Some(Intent(p.selection,
               Upgraded(p.selection, request.kind, request.executed, request.selected), false))))
    requires request.engine.None?
    requires request.executed.name == p.selection.recipe.name && request.executed.version == p.selection.recipe.version
    ensures Perform(s, Retry(request)).r == Done && Next(s, Retry(request)).record == Some(p)
  {
    var turns := [FINE, FINE];
    assert turns[1..] == [FINE];
    hide Noted;
    assert Recover(s, turns).r == Done && Recover(s, turns).s.record == Some(p);
    RetryIsDoneExactly(s, request, turns);
    hide Recover, Inv;
  }

  /** An upgrade that goes on from a settled update does something: it is refused, or uses up an await. */
  lemma ReplaceIsNot(s: State, p: Project, request: Request, turns: seq<Turn>)
    ensures Replace(s, p, request, turns) != Run(s, turns, Done)
  {
    if turns != [] {
      HandOverUses(s, p, p.(selection := Upgraded(p.selection, request.kind, request.executed, request.selected)),
                   turns[1..]);
    }
    hide HandOver, Upgraded;
  }

  lemma {:induction false} ApplyUses(s: State, p: Project, upgraded: Project, intent: Intent, turns: seq<Turn>)
    ensures |Apply(s, p, upgraded, intent, turns).turns| <= |turns|
    decreases |turns|
  {
    if turns != [] && turns[0].more {
      var committed := s.(journal := s.journal + [turns[0].choice], follows := false);
      var noted := Write(committed, (if turns[0].choice.Target? then upgraded else p).(intent := Some(intent)), turns[1..]);
      if !noted.r.ProcessDied? {
        ApplyUses(noted.s.(follows := noted.r.Done?), p, upgraded, intent, noted.turns);
      }
    }
  }

  lemma HandOverUses(s: State, p: Project, upgraded: Project, turns: seq<Turn>)
    ensures |HandOver(s, p, upgraded, turns).turns| <= |turns|
  {
    var intent := Intent(p.selection, upgraded.selection, false);
    var stored := Write(s.(journal := [], follows := true), p.(intent := Some(intent)), turns);
    ApplyUses(stored.s, p, upgraded, intent, stored.turns);
    hide Apply;
  }

  // ----- Histories ------------------------------------------------------------------------------------------

  /** Ten upgrades are remembered, the latest last, however many there were. */
  function History(upgrades: seq<UpgradeNote>): seq<UpgradeNote> {
    if upgrades == [] then [] else Noted(History(Init(upgrades)), Last(upgrades))
  }

  function LastTen(upgrades: seq<UpgradeNote>): seq<UpgradeNote> {
    if |upgrades| <= 10 then upgrades else upgrades[|upgrades| - 10..]
  }

  lemma TailMore<T>(xs: seq<T>, x: T, k: nat)
    requires k <= |xs|
    ensures (xs + [x])[k..] == xs[k..] + [x]
  {
  }

  lemma TailOfTail<T>(xs: seq<T>, j: nat, k: nat)
    requires j + k <= |xs|
    ensures xs[j..][k..] == xs[j + k..]
  {
  }

  lemma LastTenMore(upgrades: seq<UpgradeNote>, upgrade: UpgradeNote)
    ensures Noted(LastTen(upgrades), upgrade) == LastTen(upgrades + [upgrade])
  {
    var n := |upgrades|;
    if n >= 10 {
      TailMore(upgrades, upgrade, n - 9);
      if n > 10 {
        TailMore(upgrades[n - 10..], upgrade, 1);
        TailOfTail(upgrades, n - 10, 1);
      } else {
        TailMore(upgrades, upgrade, 1);
      }
    }
  }

  lemma {:induction false} HistoryIsTheLastTen(upgrades: seq<UpgradeNote>)
    ensures History(upgrades) == LastTen(upgrades)
  {
    if upgrades == [] {
      assert LastTen([]) == [];
    } else {
      hide LastTen, Noted;
      HistoryIsTheLastTen(Init(upgrades));
      LastTenMore(Init(upgrades), Last(upgrades));
      assert upgrades == Init(upgrades) + [Last(upgrades)];
    }
  }

  // ----- The manager ------------------------------------------------------------------------------------------

  /** One Project as its manager operates it; `turns` is what is still going to happen at its awaits. */
  class Updates {
    var s: State
    var turns: seq<Turn>

    ghost predicate Valid()
      reads this
    {
      Inv(s)
    }

    constructor (project: Project, turns: seq<Turn>)
      ensures s == Initial(project) && this.turns == turns && (project.intent.None? ==> Valid())
    {
      s, this.turns := Initial(project), turns;
    }

    method WriteRecord(p: Project) returns (r: Result)
      modifies this
      ensures Run(s, turns, r) == Write(old(s), p, old(turns))
    {
      if turns == [] {
        return ProcessDied;
      }
      var turn := turns[0];
      turns := turns[1..];
      if turn.fault.Fine? || turn.reached {
        s := Put(s, p);
      }
      r := Ended(turn.fault);
    }

    method Await() returns (r: Result)
      modifies this`turns
      ensures Run(s, turns, r) == Ask(s, old(turns))
    {
      if turns == [] {
        return ProcessDied;
      }
      r, turns := Ended(turns[0].fault), turns[1..];
    }

    /** The driver prepares and starts the runtime, and what came of it is recorded. */
    method LaunchRuntime(p: Project) returns (r: Result)
      modifies this
      ensures Run(s, turns, r) == Launch(old(s), p, old(turns))
    {
      r := Await();
      if r.ProcessDied? {
        return;
      }
      if r.Done? {
        var snapshot := Snapshot(turns);
        s := s.(starts := s.starts + [p.intent.Some?]);
        r := Await();
        if r.ProcessDied? {
          return;
        }
        if r.Done? {
          r := WriteRecord(p.(runtime := snapshot));
          if !r.Errored? {
            return;
          }
        }
      }
      r := WriteRecord(p.(runtime := Failed));
      if !r.ProcessDied? {
        r := Errored;
      }
    }

    method StartHere() returns (r: Result)
      requires s.record.Some?
      modifies this
      ensures Run(s, turns, r) == StartLocally(old(s), old(turns))
    {
      var p := s.record.value.(desiredRunning := true, runtime := Starting);
      r := WriteRecord(p);
      if r.Done? {
        r := LaunchRuntime(p);
      }
    }

    /** `start`: what a refusal depends on, and what a start leaves alone. */
    method StartProject() returns (r: Result)
      requires Valid()
      modifies this
      ensures Valid()
      ensures Run(s, turns, r) == Start(old(s), old(turns))
      ensures r.Refused? <==> old(s).record.Some? && !Operable(old(s).record.value)
      ensures r.Refused? ==> s == old(s)
      ensures old(s).record.Some? ==> SameUpdate(old(s), s) && s.starts in {old(s).starts, old(s).starts + [false]}
    {
      if s.record.None? {
        return NotFound;
      }
      if !Operable(s.record.value) {
        return Refused;
      }
      StartKeeps(s, turns);
      StartEnds(s, turns);
      r := StartHere();
    }

    method RestartHere() returns (r: Result)
      requires s.record.Some? && Operable(s.record.value)
      modifies this
      ensures Run(s, turns, r) == Restart(old(s), old(turns))
    {
      var p := s.record.value.(desiredRunning := true, runtime := Stopping);
      r := Await();
      if !r.Done? {
        return;
      }
      r := WriteRecord(p);
      if !r.Done? {
        return;
      }
      r := Await();
      if !r.Done? {
        return;
      }
      r := WriteRecord(p.(runtime := Starting));
      if r.Done? {
        r := LaunchRuntime(p.(runtime := Starting));
      }
    }

    method RestartProject() returns (r: Result)
      requires Valid()
      modifies this
      ensures Valid()
      ensures Run(s, turns, r) == Restart(old(s), old(turns))
      ensures r.Refused? <==> old(s).record.Some? && !Operable(old(s).record.value)
      ensures r.Refused? ==> s == old(s)
      ensures old(s).record.Some? ==> SameUpdate(old(s), s) && s.starts in {old(s).starts, old(s).starts + [false]}
    {
      if s.record.None? {
        return NotFound;
      }
      if !Operable(s.record.value) {
        return Refused;
      }
      RestartKeeps(s, turns);
      RestartEnds(s, turns);
      SameKeeps(s, Restart(s, turns).s);
      hide Restart, Inv, SameUpdate;
      r := RestartHere();
    }

    method RenameProject(name: string) returns (r: Result)
      requires Valid()
      modifies this
      ensures Valid()
      ensures Run(s, turns, r) == Rename(old(s), name, old(turns))
      ensures r.Refused? <==> old(s).record.Some? && !Operable(old(s).record.value)
      ensures r.Refused? ==> s == old(s)
      ensures r.Done? ==> s == old(s).(record := Some(old(s).record.value.(name := name)))
    {
      if s.record.None? {
        return NotFound;
      }
      if !Operable(s.record.value) {
        return Refused;
      }
      r := WriteRecord(s.record.value.(name := name));
    }

    /** `recoverProjectUpdate`: the driver may settle only now, and says what it has in force. */
    method RecoverUpdate() returns (r: Result)
      requires Valid() && s.record.Some?
      modifies this
      ensures Valid() && s.record.Some?
      ensures Run(s, turns, r) == Recover(old(s), old(turns))
      ensures r.Done? && HasIntent(old(s)) ==>
                var p := old(s).record.value;
                s.record == Some(p.(intent := None, selection := p.intent.value.Chosen(InForce(s.journal))))
    {
      RecoverKeeps(s, turns);
      var p := s.record.value;
      if p.intent.None? {
        return Done;
      }
      if turns == [] {
        return ProcessDied;
      }
      var turn := turns[0];
      turns := turns[1..];
      if turn.commits {
        s := s.(journal := s.journal + [turn.choice], follows := false);
      }
      if !turn.fault.Fine? {
        return Ended(turn.fault);
      }
      var choice := InForce(s.journal);
      r := WriteRecord(p.(intent := None, selection := p.intent.value.Chosen(choice)));
    }

    method StopProject() returns (r: Result)
      requires Valid()
      modifies this
      ensures Valid()
      ensures Run(s, turns, r) == Stop(old(s), old(turns))
      ensures r.Refused? <==> old(s).record.Some? && old(s).record.value.deleting
      ensures r.Done? ==>
                && s.record.Some? && s.record.value.intent.None? && !s.record.value.desiredRunning
                && s.record.value.selection
                   == (if HasIntent(old(s)) then old(s).record.value.intent.value.Chosen(InForce(s.journal))
                       else old(s).record.value.selection)
    {
      StopKeeps(s, turns);
      if s.record.None? {
        return NotFound;
      }
      if s.record.value.deleting {
        return Refused;
      }
      var p := s.record.value;
      r := WriteRecord(if p.intent.Some? then p.(desiredRunning := false)
                       else p.(desiredRunning := false, runtime := Stopping));
      if !r.Done? {
        return;
      }
      var stopped := Snapshot(turns);
      r := Await();
      if !r.Done? {
        return;
      }
      r := RecoverUpdate();
      if r.Done? {
        r := WriteRecord(s.record.value.(runtime := stopped));
      }
    }

    /** The driver's handover, commit by commit. */
    method ApplyUpdate(p: Project, upgraded: Project, intent: Intent) returns (r: Result)
      requires Valid() && HasIntent(s) && s.record.value.intent == Some(intent)
      requires p.selection == intent.previous && upgraded.selection == intent.target
      modifies this
      ensures Valid() && HasIntent(s) && s.record.value.intent == Some(intent)
      ensures Run(s, turns, r) == Apply(old(s), p, upgraded, intent, old(turns))
      ensures old(s).journal <= s.journal && (r.Done? ==> InForce(s.journal) == Target)
    {
      ApplyKeeps(s, p, upgraded, intent, turns);
      while turns != [] && turns[0].more
        invariant Apply(s, p, upgraded, intent, turns) == Apply(old(s), p, upgraded, intent, old(turns))
        decreases |turns|
      {
        var choice := turns[0].choice;
        s, turns := s.(journal := s.journal + [choice], follows := false), turns[1..];
        r := WriteRecord((if choice.Target? then upgraded else p).(intent := Some(intent)));
        if r.ProcessDied? {
          return;
        }
        s := s.(follows := r.Done?);
      }
      r := Await();
      if r.Done? && InForce(s.journal).Previous? {
        r := Errored;
      }
    }

    method GiveUpUpdate(intent: Intent) returns (r: Result)
      requires Valid() && s.record.Some?
      modifies this
      ensures Run(s, turns, r) == GiveUp(old(s), intent, old(turns))
    {
      r := Await();
      if !r.Done? {
        return;
      }
      var latest := s.record.value;
      r := RecoverUpdate();
      if r.ProcessDied? {
        return;
      }
      if r.Errored? {
        r := WriteRecord(latest.(intent := Some(intent.(error := true))));
        if r.ProcessDied? {
          return;
        }
      }
      r := Errored;
    }

    /** The handover under an intent, and what follows when any of it fails. */
    method HandOverUpdate(p: Project, upgraded: Project) returns (r: Result)
      requires Valid() && s.record == Some(p) && p.intent.None? && upgraded.intent.None?
      modifies this
      ensures Valid()
      ensures Run(s, turns, r) == HandOver(old(s), p, upgraded, old(turns))
      ensures s.record.Some? && s.record.value.selection in {p.selection, upgraded.selection}
      ensures r.Done? ==>
                && s.record.value.intent.None? && s.record.value.selection == upgraded.selection
                && InForce(s.journal) == Target
    {
      HandOverKeeps(s, p, upgraded, turns);
      var intent := Intent(p.selection, upgraded.selection, false);
      s := s.(journal := [], follows := true);
      r := WriteRecord(p.(intent := Some(intent)));
      if !r.Done? {
        return;
      }
      r := ApplyUpdate(p, upgraded, intent);
      if r.ProcessDied? {
        return;
      }
      if r.Done? {
        r := WriteRecord(upgraded.(runtime := Snapshot(turns)));
        if !r.Errored? {
          return;
        }
      }
      r := GiveUpUpdate(intent);
    }

    /** `upgrade`. */
    method UpgradeProject(request: Request) returns (r: Result)
      requires Valid()
      modifies this
      ensures Valid() && old(s).settlements <= s.settlements
      ensures Run(s, turns, r) == Upgrade(old(s), request, old(turns))
      ensures old(s).record.Some? && old(s).record.value.deleting ==> r.Refused? && s == old(s)
      ensures r.Done? ==> s.record.Some? && s.record.value.intent.None? && UpgradedFrom(old(s).record.value, request, s)
    {
      UpgradeKeeps(s, request, turns);
      if s.record.None? {
        return NotFound;
      }
      if s.record.value.deleting {
        return Refused;
      }
      var interrupted := s.record.value.intent;
      r := RecoverUpdate();
      if !r.Done? {
        return;
      }
      var p := s.record.value;
      if AlreadyThere(p.selection, interrupted, request.engine) {
        return;
      }
      if !MayUpgrade(p, request) {
        return Refused;
      }
      r := Await();
      if !r.Done? {
        return;
      }
      if IsLive(p, request) || request.integration {
        r := HandOverUpdate(p, p.(
          selection := Upgraded(p.selection, request.kind, request.executed, request.selected)));
      } else {
        r := WriteRecord(p.(
          selection := Upgraded(p.selection, request.kind, request.recipe, request.selected), runtime := Stopped));
      }
    }

    method ReconcileUpdateNow() returns (r: Result)
      requires Valid()
      modifies this
      ensures Valid()
      ensures Run(s, turns, r) == ReconcileUpdate(old(s), old(turns))
      ensures r.Done? ==> s.record.Some? && !Unfinished(s)
    {
      if s.record.None? {
        return NotFound;
      }
      if s.record.value.deleting {
        return Done;
      }
      r := RecoverUpdate();
    }

    method ReconcileStartNow(running: bool) returns (r: Result)
      requires Valid()
      modifies this
      ensures Valid()
      ensures Run(s, turns, r) == ReconcileStart(old(s), running, old(turns))
      ensures old(s).record.Some? ==>
                SameUpdate(old(s), s) && s.starts in {old(s).starts, old(s).starts + [HasIntent(old(s))]}
      ensures s.starts != old(s).starts ==> old(s).record.Some? && StartsOnReconcile(old(s).record.value, running)
    {
      if s.record.Some? {
        StartKeeps(s, turns);
      }
      if s.record.None? || s.record.value.deleting || !s.record.value.desiredRunning || running {
        return Done;
      }
      r := StartHere();
    }

    method BeginDeletionNow() returns (r: Result)
      requires Valid()
      modifies this
      ensures Valid()
      ensures Run(s, turns, r) == BeginDeletion(old(s), old(turns))
      ensures r.Done? ==> s.record.Some? && s.record.value.deleting && s.record.value.intent == old(s).record.value.intent
    {
      if s.record.None? {
        return NotFound;
      }
      r := WriteRecord(s.record.value.(deleting := true, desiredRunning := false, runtime := Stopping));
    }
  }

  lemma RestartEnds(s: State, turns: seq<Turn>)
    requires s.record.Some? && Operable(s.record.value)
    ensures Restart(s, turns).r in {Done, Errored, ProcessDied}
  {
    hide Put;
  }

  lemma StartEnds(s: State, turns: seq<Turn>)
    requires s.record.Some?
    ensures StartLocally(s, turns).r in {Done, Errored, ProcessDied}
  {
  }
}
