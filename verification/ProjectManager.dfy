/**
  Creating and deleting Projects. Every await of a deletion may fail, or be where the process dies:
  the stored record is all that is left, and the next attempt starts from it.

  Operations do not overlap here. For one Project that is what its lifecycle permit provides; a
  create that overlaps the deletion of its owner is not part of this model.
*/
module ProjectManager {
  import opened Text
  import opened DeletionState

  /** What the surroundings do to an awaited step. */
  datatype Fault = Fine | Fails | Dies

  datatype Deleted = Removed | Absent | Unfinished(participant: string) | ProcessDied

  datatype Created =
    | Provisioned
    | OwnsItself
    | OwnerNotFound
    | OwnerIsOwned
    | OwnerBeingDeleted
    | AlreadyExists
    | StoreFailed

  class ProjectManager {
    var store: map<string, Project>
    /** The cleanup participants, in their order. */
    var configured: seq<string>
    ghost var cleaned: map<string, set<string>>
    ghost var everPlanned: map<string, set<string>>
    ghost var removals: seq<Removal>
    ghost var steady: bool
    /** How often the surroundings have failed an awaited step. */
    ghost var faults: nat

    ghost function Now(): Platform
      reads this
    {
      Platform(store, configured, cleaned, everPlanned, removals, steady)
    }

    constructor (participants: seq<string>)
      requires WellConfigured(participants)
      ensures Sound(Now()) && store == map[] && configured == participants && removals == [] && steady
    {
      store, configured := map[], participants;
      cleaned, everPlanned, removals, steady, faults := map[], map[], [], true, 0;
    }

    /** The Platform starts again over the same store, perhaps with other participants. */
    method Restart(participants: seq<string>)
      requires Sound(Now()) && WellConfigured(participants)
      modifies this`configured, this`steady
      ensures Sound(Now()) && configured == participants && steady == (old(steady) && participants == old(configured))
    {
      ghost var before := Now();
      if participants != configured {
        steady := false;
      }
      configured := participants;
      forall id | id in store
        ensures RecordFits(Now(), id)
      {
        assert RecordFits(before, id);
      }
    }

    // ----- Creating -------------------------------------------------------------------------

    /**
      `create`. The owner has to be stored, unowned and not being deleted, and the id free. What
      is provisioned after the id is claimed does not change whose Project it is.
    */
    method Create(id: string, owner: Option<string>, start: bool) returns (r: Created)
      requires Sound(Now())
      modifies this
      ensures Sound(Now())
      ensures match owner
              case Some(o) =>
                && (r == OwnsItself <==> o == id)
                && (r == OwnerNotFound <==> o != id && o !in old(store))
                && (r == OwnerIsOwned <==> o != id && o in old(store) && old(store)[o].owner.Some?)
                && (r == OwnerBeingDeleted <==>
                      o != id && o in old(store) && old(store)[o].owner.None? && old(store)[o].deletion.Some?)
              case None => r in {Provisioned, AlreadyExists, StoreFailed}
      ensures r == AlreadyExists ==> id in old(store)
      ensures r == Provisioned ==>
                && id !in old(store) && id in store
                && Now() == Claim(old(Now()), Project(id, owner, start, None))
      ensures r == StoreFailed ==>
                || Now() == old(Now())
                || (id !in old(store) && Now() == Claim(old(Now()), Project(id, owner, start, None)))
      ensures r !in {Provisioned, StoreFailed} ==> Now() == old(Now())
    {
      if owner.Some? {
        if owner.value == id {
          return OwnsItself;
        }
        if owner.value !in store {
          return OwnerNotFound;
        }
        if store[owner.value].owner.Some? {
          return OwnerIsOwned;
        }
        if store[owner.value].deletion.Some? {
          return OwnerBeingDeleted;
        }
      }
      var f: Fault := *;
      var reached: bool := *;
      if !f.Fine? && !reached {
        return StoreFailed;
      }
      if id in store {
        return if f.Fine? then AlreadyExists else StoreFailed;
      }
      var project := Project(id, owner, start, None);
      ClaimKeeps(Now(), project);
      store := store[id := project];
      cleaned, everPlanned := cleaned[id := {}], everPlanned[id := {}];
      r := if f.Fine? then Provisioned else StoreFailed;
    }

    // ----- Deleting -------------------------------------------------------------------------

    /** An awaited step of the surroundings. */
    method Await() returns (f: Fault)
      modifies this`faults
      ensures faults == old(faults) + if f.Fine? then 0 else 1
    {
      f := *;
      if !f.Fine? {
        faults := faults + 1;
      }
    }

    /** Writes a record. A write that is not seen to succeed may have reached the store or not. */
    method Write(project: Project) returns (f: Fault)
      requires project.id in everPlanned
      modifies this`store, this`everPlanned, this`faults
      ensures f.Fine? ==> Now() == Put(old(Now()), project)
      ensures Now() == old(Now()) || Now() == Put(old(Now()), project)
      ensures faults == old(faults) + if f.Fine? then 0 else 1
    {
      f := Await();
      var reached: bool := *;
      if f.Fine? || reached {
        store := store[project.id := project];
        everPlanned := everPlanned[project.id := everPlanned[project.id] + PlannedIn(project)];
      }
    }

    /** The write of a deletion state in the middle of an attempt. */
    method WriteState(ghost s0: Platform, project: Project, status: Status, planned: seq<string>,
                      completed: seq<string>, current: Option<string>)
      returns (written: Project, f: Fault)
      requires Ongoing(s0, Now(), project.id, planned, completed) && s0.store[project.id].owner == project.owner
      modifies this`store, this`everPlanned, this`faults
      ensures Ongoing(s0, Now(), project.id, planned, completed)
      ensures Available(old(Now())) && PlanAvailable(planned, completed, configured) ==> Available(Now())
      ensures faults == old(faults) + if f.Fine? then 0 else 1
      ensures written == project.(desiredRunning := false,
                                  deletion := Some(Deletion(status, planned, completed, current)))
      ensures f.Fine? ==> project.id in store && store[project.id] == written
      ensures old(store).Keys <= store.Keys && cleaned == old(cleaned)
      ensures project.id in old(store) ==> store.Keys == old(store).Keys
    {
      written := project.(desiredRunning := false, deletion := Some(Deletion(status, planned, completed, current)));
      OngoingWrites(s0, Now(), planned, completed, written);
      if Available(Now()) && PlanAvailable(planned, completed, configured) {
        PutAvailable(Now(), written);
      }
      hide Ongoing, Available, PlanAvailable;
      f := Write(written);
    }

    /** Removes one Project that `id` owns, in the middle of `id`'s own deletion. */
    method RemoveChild(ghost s0: Platform, id: string, ghost planned: seq<string>, ghost completed: seq<string>,
                       child: string)
      returns (f: Fault)
      requires Ongoing(s0, Now(), id, planned, completed) && id in store
      requires child in store ==> store[child].owner == Some(id)
      modifies this
      decreases 0, 6
      ensures Ongoing(s0, Now(), id, planned, completed) && id in store
      ensures configured == old(configured) && steady == old(steady)
      ensures forall c :: c in store ==> c in old(store) && store[c].owner == old(store)[c].owner
      ensures f.Fine? ==> child !in store
      ensures faults >= old(faults)
      ensures Available(old(Now())) && faults == old(faults) ==> f.Fine? && Available(Now())
    {
      ghost var before := Now();
      ChildOf(before, s0, id, planned, completed, child);
      hide Ongoing, Sound, Family, Available, TouchesOnly;
      var r := DeleteProject(child, 0);
      ChildDeleted(before, Now(), s0, id, planned, completed, child);
      f := if r.Unfinished? then Fails else if r.ProcessDied? then Dies else Fine;
    }

    /**
      The first participant: removes what the Project owns, one after the other. `level` says that
      what is removed here owns nothing itself.
    */
    method CleanOwned(ghost s0: Platform, id: string, ghost planned: seq<string>, ghost completed: seq<string>,
                      ghost level: nat)
      returns (f: Fault)
      requires Ongoing(s0, Now(), id, planned, completed) && id in store && (level == 0 ==> s0.store[id].owner.Some?)
      modifies this
      decreases level, 0
      ensures Ongoing(s0, Now(), id, planned, completed) && id in store && configured == old(configured)
      ensures steady == old(steady)
      ensures f.Fine? ==> NoChildren(Now(), id)
      ensures faults >= old(faults)
      ensures Available(old(Now())) && faults == old(faults) ==> f.Fine? && Available(Now())
    {
      var owned := set c | c in store && store[c].owner == Some(id);
      if c :| c in owned {
        ChildOf(Now(), s0, id, planned, completed, c);
      }
      ghost var any := owned != {};
      hide Ongoing, Sound, Available;
      f := Fine;
      while owned != {}
        invariant any ==> level > 0
        invariant owned != {} ==> any
        invariant Ongoing(s0, Now(), id, planned, completed) && id in store && configured == old(configured)
        invariant steady == old(steady) && f.Fine?
        invariant forall c :: c in store && store[c].owner == Some(id) ==> c in owned
        invariant forall c :: c in owned && c in store ==> store[c].owner == Some(id)
        invariant faults >= old(faults) && (Available(old(Now())) && faults == old(faults) ==> Available(Now()))
        decreases |owned|
      {
        var child :| child in owned;
        owned := owned - {child};
        f := RemoveChild(s0, id, planned, completed, child);
        if !f.Fine? {
          return;
        }
      }
    }

    /** One participant's cleanup. What belongs to the surroundings may fail. */
    method Cleanup(ghost s0: Platform, id: string, ghost planned: seq<string>, ghost completed: seq<string>,
                   participant: string, ghost level: nat)
      returns (f: Fault)
      requires Ongoing(s0, Now(), id, planned, completed) && id in store && (level == 0 ==> s0.store[id].owner.Some?)
      requires steady ==> completed + [participant] <= configured
      modifies this
      decreases level, 1
      ensures Ongoing(s0, Now(), id, planned, if f.Fine? then completed + [participant] else completed)
      ensures id in store && configured == old(configured) && steady == old(steady)
      ensures faults >= old(faults)
      ensures Available(old(Now())) && faults == old(faults) ==> f.Fine? && Available(Now())
    {
      if participant == OWNED_PROJECTS {
        f := CleanOwned(s0, id, planned, completed, level);
      } else {
        f := Await();
      }
      if f.Fine? {
        OngoingCleans(s0, Now(), id, planned, completed, participant);
        assert Available(Now()) ==> Available(CleanedBy(Now(), id, participant));
        hide Ongoing, NoChildren, Available;
        cleaned := cleaned[id := cleaned[id] + {participant}];
      }
    }

    /** The first participant that is planned, not completed and not configured any more. */
    method FindUnavailable(planned: seq<string>, completed: seq<string>) returns (missing: Option<string>)
      ensures missing.None? <==> forall p :: p in planned ==> p in completed || p in configured
      ensures missing.Some? ==> missing.value in planned && missing.value !in completed && missing.value !in configured
    {
      for i := 0 to |planned|
        invariant forall k :: 0 <= k < i ==> planned[k] in completed || planned[k] in configured
      {
        if planned[i] !in completed && planned[i] !in configured {
          return Some(planned[i]);
        }
      }
      missing := None;
    }

    /** One turn of the loop over the participants: recorded before and after. */
    method CleanOne(ghost s0: Platform, start: Project, planned: seq<string>, before: seq<string>, participant: string,
                    ghost level: nat)
      returns (f: Fault, project: Project, completed: seq<string>)
      requires Ongoing(s0, Now(), start.id, planned, before) && start.id in store
      requires s0.store[start.id].owner == start.owner
      requires level == 0 ==> start.owner.Some?
      requires steady ==> before + [participant] <= configured
      modifies this
      decreases level, 2
      ensures project.id == start.id && project.owner == start.owner && start.id in store
      ensures completed == before || completed == before + [participant]
      ensures Ongoing(s0, Now(), start.id, planned, completed)
      ensures configured == old(configured) && steady == old(steady)
      ensures f.Fine? ==> completed == before + [participant]
      ensures faults >= old(faults)
      ensures Available(old(Now())) && PlanAvailable(planned, before, configured) && faults == old(faults)
              ==> f.Fine? && Available(Now())
    {
      hide Ongoing, Available, PlanAvailable;
      completed := before;
      project, f := WriteState(s0, start, Running, planned, completed, Some(participant));
      if !f.Fine? {
        return;
      }
      f := Cleanup(s0, start.id, planned, completed, participant, level);
      if !f.Fine? {
        return;
      }
      if PlanAvailable(planned, completed, configured) {
        PlanStaysAvailable(planned, completed, participant, configured);
      }
      completed := completed + [participant];
      project, f := WriteState(s0, project, Running, planned, completed, None);
    }

    /**
      The cleanups of an attempt, in the configured order. Comes back with what has been completed
      and the participant it got to.
    */
    method CleanUp(ghost s0: Platform, start: Project, planned: seq<string>, before: seq<string>, ghost level: nat)
      returns (f: Fault, project: Project, completed: seq<string>, participant: string)
      requires Ongoing(s0, Now(), start.id, planned, before) && start.id in store
      requires s0.store[start.id].owner == start.owner
      requires level == 0 ==> start.owner.Some?
      modifies this
      decreases level, 3
      ensures project.id == start.id && project.owner == start.owner && start.id in store
      ensures Ongoing(s0, Now(), start.id, planned, completed) && configured == old(configured)
      ensures f.Fine? ==> forall p :: p in before || p in configured ==> p in completed
      ensures faults >= old(faults)
      ensures Available(old(Now())) && PlanAvailable(planned, before, configured) && faults == old(faults)
              ==> f.Fine? && Available(Now())
    {
      hide Ongoing, Available, PlanAvailable;
      project, completed, participant := start, before, "";
      for i := 0 to |configured|
        invariant project.id == start.id && project.owner == start.owner && start.id in store
        invariant Ongoing(s0, Now(), start.id, planned, completed)
        invariant configured == old(configured) && steady == old(steady)
        invariant forall p :: p in before || p in configured[..i] ==> p in completed
        invariant steady ==> i <= |completed|
        invariant faults >= old(faults)
        invariant PlanAvailable(planned, before, configured) ==> PlanAvailable(planned, completed, configured)
        invariant Available(old(Now())) && PlanAvailable(planned, before, configured) && faults == old(faults)
                  ==> Available(Now())
      {
        PrefixGoesOn(s0, Now(), start.id, planned, completed, i);
        if configured[i] in completed {
          continue;
        }
        participant := configured[i];
        if PlanAvailable(planned, completed, configured) {
          PlanStaysAvailable(planned, completed, participant, configured);
        }
        f, project, completed := CleanOne(s0, project, planned, completed, participant, level);
        if !f.Fine? {
          return;
        }
      }
      f := Fine;
    }

    /** Removes the record. The store may also decline, or fail with the record gone or still there. */
    method RemoveRecord(ghost s0: Platform, id: string, ghost planned: seq<string>, ghost completed: seq<string>)
      returns (f: Fault)
      requires Ongoing(s0, Now(), id, planned, completed) && id in store
      requires OWNED_PROJECTS in completed && Elements(planned) <= Elements(completed)
      modifies this`store, this`removals, this`faults
      ensures Ongoing(s0, Now(), id, planned, completed)
      ensures f.Fine? ==> id !in store
      ensures faults == old(faults) + if f.Fine? then 0 else 1
      ensures Available(old(Now())) ==> Available(Now())
    {
      OngoingErases(s0, Now(), id, planned, completed);
      assert Available(Now()) ==> Available(Erase(Now(), id));
      hide Ongoing, Available;
      f := Await();
      var gone: bool := *;
      if gone {
        store := store - {id};
        removals := removals + [Removal(id, everPlanned[id], cleaned[id])];
      } else if f.Fine? {
        f, faults := Fails, faults + 1;
      }
    }

    /** What an attempt does between its first write and its end or first failure. */
    method Attempt(ghost s0: Platform, start: Project, planned: seq<string>, before: seq<string>, ghost level: nat)
      returns (f: Fault, project: Project, completed: seq<string>, participant: string)
      requires Ongoing(s0, Now(), start.id, planned, before) && start.id in store
      requires s0.store[start.id].owner == start.owner
      requires level == 0 ==> start.owner.Some?
      modifies this
      decreases level, 4
      ensures project.id == start.id && project.owner == start.owner
      ensures Ongoing(s0, Now(), start.id, planned, completed)
      ensures f.Fine? ==> start.id !in store
      ensures faults >= old(faults)
      ensures Available(old(Now())) && PlanAvailable(planned, before, configured) && faults == old(faults)
              ==> f.Fine? && Available(Now())
    {
      hide Available, Ongoing;
      project, completed, participant := start, before, "runtime-stop";
      f := Await();
      if !f.Fine? {
        return;
      }
      project, f := WriteState(s0, project, Running, planned, completed, None);
      if !f.Fine? {
        return;
      }
      var missing := FindUnavailable(planned, completed);
      if missing.Some? {
        participant := missing.value;
        f := Fails;
        return;
      }
      OngoingConfigured(s0, Now(), start.id, planned, completed);
      f, project, completed, participant := CleanUp(s0, project, planned, completed, level);
      if !f.Fine? {
        return;
      }
      participant := "project-record";
      f := RemoveRecord(s0, start.id, planned, completed);
    }

    /**
      `deleteProject`. Whatever fails and wherever the process dies, the Platform stays sound and
      only advances: what is stored as completed has been cleaned, planned and completed
      participants never shrink, and a record that goes has everything ever planned for it cleaned.
      When nothing fails and everything planned is configured, the record does go.
    */
    method DeleteProject(id: string, ghost level: nat) returns (r: Deleted)
      requires Sound(Now()) && (level == 0 && id in store ==> store[id].owner.Some?)
      modifies this
      decreases level, 5
      ensures Sound(Now()) && Advances(old(Now()), Now())
      ensures TouchesOnly(old(Now()), Now(), Family(old(Now()), id))
      ensures r.Absent? <==> id !in old(store)
      ensures r.Absent? ==> Now() == old(Now())
      ensures r.Removed? ==> id !in store
      ensures faults >= old(faults)
      ensures Available(old(Now())) && faults == old(faults) ==> id !in store && Available(Now())
      ensures r.Unfinished? || r.ProcessDied? ==> faults > old(faults) || !Available(old(Now()))
    {
      if id !in store {
        NothingAdvances(Now());
        return Absent;
      }
      ghost var s0 := Now();
      OngoingStarts(s0, id);
      var project := store[id];
      assert RecordFits(s0, id);
      if Available(s0) {
        PlanIsAvailable(s0, id);
      }
      hide Available;
      var completed := StoredCompleted(project);
      var planned := Plan(StoredPlan(project), configured);
      var f: Fault;
      project, f := WriteState(s0, project, Running, planned, completed, Some("runtime-stop"));
      if f.Dies? {
        return ProcessDied;
      }
      if f.Fails? {
        return Unfinished("runtime-stop");
      }
      var participant;
      f, project, completed, participant := Attempt(s0, project, planned, completed, level);
      if f.Fine? {
        return Removed;
      }
      if f.Dies? {
        return ProcessDied;
      }
      project, f := WriteState(s0, project, Failed, planned, completed, Some(participant));
      r := if f.Dies? then ProcessDied else Unfinished(participant);
    }
  }

  /** What may happen to a Platform, one after the other. */
  datatype Command =
    | CreateProject(id: string, owner: Option<string>, start: bool)
    | RemoveProject(id: string)
    | StartAgain(participants: seq<string>)

  /** The record of a Project is there at every moment from one to another. */
  ghost predicate Stays(moments: seq<Platform>, i: nat, j: nat, id: string)
    requires i <= j < |moments|
  {
    forall k :: i <= k <= j ==> id in moments[k].store
  }

  /** From each moment to the next, records that stay advance. */
  ghost predicate StepAdvances(moments: seq<Platform>, i: nat)
    requires i + 1 < |moments|
  {
    RecordsAdvance(moments[i], moments[i + 1])
  }

  ghost predicate RecordsAdvance(s: Platform, s': Platform) {
    forall id {:trigger RecordAdvances(s, s', id)} :: RecordAdvances(s, s', id)
  }

  ghost predicate AllAdvance(moments: seq<Platform>) {
    forall i {:trigger StepAdvances(moments, i)} :: 0 <= i < |moments| - 1 ==> StepAdvances(moments, i)
  }

  /** Between any two moments while its record stays, what is planned and completed for a Project only grows. */
  lemma {:induction false} MomentsAdvance(moments: seq<Platform>, i: nat, j: nat, id: string)
    requires AllAdvance(moments) && i <= j < |moments| && Stays(moments, i, j, id)
    ensures RecordAdvances(moments[i], moments[j], id)
    decreases j
  {
    if i < j {
      MomentsAdvance(moments, i, j - 1, id);
      assert StepAdvances(moments, j - 1);
      assert RecordAdvances(moments[j - 1], moments[j - 1 + 1], id);
    }
  }

  /**
    Any sequence of creations, complete or broken-off deletions, and restarts keeps the Platform
    sound at every moment: while a record stays, its planned and completed participants never shrink;
    the history of removals only grows, and says of every record that has gone that everything ever
    planned for it was cleaned.
  */
  method Session(manager: ProjectManager, commands: seq<Command>) returns (ghost moments: seq<Platform>)
    requires Sound(manager.Now())
    requires forall c :: c in commands && c.StartAgain? ==> WellConfigured(c.participants)
    modifies manager
    ensures |moments| == |commands| + 1 && moments[0] == old(manager.Now()) && Last(moments) == manager.Now()
    ensures forall i :: 0 <= i < |moments| ==> Sound(moments[i])
    ensures forall i: nat, j: nat, id {:trigger Stays(moments, i, j, id)} ::
              i <= j < |moments| && Stays(moments, i, j, id) ==> RecordAdvances(moments[i], moments[j], id)
    ensures old(manager.removals) <= manager.removals
    ensures forall id :: id in old(manager.store) && id !in manager.store ==>
              RemovedSince(old(manager.Now()), manager.Now(), id)
  {
    moments := [manager.Now()];
    for i := 0 to |commands|
      invariant |moments| == i + 1 && moments[0] == old(manager.Now()) && moments[i] == manager.Now()
      invariant forall k :: 0 <= k <= i ==> Sound(moments[k])
      invariant AllAdvance(moments)
      invariant old(manager.removals) <= manager.removals
      invariant forall id :: id in old(manager.store) && id !in manager.store ==>
                  RemovedSince(old(manager.Now()), manager.Now(), id)
    {
      ghost var before := manager.Now();
      match commands[i] {
        case CreateProject(id, owner, start) =>
          var r := manager.Create(id, owner, start);
        case RemoveProject(id) =>
          var r := manager.DeleteProject(id, 1);
        case StartAgain(participants) =>
          assert commands[i] in commands;
          manager.Restart(participants);
      }
      assert RecordsAdvance(before, manager.Now());
      RemovalsStay(old(manager.Now()), before, manager.Now());
      moments := OneMoment(moments, manager.Now());
    }
    forall i: nat, j: nat, id | i <= j < |moments| && Stays(moments, i, j, id)
      ensures RecordAdvances(moments[i], moments[j], id)
    {
      MomentsAdvance(moments, i, j, id);
    }
  }

  lemma OneMoment(moments: seq<Platform>, s: Platform) returns (more: seq<Platform>)
    requires moments != [] && AllAdvance(moments) && RecordsAdvance(Last(moments), s)
    ensures more == moments + [s] && AllAdvance(more)
  {
    more := moments + [s];
    forall i | 0 <= i < |more| - 1
      ensures StepAdvances(more, i)
    {
      if i < |moments| - 1 {
        assert StepAdvances(moments, i);
      }
    }
  }

  lemma RemovalsStay(s0: Platform, s: Platform, s': Platform)
    requires s0.removals <= s.removals <= s'.removals
    requires forall id :: id in s0.store && id !in s.store ==> RemovedSince(s0, s, id)
    requires forall id :: id in s.store && id !in s'.store ==> RemovedSince(s, s', id)
    ensures forall id :: id in s0.store && id !in s'.store ==> RemovedSince(s0, s', id)
  {
    forall id | id in s0.store && id !in s'.store
      ensures RemovedSince(s0, s', id)
    {
      if id !in s.store {
        var i :| |s0.removals| <= i < |s.removals| && s.removals[i].id == id;
        assert s'.removals[i].id == id;
      } else {
        var i :| |s.removals| <= i < |s'.removals| && s'.removals[i].id == id;
      }
    }
  }

  lemma OngoingConfigured(s0: Platform, s: Platform, id: string, planned: seq<string>, completed: seq<string>)
    requires Ongoing(s0, s, id, planned, completed)
    ensures OWNED_PROJECTS in s.configured
  {
    assert s.configured[0] in s.configured;
  }

  /** With unchanged participants, what is not completed yet is the next in the order. */
  lemma PrefixGoesOn(s0: Platform, s: Platform, id: string, planned: seq<string>, completed: seq<string>, i: nat)
    requires Ongoing(s0, s, id, planned, completed) && i < |s.configured| && (s.steady ==> i <= |completed|)
    ensures s.steady ==> (if s.configured[i] in completed then i < |completed|
                          else completed + [s.configured[i]] <= s.configured)
  {
    if s.steady {
      if i < |completed| {
        assert completed[i] == s.configured[i];
      } else {
        assert completed == s.configured[..i];
        assert s.configured[..i + 1] == completed + [s.configured[i]];
        assert WellConfigured(s.configured);
      }
    }
  }

  lemma ChildOf(s: Platform, s0: Platform, id: string, planned: seq<string>, completed: seq<string>, child: string)
    requires Ongoing(s0, s, id, planned, completed)
    requires child in s.store ==> s.store[child].owner == Some(id)
    ensures Sound(s)
    ensures child in s.store ==>
              && child != id && child in s0.store && s0.store[child].owner == Some(id) && s0.store[id].owner.None?
              && s.store[child].owner.Some? && Family(s, child) == {child}
  {
    if child in s.store {
      assert RecordFits(s, child) && RecordAdvances(s0, s, child);
      assert id in s.store && RecordAdvances(s0, s, id);
      StoredMayStay(s, child);
    }
  }

  /** After deleting a child, or failing to: the owner's attempt goes on, and the other children are as they were. */
  lemma ChildDeleted(s: Platform, s': Platform, s0: Platform, id: string, planned: seq<string>, completed: seq<string>,
                     child: string)
    requires Ongoing(s0, s, id, planned, completed) && id in s.store
    requires Sound(s') && Advances(s, s')
    requires child !in s.store ==> s' == s
    requires child in s.store ==>
               && child != id && child in s0.store && s0.store[child].owner == Some(id) && s0.store[id].owner.None?
               && TouchesOnly(s, s', {child})
    ensures Ongoing(s0, s', id, planned, completed) && id in s'.store
    ensures forall c :: c in s'.store ==> c in s.store && s'.store[c].owner == s.store[c].owner
  {
    if child in s.store {
      OngoingThroughChild(s0, s, s', id, planned, completed, child);
      assert Untouched(s, s', id);
    }
    hide Ongoing, Sound;
    forall c | c in s'.store
      ensures c in s.store && s'.store[c].owner == s.store[c].owner
    {
      assert RecordAdvances(s, s', c);
    }
  }
}
