/**
  What the Platform keeps about its Projects while they are owned and deleted: the stored
  records, and the history that says what a deletion has really cleaned.

  A deletion is resumable. It may fail, or the process may die, after any step; the next attempt
  goes on from the record, possibly with other cleanup participants configured.
*/
module DeletionState {
  import opened Text

  const OWNED_PROJECTS := "owned-projects"
  const RUNTIME_DATA := "runtime-data"

  datatype Status = Running | Failed

  datatype Deletion = Deletion(status: Status, participants: seq<string>, completed: seq<string>,
                               current: Option<string>)

  datatype Project = Project(id: string, owner: Option<string>, desiredRunning: bool, deletion: Option<Deletion>)

  /** A record that has disappeared: what had been planned for it, and what had been cleaned. */
  datatype Removal = Removal(id: string, planned: set<string>, cleaned: set<string>)

  /** From `cleaned` on this is history. `steady` says that the participants have not changed so far. */
  datatype Platform = Platform(
    store: map<string, Project>,
    configured: seq<string>,
    cleaned: map<string, set<string>>,
    everPlanned: map<string, set<string>>,
    removals: seq<Removal>,
    steady: bool)

  function Elements(xs: seq<string>): set<string> {
    set x | x in xs
  }

  predicate Distinct(xs: seq<string>) {
    forall i, j :: 0 <= i < j < |xs| ==> xs[i] != xs[j]
  }

  /** Owned Projects are cleaned up first and runtime data last; duplicates are refused. */
  predicate WellConfigured(ids: seq<string>) {
    |ids| >= 2 && ids[0] == OWNED_PROJECTS && Last(ids) == RUNTIME_DATA && Distinct(ids)
  }

  // ----- The plan of an attempt --------------------------------------------------------

  function Without(xs: seq<string>, x: string): seq<string> {
    if xs == [] then []
    else if Last(xs) == x then Without(Init(xs), x)
    else Without(Init(xs), x) + [Last(xs)]
  }

  /** `[...new Set(xs)]`. */
  function Dedupe(xs: seq<string>): seq<string> {
    if xs == [] then []
    else
      var before := Dedupe(Init(xs));
      if Last(xs) in before then before else before + [Last(xs)]
  }

  /** Everything planned before, then everything configured now, runtime data last. */
  function Plan(stored: seq<string>, configured: seq<string>): seq<string> {
    Dedupe(Without(stored, RUNTIME_DATA) + Without(configured, RUNTIME_DATA)) + [RUNTIME_DATA]
  }

  lemma {:induction false} WithoutElements(xs: seq<string>, x: string)
    ensures forall y :: y in Without(xs, x) <==> y in xs && y != x
  {
    if xs != [] {
      WithoutElements(Init(xs), x);
      assert xs == Init(xs) + [Last(xs)];
    }
  }

  lemma {:induction false} DedupeElements(xs: seq<string>)
    ensures forall y :: y in Dedupe(xs) <==> y in xs
    ensures Distinct(Dedupe(xs))
  {
    if xs != [] {
      DedupeElements(Init(xs));
      assert xs == Init(xs) + [Last(xs)];
    }
  }

  lemma DistinctLast(xs: seq<string>)
    requires xs != [] && Distinct(xs)
    ensures Distinct(Init(xs)) && Last(xs) !in Init(xs) && xs == Init(xs) + [Last(xs)]
  {
    forall i | 0 <= i < |xs| - 1
      ensures Init(xs)[i] != Last(xs)
    {
      assert xs[i] != xs[|xs| - 1];
    }
  }

  lemma {:induction false} DedupeDistinct(xs: seq<string>)
    requires Distinct(xs)
    ensures Dedupe(xs) == xs
  {
    if xs != [] {
      DistinctLast(xs);
      hide Distinct;
      DedupeDistinct(Init(xs));
    }
  }

  lemma {:induction false} DedupeTwice(xs: seq<string>, ys: seq<string>)
    requires Distinct(xs) && forall y :: y in ys ==> y in xs
    ensures Dedupe(xs + ys) == xs
  {
    if ys == [] {
      assert xs + ys == xs;
      DedupeDistinct(xs);
    } else {
      assert Init(xs + ys) == xs + Init(ys);
      assert ys == Init(ys) + [Last(ys)];
      DedupeTwice(xs, Init(ys));
    }
  }

  lemma {:induction false} WithoutAbsent(xs: seq<string>, x: string)
    requires x !in xs
    ensures Without(xs, x) == xs
  {
    if xs != [] {
      assert xs == Init(xs) + [Last(xs)];
      WithoutAbsent(Init(xs), x);
    }
  }

  /** A plan keeps everything that was planned and adds everything that is configured; runtime data is once and last. */
  lemma PlanCovers(stored: seq<string>, configured: seq<string>)
    ensures Elements(Plan(stored, configured)) == Elements(stored) + Elements(configured) + {RUNTIME_DATA}
    ensures Distinct(Plan(stored, configured)) && Last(Plan(stored, configured)) == RUNTIME_DATA
  {
    var rest := Without(stored, RUNTIME_DATA) + Without(configured, RUNTIME_DATA);
    WithoutElements(stored, RUNTIME_DATA);
    WithoutElements(configured, RUNTIME_DATA);
    DedupeElements(rest);
    assert RUNTIME_DATA !in Dedupe(rest);
  }

  /** With unchanged participants the plan is their order. */
  lemma PlanIsConfigured(stored: seq<string>, configured: seq<string>)
    requires WellConfigured(configured) && (stored == [] || stored == configured)
    ensures Plan(stored, configured) == configured
  {
    var most := Init(configured);
    assert configured == most + [RUNTIME_DATA];
    assert RUNTIME_DATA !in most;
    assert Without(configured, RUNTIME_DATA) == most by {
      WithoutAbsent(most, RUNTIME_DATA);
    }
    if stored == [] {
      assert [] + most == most;
      DedupeDistinct(most);
    } else {
      DedupeTwice(most, most);
    }
  }

  function PlannedIn(p: Project): set<string> {
    if p.deletion.Some? then Elements(p.deletion.value.participants) else {}
  }

  function CompletedIn(p: Project): set<string> {
    if p.deletion.Some? then Elements(p.deletion.value.completed) else {}
  }

  // ----- What holds of the whole Platform ---------------------------------------------------

  ghost predicate NoChildren(s: Platform, id: string) {
    forall c :: c in s.store ==> s.store[c].owner != Some(id)
  }

  /** The owner of an owned Project is stored, and is itself unowned. */
  ghost predicate OwnerFits(s: Platform, p: Project) {
    p.owner.Some? ==> p.owner.value in s.store && s.store[p.owner.value].owner.None?
  }

  /** A stored deletion state tells the truth. */
  ghost predicate DeletionFits(s: Platform, id: string, d: Deletion)
    requires id in s.cleaned && id in s.everPlanned
  {
    && Elements(d.completed) <= s.cleaned[id]
    && s.everPlanned[id] <= Elements(d.participants)
    && (OWNED_PROJECTS in d.completed ==> NoChildren(s, id))
    && (s.steady ==> d.participants == s.configured && d.completed <= s.configured)
  }

  ghost predicate RecordFits(s: Platform, id: string)
    requires id in s.store
  {
    var p := s.store[id];
    && p.id == id && id in s.cleaned && id in s.everPlanned
    && OwnerFits(s, p)
    && match p.deletion
       case None => s.everPlanned[id] == {}
       case Some(d) => DeletionFits(s, id, d)
  }

  ghost predicate Sound(s: Platform) {
    && WellConfigured(s.configured)
    && (forall id {:trigger RecordFits(s, id)} :: id in s.store ==> RecordFits(s, id))
    && (forall i :: 0 <= i < |s.removals| ==> s.removals[i].planned <= s.removals[i].cleaned)
  }

  /** While the participants stay the same they complete in order, so runtime data goes last. */
  lemma RuntimeDataGoesLast(s: Platform, id: string)
    requires Sound(s) && s.steady && id in s.store && s.store[id].deletion.Some?
    ensures var completed := s.store[id].deletion.value.completed;
            && completed <= s.configured
            && (RUNTIME_DATA in completed ==> completed == s.configured)
            && forall i, j {:trigger s.configured[i], s.configured[j]} :: 0 <= i < j < |s.configured| ==>
                 s.configured[j] in completed ==> s.configured[i] in completed
  {
    assert RecordFits(s, id);
    var completed := s.store[id].deletion.value.completed;
    assert completed == s.configured[..|completed|];
    forall j | 0 <= j < |s.configured| && s.configured[j] in completed
      ensures j < |completed|
    {
      var k :| 0 <= k < |completed| && completed[k] == s.configured[j];
    }
  }

  /** A Project that has been cleared of what it owns has nothing left that names it as its owner. */
  lemma ClearedOwnsNothing(s: Platform, id: string)
    requires Sound(s) && id in s.store
    ensures OWNED_PROJECTS in CompletedIn(s.store[id]) ==> forall c :: c in s.store ==> s.store[c].owner != Some(id)
    ensures id in s.cleaned && CompletedIn(s.store[id]) <= s.cleaned[id]
    ensures id in s.everPlanned && s.everPlanned[id] <= PlannedIn(s.store[id])
    ensures s.store[id].owner.Some? ==>
              s.store[id].owner.value in s.store && s.store[s.store[id].owner.value].owner.None?
  {
    assert RecordFits(s, id);
  }

  // ----- Steps ------------------------------------------------------------------------------

  /** A record is written. */
  function Put(s: Platform, p: Project): Platform
    requires p.id in s.everPlanned
  {
    s.(store := s.store[p.id := p], everPlanned := s.everPlanned[p.id := s.everPlanned[p.id] + PlannedIn(p)])
  }

  /** A participant's cleanup has come to its end. */
  function CleanedBy(s: Platform, id: string, participant: string): Platform
    requires id in s.cleaned
  {
    s.(cleaned := s.cleaned[id := s.cleaned[id] + {participant}])
  }

  /** A record disappears. */
  function Erase(s: Platform, id: string): Platform
    requires id in s.cleaned && id in s.everPlanned
  {
    s.(store := s.store - {id}, removals := s.removals + [Removal(id, s.everPlanned[id], s.cleaned[id])])
  }

  /** An id is claimed by a new Project. */
  function Claim(s: Platform, p: Project): Platform {
    s.(store := s.store[p.id := p], cleaned := s.cleaned[p.id := {}], everPlanned := s.everPlanned[p.id := {}])
  }

  /** The owner, if there is one, has not been cleared of what it owns. */
  ghost predicate MayStay(s: Platform, p: Project) {
    p.owner.Some? ==>
      p.owner.value in s.store && s.store[p.owner.value].owner.None? && p.owner.value != p.id
      && OWNED_PROJECTS !in CompletedIn(s.store[p.owner.value])
  }

  /** Writing a deletion state that tells the truth, for a Project that is stored or was just erased. */
  lemma PutKeeps(s: Platform, p: Project)
    requires Sound(s) && p.id in s.cleaned && p.id in s.everPlanned && p.deletion.Some?
    requires p.id in s.store ==> s.store[p.id].owner == p.owner
    requires MayStay(s, p) && DeletionFits(s, p.id, p.deletion.value)
    ensures Sound(Put(s, p))
  {
    var s' := Put(s, p);
    forall id | id in s'.store
      ensures RecordFits(s', id)
    {
      assert id in s.store ==> RecordFits(s, id);
    }
  }

  lemma CleanedKeeps(s: Platform, id: string, participant: string)
    requires Sound(s) && id in s.cleaned
    ensures Sound(CleanedBy(s, id, participant))
  {
    var s' := CleanedBy(s, id, participant);
    forall other | other in s'.store
      ensures RecordFits(s', other)
    {
      assert RecordFits(s, other);
    }
  }

  /** A record may go once everything ever planned has been cleaned and nothing is owned any more. */
  lemma EraseKeeps(s: Platform, id: string)
    requires Sound(s) && id in s.store && id in s.cleaned && id in s.everPlanned
    requires NoChildren(s, id) && s.everPlanned[id] <= s.cleaned[id]
    ensures Sound(Erase(s, id))
  {
    var s' := Erase(s, id);
    forall other | other in s'.store
      ensures RecordFits(s', other)
    {
      assert RecordFits(s, other);
    }
  }

  lemma ClaimKeeps(s: Platform, p: Project)
    requires Sound(s) && p.id !in s.store && p.deletion.None?
    requires p.owner.Some? ==> p.owner.value in s.store && s.store[p.owner.value].owner.None?
                               && s.store[p.owner.value].deletion.None?
    ensures Sound(Claim(s, p))
  {
    var s' := Claim(s, p);
    forall other | other in s'.store
      ensures RecordFits(s', other)
    {
      if other != p.id {
        assert RecordFits(s, other);
      }
    }
  }

  /** A stored Project's owner cannot have been cleared of what it owns. */
  lemma StoredMayStay(s: Platform, id: string)
    requires Sound(s) && id in s.store
    ensures MayStay(s, s.store[id])
    ensures s.store[id].owner.Some? ==> NoChildren(s, id)
  {
    assert RecordFits(s, id);
    if s.store[id].owner.Some? {
      assert RecordFits(s, s.store[id].owner.value);
      forall c | c in s.store
        ensures s.store[c].owner != Some(id)
      {
        assert RecordFits(s, c);
      }
    }
  }

  // ----- What never goes back -----------------------------------------------------------------

  /** One record against its later self. */
  ghost predicate RecordAdvances(s: Platform, s': Platform, id: string) {
    id in s.store && id in s'.store ==>
      && s'.store[id].owner == s.store[id].owner
      && PlannedIn(s.store[id]) <= PlannedIn(s'.store[id])
      && CompletedIn(s.store[id]) <= CompletedIn(s'.store[id])
      && (s.store[id].deletion.Some? ==> s'.store[id].deletion.Some?)
  }

  ghost predicate RemovedSince(s: Platform, s': Platform, id: string) {
    exists i :: |s.removals| <= i < |s'.removals| && s'.removals[i].id == id
  }

  /**
    What deleting does to a Platform, whatever fails: nothing comes into being, planned and
    completed participants only grow, and a record that has gone has its removal on file.
  */
  ghost predicate Advances(s: Platform, s': Platform) {
    && s'.configured == s.configured && s'.steady == s.steady
    && s'.store.Keys <= s.store.Keys
    && s.removals <= s'.removals
    && (forall id {:trigger RecordAdvances(s, s', id)} :: RecordAdvances(s, s', id))
    && (forall id :: id in s.store && id !in s'.store ==> RemovedSince(s, s', id))
  }

  lemma AdvancesOn(s: Platform, s1: Platform, s2: Platform)
    requires Advances(s, s1) && Advances(s1, s2)
    ensures Advances(s, s2)
  {
    forall id
      ensures RecordAdvances(s, s2, id)
      ensures id in s.store && id !in s2.store ==> RemovedSince(s, s2, id)
    {
      assert RecordAdvances(s, s1, id) && RecordAdvances(s1, s2, id);
      if id in s.store && id !in s1.store {
        var i :| |s.removals| <= i < |s1.removals| && s1.removals[i].id == id;
        assert s2.removals[i].id == id;
      } else if id in s1.store && id !in s2.store {
        var i :| |s1.removals| <= i < |s2.removals| && s2.removals[i].id == id;
      }
    }
  }

  // ----- One attempt ---------------------------------------------------------------------------

  /** The Projects a deletion may write: the Project itself and what it owns. */
  ghost function Family(s: Platform, id: string): set<string> {
    {id} + (set c | c in s.store && s.store[c].owner == Some(id))
  }

  ghost predicate Untouched(s: Platform, s': Platform, id: string) {
    && (id in s'.store <==> id in s.store) && (id in s.store ==> s'.store[id] == s.store[id])
    && (id in s'.cleaned <==> id in s.cleaned) && (id in s.cleaned ==> s'.cleaned[id] == s.cleaned[id])
    && (id in s'.everPlanned <==> id in s.everPlanned)
    && (id in s.everPlanned ==> s'.everPlanned[id] == s.everPlanned[id])
  }

  ghost predicate TouchesOnly(s: Platform, s': Platform, ids: set<string>) {
    forall id {:trigger Untouched(s, s', id)} :: id !in ids ==> Untouched(s, s', id)
  }

  /**
    An attempt that began in `s0` and has come to `s`: what it knows locally, its plan and its
    completed participants, fits the store and the history.
  */
  ghost predicate Ongoing(s0: Platform, s: Platform, id: string, planned: seq<string>, completed: seq<string>) {
    && id in s0.store && s0.store[id].id == id
    && Sound(s) && Advances(s0, s) && TouchesOnly(s0, s, Family(s0, id))
    && id in s.cleaned && id in s.everPlanned
    && MayStay(s, s0.store[id])
    && Elements(completed) <= s.cleaned[id] && s.everPlanned[id] <= Elements(planned)
    && (OWNED_PROJECTS in completed ==> NoChildren(s, id))
    && (s.steady ==> planned == s.configured && completed <= s.configured)
    && PlannedIn(s0.store[id]) <= Elements(planned) && CompletedIn(s0.store[id]) <= Elements(completed)
  }

  lemma NothingAdvances(s: Platform)
    ensures Advances(s, s)
  {
  }

  function StoredPlan(p: Project): seq<string> {
    if p.deletion.Some? then p.deletion.value.participants else []
  }

  function StoredCompleted(p: Project): seq<string> {
    if p.deletion.Some? then p.deletion.value.completed else []
  }

  lemma OngoingStarts(s: Platform, id: string)
    requires Sound(s) && id in s.store
    ensures Ongoing(s, s, id, Plan(StoredPlan(s.store[id]), s.configured), StoredCompleted(s.store[id]))
  {
    var p := s.store[id];
    assert RecordFits(s, id);
    StoredMayStay(s, id);
    NothingAdvances(s);
    PlanCovers(StoredPlan(p), s.configured);
    if s.steady {
      PlanIsConfigured(StoredPlan(p), s.configured);
    }
  }

  lemma OngoingWrites(s0: Platform, s: Platform, planned: seq<string>, completed: seq<string>, p: Project)
    requires Ongoing(s0, s, p.id, planned, completed) && s0.store[p.id].owner == p.owner
    requires p.deletion.Some? && p.deletion.value.participants == planned && p.deletion.value.completed == completed
    ensures Ongoing(s0, Put(s, p), p.id, planned, completed)
  {
    var s' := Put(s, p);
    assert p.id in s.store ==> RecordAdvances(s0, s, p.id);
    PutKeeps(s, p);
    hide Sound;
    forall id
      ensures RecordAdvances(s0, s', id)
      ensures id in s0.store && id !in s'.store ==> RemovedSince(s0, s', id)
    {
      assert RecordAdvances(s0, s, id);
      if id in s0.store && id !in s'.store {
        assert RemovedSince(s0, s, id);
      }
    }
    forall id | id !in Family(s0, p.id)
      ensures Untouched(s0, s', id)
    {
      assert Untouched(s0, s, id);
    }
  }

  lemma OngoingCleans(s0: Platform, s: Platform, id: string, planned: seq<string>, completed: seq<string>,
                      participant: string)
    requires Ongoing(s0, s, id, planned, completed)
    requires participant == OWNED_PROJECTS ==> NoChildren(s, id)
    requires s.steady ==> completed + [participant] <= s.configured
    ensures Ongoing(s0, CleanedBy(s, id, participant), id, planned, completed + [participant])
  {
    var s' := CleanedBy(s, id, participant);
    CleanedKeeps(s, id, participant);
    hide Sound;
    forall other
      ensures RecordAdvances(s0, s', other)
      ensures other in s0.store && other !in s'.store ==> RemovedSince(s0, s', other)
    {
      assert RecordAdvances(s0, s, other);
      if other in s0.store && other !in s'.store {
        assert RemovedSince(s0, s, other);
      }
    }
    forall other | other !in Family(s0, id)
      ensures Untouched(s0, s', other)
    {
      assert Untouched(s0, s, other);
    }
  }

  lemma OngoingErases(s0: Platform, s: Platform, id: string, planned: seq<string>, completed: seq<string>)
    requires Ongoing(s0, s, id, planned, completed) && id in s.store
    requires OWNED_PROJECTS in completed && Elements(planned) <= Elements(completed)
    ensures Ongoing(s0, Erase(s, id), id, planned, completed)
  {
    var s' := Erase(s, id);
    EraseKeeps(s, id);
    hide Sound;
    assert s'.removals[|s.removals|].id == id;
    forall other
      ensures RecordAdvances(s0, s', other)
      ensures other in s0.store && other !in s'.store ==> RemovedSince(s0, s', other)
    {
      assert RecordAdvances(s0, s, other);
      if other in s0.store && other !in s.store {
        assert RemovedSince(s0, s, other);
        var i :| |s0.removals| <= i < |s.removals| && s.removals[i].id == other;
        assert s'.removals[i].id == other;
      }
    }
    forall other | other !in Family(s0, id)
      ensures Untouched(s0, s', other)
    {
      assert Untouched(s0, s, other);
    }
  }

  /** Deleting something the Project owns does not disturb its own attempt. */
  lemma OngoingThroughChild(s0: Platform, s: Platform, s': Platform, id: string, planned: seq<string>,
                            completed: seq<string>, child: string)
    requires Ongoing(s0, s, id, planned, completed)
    requires child in s0.store && s0.store[child].owner == Some(id) && s0.store[id].owner.None? && child != id
    requires Sound(s') && Advances(s, s') && TouchesOnly(s, s', {child})
    ensures Ongoing(s0, s', id, planned, completed)
  {
    AdvancesOn(s0, s, s');
    assert Untouched(s, s', id);
    forall other | other !in Family(s0, id)
      ensures Untouched(s0, s', other)
    {
      assert Untouched(s0, s, other) && Untouched(s, s', other);
    }
    if OWNED_PROJECTS in completed {
      forall c | c in s'.store
        ensures s'.store[c].owner != Some(id)
      {
        assert RecordAdvances(s, s', c);
      }
    }
  }

  // ----- When nothing stands in the way -----------------------------------------------------------

  predicate PlanAvailable(planned: seq<string>, completed: seq<string>, configured: seq<string>) {
    forall p :: p in planned ==> p in completed || p in configured
  }

  /** Everything that deletions under way still have to clean is configured. */
  ghost predicate Available(s: Platform) {
    forall id :: id in s.store && s.store[id].deletion.Some? ==>
      PlanAvailable(s.store[id].deletion.value.participants, s.store[id].deletion.value.completed, s.configured)
  }

  lemma PlanStaysAvailable(planned: seq<string>, completed: seq<string>, more: string, configured: seq<string>)
    requires PlanAvailable(planned, completed, configured)
    ensures PlanAvailable(planned, completed + [more], configured)
  {
  }

  lemma PlanIsAvailable(s: Platform, id: string)
    requires Available(s) && WellConfigured(s.configured) && id in s.store
    ensures PlanAvailable(Plan(StoredPlan(s.store[id]), s.configured), StoredCompleted(s.store[id]), s.configured)
  {
    var planned := Plan(StoredPlan(s.store[id]), s.configured);
    PlanCovers(StoredPlan(s.store[id]), s.configured);
    assert s.configured[|s.configured| - 1] in s.configured;
    forall p | p in planned
      ensures p in StoredCompleted(s.store[id]) || p in s.configured
    {
      assert p in Elements(planned);
    }
  }

  lemma PutAvailable(s: Platform, p: Project)
    requires Available(s) && p.id in s.everPlanned && p.deletion.Some?
    requires PlanAvailable(p.deletion.value.participants, p.deletion.value.completed, s.configured)
    ensures Available(Put(s, p))
  {
    var s' := Put(s, p);
    assert forall id :: id in s'.store && id != p.id ==> id in s.store && s'.store[id] == s.store[id];
  }
}
