/**
  Package load slots: at most `limit` loads are active (eight, or one when the host cannot tell
  packages apart asynchronously), the others wait in a queue. A finished
  load wakes the first waiter, but between the wake-up and the moment the waiter runs again a
  newcomer may take the slot, and the waiter queues again.
*/
module LoadSlots {
  import opened Text

  /** Where a load is; a woken one has been taken out of the queue and has not run yet. */
  datatype Stage = Waiting | Woken | Active | Done

  datatype State = State(limit: nat, active: int, waiters: seq<nat>, loads: map<nat, Stage>)

  datatype Event = Arrive(p: nat) | Resume(p: nat) | Finish(p: nat)

  // ----- Steps ---------------------------------------------------------------------

  /** The loop of `acquireLoadSlot` up to its next await: take a slot, or queue. */
  function Enter(s: State, p: nat): State {
    if s.active >= s.limit then s.(waiters := s.waiters + [p], loads := s.loads[p := Waiting])
    else s.(active := s.active + 1, loads := s.loads[p := Active])
  }

  /** `releaseLoadSlot`: give the slot back and wake the first waiter. */
  function Leave(s: State, p: nat): State {
    var freed := s.(active := s.active - 1, loads := s.loads[p := Done]);
    if s.waiters == [] then freed
    else freed.(waiters := s.waiters[1..], loads := freed.loads[s.waiters[0] := Woken])
  }

  predicate Enabled(s: State, e: Event) {
    match e
    case Arrive(p) => p !in s.loads
    case Resume(p) => p in s.loads && s.loads[p] == Woken
    case Finish(p) => p in s.loads && s.loads[p] == Active
  }

  function Next(s: State, e: Event): State {
    match e
    case Arrive(p) => Enter(s, p)
    case Resume(p) => Enter(s, p)
    case Finish(p) => Leave(s, p)
  }

  predicate IsRun(s: State, events: seq<Event>)
    decreases |events|
  {
    events == [] || (Enabled(s, events[0]) && IsRun(Next(s, events[0]), events[1..]))
  }

  function After(s: State, events: seq<Event>): State
    decreases |events|
  {
    if events == [] then s else After(Next(s, events[0]), events[1..])
  }

  function Initial(limit: nat): State {
    State(limit, 0, [], map[])
  }

  // ----- The invariant ----------------------------------------------------------------

  function At(s: State, stage: Stage): set<nat> {
    set p | p in s.loads && s.loads[p] == stage
  }

  /** The queue holds exactly these, each once. */
  ghost predicate Lists(waiters: seq<nat>, waiting: set<nat>) {
    && (forall p :: p in waiters <==> p in waiting)
    && (forall i, j :: 0 <= i < j < |waiters| ==> waiters[i] != waiters[j])
  }

  ghost predicate Queued(s: State) {
    Lists(s.waiters, At(s, Waiting))
  }

  /** Somebody waits only while all slots are taken or promised to somebody who was woken. */
  ghost predicate Inv(s: State) {
    && s.active == |At(s, Active)| && s.active <= s.limit
    && Queued(s)
    && (s.waiters != [] ==> s.active + |At(s, Woken)| >= s.limit)
  }

  /** How the stages' sets change when one load moves. */
  lemma Moved(s: State, s': State, p: nat, stage: Stage)
    requires s'.loads == s.loads[p := stage]
    ensures forall other :: At(s', other)
              == if other == stage then At(s, other) + {p} else At(s, other) - {p}
  {
  }

  /** Who enters was neither waiting nor active, and now is one of the two. */
  lemma EnterMoves(s: State, p: nat)
    requires p in s.loads ==> s.loads[p] == Woken
    ensures var s' := Enter(s, p);
            && p !in At(s, Waiting) && p !in At(s, Active) && At(s', Woken) == At(s, Woken) - {p}
            && At(s', Waiting) == (if s.active >= s.limit then At(s, Waiting) + {p} else At(s, Waiting))
            && At(s', Active) == (if s.active >= s.limit then At(s, Active) else At(s, Active) + {p})
  {
    Moved(s, Enter(s, p), p, if s.active >= s.limit then Waiting else Active);
  }

  lemma CountMoved(all: set<nat>, p: nat)
    ensures p !in all ==> |all + {p}| == |all| + 1
    ensures |all - {p}| >= |all| - 1
  {
  }

  lemma EnterKeeps(s: State, p: nat)
    requires Inv(s) && (p in s.loads ==> s.loads[p] == Woken)
    ensures Inv(Enter(s, p))
  {
    EnterMoves(s, p);
    CountMoved(At(s, Active), p);
    CountMoved(At(s, Woken), p);
    hide At, Lists;
    if s.active >= s.limit {
      ListsMore(s.waiters, At(s, Waiting), p);
    }
  }

  /** A newcomer at the end of the queue. */
  lemma ListsMore(waiters: seq<nat>, waiting: set<nat>, p: nat)
    requires Lists(waiters, waiting) && p !in waiting
    ensures Lists(waiters + [p], waiting + {p})
  {
    assert forall i | 0 <= i < |waiters| :: waiters[i] in waiters;
  }

  lemma LeaveMoves(s: State, p: nat)
    requires Queued(s) && Enabled(s, Finish(p))
    ensures var s' := Leave(s, p);
            && p in At(s, Active) && At(s', Active) == At(s, Active) - {p}
            && if s.waiters == [] then At(s', Woken) == At(s, Woken) && At(s', Waiting) == At(s, Waiting)
               else
                 var first := s.waiters[0];
                 && first in At(s, Waiting) && first !in At(s, Woken)
                 && At(s', Woken) == At(s, Woken) + {first} && At(s', Waiting) == At(s, Waiting) - {first}
  {
    if s.waiters != [] {
      assert s.waiters[0] in s.waiters;
      assert s.waiters[0] in At(s, Waiting);
    }
  }

  lemma FirstTaken(waiters: seq<nat>, ids: set<nat>)
    requires waiters != [] && Lists(waiters, ids)
    ensures Lists(waiters[1..], ids - {waiters[0]})
  {
    assert waiters == [waiters[0]] + waiters[1..];
  }

  lemma LeaveKeeps(s: State, p: nat)
    requires Inv(s) && Enabled(s, Finish(p))
    ensures Inv(Leave(s, p))
  {
    LeaveMoves(s, p);
    hide At, Lists;
    if s.waiters != [] {
      FirstTaken(s.waiters, At(s, Waiting));
    }
  }

  lemma NextKeeps(s: State, e: Event)
    requires Inv(s) && Enabled(s, e)
    ensures Inv(Next(s, e))
  {
    match e
    case Arrive(p) => EnterKeeps(s, p);
    case Resume(p) => EnterKeeps(s, p);
    case Finish(p) => LeaveKeeps(s, p);
  }

  /** However loads arrive, finish and overtake each other, no more than the limit are ever active. */
  lemma {:induction false} NeverMoreThanLimit(s: State, events: seq<Event>)
    requires Inv(s) && IsRun(s, events)
    ensures Inv(After(s, events)) && After(s, events).limit == s.limit
    ensures |At(After(s, events), Active)| <= s.limit
    decreases |events|
  {
    if events != [] {
      NextKeeps(s, events[0]);
      NeverMoreThanLimit(Next(s, events[0]), events[1..]);
    }
  }

  lemma InitialKeeps(limit: nat)
    ensures Inv(Initial(limit))
  {
  }

  /** Once all loads have finished and all wake-ups have run, nobody is left waiting. */
  lemma NoLostWakeup(limit: nat, events: seq<Event>)
    requires limit > 0 && IsRun(Initial(limit), events)
    requires At(After(Initial(limit), events), Active) == {} && At(After(Initial(limit), events), Woken) == {}
    ensures forall p :: p in After(Initial(limit), events).loads ==> After(Initial(limit), events).loads[p] == Done
  {
    InitialKeeps(limit);
    NeverMoreThanLimit(Initial(limit), events);
    var s := After(Initial(limit), events);
    forall p | p in s.loads
      ensures s.loads[p] == Done
    {
      assert p !in At(s, Active) && p !in At(s, Woken) && p !in At(s, Waiting);
    }
  }

  // ----- Every load gets its turn ---------------------------------------------------------

  /** What is still to happen before everything is done. */
  function Work(s: State): nat {
    4 * |At(s, Woken)| + 3 * |At(s, Active)| + 2 * |At(s, Waiting)|
  }

  lemma ResumeShrinks(s: State, p: nat)
    requires Enabled(s, Resume(p))
    ensures Work(Enter(s, p)) < Work(s)
  {
    var s' := Enter(s, p);
    var stage := if s.active >= s.limit then Waiting else Active;
    Moved(s, s', p, stage);
    assert p in At(s, Woken) && p !in At(s, stage);
    assert At(s', Woken) == At(s, Woken) - {p} && At(s', stage) == At(s, stage) + {p};
    var other := if stage.Waiting? then Active else Waiting;
    assert At(s', other) == At(s, other);
    hide At, Enter;
  }

  lemma FinishShrinks(s: State, p: nat)
    requires Inv(s) && Enabled(s, Finish(p))
    ensures Work(Leave(s, p)) < Work(s)
  {
    LeaveMoves(s, p);
    hide At, Leave;
  }

  lemma WorkShrinks(s: State, e: Event)
    requires Inv(s) && Enabled(s, e) && !e.Arrive?
    ensures Work(Next(s, e)) < Work(s)
  {
    match e
    case Resume(p) => ResumeShrinks(s, p);
    case Finish(p) => FinishShrinks(s, p);
  }

  /** Without newcomers every run comes to an end. */
  lemma {:induction false} RunsEnd(s: State, events: seq<Event>)
    requires Inv(s) && IsRun(s, events) && forall e :: e in events ==> !e.Arrive?
    ensures |events| + Work(After(s, events)) <= Work(s)
    decreases |events|
  {
    if events != [] {
      NextKeeps(s, events[0]);
      WorkShrinks(s, events[0]);
      RunsEnd(Next(s, events[0]), events[1..]);
    }
  }

  /** And it ends only when every load is done: as long as one is not, some load can go on. */
  lemma SomebodyGoesOn(s: State, p: nat) returns (e: Event)
    requires Inv(s) && s.limit > 0 && p in s.loads && s.loads[p] != Done
    ensures !e.Arrive? && Enabled(s, e)
  {
    assert p in At(s, s.loads[p]);
    if |At(s, Active)| > 0 {
      var q :| q in At(s, Active);
      e := Finish(q);
    } else if |At(s, Woken)| > 0 {
      var q :| q in At(s, Woken);
      e := Resume(q);
    } else {
      assert false;
    }
  }

  // ----- The module state ---------------------------------------------------------------------

  class LoadQueue {
    var activeLoads: int
    var loadWaiters: seq<nat>
    const limit: nat
    ghost var loads: map<nat, Stage>

    ghost function Now(): State
      reads this
    {
      State(limit, activeLoads, loadWaiters, loads)
    }

    constructor (limit: nat)
      ensures Now() == Initial(limit) && Inv(Now())
    {
      this.limit, activeLoads, loadWaiters, loads := limit, 0, [], map[];
      new;
      InitialKeeps(limit);
    }

    /** One turn of the loop in `acquireLoadSlot`, for a load that arrives or has been woken. */
    method Acquire(p: nat) returns (entered: bool)
      requires Inv(Now()) && (Enabled(Now(), Arrive(p)) || Enabled(Now(), Resume(p)))
      modifies this
      ensures Now() == Enter(old(Now()), p) && Inv(Now())
      ensures entered <==> old(activeLoads) < limit
    {
      EnterKeeps(Now(), p);
      if activeLoads >= limit {
        loadWaiters := loadWaiters + [p];
        loads := loads[p := Waiting];
        return false;
      }
      activeLoads := activeLoads + 1;
      loads := loads[p := Active];
      entered := true;
    }

    method Release(p: nat)
      requires Inv(Now()) && Enabled(Now(), Finish(p))
      modifies this
      ensures Now() == Leave(old(Now()), p) && Inv(Now())
    {
      LeaveKeeps(Now(), p);
      activeLoads := activeLoads - 1;
      loads := loads[p := Done];
      if loadWaiters != [] {
        loads := loads[loadWaiters[0] := Woken];
        loadWaiters := loadWaiters[1..];
      }
    }
  }
}
