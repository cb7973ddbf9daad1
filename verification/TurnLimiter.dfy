/**
  The Assistant's turn limiter: per principal, a sliding window over the turns that were started
  and a cap on the turns in flight. Entries that have left the window are forgotten as turns are
  granted; the whole history is kept here as ghost state, to say what the limiter bounds.
*/
module TurnLimiter {
  import opened Text

  const TURNS_PER_WINDOW := 30
  const WINDOW_MS := 10 * 60_000
  const MAX_CONCURRENT := 2

  /** The entries that are still in the window at `at`. */
  function Recent(times: seq<int>, at: int, window: int): seq<int> {
    if times == [] then []
    else if at - times[0] < window then [times[0]] + Recent(times[1..], at, window)
    else Recent(times[1..], at, window)
  }

  predicate Ascending(times: seq<int>) {
    forall i, j :: 0 <= i < j < |times| ==> times[i] <= times[j]
  }

  /** Turns that are `turns` apart are at least a window apart. */
  ghost predicate Spaced(times: seq<int>, turns: int, window: int) {
    forall i, j :: 0 <= i < |times| && 0 <= j < |times| && j == i + turns ==> times[j] - times[i] >= window
  }

  /** How many of the times lie in the half-open interval of length `window` from `from`. */
  function CountIn(times: seq<int>, from: int, window: int): nat {
    if times == [] then 0
    else CountIn(Init(times), from, window) + if from <= Last(times) < from + window then 1 else 0
  }

  lemma {:induction false} CountInNone(times: seq<int>, from: int, window: int)
    requires forall i :: 0 <= i < |times| ==> times[i] < from
    ensures CountIn(times, from, window) == 0
  {
    if times != [] {
      CountInNone(Init(times), from, window);
    }
  }

  lemma {:induction false} CountInTail(times: seq<int>, k: nat, from: int, window: int)
    requires k <= |times|
    ensures CountIn(times, from, window) <= CountIn(times[..k], from, window) + |times| - k
  {
    if k == |times| {
      assert times[..k] == times;
    } else {
      CountInTail(Init(times), k, from, window);
      assert Init(times)[..k] == times[..k];
    }
  }

  /** No half-open interval as long as the window holds more turns than the window allows. */
  lemma {:induction false} WindowHoldsAtMost(times: seq<int>, turns: nat, window: int, from: int)
    requires Ascending(times) && Spaced(times, turns, window)
    ensures CountIn(times, from, window) <= turns
  {
    if times != [] {
      if from <= Last(times) < from + window {
        if |times| > turns {
          var k := |times| - turns;
          assert times[|times| - 1] - times[k - 1] >= window;
          CountInNone(times[..k], from, window);
          CountInTail(times, k, from, window);
        } else {
          CountInTail(times, 0, from, window);
        }
      } else {
        WindowHoldsAtMost(Init(times), turns, window, from);
      }
    }
  }

  lemma {:induction false} RecentIsRecent(times: seq<int>, at: int, window: int)
    ensures |Recent(times, at, window)| <= |times|
    ensures forall t :: t in Recent(times, at, window) ==> t in times && at - t < window
  {
    if times != [] {
      RecentIsRecent(times[1..], at, window);
    }
  }

  lemma {:induction false} RecentAppend(xs: seq<int>, ys: seq<int>, at: int, window: int)
    ensures Recent(xs + ys, at, window) == Recent(xs, at, window) + Recent(ys, at, window)
  {
    if xs == [] {
      assert xs + ys == ys;
    } else {
      RecentAppend(xs[1..], ys, at, window);
      assert (xs + ys)[1..] == xs[1..] + ys;
      Regroup([xs[0]], Recent(xs[1..], at, window), Recent(ys, at, window));
    }
  }

  /** Forgetting what has left the window forgets nothing that still counts later. */
  lemma {:induction false} RecentTwice(times: seq<int>, before: int, at: int, window: int)
    requires before <= at
    ensures Recent(Recent(times, before, window), at, window) == Recent(times, at, window)
  {
    if times != [] {
      RecentTwice(times[1..], before, at, window);
      if before - times[0] < window {
        var rest := Recent(times[1..], before, window);
        assert ([times[0]] + rest)[1..] == rest;
      }
    }
  }

  /** In ascending times, the recent ones are a suffix. */
  lemma {:induction false} RecentSuffix(times: seq<int>, k: nat, at: int, window: int)
    requires Ascending(times) && k < |times| && at - times[k] < window
    ensures |Recent(times, at, window)| >= |times| - k
    decreases times
  {
    if k > 0 {
      RecentSuffix(times[1..], k - 1, at, window);
    } else {
      if |times| > 1 {
        RecentSuffix(times[1..], 0, at, window);
      }
    }
  }

  // ----- What a refusal promises -------------------------------------------------

  function CeilSeconds(ms: int): (s: int)
    ensures 1000 * (s - 1) < ms <= 1000 * s
  {
    (ms + 999) / 1000
  }

  function Wait(oldest: int, window: int, at: int): int {
    if CeilSeconds(oldest + window - at) > 1 then CeilSeconds(oldest + window - at) else 1
  }

  /** When none of the entries in the window has left it yet, all of them still count. */
  lemma {:induction false} RecentStays(times: seq<int>, at: int, later: int, window: int)
    requires Ascending(times) && at <= later && Recent(times, at, window) != []
    requires later < Recent(times, at, window)[0] + window
    ensures Recent(times, later, window) == Recent(times, at, window)
  {
    if at - times[0] < window {
      assert times[0] == Recent(times, at, window)[0];
      RecentAll(times, later, window);
      RecentAll(times, at, window);
    } else {
      RecentStays(times[1..], at, later, window);
    }
  }

  lemma {:induction false} RecentAll(times: seq<int>, at: int, window: int)
    requires forall i :: 0 <= i < |times| ==> at - times[i] < window
    ensures Recent(times, at, window) == times
  {
    if times != [] {
      RecentAll(times[1..], at, window);
    }
  }

  lemma {:induction false} RecentCounted(times: seq<int>, at: int, window: int)
    requires forall i :: 0 <= i < |times| ==> times[i] <= at
    ensures |Recent(times, at, window)| == CountIn(times, at - window + 1, window)
  {
    if times != [] {
      RecentCounted(Init(times), at, window);
      RecentAppend(Init(times), [Last(times)], at, window);
      assert times == Init(times) + [Last(times)];
    }
  }

  /**
    As long as no turn is granted, a refusal for the rate stays one exactly until the oldest turn
    that counted leaves the window, and the wait that was answered lasts at least until then.
  */
  lemma RefusalLastsUntilTheOldestLeaves(times: seq<int>, turns: nat, window: int, at: int, later: int)
    requires Ascending(times) && Spaced(times, turns, window) && (times != [] ==> Last(times) <= at <= later)
    requires |Recent(times, at, window)| >= turns > 0
    ensures var oldest := Recent(times, at, window)[0];
            && (|Recent(times, later, window)| >= turns <==> later < oldest + window)
            && at + 1000 * Wait(oldest, window, at) >= oldest + window
            && |Recent(times, at + 1000 * Wait(oldest, window, at), window)| < turns
  {
    WindowHoldsAtMost(times, turns, window, at - window + 1);
    RecentCounted(times, at, window);
    var oldest := Recent(times, at, window)[0];
    var end := at + 1000 * Wait(oldest, window, at);
    if later < oldest + window {
      RecentStays(times, at, later, window);
    } else {
      OldestLeaves(times, at, later, window);
    }
    OldestLeaves(times, at, end, window);
  }

  lemma OldestLeaves(times: seq<int>, at: int, later: int, window: int)
    requires at <= later && Recent(times, at, window) != []
    requires later >= Recent(times, at, window)[0] + window
    ensures |Recent(times, later, window)| < |Recent(times, at, window)|
  {
    RecentTwice(times, at, later, window);
    RecentIsRecent(Recent(times, at, window)[1..], later, window);
  }

  // ----- What is remembered ----------------------------------------------------------

  /** What is kept of a principal's turns is what was in the window when the last one was granted. */
  ghost predicate Remembered(turns: seq<int>, kept: seq<int>, asked: seq<int>, n: int, window: int) {
    && Ascending(turns) && Spaced(turns, n, window)
    && (if turns == [] then kept == []
        else
          && n > 0 && asked != [] && Last(turns) <= Last(asked)
          && kept == Recent(Init(turns), Last(turns), window) + [Last(turns)])
  }

  /** The entries kept are as good as the whole history. */
  lemma {:induction false} KeptSuffices(turns: seq<int>, kept: seq<int>, asked: seq<int>, n: int, window: int, at: int)
    requires Remembered(turns, kept, asked, n, window) && (asked != [] ==> Last(asked) <= at)
    ensures Recent(kept, at, window) == Recent(turns, at, window)
  {
    if turns != [] {
      var before := Recent(Init(turns), Last(turns), window);
      RecentAppend(before, [Last(turns)], at, window);
      RecentTwice(Init(turns), Last(turns), at, window);
      RecentAppend(Init(turns), [Last(turns)], at, window);
      assert turns == Init(turns) + [Last(turns)];
    }
  }

  lemma SpacedMore(turns: seq<int>, n: int, window: int, at: int)
    requires Ascending(turns) && Spaced(turns, n, window) && |Recent(turns, at, window)| < n
    ensures Spaced(turns + [at], n, window)
  {
    var more := turns + [at];
    forall i, j | 0 <= i < |more| && 0 <= j < |more| && j == i + n
      ensures more[j] - more[i] >= window
    {
      if j == |turns| && at - turns[i] < window {
        RecentSuffix(turns, i, at, window);
      }
    }
  }

  lemma {:induction false} TurnGranted(turns: seq<int>, kept: seq<int>, asked: seq<int>, n: int, window: int, at: int)
    requires Remembered(turns, kept, asked, n, window) && (asked != [] ==> Last(asked) <= at)
    requires |Recent(kept, at, window)| < n
    ensures Remembered(turns + [at], Recent(kept, at, window) + [at], asked + [at], n, window)
  {
    KeptSuffices(turns, kept, asked, n, window, at);
    assert turns != [] ==> Last(turns) <= at;
    assert Ascending(turns + [at]);
    SpacedMore(turns, n, window, at);
    hide Ascending, Spaced, Recent;
    assert Init(turns + [at]) == turns && Last(turns + [at]) == at && Last(asked + [at]) == at;
  }

  lemma TurnAsked(turns: seq<int>, kept: seq<int>, asked: seq<int>, n: int, window: int, at: int)
    requires Remembered(turns, kept, asked, n, window) && (asked != [] ==> Last(asked) <= at)
    ensures Remembered(turns, kept, asked + [at], n, window)
  {
    assert Last(asked + [at]) == at;
  }

  lemma AskedInOrder(asked: seq<int>, at: int)
    requires Ascending(asked + [at])
    ensures Ascending(asked) && (asked != [] ==> Last(asked) <= at)
  {
    var more := asked + [at];
    forall i, j | 0 <= i < j < |asked|
      ensures asked[i] <= asked[j]
    {
      assert more[i] <= more[j];
    }
    assert asked != [] ==> more[|asked| - 1] <= more[|asked|];
  }

  function Of(times: map<string, seq<int>>, principalId: string): seq<int> {
    if principalId in times then times[principalId] else []
  }

  ghost predicate AllRemembered(granted: map<string, seq<int>>, started: map<string, seq<int>>, asked: seq<int>,
                                n: int, window: int) {
    forall id {:trigger Of(granted, id)} :: Remembered(Of(granted, id), Of(started, id), asked, n, window)
  }

  lemma AskRemembered(granted: map<string, seq<int>>, started: map<string, seq<int>>, asked: seq<int>,
                      n: int, window: int, at: int)
    requires AllRemembered(granted, started, asked, n, window) && (asked != [] ==> Last(asked) <= at)
    ensures AllRemembered(granted, started, asked + [at], n, window)
  {
    forall id
      ensures Remembered(Of(granted, id), Of(started, id), asked + [at], n, window)
    {
      TurnAsked(Of(granted, id), Of(started, id), asked, n, window, at);
    }
  }

  lemma GrantRemembered(granted: map<string, seq<int>>, started: map<string, seq<int>>, asked: seq<int>,
                        n: int, window: int, principalId: string, at: int)
    requires AllRemembered(granted, started, asked, n, window) && (asked != [] ==> Last(asked) <= at)
    requires |Recent(Of(started, principalId), at, window)| < n
    ensures AllRemembered(granted[principalId := Of(granted, principalId) + [at]],
                          started[principalId := Recent(Of(started, principalId), at, window) + [at]],
                          asked + [at], n, window)
  {
    hide Remembered, Recent;
    var granted' := granted[principalId := Of(granted, principalId) + [at]];
    var started' := started[principalId := Recent(Of(started, principalId), at, window) + [at]];
    forall id
      ensures Remembered(Of(granted', id), Of(started', id), asked + [at], n, window)
    {
      assert Remembered(Of(granted, id), Of(started, id), asked, n, window);
      if id == principalId {
        TurnGranted(Of(granted, id), Of(started, id), asked, n, window, at);
      } else {
        TurnAsked(Of(granted, id), Of(started, id), asked, n, window, at);
      }
    }
  }

  // ----- The limiter ---------------------------------------------------------------

  /** The right to run one turn. */
  class Permit {
    const principalId: string
    var released: bool

    constructor (principalId: string)
      ensures this.principalId == principalId && !released
    {
      this.principalId := principalId;
      released := false;
    }
  }

  /** A refusal names how long to wait; no number comes out when no turn is allowed at all. */
  datatype Answer = Granted(permit: Permit) | Refused(retryAfterSeconds: Option<int>)

  /** One turn fewer in flight; who has none left is forgotten. */
  function OneFewer(inFlight: map<string, int>, principalId: string): map<string, int> {
    var remaining := (if principalId in inFlight then inFlight[principalId] else 1) - 1;
    if remaining <= 0 then inFlight - {principalId} else inFlight[principalId := remaining]
  }

  class TurnLimiter {
    const turnsPerWindow: int
    const windowMs: int
    const maxConcurrent: int
    var started: map<string, seq<int>>
    var inFlight: map<string, int>

    /** Every turn that was ever granted, by principal; never forgotten. */
    ghost var granted: map<string, seq<int>>
    /** The permits that were given out. */
    ghost var permits: set<Permit>
    /** What the clock said at each request for a turn. */
    ghost var asked: seq<int>

    function InFlight(principalId: string): int
      reads this
    {
      if principalId in inFlight then inFlight[principalId] else 0
    }

    ghost function Outstanding(principalId: string): set<Permit>
      reads this`permits, permits
    {
      set p | p in permits && p.principalId == principalId && !p.released
    }

    /** The count kept for a principal is the number of permits that have not been released. */
    ghost predicate Counted(principalId: string)
      reads this`permits, this`inFlight, permits
    {
      && |Outstanding(principalId)| == (if principalId in inFlight then inFlight[principalId] else 0)
      && (principalId in inFlight ==> inFlight[principalId] > 0)
      && (maxConcurrent >= 0 ==> |Outstanding(principalId)| <= maxConcurrent)
    }

    ghost predicate Valid()
      reads this, permits
    {
      && (forall id {:trigger Counted(id)} :: Counted(id))
      && (Ascending(asked) ==> AllRemembered(granted, started, asked, turnsPerWindow, windowMs))
    }

    constructor (turnsPerWindow: Option<int>, windowMs: Option<int>, maxConcurrent: Option<int>)
      ensures Valid() && permits == {} && granted == map[] && asked == []
      ensures this.turnsPerWindow == turnsPerWindow.GetOr(TURNS_PER_WINDOW)
      ensures this.windowMs == windowMs.GetOr(WINDOW_MS) && this.maxConcurrent == maxConcurrent.GetOr(MAX_CONCURRENT)
    {
      this.turnsPerWindow, this.windowMs := turnsPerWindow.GetOr(TURNS_PER_WINDOW), windowMs.GetOr(WINDOW_MS);
      this.maxConcurrent := maxConcurrent.GetOr(MAX_CONCURRENT);
      started, inFlight, granted, permits, asked := map[], map[], map[], {}, [];
      new;
      forall id
        ensures Counted(id)
      {
        assert Outstanding(id) == {};
      }
    }

    /** The end of granting a turn: it is in flight until its permit is released. */
    method Issue(principalId: string) returns (permit: Permit)
      requires forall id {:trigger Counted(id)} :: Counted(id)
      requires InFlight(principalId) < maxConcurrent
      modifies this`inFlight, this`permits
      ensures forall id {:trigger Counted(id)} :: Counted(id)
      ensures fresh(permit) && permits == old(permits) + {permit}
      ensures permit.principalId == principalId && !permit.released
    {
      inFlight := inFlight[principalId := InFlight(principalId) + 1];
      permit := new Permit(principalId);
      permits := permits + {permit};
      forall id
        ensures Counted(id)
      {
        assert old(Counted(id));
        if id == principalId {
          assert Outstanding(id) == old(Outstanding(id)) + {permit};
        } else {
          assert Outstanding(id) == old(Outstanding(id));
        }
      }
    }

    /** Grants a turn below both limits; a refusal says after how many seconds it is worth trying again. */
    method Acquire(principalId: string, at: int) returns (r: Answer)
      requires Valid()
      modifies this
      ensures Valid() && asked == old(asked) + [at]
      ensures r.Granted? <==> |old(Outstanding(principalId))| < maxConcurrent
                              && |Recent(Of(old(started), principalId), at, windowMs)| < turnsPerWindow
      ensures r.Granted? ==>
                && fresh(r.permit) && permits == old(permits) + {r.permit}
                && r.permit.principalId == principalId && !r.permit.released
                && granted == old(granted)[principalId := Of(old(granted), principalId) + [at]]
      ensures r.Refused? ==>
                && permits == old(permits) && granted == old(granted)
                && started == old(started) && inFlight == old(inFlight)
                && r.retryAfterSeconds ==
                   if |old(Outstanding(principalId))| >= maxConcurrent then Some(5)
                   else
                     var recent := Recent(Of(old(started), principalId), at, windowMs);
                     if recent == [] then None else Some(Wait(recent[0], windowMs, at))
    {
      hide AllRemembered, Recent, Ascending, Wait;
      assert Counted(principalId);
      asked := asked + [at];
      if Ascending(asked) {
        AskedInOrder(old(asked), at);
        AskRemembered(granted, started, old(asked), turnsPerWindow, windowMs, at);
      }
      var recent := Recent(Of(started, principalId), at, windowMs);
      if InFlight(principalId) >= maxConcurrent {
        return Refused(Some(5));
      }
      if |recent| >= turnsPerWindow {
        return Refused(if recent == [] then None else Some(Wait(recent[0], windowMs, at)));
      }
      if Ascending(asked) {
        GrantRemembered(granted, started, old(asked), turnsPerWindow, windowMs, principalId, at);
      }
      granted := granted[principalId := Of(granted, principalId) + [at]];
      started := started[principalId := recent + [at]];
      var permit := Issue(principalId);
      r := Granted(permit);
    }

    /** Ends a turn. Releasing a permit again changes nothing. */
    method Release(permit: Permit)
      requires Valid() && permit in permits
      modifies this`inFlight, permit
      ensures Valid() && permit.released
      ensures forall id :: Outstanding(id) == old(Outstanding(id)) - {permit}
    {
      if permit.released {
        return;
      }
      hide AllRemembered, Ascending;
      ghost var held := Outstanding(permit.principalId);
      assert Counted(permit.principalId) && permit in held;
      OneLess(held, permit);
      permit.released := true;
      inFlight := OneFewer(inFlight, permit.principalId);
      forall id
        ensures Outstanding(id) == (if id == permit.principalId then held - {permit} else old(Outstanding(id)))
        ensures id != permit.principalId ==> permit !in old(Outstanding(id))
      {
      }
      assert Counted(permit.principalId);
      forall id | id != permit.principalId
        ensures Counted(id)
      {
        assert old(Counted(id));
      }
    }

    lemma OneLess(all: set<Permit>, permit: Permit)
      requires permit in all
      ensures |all - {permit}| == |all| - 1
    {
    }

    /** What the limiter bounds: turns in flight always, and turns per window while the clock does not go back. */
    lemma Bounds(principalId: string, from: int)
      requires Valid() && turnsPerWindow >= 0 && maxConcurrent >= 0
      ensures InFlight(principalId) == |Outstanding(principalId)| <= maxConcurrent
      ensures Ascending(asked) ==> CountIn(Of(granted, principalId), from, windowMs) <= turnsPerWindow
    {
      assert Counted(principalId);
      if Ascending(asked) {
        WindowHoldsAtMost(Of(granted, principalId), turnsPerWindow, windowMs, from);
      }
    }

    /** A refusal for the rate is about the whole history, and lasts until its oldest counted turn leaves. */
    lemma RefusalLasts(principalId: string, at: int, later: int)
      requires Valid() && Ascending(asked) && asked != [] && Last(asked) <= at <= later
      requires |Recent(Of(started, principalId), at, windowMs)| >= turnsPerWindow > 0
      ensures var oldest := Recent(Of(started, principalId), at, windowMs)[0];
              var end := at + 1000 * Wait(oldest, windowMs, at);
              && oldest in Of(granted, principalId)
              && (|Recent(Of(started, principalId), later, windowMs)| >= turnsPerWindow <==> later < oldest + windowMs)
              && end >= oldest + windowMs
              && |Recent(Of(started, principalId), end, windowMs)| < turnsPerWindow
    {
      var turns, kept := Of(granted, principalId), Of(started, principalId);
      KeptSuffices(turns, kept, asked, turnsPerWindow, windowMs, at);
      KeptSuffices(turns, kept, asked, turnsPerWindow, windowMs, later);
      var oldest := Recent(kept, at, windowMs)[0];
      RecentIsRecent(turns, at, windowMs);
      KeptSuffices(turns, kept, asked, turnsPerWindow, windowMs, at + 1000 * Wait(oldest, windowMs, at));
      RefusalLastsUntilTheOldestLeaves(turns, turnsPerWindow, windowMs, at, later);
    }
  }
}
