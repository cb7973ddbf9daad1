/**
  Fencing a placement before it is taken over: every process that was started under it has to be
  gone, found through the records that starting a placed process leaves behind.

  `uptime` is the host's steady clock, by which `ps` tells a process's age; the wall clock, by which
  records are stamped, is ahead of it by `skew`. Times are in milliseconds. What happens during an
  await is a `Turn`; a run that is out of turns is one in which the Platform died at an await.
*/
module PlacementFencing {
  import opened Text

  const START_TIME_TOLERANCE_MS := 30_000
  const KILL_WAIT_MS := 1_000

  datatype Placement = Placement(projectId: string, nodeId: string, ownerSession: string, epoch: nat)

  datatype Record = Record(workloadId: string, pid: nat, startedAt: int, placement: Option<Placement>)

  /** A file in the state directory. */
  datatype File = Unreadable | Readable(record: Record)

  /** A live process, what it was really started under, and whether this runner may signal it. */
  datatype Process = Process(born: int, placement: Option<Placement>, permitted: bool)

  /** A process this runner started under a placement and still holds. */
  datatype Handle = Handle(pid: nat, placement: Placement)

  /** What was made of a record: `process` had its age read at `read`, which was compared with the record's at `at`. */
  datatype Judgement = Judgement(record: Record, process: Process, read: int, at: int, skew: int) {
    predicate Agrees() {
      AgesAgree(record, process, read, at, skew)
    }
  }

  /** A signal as it was delivered: for which judgement, to which process, and when. */
  datatype Signal = Signal(judgement: Judgement, kill: bool, target: Process, at: int, skew: int) {
    /** Whether the target's age, taken at the moment of the signal, would have agreed. */
    predicate Agrees() {
      AgesAgree(judgement.record, target, at, at, skew)
    }
  }

  datatype Host = Host(processes: map<nat, Process>, files: map<string, File>, handles: seq<Handle>,
                       uptime: int, skew: int, judged: seq<Judgement>, signals: seq<Signal>) {
    function Now(): int {
      uptime + skew
    }
  }

  /**
    What happens during an await: time passes, the wall clock may be set, processes end, their pids
    may be taken over by processes of no placement, and records of ended children are removed.
    `fails` is for what was awaited.
  */
  datatype Turn = Turn(elapsed: nat, clockSet: int, ended: set<nat>, taken: map<nat, Process>,
                       cleared: set<string>, fails: bool)

  datatype Verdict = Yes | No | Died

  datatype Run = Run(host: Host, turns: seq<Turn>, verdict: Verdict)

  // ----- Ages -------------------------------------------------------------------------

  /** What `ps` says: whole seconds. */
  function AgeOf(p: Process, uptime: int): int {
    (uptime - p.born) / 1000 * 1000
  }

  function RecordedAge(r: Record, uptime: int, skew: int): int {
    uptime + skew - r.startedAt
  }

  predicate AgesAgree(r: Record, p: Process, read: int, at: int, skew: int) {
    -START_TIME_TOLERANCE_MS <= AgeOf(p, read) - RecordedAge(r, at, skew) <= START_TIME_TOLERANCE_MS
  }

  /** How far the wall clock has been set back since the record was written, if it was written when `p` was born. */
  function Drift(r: Record, p: Process, skew: int): int {
    r.startedAt - (p.born + skew)
  }

  /** How far the two ages are apart. */
  function Apart(r: Record, p: Process, read: int, at: int, skew: int): int {
    Drift(r, p, skew) - (at - read) - (read - p.born) % 1000
  }

  /** The ages agree exactly when drift, the delay since the age was read and its fraction stay within the tolerance. */
  lemma AgreeExactly(r: Record, p: Process, read: int, at: int, skew: int)
    ensures AgesAgree(r, p, read, at, skew) <==> -30_000 <= Apart(r, p, read, at, skew) <= 30_000
  {
    var elapsed := read - p.born;
    assert elapsed / 1000 * 1000 == elapsed - elapsed % 1000;
  }

  // ----- Awaits ------------------------------------------------------------------------

  function Clamp(t: int, from: int, to: int): int {
    if t < from then from else if t > to then to else t
  }

  /** The processes that took over pids during a turn. */
  function Arrived(h: Host, t: Turn): map<nat, Process> {
    map pid | pid in t.taken && pid !in h.processes - t.ended ::
      Process(Clamp(t.taken[pid].born, h.uptime, h.uptime + t.elapsed), None, t.taken[pid].permitted)
  }

  function Pass(h: Host, t: Turn): Host {
    var processes := (h.processes - t.ended) + Arrived(h, t);
    h.(processes := processes,
       files := h.files - (set name | name in t.cleared && name in h.files && IsOver(h.files[name], processes)),
       uptime := h.uptime + t.elapsed, skew := h.skew + t.clockSet)
  }

  predicate NotPlaced(processes: map<nat, Process>, pid: nat) {
    pid in processes ==> processes[pid].placement.None?
  }

  /** The record of a process that has gone. */
  predicate IsOver(file: File, processes: map<nat, Process>) {
    file.Readable? && NotPlaced(processes, file.record.pid)
  }

  // ----- Ending a recorded process ---------------------------------------------------------

  function Signalled(h: Host, j: Judgement, kill: bool): Host {
    if j.record.pid in h.processes && h.processes[j.record.pid].permitted
    then h.(signals := h.signals + [Signal(j, kill, h.processes[j.record.pid], h.uptime, h.skew)])
    else h
  }

  /** A signal that cannot be delivered to a process that is there. */
  predicate Undelivered(h: Host, pid: nat) {
    pid in h.processes && !h.processes[pid].permitted
  }

  function AwaitGone(h: Host, pid: nat, deadline: int, turns: seq<Turn>): Run
    decreases |turns|
  {
    if pid !in h.processes || h.Now() >= deadline then Run(h, turns, Yes)
    else if turns == [] then Run(h, turns, Died)
    else AwaitGone(Pass(h, turns[0]), pid, deadline, turns[1..])
  }

  /** Asked to end, and given the grace period. */
  function Ask(h: Host, j: Judgement, grace: nat, turns: seq<Turn>): Run {
    AwaitGone(Signalled(h, j, false), j.record.pid, h.Now() + grace, turns)
  }

  /** Killed, as the last resort. */
  function Kill(h: Host, j: Judgement, turns: seq<Turn>): Run {
    var killed := AwaitGone(Signalled(h, j, true), j.record.pid, h.Now() + KILL_WAIT_MS, turns);
    if killed.verdict.Yes? && j.record.pid in killed.host.processes then killed.(verdict := No) else killed
  }

  function Terminate(h: Host, j: Judgement, grace: nat, turns: seq<Turn>): Run {
    if Undelivered(h, j.record.pid) then Run(h, turns, No)
    else
      var asked := Ask(h, j, grace, turns);
      if asked.verdict.Died? || j.record.pid !in asked.host.processes then asked
      else if Undelivered(asked.host, j.record.pid) then asked.(verdict := No)
      else Kill(asked.host, j, asked.turns)
  }

  // ----- One file ----------------------------------------------------------------------------

  function Remove(h: Host, name: string, turns: seq<Turn>): Run {
    if turns == [] then Run(h, turns, Died)
    else
      var after := Pass(h, turns[0]);
      if turns[0].fails then Run(after, turns[1..], No)
      else Run(after.(files := after.files - {name}), turns[1..], Yes)
  }

  /** Asks `ps` for the age of a live process, and ends the process if that is the age its record tells. */
  function JudgeProcess(h: Host, name: string, record: Record, grace: nat, turns: seq<Turn>): Run {
    if |turns| < 2 then Run(h, turns, Died)
    else
      var sampled := Pass(h, turns[0]);
      var answered := Pass(sampled, turns[1]);
      if turns[1].fails || record.pid !in sampled.processes then Run(answered, turns[2..], No)
      else
        var j := Judgement(record, sampled.processes[record.pid], sampled.uptime, answered.uptime, answered.skew);
        var judged := answered.(judged := answered.judged + [j]);
        var ended :=
          if j.Agrees() then Terminate(judged, j, grace, turns[2..]) else Run(judged, turns[2..], Yes);
        if ended.verdict.Yes? then Remove(ended.host, name, ended.turns) else ended
  }

  function EndRecorded(h: Host, name: string, record: Record, grace: nat, turns: seq<Turn>): Run {
    if record.pid in h.processes then JudgeProcess(h, name, record, grace, turns) else Remove(h, name, turns)
  }

  /** Deals with one file: ends the process it records and removes it, if it is about the placement. */
  function FenceFile(h: Host, name: string, placement: Placement, grace: nat, turns: seq<Turn>): Run {
    if turns == [] then Run(h, turns, Died)
    else
      var read, rest := Pass(h, turns[0]), turns[1..];
      if turns[0].fails || name !in read.files || read.files[name].Unreadable? then Run(read, rest, No)
      else
        var record := read.files[name].record;
        if record.workloadId != placement.projectId then Run(read, rest, Yes)
        else if record.placement != Some(placement) then Run(read, rest, No)
        else EndRecorded(read, name, record, grace, rest)
  }

  // ----- The whole of it -----------------------------------------------------------------------

  /** Another placement of the same Project. */
  predicate Other(p: Placement, placement: Placement) {
    p.projectId == placement.projectId && p != placement
  }

  /** `handle.stop`: comes back once the child has exited. */
  function Stopped(h: Host, pid: nat, t: Turn): Host {
    var after := Pass(h, t);
    after.(processes := if NotPlaced(after.processes, pid) then after.processes else after.processes - {pid},
           handles := Without(after.handles, pid))
  }

  function Without(handles: seq<Handle>, pid: nat): seq<Handle> {
    if handles == [] then []
    else if handles[0].pid == pid then Without(handles[1..], pid)
    else [handles[0]] + Without(handles[1..], pid)
  }

  /** Stops what this runner itself holds of the Project; not if that runs under another placement. */
  function StopOwn(h: Host, held: seq<Handle>, placement: Placement, turns: seq<Turn>): Run
    decreases |held|
  {
    if held == [] then Run(h, turns, Yes)
    else if held[0].placement.projectId != placement.projectId then StopOwn(h, held[1..], placement, turns)
    else if held[0].placement != placement then Run(h, turns, No)
    else if turns == [] then Run(h, turns, Died)
    else
      var after := Stopped(h, held[0].pid, turns[0]);
      if turns[0].fails then Run(after, turns[1..], No)
      else StopOwn(after, held[1..], placement, turns[1..])
  }

  function FenceFiles(h: Host, names: seq<string>, placement: Placement, grace: nat, turns: seq<Turn>): Run
    decreases |names|
  {
    if names == [] then Run(h, turns, Yes)
    else
      var first := FenceFile(h, names[0], placement, grace, turns);
      if first.verdict.Yes? then FenceFiles(first.host, names[1..], placement, grace, first.turns) else first
  }

  /** The names in the order in which the directory lists them. */
  function Listed(order: seq<string>, files: map<string, File>): seq<string> {
    if order == [] then []
    else if order[0] in files then [order[0]] + Listed(order[1..], files)
    else Listed(order[1..], files)
  }

  /** `fencePlacement` of a runner with a state directory. */
  function Fence(h: Host, order: seq<string>, placement: Placement, grace: nat, turns: seq<Turn>): Run {
    var own := StopOwn(h, h.handles, placement, turns);
    if !own.verdict.Yes? then own
    else if own.turns == [] then own.(verdict := Died)
    else
      var listed := Pass(own.host, own.turns[0]);
      if own.turns[0].fails then Run(listed, own.turns[1..], No)
      else FenceFiles(listed, Listed(order, listed.files), placement, grace, own.turns[1..])
  }

  // ----- What holds at every await ----------------------------------------------------------------

  /** A readable record about another workload. */
  predicate Elsewhere(file: File, placement: Placement) {
    file.Readable? && file.record.workloadId != placement.projectId
  }

  /** The file is the record of the process `p` under `pid`. */
  predicate Covers(file: File, pid: nat, p: Process) {
    && file.Readable? && p.placement.Some?
    && file.record.pid == pid && file.record.placement == p.placement
    && file.record.workloadId == p.placement.value.projectId
  }

  ghost predicate HasRecord(files: map<string, File>, pid: nat, p: Process) {
    exists name :: name in files && Covers(files[name], pid, p)
  }

  /** A process whose age, as it was read and compared, contradicted its record. */
  predicate Misjudges(j: Judgement, pid: nat, p: Process) {
    j.record.pid == pid && j.process == p && !j.Agrees()
  }

  ghost predicate Misjudged(judged: seq<Judgement>, pid: nat, p: Process) {
    exists j :: j in judged && Misjudges(j, pid, p)
  }

  ghost predicate Known(h: Host, pid: nat, p: Process) {
    HasRecord(h.files, pid, p) || Misjudged(h.judged, pid, p)
  }

  /** Every live placed process has its record, or was misjudged. */
  ghost predicate Recorded(h: Host) {
    forall pid {:trigger h.processes[pid]} :: pid in h.processes && h.processes[pid].placement.Some? ==>
      Known(h, pid, h.processes[pid])
  }

  /** Sent on a judgement that agreed, to the process that was judged or to one that took over its pid since. */
  predicate Fair(s: Signal) {
    && s.judgement.Agrees() && s.judgement.read <= s.judgement.at <= s.at
    && SinceThen(s.target, s.judgement)
  }

  predicate SinceThen(p: Process, j: Judgement) {
    p == j.process || (p.placement.None? && p.born >= j.read)
  }

  ghost predicate FairAt(signals: seq<Signal>, i: nat)
    requires i < |signals|
  {
    && Fair(signals[i])
    && (signals[i].kill ==> i > 0 && !signals[i - 1].kill && signals[i - 1].judgement == signals[i].judgement)
  }

  /** Nothing is asked to end whose age, as read, contradicts its record, and nothing killed that was not asked. */
  ghost predicate Careful(signals: seq<Signal>) {
    forall i {:trigger FairAt(signals, i)} :: 0 <= i < |signals| ==> FairAt(signals, i)
  }

  ghost predicate Inv(h: Host) {
    Recorded(h) && Careful(h.signals)
  }

  /** A process only ever stays as it was, or is gone and its pid perhaps taken by one that no placement knows. */
  ghost predicate OnlyLeave(h: Host, h': Host) {
    forall pid :: pid in h'.processes ==>
      (pid in h.processes && h'.processes[pid] == h.processes[pid])
      || (h'.processes[pid].placement.None? && h'.processes[pid].born >= h.uptime)
  }

  ghost predicate Evolves(h: Host, h': Host) {
    && OnlyLeave(h, h') && h.uptime <= h'.uptime
    && (forall name :: name in h'.files ==> name in h.files && h'.files[name] == h.files[name])
    && h.judged <= h'.judged && h.signals <= h'.signals
  }

  lemma EvolvesOn(a: Host, b: Host, c: Host)
    requires Evolves(a, b) && Evolves(b, c)
    ensures Evolves(a, c)
  {
  }

  lemma PassKeeps(h: Host, t: Turn)
    requires Inv(h)
    ensures Inv(Pass(h, t)) && Evolves(h, Pass(h, t))
    ensures Pass(h, t).signals == h.signals && Pass(h, t).judged == h.judged
  {
    var after := Pass(h, t);
    forall pid | pid in after.processes && after.processes[pid].placement.Some?
      ensures Known(after, pid, after.processes[pid])
    {
      assert Known(h, pid, h.processes[pid]);
      if HasRecord(h.files, pid, h.processes[pid]) {
        var name :| name in h.files && Covers(h.files[name], pid, h.processes[pid]);
        assert name in after.files;
      }
    }
  }

  lemma {:induction false} AwaitKeeps(h: Host, pid: nat, deadline: int, turns: seq<Turn>)
    requires Inv(h)
    ensures var run := AwaitGone(h, pid, deadline, turns);
            && Inv(run.host) && Evolves(h, run.host) && !run.verdict.No?
            && run.host.signals == h.signals && run.host.judged == h.judged
            && (pid !in h.processes ==> run.host == h)
    decreases |turns|
  {
    if pid in h.processes && h.Now() < deadline && turns != [] {
      PassKeeps(h, turns[0]);
      hide Inv, Pass;
      AwaitKeeps(Pass(h, turns[0]), pid, deadline, turns[1..]);
      EvolvesOn(h, Pass(h, turns[0]), AwaitGone(h, pid, deadline, turns).host);
    }
  }

  /** What is now under the judged pid is what was judged, or took over the pid since. */
  predicate Follows(h: Host, j: Judgement) {
    && j.read <= j.at <= h.uptime && j in h.judged
    && (j.record.pid in h.processes ==> SinceThen(h.processes[j.record.pid], j))
  }

  lemma FollowsOn(h: Host, h': Host, j: Judgement)
    requires Follows(h, j) && Evolves(h, h')
    ensures Follows(h', j)
  {
    assert h.judged == h'.judged[..|h.judged|];
  }

  lemma SignalKeeps(h: Host, j: Judgement, kill: bool)
    requires Inv(h) && Follows(h, j) && j.Agrees()
    requires kill ==> AskedLast(h, j)
    ensures Inv(Signalled(h, j, kill)) && Evolves(h, Signalled(h, j, kill)) && Follows(Signalled(h, j, kill), j)
  {
    var h' := Signalled(h, j, kill);
    hide Judgement.Agrees;
    assert Recorded(h') by {
      forall pid | pid in h'.processes && h'.processes[pid].placement.Some?
        ensures Known(h', pid, h'.processes[pid])
      {
        assert Known(h, pid, h.processes[pid]);
      }
    }
    forall i | 0 <= i < |h'.signals|
      ensures FairAt(h'.signals, i)
    {
      if i < |h.signals| {
        assert FairAt(h.signals, i);
      }
    }
  }

  predicate AskedLast(h: Host, j: Judgement) {
    h.signals != [] && !h.signals[|h.signals| - 1].kill && h.signals[|h.signals| - 1].judgement == j
  }

  lemma AskKeeps(h: Host, j: Judgement, grace: nat, turns: seq<Turn>)
    requires Inv(h) && Follows(h, j) && j.Agrees() && !Undelivered(h, j.record.pid)
    ensures var run := Ask(h, j, grace, turns);
            && Inv(run.host) && Evolves(h, run.host) && run.host.judged == h.judged && Follows(run.host, j)
            && !run.verdict.No? && (j.record.pid in run.host.processes ==> AskedLast(run.host, j))
  {
    var h1 := Signalled(h, j, false);
    SignalKeeps(h, j, false);
    assert j.record.pid in h.processes ==> AskedLast(h1, j);
    AwaitKeeps(h1, j.record.pid, h.Now() + grace, turns);
    hide Inv, AwaitGone, Judgement.Agrees, Follows;
    EvolvesOn(h, h1, Ask(h, j, grace, turns).host);
    FollowsOn(h1, Ask(h, j, grace, turns).host, j);
  }

  lemma KillKeeps(h: Host, j: Judgement, turns: seq<Turn>)
    requires Inv(h) && Follows(h, j) && j.Agrees() && AskedLast(h, j)
    ensures var run := Kill(h, j, turns);
            && Inv(run.host) && Evolves(h, run.host) && run.host.judged == h.judged
            && (run.verdict.Yes? ==> j.record.pid !in run.host.processes)
  {
    var h1 := Signalled(h, j, true);
    SignalKeeps(h, j, true);
    AwaitKeeps(h1, j.record.pid, h.Now() + KILL_WAIT_MS, turns);
    hide Inv, AwaitGone, Judgement.Agrees, Follows;
    EvolvesOn(h, h1, AwaitGone(h1, j.record.pid, h.Now() + KILL_WAIT_MS, turns).host);
  }

  lemma TerminateKeeps(h: Host, j: Judgement, grace: nat, turns: seq<Turn>)
    requires Inv(h) && Follows(h, j) && j.Agrees()
    ensures var run := Terminate(h, j, grace, turns);
            && Inv(run.host) && Evolves(h, run.host) && run.host.judged == h.judged
            && (run.verdict.Yes? ==> j.record.pid !in run.host.processes)
  {
    if !Undelivered(h, j.record.pid) {
      AskKeeps(h, j, grace, turns);
      var asked := Ask(h, j, grace, turns);
      if !asked.verdict.Died? && j.record.pid in asked.host.processes && !Undelivered(asked.host, j.record.pid) {
        KillKeeps(asked.host, j, asked.turns);
        hide Inv, Evolves, Follows, AskedLast, Judgement.Agrees, Ask, Kill;
        EvolvesOn(h, asked.host, Kill(asked.host, j, asked.turns).host);
      }
    }
  }

  /** A record may go once its process has, or was misjudged. */
  ghost predicate MayGo(h: Host, record: Record) {
    record.pid in h.processes && h.processes[record.pid].placement.Some? ==>
      Misjudged(h.judged, record.pid, h.processes[record.pid])
  }

  lemma RemoveKeeps(h: Host, name: string, record: Record, turns: seq<Turn>)
    requires Inv(h) && MayGo(h, record) && (name in h.files ==> h.files[name] == Readable(record))
    ensures var run := Remove(h, name, turns);
            && Inv(run.host) && Evolves(h, run.host) && (run.verdict.Yes? ==> name !in run.host.files)
  {
    if turns != [] {
      var after := Pass(h, turns[0]);
      PassKeeps(h, turns[0]);
      hide Pass;
      var cleared := after.(files := after.files - {name});
      forall pid | pid in cleared.processes && cleared.processes[pid].placement.Some?
        ensures Known(cleared, pid, cleared.processes[pid])
      {
        assert Known(after, pid, after.processes[pid]);
        if pid != record.pid && HasRecord(after.files, pid, after.processes[pid]) {
          var n :| n in after.files && Covers(after.files[n], pid, after.processes[pid]);
          assert n in cleared.files;
        }
      }
    }
  }

  lemma JudgeKeeps(h: Host, name: string, record: Record, grace: nat, turns: seq<Turn>)
    requires Inv(h) && (name in h.files ==> h.files[name] == Readable(record))
    ensures var run := JudgeProcess(h, name, record, grace, turns);
            && Inv(run.host) && Evolves(h, run.host) && (run.verdict.Yes? ==> name !in run.host.files)
  {
    if |turns| >= 2 {
      var sampled := Pass(h, turns[0]);
      var answered := Pass(sampled, turns[1]);
      PassKeeps(h, turns[0]);
      PassKeeps(sampled, turns[1]);
      EvolvesOn(h, sampled, answered);
      if !turns[1].fails && record.pid in sampled.processes {
        var j := Judgement(record, sampled.processes[record.pid], sampled.uptime, answered.uptime, answered.skew);
        var judged := answered.(judged := answered.judged + [j]);
        JudgingKeeps(answered, j);
        assert Follows(judged, j) && Evolves(h, judged);
        var ended :=
          if j.Agrees() then Terminate(judged, j, grace, turns[2..]) else Run(judged, turns[2..], Yes);
        hide Pass, Inv, Terminate;
        if j.Agrees() {
          TerminateKeeps(judged, j, grace, turns[2..]);
          EvolvesOn(h, judged, ended.host);
        }
        if ended.verdict.Yes? {
          assert !j.Agrees() ==> j in judged.judged && Misjudges(j, record.pid, j.process);
          RemoveKeeps(ended.host, name, record, ended.turns);
          hide Evolves;
          EvolvesOn(h, ended.host, Remove(ended.host, name, ended.turns).host);
        }
      }
    }
  }

  lemma JudgingKeeps(h: Host, j: Judgement)
    requires Inv(h)
    ensures Inv(h.(judged := h.judged + [j]))
  {
    var h' := h.(judged := h.judged + [j]);
    forall pid | pid in h'.processes && h'.processes[pid].placement.Some?
      ensures Known(h', pid, h'.processes[pid])
    {
      assert Known(h, pid, h.processes[pid]);
    }
  }

  lemma EndKeeps(h: Host, name: string, record: Record, grace: nat, turns: seq<Turn>)
    requires Inv(h) && (name in h.files ==> h.files[name] == Readable(record))
    ensures var run := EndRecorded(h, name, record, grace, turns);
            && Inv(run.host) && Evolves(h, run.host) && (run.verdict.Yes? ==> name !in run.host.files)
  {
    hide Inv, Evolves, JudgeProcess, Remove;
    if record.pid in h.processes {
      JudgeKeeps(h, name, record, grace, turns);
    } else {
      RemoveKeeps(h, name, record, turns);
    }
  }

  lemma FenceFileKeeps(h: Host, name: string, placement: Placement, grace: nat, turns: seq<Turn>)
    requires Inv(h)
    ensures var run := FenceFile(h, name, placement, grace, turns);
            && Inv(run.host) && Evolves(h, run.host)
            && (run.verdict.Yes? && name in run.host.files ==> Elsewhere(run.host.files[name], placement))
  {
    hide Inv, Pass, EndRecorded;
    if turns != [] {
      var read := Pass(h, turns[0]);
      PassKeeps(h, turns[0]);
      if !turns[0].fails && name in read.files && read.files[name].Readable? {
        EndKeeps(read, name, read.files[name].record, grace, turns[1..]);
        hide Evolves;
        EvolvesOn(h, read, EndRecorded(read, name, read.files[name].record, grace, turns[1..]).host);
      }
    } else {
      assert Evolves(h, h);
    }
  }

  lemma {:induction false} FenceFilesKeep(h: Host, names: seq<string>, placement: Placement, grace: nat, turns: seq<Turn>)
    requires Inv(h)
    ensures var run := FenceFiles(h, names, placement, grace, turns);
            && Inv(run.host) && Evolves(h, run.host)
            && (run.verdict.Yes? ==> forall name :: name in names && name in run.host.files ==>
                  Elsewhere(run.host.files[name], placement))
    decreases |names|
  {
    hide Inv, FenceFile;
    if names != [] {
      var first := FenceFile(h, names[0], placement, grace, turns);
      FenceFileKeeps(h, names[0], placement, grace, turns);
      if first.verdict.Yes? {
        FenceFilesKeep(first.host, names[1..], placement, grace, first.turns);
        EvolvesOn(h, first.host, FenceFiles(h, names, placement, grace, turns).host);
      }
    }
  }

  lemma StoppedKeeps(h: Host, pid: nat, t: Turn)
    requires Inv(h)
    ensures Inv(Stopped(h, pid, t)) && Evolves(h, Stopped(h, pid, t))
  {
    PassKeeps(h, t);
    var after, stopped := Pass(h, t), Stopped(h, pid, t);
    hide Pass;
    forall p | p in stopped.processes && stopped.processes[p].placement.Some?
      ensures Known(stopped, p, stopped.processes[p])
    {
      assert Known(after, p, after.processes[p]);
    }
  }

  lemma {:induction false} StopOwnKeeps(h: Host, held: seq<Handle>, placement: Placement, turns: seq<Turn>)
    requires Inv(h)
    ensures var run := StopOwn(h, held, placement, turns);
            && Inv(run.host) && Evolves(h, run.host)
            && (run.verdict.Yes? ==> forall handle :: handle in held ==> !Other(handle.placement, placement))
    decreases |held|
  {
    hide Inv, Stopped;
    if held != [] {
      if held[0].placement.projectId != placement.projectId {
        StopOwnKeeps(h, held[1..], placement, turns);
      } else if held[0].placement == placement && turns != [] {
        var after := Stopped(h, held[0].pid, turns[0]);
        StoppedKeeps(h, held[0].pid, turns[0]);
        if !turns[0].fails {
          StopOwnKeeps(after, held[1..], placement, turns[1..]);
          EvolvesOn(h, after, StopOwn(h, held, placement, turns).host);
        }
      }
    }
  }

  lemma {:induction false} ListedAll(order: seq<string>, files: map<string, File>)
    ensures forall name :: name in Listed(order, files) <==> name in order && name in files
  {
    if order != [] {
      ListedAll(order[1..], files);
      assert order == [order[0]] + order[1..];
    }
  }

  ghost predicate ListsAll(order: seq<string>, files: map<string, File>) {
    forall name :: name in files ==> name in order
  }

  /** Every run of `fencePlacement`, to its end or to wherever the Platform dies, keeps the invariant. */
  lemma FenceKeeps(h: Host, order: seq<string>, placement: Placement, grace: nat, turns: seq<Turn>)
    requires Inv(h)
    ensures var run := Fence(h, order, placement, grace, turns);
            && Inv(run.host) && Evolves(h, run.host)
            && (run.verdict.Yes? ==>
                  && (forall handle :: handle in h.handles ==> !Other(handle.placement, placement))
                  && (ListsAll(order, h.files) ==> forall name :: name in run.host.files ==>
                        Elsewhere(run.host.files[name], placement)))
  {
    var own := StopOwn(h, h.handles, placement, turns);
    StopOwnKeeps(h, h.handles, placement, turns);
    hide Inv, StopOwn, FenceFiles;
    if own.verdict.Yes? && own.turns != [] {
      var listed := Pass(own.host, own.turns[0]);
      PassKeeps(own.host, own.turns[0]);
      hide Pass;
      EvolvesOn(h, own.host, listed);
      if !own.turns[0].fails {
        var names := Listed(order, listed.files);
        ListedAll(order, listed.files);
        FenceFilesKeep(listed, names, placement, grace, own.turns[1..]);
        EvolvesOn(h, listed, FenceFiles(listed, names, placement, grace, own.turns[1..]).host);
      }
    }
  }

  // ----- What fencing is for --------------------------------------------------------------------------

  ghost predicate AllGone(h: Host, placement: Placement) {
    forall pid :: pid in h.processes ==> h.processes[pid].placement != Some(placement)
  }

  /** Whenever a process of the placement was judged, drift, delay and fraction were within the tolerance. */
  ghost predicate Timely(judged: seq<Judgement>, placement: Placement) {
    forall j :: j in judged && j.process.placement == Some(placement) ==>
      -30_000 <= Apart(j.record, j.process, j.read, j.at, j.skew) <= 30_000
  }

  ghost predicate Survives(j: Judgement, h: Host) {
    j.record.pid in h.processes && h.processes[j.record.pid] == j.process
  }

  /**
    When fencing succeeds, what is left of the placement is exactly what was misjudged and has not
    ended since. So nothing is left if every judgement was timely.
  */
  lemma FencedIsGone(h: Host, order: seq<string>, placement: Placement, grace: nat, turns: seq<Turn>)
    requires Inv(h) && ListsAll(order, h.files)
    ensures var run := Fence(h, order, placement, grace, turns);
            run.verdict.Yes? ==>
              && (AllGone(run.host, placement) <==>
                    forall j :: j in run.host.judged && j.process.placement == Some(placement) && !j.Agrees() ==>
                      !Survives(j, run.host))
              && (Timely(run.host.judged, placement) ==> AllGone(run.host, placement))
  {
    var run := Fence(h, order, placement, grace, turns);
    FenceKeeps(h, order, placement, grace, turns);
    hide Fence;
    if run.verdict.Yes? {
      forall pid | pid in run.host.processes && run.host.processes[pid].placement == Some(placement)
        ensures Misjudged(run.host.judged, pid, run.host.processes[pid])
      {
        assert Known(run.host, pid, run.host.processes[pid]);
      }
      forall j | j in run.host.judged && j.process.placement == Some(placement)
        ensures j.Agrees() <==> -30_000 <= Apart(j.record, j.process, j.read, j.at, j.skew) <= 30_000
      {
        AgreeExactly(j.record, j.process, j.read, j.at, j.skew);
      }
    }
  }

  function Quiet(elapsed: nat, clockSet: int): Turn {
    Turn(elapsed, clockSet, {}, map[], {}, false)
  }

  const QUIET := Quiet(0, 0)

  /** A host with one placed process and the file of its record. */
  function OneProcess(r: Record, p: Process, uptime: int, skew: int): Host {
    Host(map[r.pid := p], map["record.json" := Readable(r)], [], uptime, skew, [], [])
  }

  lemma PassQuiet(h: Host, elapsed: nat, clockSet: int)
    ensures Pass(h, Quiet(elapsed, clockSet)) == h.(uptime := h.uptime + elapsed, skew := h.skew + clockSet)
  {
    var t := Quiet(elapsed, clockSet);
    assert h.processes - t.ended == h.processes && Arrived(h, t) == map[];
    assert Pass(h, t).files == h.files;
  }

  lemma FenceOne(h: Host, name: string, placement: Placement, grace: nat, turns: seq<Turn>)
    ensures FenceFiles(h, [name], placement, grace, turns) == FenceFile(h, name, placement, grace, turns)
  {
    assert [name][1..] == [];
  }

  /** A process that nothing happens to is not ended. */
  lemma QuietStays(h: Host, j: Judgement, grace: nat)
    requires j.record.pid in h.processes
    ensures !Terminate(h, j, grace, [QUIET]).verdict.Yes?
  {
    var asked := Ask(h, j, grace, [QUIET]);
    AwaitQuiet(Signalled(h, j, false), j.record.pid, h.Now() + grace, [QUIET]);
    if asked.verdict.Yes? {
      AwaitQuiet(Signalled(asked.host, j, true), j.record.pid, asked.host.Now() + KILL_WAIT_MS, asked.turns);
    }
  }

  lemma AwaitQuiet(h: Host, pid: nat, deadline: int, turns: seq<Turn>)
    requires pid in h.processes && (turns == [] || turns == [QUIET])
    ensures var run := AwaitGone(h, pid, deadline, turns);
            pid in run.host.processes && (run.turns == [] || run.turns == [QUIET]) && !run.verdict.No?
  {
    if turns == [QUIET] {
      PassQuiet(h, 0, 0);
      assert turns[1..] == [];
    }
  }

  /**
    The other half: for any process with its record, and any `delay` and setting of the clock between
    reading the age and comparing it, fencing succeeds and leaves the process alive exactly if these
    put the ages too far apart.
  */
  lemma MisjudgedIsLeft(placement: Placement, r: Record, p: Process, uptime: int, skew: int,
                        before: nat, delay: nat, clockSet: int, grace: nat)
    requires r.workloadId == placement.projectId && r.placement == p.placement == Some(placement)
    ensures var run := Fence(OneProcess(r, p, uptime, skew), ["record.json"], placement, grace,
                             [QUIET, QUIET, Quiet(before, 0), Quiet(delay, clockSet), QUIET]);
            && (run.verdict.Yes? <==>
                  !(-30_000 <= Apart(r, p, uptime + before, uptime + before + delay, skew + clockSet) <= 30_000))
            && (run.verdict.Yes? ==> run.host.processes == map[r.pid := p] && run.host.files == map[])
  {
    var h, read := OneProcess(r, p, uptime, skew), uptime + before;
    var compared := OneProcess(r, p, read + delay, skew + clockSet);
    var j := Judgement(r, p, read, read + delay, skew + clockSet);
    var turns := [QUIET, QUIET, Quiet(before, 0), Quiet(delay, clockSet), QUIET];
    assert turns[1..] == [QUIET, Quiet(before, 0), Quiet(delay, clockSet), QUIET];
    assert turns[1..][1..] == [Quiet(before, 0), Quiet(delay, clockSet), QUIET];
    assert turns[1..][1..][2..] == [QUIET];
    PassQuiet(h, 0, 0);
    PassQuiet(h, before, 0);
    PassQuiet(OneProcess(r, p, read, skew), delay, clockSet);
    PassQuiet(compared.(judged := [j]), 0, 0);
    QuietStays(compared.(judged := [j]), j, grace);
    AgreeExactly(r, p, read, read + delay, skew + clockSet);
    hide Pass, Terminate, AgesAgree;
    FenceOne(h, "record.json", placement, grace, turns[1..]);
    var ts := turns[1..][1..];
    assert Pass(h, ts[0]) == OneProcess(r, p, read, skew);
    assert Pass(OneProcess(r, p, read, skew), ts[1]) == compared;
    assert compared.judged + [j] == [j];
    assert JudgeProcess(h, "record.json", r, grace, ts).verdict.Yes? <==> !j.Agrees();
    assert FenceFile(h, "record.json", placement, grace, turns[1..])
        == JudgeProcess(h, "record.json", r, grace, turns[1..][1..]);
    assert Listed(["record.json"], h.files) == ["record.json"];
    assert StopOwn(h, [], placement, turns) == Run(h, turns, Yes);
  }

  // ----- Who is signalled ---------------------------------------------------------------------------

  /**
    In every run: a signal goes to the process that was judged, whose age then agrees with the record
    exactly as far as the clock was not set too much since, or to a newcomer under its pid. The age
    of a newcomer can only agree when the record itself was hardly older than the tolerance.
  */
  lemma SignalledAges(h: Host, s: Signal)
    requires Careful(h.signals) && s in h.signals
    ensures var j := s.judgement;
            && j.Agrees() && SinceThen(s.target, j)
            && (s.Agrees() <==> -30_000 <= Apart(j.record, s.target, s.at, s.at, s.skew) <= 30_000)
            && (s.target == j.process ==>
                  Drift(j.record, s.target, s.skew) == Drift(j.record, j.process, j.skew) - (s.skew - j.skew))
            && (s.target != j.process && s.Agrees() ==>
                  RecordedAge(j.record, j.at, j.skew) <= 30_000 + (j.at - j.read) - (s.skew - j.skew))
  {
    var i :| 0 <= i < |h.signals| && h.signals[i] == s;
    assert FairAt(h.signals, i);
    AgreeExactly(s.judgement.record, s.target, s.at, s.at, s.skew);
  }

  lemma AwaitGrace(h: Host, pid: nat, grace: nat, t: Turn, turns: seq<Turn>)
    requires pid in h.processes && grace > 0 && t.elapsed == grace && t.clockSet == 0
    ensures AwaitGone(h, pid, h.Now() + grace, [t] + turns) == Run(Pass(h, t), turns, Yes)
  {
    assert ([t] + turns)[1..] == turns;
  }

  /**
    The process that was judged ends within the grace period and another takes over its pid: then
    that one is killed, whatever its age. The ages contradict whenever the record is older than the tolerance.
  */
  lemma LastResortCanMissItsTarget(j: Judgement, n: Process, grace: nat)
    requires grace > 0 && j.Agrees() && j.process.permitted && n.permitted && n.placement.None?
    requires j.at <= n.born <= j.at + grace
    ensures var h := OneProcess(j.record, j.process, j.at, j.skew);
            var pid := j.record.pid;
            var taken, ended := Turn(grace, 0, {pid}, map[pid := n], {}, false), Turn(0, 0, {pid}, map[], {}, false);
            var run := Terminate(h, j, grace, [taken, ended]);
            && run.verdict.Yes? && |run.host.signals| == 2
            && run.host.signals[0] == Signal(j, false, j.process, j.at, j.skew)
            && run.host.signals[1] == Signal(j, true, n, j.at + grace, j.skew)
            && (RecordedAge(j.record, j.at, j.skew) > 30_000 ==> !run.host.signals[1].Agrees())
  {
    var h := OneProcess(j.record, j.process, j.at, j.skew);
    var pid := j.record.pid;
    var taken, ended := Turn(grace, 0, {pid}, map[pid := n], {}, false), Turn(0, 0, {pid}, map[], {}, false);
    var asked := Signalled(h, j, false);
    assert [taken, ended] == [taken] + [ended];
    AwaitGrace(asked, pid, grace, taken, [ended]);
    var after := Pass(asked, taken);
    assert Arrived(asked, taken) == map[pid := n];
    assert after.processes == map[pid := n];
    assert Terminate(h, j, grace, [taken, ended]) == Kill(after, j, [ended]);
    var killed := Signalled(after, j, true);
    assert Pass(killed, ended).processes == map[];
    assert [ended][1..] == [];
    hide Pass;
    assert AwaitGone(killed, pid, after.Now() + KILL_WAIT_MS, [ended]) == Run(Pass(killed, ended), [], Yes);
    AgreeExactly(j.record, n, j.at + grace, j.at + grace, j.skew);
  }

  // ----- The runner --------------------------------------------------------------------------------

  datatype Started = Running(pid: nat) | Failed | PlatformDied

  /** A runner on its host; `turns` is what is still going to happen at its awaits. */
  class Runner {
    const hasDirectory: bool
    const grace: nat
    var host: Host
    var turns: seq<Turn>

    constructor (hasDirectory: bool, grace: nat, host: Host, turns: seq<Turn>)
      ensures this.hasDirectory == hasDirectory && this.grace == grace && this.host == host && this.turns == turns
    {
      this.hasDirectory, this.grace, this.host, this.turns := hasDirectory, grace, host, turns;
    }

    /**
      `start`, from the spawn on. A placed process that gets no record is killed again. Only when
      the Platform dies between the spawn and the record is a placed process left without one.
    */
    method Start(workloadId: string, placement: Option<Placement>) returns (r: Started)
      requires Inv(host) && (placement.Some? ==> placement.value.projectId == workloadId)
      modifies this`host
      ensures !r.PlatformDied? ==> Inv(host)
      ensures r.Running? ==>
                && r.pid !in old(host).processes
                && host.processes == old(host).processes[r.pid := Process(host.uptime, placement, true)]
                && (placement.Some? ==> Handle(r.pid, placement.value) in host.handles)
      ensures r.Failed? ==> host.processes == old(host).processes
      ensures r.PlatformDied? ==>
                host.processes == old(host).processes
                || exists pid: nat :: pid !in old(host).processes
                     && host.processes == old(host).processes[pid := Process(host.uptime, placement, true)]
    {
      var pid: int := *;
      if pid < 1 || pid in host.processes {
        return Failed;
      }
      ghost var before := host;
      var child := Process(host.uptime, placement, true);
      host := host.(processes := host.processes[pid := child]);
      var written: bool := *;
      var dies: bool := *;
      if dies {
        return PlatformDied;
      }
      var name: string := *;
      if !hasDirectory || !written || name in host.files {
        if placement.Some? {
          host := host.(processes := host.processes - {pid});
          assert host.processes == before.processes;
          return Failed;
        }
        UnplacedKeeps(before, pid, child);
        return Running(pid);
      }
      var record := Record(workloadId, pid, host.Now(), placement);
      NewlyRecorded(before, pid, child, name, record);
      host := host.(files := host.files[name := Readable(record)]);
      if placement.Some? {
        host := host.(handles := host.handles + [Handle(pid, placement.value)]);
      }
      r := Running(pid);
    }

    method Wait() returns (died: bool, fails: bool)
      requires Inv(host)
      modifies this
      ensures Inv(host) && Evolves(old(host), host)
      ensures died == (old(turns) == [])
      ensures died ==> host == old(host) && turns == old(turns)
      ensures !died ==> host == Pass(old(host), old(turns)[0]) && turns == old(turns)[1..] && fails == old(turns)[0].fails
    {
      if turns == [] {
        return true, false;
      }
      PassKeeps(host, turns[0]);
      hide Inv, Pass;
      host, fails, turns := Pass(host, turns[0]), turns[0].fails, turns[1..];
      died := false;
    }

    /** Polls until a process is gone or the time is up. */
    method WaitUntilGone(pid: nat, deadline: int) returns (died: bool)
      requires Inv(host)
      modifies this
      ensures Inv(host)
      ensures Run(host, turns, if died then Died else Yes) == AwaitGone(old(host), pid, deadline, old(turns))
    {
      hide Inv, Pass;
      while pid in host.processes && host.Now() < deadline
        invariant Inv(host)
        invariant AwaitGone(host, pid, deadline, turns) == AwaitGone(old(host), pid, deadline, old(turns))
        decreases |turns|
      {
        var fails;
        died, fails := Wait();
        if died {
          return true;
        }
      }
      died := false;
    }

    method Send(j: Judgement, kill: bool) returns (thrown: bool)
      modifies this`host
      ensures host == Signalled(old(host), j, kill)
      ensures thrown == Undelivered(old(host), j.record.pid)
    {
      thrown := Undelivered(host, j.record.pid);
      host := Signalled(host, j, kill);
    }

    /** Ends a judged process: asked first, killed after the grace period. */
    method End(j: Judgement) returns (v: Verdict)
      requires Inv(host) && Follows(host, j) && j.Agrees()
      modifies this
      ensures Inv(host)
      ensures Run(host, turns, v) == Terminate(old(host), j, grace, old(turns))
      ensures v.Yes? ==> j.record.pid !in host.processes
    {
      TerminateKeeps(host, j, grace, turns);
      hide Inv, Evolves, Judgement.Agrees, AwaitGone, Signalled;
      var pid := j.record.pid;
      var deadline := host.Now() + grace;
      if !Undelivered(host, pid) {
        SignalKeeps(host, j, false);
        AskKeeps(host, j, grace, turns);
      }
      var thrown := Send(j, false);
      if thrown {
        return No;
      }
      var died := WaitUntilGone(pid, deadline);
      if died {
        return Died;
      }
      if pid in host.processes {
        deadline := host.Now() + KILL_WAIT_MS;
        SignalKeeps(host, j, true);
        thrown := Send(j, true);
        if thrown {
          return No;
        }
        died := WaitUntilGone(pid, deadline);
        if died {
          return Died;
        }
        if pid in host.processes {
          return No;
        }
      }
      v := Yes;
    }

    /** Reads the age of a live process, and ends it if that is the age its record tells. */
    method Judge(record: Record) returns (v: Verdict)
      requires Inv(host) && record.pid in host.processes && |turns| >= 2
      modifies this
      ensures Inv(host) && (v.Yes? ==> MayGo(host, record))
      ensures forall name :: (if v.Yes? then Remove(host, name, turns) else Run(host, turns, v))
                == JudgeProcess(old(host), name, record, grace, old(turns))
    {
      var died, fails := Wait();
      var sampled := if record.pid in host.processes then Some(host.processes[record.pid]) else None;
      var read := host.uptime;
      died, fails := Wait();
      if fails || sampled.None? {
        return No;
      }
      var j := Judgement(record, sampled.value, read, host.uptime, host.skew);
      JudgingKeeps(host, j);
      host := host.(judged := host.judged + [j]);
      assert Follows(host, j);
      assert !j.Agrees() ==> j in host.judged && Misjudges(j, record.pid, j.process);
      if j.Agrees() {
        v := End(j);
      } else {
        v := Yes;
      }
    }

    method RemoveFile(name: string) returns (v: Verdict)
      requires Inv(host)
      modifies this
      ensures Run(host, turns, v) == Remove(old(host), name, old(turns))
    {
      var died, fails := Wait();
      if died {
        return Died;
      }
      if fails {
        return No;
      }
      host := host.(files := host.files - {name});
      v := Yes;
    }

    method DealWith(name: string, placement: Placement) returns (v: Verdict)
      requires Inv(host)
      modifies this
      ensures Inv(host) && Evolves(old(host), host)
      ensures Run(host, turns, v) == FenceFile(old(host), name, placement, grace, old(turns))
      ensures v.Yes? && name in host.files ==> Elsewhere(host.files[name], placement)
    {
      FenceFileKeeps(host, name, placement, grace, turns);
      var died, fails := Wait();
      if died {
        return Died;
      }
      if fails || name !in host.files || host.files[name].Unreadable? {
        return No;
      }
      var record := host.files[name].record;
      if record.workloadId != placement.projectId {
        return Yes;
      }
      if record.placement != Some(placement) {
        return No;
      }
      if record.pid in host.processes {
        if |turns| < 2 {
          return Died;
        }
        v := Judge(record);
        if !v.Yes? {
          return;
        }
      }
      v := RemoveFile(name);
    }

    /**
      `fencePlacement`, with `order` the order in which the directory happens to list its files. When
      it succeeds no file about the Project is left, and of the placement's processes exactly those
      that were misjudged and have not ended since.
    */
    method FencePlacement(placement: Placement, order: seq<string>) returns (v: Verdict)
      requires Inv(host)
      modifies this
      ensures Inv(host) && Evolves(old(host), host)
      ensures v.Yes? ==>
                hasDirectory && forall handle :: handle in old(host).handles ==> !Other(handle.placement, placement)
      ensures v.Yes? && ListsAll(order, old(host).files) ==>
                && (forall name :: name in host.files ==> Elsewhere(host.files[name], placement))
                && (AllGone(host, placement) <==>
                      forall j :: j in host.judged && j.process.placement == Some(placement) && !j.Agrees() ==>
                        !Survives(j, host))
      ensures !hasDirectory ==> v.No? && host == old(host)
      ensures hasDirectory ==> Run(host, turns, v) == Fence(old(host), order, placement, grace, old(turns))
    {
      if !hasDirectory {
        return No;
      }
      FenceKeeps(host, order, placement, grace, turns);
      if ListsAll(order, host.files) {
        FencedIsGone(host, order, placement, grace, turns);
      }
      hide Inv, Evolves, AllGone, Survives, Judgement.Agrees, ListsAll, Elsewhere, Pass, Stopped, FenceFile;
      var held := host.handles;
      while held != []
        invariant Inv(host)
        invariant StopOwn(host, held, placement, turns) == StopOwn(old(host), old(host).handles, placement, old(turns))
        decreases |held|
      {
        var handle := held[0];
        held := held[1..];
        if handle.placement.projectId == placement.projectId {
          if handle.placement != placement {
            return No;
          }
          if turns == [] {
            return Died;
          }
          var t := turns[0];
          StoppedKeeps(host, handle.pid, t);
          host, turns := Stopped(host, handle.pid, t), turns[1..];
          if t.fails {
            return No;
          }
        }
      }
      var died, fails := Wait();
      if died {
        return Died;
      }
      if fails {
        return No;
      }
      ghost var listed, rest := host, turns;
      var names := Listed(order, host.files);
      while names != []
        invariant Inv(host)
        invariant FenceFiles(host, names, placement, grace, turns)
               == FenceFiles(listed, Listed(order, listed.files), placement, grace, rest)
        decreases |names|
      {
        v := DealWith(names[0], placement);
        if !v.Yes? {
          return;
        }
        names := names[1..];
      }
      v := Yes;
    }
  }

  lemma UnplacedKeeps(h: Host, pid: nat, p: Process)
    requires Inv(h) && p.placement.None?
    ensures Inv(h.(processes := h.processes[pid := p]))
  {
    var h' := h.(processes := h.processes[pid := p]);
    forall other | other in h'.processes && h'.processes[other].placement.Some?
      ensures Known(h', other, h'.processes[other])
    {
      assert Known(h, other, h.processes[other]);
    }
  }

  lemma NewlyRecorded(h: Host, pid: nat, p: Process, name: string, record: Record)
    requires Inv(h) && pid !in h.processes && name !in h.files
    requires p.placement.Some? ==> Covers(Readable(record), pid, p)
    ensures Inv(h.(processes := h.processes[pid := p], files := h.files[name := Readable(record)]))
  {
    var h' := h.(processes := h.processes[pid := p], files := h.files[name := Readable(record)]);
    forall other | other in h'.processes && h'.processes[other].placement.Some?
      ensures Known(h', other, h'.processes[other])
    {
      if other == pid {
        assert name in h'.files && Covers(h'.files[name], pid, p);
      } else {
        assert Known(h, other, h.processes[other]);
        if HasRecord(h.files, other, h.processes[other]) {
          var n :| n in h.files && Covers(h.files[n], other, h.processes[other]);
          assert n in h'.files && Covers(h'.files[n], other, h.processes[other]);
        }
      }
    }
  }
}
