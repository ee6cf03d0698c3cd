/** No crash point is a dead end: from every reachable state with a flag file some continuation
    completes the recovery. */
module RecoveryProgress {
  import opened Options
  import opened BinlogText
  import opened Replay
  import opened RecoveryLog
  import opened RecoveryState
  import opened RecoveryProtocol
  import opened RecoverySafety

  ghost predicate IsPath(w: World, states: seq<State>, steps: seq<Step>) {
    && |states| == |steps| + 1
    && forall k | 0 <= k < |steps| :: Next(w, states[k], steps[k], states[k + 1])
  }

  ghost predicate Reaches(w: World, s: State, t: State) {
    exists states, steps :: IsPath(w, states, steps) && states[0] == s && states[|steps|] == t
  }

  lemma ReachesSelf(w: World, s: State)
    ensures Reaches(w, s, s)
  {
    assert IsPath(w, [s], []);
  }

  lemma OneMore(w: World, s: State, t: State, step: Step, u: State)
    requires Reaches(w, s, t) && Next(w, t, step, u)
    ensures Reaches(w, s, u)
  {
    var states, steps :| IsPath(w, states, steps) && states[0] == s && states[|steps|] == t;
    var states', steps' := states + [u], steps + [step];
    forall k | 0 <= k < |steps'| ensures Next(w, states'[k], steps'[k], states'[k + 1]) {
      assert k < |steps| ==> Next(w, states[k], steps[k], states[k + 1]);
    }
    assert IsPath(w, states', steps');
  }

  /** The state after thread i has made a move. */
  function Moved(s: State, i: nat, d: Disk, v: Worker): State
    requires s.phase.Restoring? && i < |s.phase.workers|
  {
    s.(phase := Restoring(s.phase.workers[i := v]), disk := d)
  }

  lemma MovedReached(w: World, from: State, s: State, i: nat, a: Action, d: Disk, v: Worker)
    requires Reaches(w, from, s) && Inv(w, s) && s.phase.Restoring? && i < |s.phase.workers|
    requires WorkStep(w, s.disk, s.phase.workers[i], i, a, d, v)
    ensures Moved(s, i, d, v).raw == s.raw
    ensures Reaches(w, from, Moved(s, i, d, v)) && Inv(w, Moved(s, i, d, v))
  {
    assert Next(w, s, Work(i, a), Moved(s, i, d, v));
    OneMore(w, from, s, Work(i, a), Moved(s, i, d, v));
    WorkKeepsInv(w, s, i, a, Moved(s, i, d, v));
  }

  /** Only thread i has moved. */
  predicate OnlyThread(s: State, t: State, i: nat) {
    && s.phase.Restoring? && t.phase.Restoring? && t.raw == s.raw
    && |t.phase.workers| == |s.phase.workers| && i < |s.phase.workers|
    && forall j | 0 <= j < |s.phase.workers| && j != i :: t.phase.workers[j] == s.phase.workers[j]
  }

  /** Thread i has its reader open. */
  predicate Reading(s: State, i: nat) {
    && s.phase.Restoring? && i < |s.phase.workers|
    && s.phase.workers[i].status.Running? && s.phase.workers[i].reader.Some?
  }

  function Remaining(w: World, s: State, i: nat): nat
    requires Reading(s, i)
  {
    |Tail(w.names, s.disk.logs, i, s.phase.workers[i].reader.value)|
  }

  lemma NextRecordIsFine(w: World, s: State, i: nat)
    requires s.phase.Restoring? && RestoreInv(w, s) && i < |s.phase.workers| && s.phase.workers[i].reader.Some?
    requires Tail(w.names, s.disk.logs, i, s.phase.workers[i].reader.value) != []
    ensures !EffectOf(w.names, Tail(w.names, s.disk.logs, i, s.phase.workers[i].reader.value)[0]).Stop?
  {
    var log, offset := s.disk.logs[i], s.phase.workers[i].reader.value;
    RestIsSuffix(w.names, log, offset);
    assert Rest(w.names, log, offset).value[0] in log;
    assert GoodLog(w, Goal(w, s), log) by {
      assert i in s.disk.logs;
    }
  }

  lemma CanHandle(w: World, d: Disk, v: Worker, i: nat) returns (d': Disk, v': Worker)
    requires v.status.Running? && v.reader.Some? && v.count < CHECKPOINT && i in d.logs && i in d.marks
    requires Rest(w.names, d.logs[i], v.reader.value).Some? && Rest(w.names, d.logs[i], v.reader.value).value != []
    requires !EffectOf(w.names, Rest(w.names, d.logs[i], v.reader.value).value[0]).Stop?
    ensures WorkStep(w, d, v, i, Handle, d', v') && v'.status.Running? && v'.reader.Some?
    ensures |Tail(w.names, d'.logs, i, v'.reader.value)| < |Tail(w.names, d.logs, i, v.reader.value)|
  {
    var offset := v.reader.value;
    var r := Rest(w.names, d.logs[i], offset).value[0];
    d' := d.(local := Apply(w.source, EffectOf(w.names, r), d.local));
    v' := v.(reader := Some(offset + Size(w.names, r)), direct := false, count := v.count + 1);
    RestAdvances(w.names, d.logs[i], offset);
  }

  lemma HandleMove(w: World, from: State, s: State, i: nat) returns (t: State)
    requires Reaches(w, from, s) && Inv(w, s) && Reading(s, i)
    requires Remaining(w, s, i) > 0 && s.phase.workers[i].count < CHECKPOINT
    ensures Reaches(w, from, t) && Inv(w, t) && OnlyThread(s, t, i) && Reading(t, i)
    ensures Remaining(w, t, i) < Remaining(w, s, i)
  {
    NextRecordIsFine(w, s, i);
    var d', v' := CanHandle(w, s.disk, s.phase.workers[i], i);
    MovedReached(w, from, s, i, Handle, d', v');
    t := Moved(s, i, d', v');
  }

  lemma CheckpointMove(w: World, from: State, s: State, i: nat) returns (t: State)
    requires Reaches(w, from, s) && Inv(w, s) && Reading(s, i) && s.phase.workers[i].count == CHECKPOINT
    ensures Reaches(w, from, t) && Inv(w, t) && OnlyThread(s, t, i) && Reading(t, i)
    ensures Remaining(w, t, i) == Remaining(w, s, i) && t.phase.workers[i].count == 0
  {
    var v := s.phase.workers[i];
    var d', v' := SaveMark(s.disk, i, v.reader.value, true), v.(count := 0, lost := false);
    MovedReached(w, from, s, i, Checkpoint(true), d', v');
    t := Moved(s, i, d', v');
  }

  lemma EndMove(w: World, from: State, s: State, i: nat) returns (t: State)
    requires Reaches(w, from, s) && Inv(w, s) && Reading(s, i)
    requires Remaining(w, s, i) == 0 && s.phase.workers[i].count < CHECKPOINT
    ensures Reaches(w, from, t) && Inv(w, t) && OnlyThread(s, t, i) && t.phase.workers[i].status.Done?
  {
    var v := s.phase.workers[i];
    var d', v' := SaveMark(s.disk, i, v.reader.value, true), v.(count := 0, status := Done, lost := false);
    MovedReached(w, from, s, i, ReachEnd(true), d', v');
    t := Moved(s, i, d', v');
  }

  lemma CountInRange(w: World, s: State, i: nat)
    requires Inv(w, s) && Reading(s, i)
    ensures s.phase.workers[i].count <= CHECKPOINT
  {
  }

  /** A running thread can read its log to the end. */
  lemma {:induction false} ThreadCanFinish(w: World, from: State, s: State, i: nat) returns (t: State)
    requires Reaches(w, from, s) && Inv(w, s) && Reading(s, i)
    ensures Reaches(w, from, t) && Inv(w, t) && OnlyThread(s, t, i) && t.phase.workers[i].status.Done?
    decreases Remaining(w, s, i), s.phase.workers[i].count
  {
    CountInRange(w, s, i);
    if s.phase.workers[i].count == CHECKPOINT {
      var next := CheckpointMove(w, from, s, i);
      t := ThreadCanFinish(w, from, next, i);
    } else if Remaining(w, s, i) == 0 {
      t := EndMove(w, from, s, i);
    } else {
      var next := HandleMove(w, from, s, i);
      t := ThreadCanFinish(w, from, next, i);
    }
  }

  /** Threads that have not started can all finish, one after the other. */
  lemma {:induction false} CrewCanFinish(w: World, from: State, s: State, k: nat) returns (t: State)
    requires Reaches(w, from, s) && Inv(w, s) && s.phase.Restoring? && k <= |s.phase.workers|
    requires forall i | 0 <= i < k :: s.phase.workers[i].status.Done?
    requires forall i | k <= i < |s.phase.workers| :: s.phase.workers[i] == FRESH
    ensures Reaches(w, from, t) && Inv(w, t) && t.phase.Restoring? && t.raw == s.raw
    ensures forall v | v in t.phase.workers :: v.status.Done?
    decreases |s.phase.workers| - k
  {
    if k == |s.phase.workers| {
      t := s;
    } else {
      var v := Worker(Some(s.disk.marks[k]), false, 0, Running, false);
      MovedReached(w, from, s, k, Open, s.disk, v);
      var next := ThreadCanFinish(w, from, Moved(s, k, s.disk, v), k);
      t := CrewCanFinish(w, from, next, k + 1);
    }
  }

  lemma RestoreCanFinish(w: World, from: State, s: State) returns (t: State)
    requires Reaches(w, from, s) && Inv(w, s) && s.phase.Restoring?
    requires forall i | 0 <= i < |s.phase.workers| :: s.phase.workers[i] == FRESH
    ensures Reaches(w, from, t) && ReportsRestored(t) && t.raw == s.raw
  {
    var done := CrewCanFinish(w, from, s, 0);
    t := done.(phase := Clearing(|done.phase.workers|, true), disk := done.disk.(flag := None));
    OneMore(w, from, done, Finish, t);
  }

  /** From a trusted disk restore can be completed with any number of threads. */
  lemma TrustedCanFinish(w: World, from: State, s: State) returns (t: State)
    requires Reaches(w, from, s) && Inv(w, s) && s.phase.Checking? && Trusted(s.disk)
    ensures Reaches(w, from, t) && ReportsRestored(t) && t.raw == s.raw
  {
    var m, n := s.phase.m, s.disk.flag.value.threads;
    var next := if n == m then s.(phase := Restoring(Crew(m)))
      else if n < m then s.(phase := Restoring(Crew(m)), disk := Dealt(w, s.disk, m, n).(flag := Some(Flag(true, m))))
      else s.(phase := Trimming(m, n, m), disk := Dealt(w, s.disk, m, n));
    assert Next(w, s, Check, next);
    OneMore(w, from, s, Check, next);
    NextKeepsInv(w, s, Check, next);
    if n > m {
      next := TrimmedReached(w, from, next);
    }
    t := RestoreCanFinish(w, from, next);
  }

  lemma TrimmedReached(w: World, from: State, s: State) returns (t: State)
    requires Reaches(w, from, s) && Inv(w, s) && s.phase.Trimming?
    ensures Reaches(w, from, t) && Inv(w, t) && t.phase == Restoring(Crew(s.phase.m)) && t.raw == s.raw
  {
    t := s.(phase := Restoring(Crew(s.phase.m)), disk := s.disk.(flag := Some(Flag(true, s.phase.m))));
    assert Next(w, s, TrimDone, t);
    OneMore(w, from, s, TrimDone, t);
    NextKeepsInv(w, s, TrimDone, t);
  }

  /** Fetching again is always possible, whatever log the peer prints. */
  lemma {:induction false} FetchCanFinish(w: World, from: State, s: State, peer: seq<Record>) returns (t: State)
    requires Reaches(w, from, s) && Inv(w, s) && s.phase.Preparing?
    requires Printed(w, peer)
    ensures t.raw == if s.phase.step <= 3 then peer else s.raw
    ensures Reaches(w, from, t) && Inv(w, t) && t.phase.Checking? && t.phase.m == s.phase.m
    ensures Trusted(t.disk)
    decreases 6 - s.phase.step
  {
    var d, k, m, retry := s.disk, s.phase.step, s.phase.m, s.phase.retry;
    var next := match k
      case 0 => s.(phase := Preparing(1, m, retry), disk := d.(flag := Some(Flag(false, -1))))
      case 1 => s.(phase := Preparing(2, m, retry), disk := d.(logs := d.logs[0 := []]))
      case 2 => s.(phase := Preparing(3, m, retry))
      case 3 => s.(phase := Preparing(4, m, retry), disk := d.(logs := d.logs[0 := peer]), raw := peer)
      case 4 => s.(phase := Preparing(5, m, retry), disk := d.(marks := d.marks[0 := 0]))
      case 5 => s.(phase := Preparing(6, m, retry),
          disk := d.(logs := d.logs[0 := TrunkSplit.Split(w.names, Tail(w.names, d.logs, 0, MarkOf(d, 0)))]))
      case _ => s.(phase := Checking(m, retry), disk := d.(flag := Some(Flag(true, 1))), base := d.local);
    assert Next(w, s, Prepare(peer), next);
    OneMore(w, from, s, Prepare(peer), next);
    NextKeepsInv(w, s, Prepare(peer), next);
    if k == 6 {
      t := next;
    } else {
      t := FetchCanFinish(w, from, next, peer);
    }
  }

  /** From every reachable state with a flag file, whatever has crashed, recovery can be completed with any
      number m of threads: from the logs on disk if they can be trusted, else from a new log of the peer. */
  lemma RecoveryCanComplete(w: World, run: seq<State>, steps: seq<Step>, k: nat, peer: seq<Record>, m: nat)
    returns (t: State)
    requires IsRun(w, run, steps) && k < |run| && run[k].disk.flag.Some? && Printed(w, peer) && m > 0
    ensures t.raw == if Trusted(run[k].disk) then run[k].raw else peer
    ensures Reaches(w, run[k], t) && ReportsRestored(t)
  {
    var s := run[k];
    RunKeepsInv(w, run, steps, k);
    ReachesSelf(w, s);
    var down := s.(phase := Down);
    OneMore(w, s, s, Crash, down);
    NextKeepsInv(w, s, Crash, down);
    var checking := down.(phase := Checking(m, false));
    OneMore(w, s, down, StartUp(m, false), checking);
    NextKeepsInv(w, down, StartUp(m, false), checking);
    if !Trusted(s.disk) {
      var preparing := checking.(phase := Preparing(0, m, true));
      assert Next(w, checking, Check, preparing);
      OneMore(w, s, checking, Check, preparing);
      NextKeepsInv(w, checking, Check, preparing);
      checking := FetchCanFinish(w, s, preparing, peer);
    }
    t := TrustedCanFinish(w, s, checking);
  }

  // ---------------------------------------------------------------- every fault-free restore ends

  /** A move of a thread that meets no fault; a whole download counts as one move. */
  predicate FaultFree(step: Step) {
    step.Work? && (step.action.Open? || step.action.Handle? || step.action.Checkpoint? || step.action.ReachEnd?)
  }

  /** How many such moves a thread has left at most: two for each unread record, one for the end of the log,
      and one each for opening it and for a checkpoint that is due. */
  function MovesLeft(w: World, d: Disk, v: Worker, i: nat): nat {
    if !v.status.Running? then 0
    else if v.reader.None? then 2 * |Tail(w.names, d.logs, i, MarkOf(d, i))| + 2
    else 2 * |Tail(w.names, d.logs, i, v.reader.value)| + 1 + if v.count == CHECKPOINT then 1 else 0
  }

  /** The same for the first k threads together. */
  function AllMovesLeft(w: World, d: Disk, vs: seq<Worker>, k: nat): nat
    requires k <= |vs|
  {
    if k == 0 then 0 else AllMovesLeft(w, d, vs, k - 1) + MovesLeft(w, d, vs[k - 1], k - 1)
  }

  lemma MoveIsUsed(w: World, d: Disk, v: Worker, i: nat, a: Action, d': Disk, v': Worker)
    requires WorkStep(w, d, v, i, a, d', v') && FaultFree(Work(i, a))
    ensures MovesLeft(w, d', v', i) < MovesLeft(w, d, v, i)
    ensures d'.logs == d.logs && !v'.status.Quit? && forall j: nat | j != i :: MarkOf(d', j) == MarkOf(d, j)
  {
    if a.Handle? {
      RestAdvances(w.names, d.logs[i], v.reader.value);
    }
  }

  lemma {:induction false} OtherMovesStay(w: World, d: Disk, d': Disk, vs: seq<Worker>, i: nat, v: Worker, k: nat)
    requires i < |vs| && k <= |vs| && d'.logs == d.logs && forall j: nat | j != i :: MarkOf(d', j) == MarkOf(d, j)
    ensures AllMovesLeft(w, d', vs[i := v], k) == AllMovesLeft(w, d, vs, k) +
      if i < k then MovesLeft(w, d', v, i) - MovesLeft(w, d, vs[i], i) else 0
  {
    if k > 0 {
      OtherMovesStay(w, d, d', vs, i, v, k - 1);
    }
  }

  /** All moves that the threads of a state have left. */
  function Fuel(w: World, s: State): nat
    requires s.phase.Restoring?
  {
    AllMovesLeft(w, s.disk, s.phase.workers, |s.phase.workers|)
  }

  /** No thread has given up. */
  predicate NobodyQuit(s: State) {
    s.phase.Restoring? && forall v | v in s.phase.workers :: !v.status.Quit?
  }

  lemma FaultFreeMoveBurns(w: World, s: State, step: Step, s': State)
    requires NobodyQuit(s) && Next(w, s, step, s') && FaultFree(step)
    ensures NobodyQuit(s') && Fuel(w, s') < Fuel(w, s)
  {
    var i, vs, v := step.i, s.phase.workers, s'.phase.workers[step.i];
    MoveIsUsed(w, s.disk, vs[i], i, step.action, s'.disk, v);
    OtherMovesStay(w, s.disk, s'.disk, vs, i, v, |vs|);
    assert s'.phase.workers == vs[i := v];
  }

  /** A fault-free restore makes no more moves than its threads had left. */
  lemma {:induction false} FaultFreeRunIsBounded(w: World, states: seq<State>, steps: seq<Step>, k: nat)
    requires IsPath(w, states, steps) && NobodyQuit(states[0]) && k < |states|
    requires forall step | step in steps :: FaultFree(step)
    ensures NobodyQuit(states[k]) && k + Fuel(w, states[k]) <= Fuel(w, states[0])
  {
    if k > 0 {
      FaultFreeRunIsBounded(w, states, steps, k - 1);
      assert steps[k - 1] in steps;
      FaultFreeMoveBurns(w, states[k - 1], steps[k - 1], states[k]);
    }
  }

  /** As long as a thread is running, it has such a move. */
  lemma RunningCanMove(w: World, s: State, i: nat) returns (step: Step, t: State)
    requires Inv(w, s) && s.phase.Restoring? && i < |s.phase.workers| && s.phase.workers[i].status.Running?
    ensures FaultFree(step) && Next(w, s, step, t)
  {
    var d, v := s.disk, s.phase.workers[i];
    if v.reader.None? {
      step, t := Work(i, Open), Moved(s, i, d, Worker(Some(d.marks[i]), false, 0, Running, false));
    } else if v.count == CHECKPOINT {
      step := Work(i, Checkpoint(true));
      t := Moved(s, i, SaveMark(d, i, v.reader.value, true), v.(count := 0, lost := false));
    } else if Tail(w.names, d.logs, i, v.reader.value) == [] {
      step := Work(i, ReachEnd(true));
      t := Moved(s, i, SaveMark(d, i, v.reader.value, true), v.(count := 0, status := Done, lost := false));
    } else {
      NextRecordIsFine(w, s, i);
      var d', v' := CanHandle(w, d, v, i);
      step, t := Work(i, Handle), Moved(s, i, d', v');
    }
  }

  /** The run cannot be continued by a move without a fault. */
  ghost predicate Stuck(w: World, s: State) {
    forall step, t :: Next(w, s, step, t) ==> !FaultFree(step)
  }

  lemma {:induction false} PathKeepsInv(w: World, states: seq<State>, steps: seq<Step>, k: nat)
    requires IsPath(w, states, steps) && Inv(w, states[0]) && k < |states|
    ensures Inv(w, states[k])
  {
    if k > 0 {
      PathKeepsInv(w, states, steps, k - 1);
      NextKeepsInv(w, states[k - 1], steps[k - 1], states[k]);
    }
  }

  /** Every restore without faults ends well, in whatever order its threads move: it has at most as many moves
      as were left at its start, and where it can make no more, all threads are done and the next move removes
      the flag from a store path that holds what the fetched log promises. */
  lemma FaultFreeRestoreFinishes(w: World, states: seq<State>, steps: seq<Step>) returns (t: State)
    requires IsPath(w, states, steps) && Inv(w, states[0]) && NobodyQuit(states[0])
    requires forall step | step in steps :: FaultFree(step)
    ensures |steps| <= Fuel(w, states[0])
    ensures Stuck(w, states[|steps|]) ==>
      && Next(w, states[|steps|], Finish, t) && ReportsRestored(t)
      && t.disk.local == Replayed(w.names, w.source, t.raw, t.base)
  {
    var s := states[|steps|];
    FaultFreeRunIsBounded(w, states, steps, |steps|);
    PathKeepsInv(w, states, steps, |steps|);
    t := s.(phase := Clearing(|s.phase.workers|, true), disk := s.disk.(flag := None));
    if Stuck(w, s) {
      forall i | 0 <= i < |s.phase.workers| ensures s.phase.workers[i].status.Done? {
        if s.phase.workers[i].status.Running? {
          var step, next := RunningCanMove(w, s, i);
        }
        assert s.phase.workers[i] in s.phase.workers;
      }
      assert Next(w, s, Finish, t);
      NextKeepsInv(w, s, Finish, t);
      ReplayRestores(w.names, w.source, t.raw, t.base);
    }
  }
}
