/** What a checkpoint promises: every record before a saved mark has been handled. */
module RecoveryCheckpoints {
  import opened Options
  import opened BinlogText
  import opened Replay
  import opened RecoveryLog
  import opened RecoveryState
  import opened RecoveryProtocol
  import opened RecoverySafety

  /** A restart would use log i, or a thread is using it. */
  predicate InUse(s: State, i: nat) {
    Trusted(s.disk) && i < s.disk.flag.value.threads
  }

  /** Where log i is read from: the reader of its thread if there is one, else the saved mark. */
  function At(s: State, i: nat): int {
    if s.phase.Restoring? && i < |s.phase.workers| then Position(s.disk, s.phase.workers[i], i)
    else MarkOf(s.disk, i)
  }

  /** Thread i handles record q of `log`. */
  predicate HandleAt(w: World, s: State, step: Step, i: nat, log: seq<Record>, q: nat) {
    && step == Work(i, Handle)
    && s.phase.Restoring? && i < |s.phase.workers|
    && i in s.disk.logs && s.disk.logs[i] == log && q < |log|
    && s.phase.workers[i].reader.Some?
    && Rest(w.names, log, s.phase.workers[i].reader.value) == Some(log[q..])
  }

  lemma AtIsBoundary(w: World, s: State, i: nat)
    requires Inv(w, s) && InUse(s, i)
    ensures i in s.disk.logs && i in s.disk.marks
    ensures Rest(w.names, s.disk.logs[i], MarkOf(s.disk, i)).Some?
    ensures Rest(w.names, s.disk.logs[i], At(s, i)).Some? && MarkOf(s.disk, i) <= At(s, i)
  {
    assert MarksOf(s.disk, s.disk.flag.value.threads)[i] == MarkOf(s.disk, i);
  }

  lemma WorkStepsBack(w: World, s: State, j: nat, a: Action, s': State, i: nat)
    requires Inv(w, s) && Next(w, s, Work(j, a), s') && InUse(s', i) && !(j == i && a.Handle?)
    ensures InUse(s, i) && s'.disk.logs == s.disk.logs && At(s', i) <= At(s, i)
  {
    WorkKeepsWorker(w, s.disk, s.phase.workers[j], j, a, s'.disk, s'.phase.workers[j]);
  }

  /** No move but handling a record leads further into a log that is in use. */
  lemma OnlyHandlingAdvances(w: World, s: State, step: Step, s': State, i: nat)
    requires Inv(w, s) && Next(w, s, step, s') && InUse(s', i) && step != Work(i, Handle)
    requires At(s', i) != 0
    ensures InUse(s, i) && i in s.disk.logs && i in s'.disk.logs && s'.disk.logs[i] == s.disk.logs[i]
    ensures At(s', i) <= At(s, i)
  {
    match step
    case Work(j, a) => WorkStepsBack(w, s, j, a, s', i);
    case Check => CheckStepsBack(w, s, s', i);
    case Crash =>
      AtIsBoundary(w, s, i);
    case _ =>
  }

  lemma CheckStepsBack(w: World, s: State, s': State, i: nat)
    requires Inv(w, s) && Next(w, s, Check, s') && InUse(s', i) && At(s', i) != 0
    ensures InUse(s, i) && i in s.disk.logs && i in s'.disk.logs && s'.disk.logs[i] == s.disk.logs[i]
    ensures At(s', i) <= At(s, i)
  {
    if Trusted(s.disk) && i < s.phase.m && s.disk.flag.value.threads != s.phase.m {
      DealtTail(w, s.disk, s.phase.m, s.disk.flag.value.threads, i);
    }
  }

  lemma TailShrinks(names: Names, log: seq<Record>, a: int, b: int)
    requires a <= b && Rest(names, log, a).Some? && Rest(names, log, b).Some?
    ensures |Rest(names, log, b).value| <= |Rest(names, log, a).value| <= |log|
  {
    EarlierUnreadsMore(names, log, a, b);
    RestIsSuffix(names, log, a);
  }

  lemma HandlingAdvancesReader(w: World, d: Disk, v: Worker, i: nat, d': Disk, v': Worker)
    requires WorkStep(w, d, v, i, Handle, d', v') && Rest(w.names, d.logs[i], v.reader.value).Some?
    ensures v'.reader.Some? && d'.logs == d.logs
    ensures var log := d.logs[i];
      var u := Rest(w.names, log, v.reader.value).value;
      && u != [] && |u| <= |log| && u == log[|log| - |u|..]
      && Rest(w.names, log, v'.reader.value) == Some(u[1..])
      && d'.local == Apply(w.source, EffectOf(w.names, u[0]), d.local)
  {
    RestAdvances(w.names, d.logs[i], v.reader.value);
    RestIsSuffix(w.names, d.logs[i], v.reader.value);
  }

  lemma RestoringInUse(w: World, s: State, i: nat)
    requires Inv(w, s) && s.phase.Restoring? && i < |s.phase.workers|
    ensures InUse(s, i) && i in s.disk.logs && i in s.disk.marks
    ensures WorkerInv(w, s.disk.logs[i], s.disk.marks[i], s.phase.workers[i])
  {
  }

  /** Record q of log i lies before the place where the log is read. */
  predicate Passed(w: World, s: State, i: nat, q: nat) {
    && InUse(s, i) && i in s.disk.logs
    && q + |Tail(w.names, s.disk.logs, i, At(s, i))| < |s.disk.logs[i]|
  }

  /** Thread i handles record q of `log` and applies its effect to the files. */
  predicate Handles(w: World, s: State, step: Step, s': State, i: nat, log: seq<Record>, q: nat) {
    && HandleAt(w, s, step, i, log, q)
    && s'.disk.local == Apply(w.source, EffectOf(w.names, log[q]), s.disk.local)
  }

  /** One record further: either this record is the one that is passed now, or it was passed before. */
  lemma OneFurther(log: seq<Record>, u: seq<Record>, q: nat)
    requires u != [] && |u| <= |log| && u == log[|log| - |u|..] && q + |u[1..]| < |log|
    ensures q + |u| < |log| || (u == log[q..] && u[0] == log[q])
  {
  }

  lemma HandlingPasses(w: World, d: Disk, v: Worker, i: nat, d': Disk, v': Worker, q: nat)
    requires WorkStep(w, d, v, i, Handle, d', v') && Rest(w.names, d.logs[i], v.reader.value).Some?
    requires v'.reader.Some? && q + |Tail(w.names, d.logs, i, v'.reader.value)| < |d.logs[i]|
    ensures
      || q + |Tail(w.names, d.logs, i, v.reader.value)| < |d.logs[i]|
      || (&& Rest(w.names, d.logs[i], v.reader.value) == Some(d.logs[i][q..])
          && d'.local == Apply(w.source, EffectOf(w.names, d.logs[i][q]), d.local))
  {
    var log, u := d.logs[i], Rest(w.names, d.logs[i], v.reader.value).value;
    HandlingAdvancesReader(w, d, v, i, d', v');
    assert Tail(w.names, d.logs, i, v'.reader.value) == u[1..];
    OneFurther(log, u, q);
  }

  lemma PassedByHandling(w: World, s: State, s': State, i: nat, q: nat)
    requires s.phase.Restoring? && i < |s.phase.workers| && InUse(s, i)
    requires i in s.disk.logs && i in s.disk.marks
    requires WorkerInv(w, s.disk.logs[i], s.disk.marks[i], s.phase.workers[i])
    requires Next(w, s, Work(i, Handle), s') && Passed(w, s', i, q)
    ensures Handles(w, s, Work(i, Handle), s', i, s'.disk.logs[i], q)
         || (Passed(w, s, i, q) && s.disk.logs[i] == s'.disk.logs[i])
  {
    HandlingPasses(w, s.disk, s.phase.workers[i], i, s'.disk, s'.phase.workers[i], q);
  }

  lemma PassedBefore(w: World, s: State, step: Step, s': State, i: nat, q: nat)
    requires Inv(w, s) && Inv(w, s') && Next(w, s, step, s') && Passed(w, s', i, q)
    requires step != Work(i, Handle)
    ensures Passed(w, s, i, q) && s.disk.logs[i] == s'.disk.logs[i]
  {
    AtIsBoundary(w, s', i);
    assert At(s', i) != 0;
    OnlyHandlingAdvances(w, s, step, s', i);
    AtIsBoundary(w, s, i);
    TailShrinks(w.names, s.disk.logs[i], At(s', i), At(s, i));
  }

  lemma PassedStep(w: World, s: State, step: Step, s': State, i: nat, q: nat)
    requires Inv(w, s) && Inv(w, s') && Next(w, s, step, s') && Passed(w, s', i, q)
    ensures Handles(w, s, step, s', i, s'.disk.logs[i], q) || (Passed(w, s, i, q) && s.disk.logs[i] == s'.disk.logs[i])
  {
    if step == Work(i, Handle) {
      RestoringInUse(w, s, i);
      PassedByHandling(w, s, s', i, q);
    } else {
      PassedBefore(w, s, step, s', i, q);
    }
  }

  lemma PassedInRun(w: World, run: seq<State>, steps: seq<Step>, j: nat, i: nat, q: nat)
    requires IsRun(w, run, steps) && j < |run| && Passed(w, run[j], i, q)
    ensures j > 0
    ensures Handles(w, run[j - 1], steps[j - 1], run[j], i, run[j].disk.logs[i], q)
         || (Passed(w, run[j - 1], i, q) && run[j - 1].disk.logs[i] == run[j].disk.logs[i])
  {
    if j > 0 {
      RunKeepsInv(w, run, steps, j - 1);
      RunKeepsInv(w, run, steps, j);
      PassedStep(w, run[j - 1], steps[j - 1], run[j], i, q);
    }
  }

  /** In every run, whatever crashes, fallbacks and dispatches came before: a record of a log in use that
      lies before the reader, and so every record before the saved mark, has been handled by its thread,
      on this very log, and its effect was applied to the files. */
  lemma {:induction false} RecordsBeforeAreHandled(w: World, run: seq<State>, steps: seq<Step>, j: nat, i: nat, q: nat)
    returns (k: nat)
    requires IsRun(w, run, steps) && j < |run| && Passed(w, run[j], i, q)
    ensures k < j && Handles(w, run[k], steps[k], run[k + 1], i, run[j].disk.logs[i], q)
    decreases j
  {
    PassedInRun(w, run, steps, j, i, q);
    if Handles(w, run[j - 1], steps[j - 1], run[j], i, run[j].disk.logs[i], q) {
      k := j - 1;
    } else {
      k := RecordsBeforeAreHandled(w, run, steps, j - 1, i, q);
    }
  }

  /** Record q of `log` was handled by thread i before state j. */
  ghost predicate WasHandled(w: World, run: seq<State>, steps: seq<Step>, j: nat, i: nat, log: seq<Record>, q: nat)
    requires j <= |steps| && |run| == |steps| + 1
  {
    exists k | 0 <= k < j :: Handles(w, run[k], steps[k], run[k + 1], i, log, q)
  }

  /** Checkpoints: the mark of a running thread is a record boundary with every record before it handled,
      and the reader is at most 1000 records ahead of it unless a mark write failed. */
  lemma CheckpointsHold(w: World, run: seq<State>, steps: seq<Step>, j: nat, i: nat)
    requires IsRun(w, run, steps) && j < |run| && run[j].phase.Restoring? && i < |run[j].phase.workers|
    ensures i in run[j].disk.logs && i in run[j].disk.marks
    ensures var log := run[j].disk.logs[i];
      var v := run[j].phase.workers[i];
      var saved := Rest(w.names, log, run[j].disk.marks[i]);
      && saved.Some? && |saved.value| <= |log|
      && (v.reader.Some? ==>
            var at := Rest(w.names, log, v.reader.value);
            && at.Some? && |at.value| <= |saved.value|
            && (!v.lost ==> |saved.value| - |at.value| <= CHECKPOINT))
      && forall q | 0 <= q < |log| - |saved.value| :: WasHandled(w, run, steps, j, i, log, q)
  {
    RunKeepsInv(w, run, steps, j);
    AtIsBoundary(w, run[j], i);
    var log, mark := run[j].disk.logs[i], run[j].disk.marks[i];
    TailShrinks(w.names, log, mark, At(run[j], i));
    forall q | 0 <= q < |log| - |Rest(w.names, log, mark).value|
      ensures WasHandled(w, run, steps, j, i, log, q)
    {
      var k := RecordsBeforeAreHandled(w, run, steps, j, i, q);
    }
  }
}
