/** What holds over all runs of single-disk recovery. */
module RecoverySafety {
  import opened Options
  import opened BinlogText
  import opened Replay
  import opened RecoveryLog
  import opened TrunkSplit
  import opened Dispatch
  import opened RecoveryState
  import opened RecoveryProtocol
  import PeerLog

  // ---------------------------------------------------------------- fetch and split

  /** What the peer prints from its own binlog is a log that recovery may fetch, exactly when every printed
      record is faithful to the peer's files. */
  lemma PeerLogIsPrintedIff(w: World, log: seq<Record>)
    ensures Printed(w, PeerLog.Fetched(w.names, w.store, w.source, log)) <==>
      forall r | r in log && PeerLog.Emit(w.names, w.store, w.source, r).Some? ::
        PeerLog.Faithful(w.names, w.store, w.source, r)
  {
    PeerLog.FetchedIsSoundIff(w.names, w.store, w.source, log);
  }

  lemma SplitIsGood(w: World, raw: seq<Record>)
    requires Printed(w, raw)
    ensures GoodLog(w, Paths(w.names, raw), Split(w.names, raw))
    ensures Paths(w.names, Split(w.names, raw)) == Paths(w.names, raw)
  {
    SplitContents(w.names, w.store, raw);
    SplitKeepsPaths(w.names, w.source, w.store, raw);
  }

  /** A freshly split log covers the whole goal. */
  lemma FreshCovers(w: World, logs: map<nat, seq<Record>>, local: Files, raw: seq<Record>)
    requires Printed(w, raw) && 0 in logs && logs[0] == Split(w.names, raw)
    ensures Covers(w, logs, local, Paths(w.names, raw), local, [0])
  {
    SplitIsGood(w, raw);
    var goal := Paths(w.names, raw);
    forall p
      ensures Settled(w, local, goal, local, p) || (Midway(w, local, local, p) && Pending(w, logs, [0], p))
    {
      if p in goal {
        assert p in Paths(w.names, Tail(w.names, logs, 0, [0][0]));
      }
    }
  }

  lemma PrepareKeepsInv(w: World, s: State, fetched: seq<Record>, s': State)
    requires Inv(w, s) && Next(w, s, Prepare(fetched), s')
    ensures Inv(w, s')
  {
    if s.phase.step == 6 {
      FreshCovers(w, s'.disk.logs, s'.disk.local, s'.raw);
      assert MarksOf(s'.disk, 1) == [0];
    }
  }

  // ---------------------------------------------------------------- dispatch

  lemma {:induction false} FlatMembers(logs: seq<seq<Record>>)
    ensures forall r :: r in Flat(logs) <==> exists i | 0 <= i < |logs| :: r in logs[i]
  {
    if logs != [] {
      var init := logs[..|logs| - 1];
      FlatMembers(init);
      forall r | r in Flat(logs) ensures exists i | 0 <= i < |logs| :: r in logs[i] {
        if r in Flat(init) {
          var i :| 0 <= i < |init| && r in init[i];
          assert r in logs[i];
        }
      }
      forall i, r | 0 <= i < |logs| && r in logs[i] ensures r in Flat(logs) {
        if i < |init| {
          assert r in init[i];
        }
      }
    }
  }

  lemma FlatGood(w: World, goal: set<Path>, logs: seq<seq<Record>>)
    requires forall i | 0 <= i < |logs| :: GoodLog(w, goal, logs[i])
    ensures GoodLog(w, goal, Flat(logs))
    ensures forall i, p | 0 <= i < |logs| && p in Paths(w.names, logs[i]) :: p in Paths(w.names, Flat(logs))
  {
    FlatMembers(logs);
    forall r | r in Flat(logs)
      ensures Writable(r) && w.names.pathOf(r.name).Some? && Agrees(w.names, w.source, r)
      ensures Touches(EffectOf(w.names, r)) ==> EffectOf(w.names, r).path in goal
    {
      var i :| 0 <= i < |logs| && r in logs[i];
      assert Touches(EffectOf(w.names, r)) ==> EffectOf(w.names, r).path in Paths(w.names, logs[i]);
    }
  }

  lemma SubsetGood(w: World, goal: set<Path>, log: seq<Record>, sub: seq<Record>)
    requires GoodLog(w, goal, log) && forall r | r in sub :: r in log
    ensures GoodLog(w, goal, sub)
  {
    forall r | r in sub && Touches(EffectOf(w.names, r)) ensures EffectOf(w.names, r).path in goal {
      assert EffectOf(w.names, r).path in Paths(w.names, log);
    }
  }

  lemma UnreadGood(w: World, d: Disk, n: nat, goal: set<Path>)
    requires forall i: nat | i < n ::
      i in d.logs && GoodLog(w, goal, d.logs[i]) && Rest(w.names, d.logs[i], MarkOf(d, i)).Some?
    ensures forall i | 0 <= i < n :: GoodLog(w, goal, UnreadLogs(w, d, n)[i])
  {
    forall i | 0 <= i < n ensures GoodLog(w, goal, UnreadLogs(w, d, n)[i]) {
      RestIsSuffix(w.names, d.logs[i], MarkOf(d, i));
      SubsetGood(w, goal, d.logs[i], UnreadLogs(w, d, n)[i]);
    }
  }

  lemma PartsGood(w: World, goal: set<Path>, m: nat, rs: seq<Record>)
    requires m > 0 && GoodLog(w, goal, rs)
    ensures forall i | 0 <= i < m :: GoodLog(w, goal, Parts(w.names, m, rs)[i])
  {
    forall i | 0 <= i < m ensures GoodLog(w, goal, Parts(w.names, m, rs)[i]) {
      PartMembers(w.names, m, rs, i);
      SubsetGood(w, goal, rs, Part(w.names, m, rs, i));
    }
  }

  lemma DealtTail(w: World, d: Disk, m: nat, n: nat, j: nat)
    requires j < m
    ensures var dealt := Dealt(w, d, m, n);
      && j in dealt.logs && j in dealt.marks && dealt.marks[j] == 0 && MarksOf(dealt, m)[j] == 0
      && dealt.logs[j] == Part(w.names, m, Flat(UnreadLogs(w, d, n)), j)
      && Tail(w.names, dealt.logs, j, 0) == Part(w.names, m, Flat(UnreadLogs(w, d, n)), j)
  {
  }

  /** What was pending for the old threads is pending for the new ones. */
  lemma DealtPending(w: World, d: Disk, m: nat, n: nat, goal: set<Path>, p: Path)
    requires m > 0
    requires forall i | 0 <= i < n :: GoodLog(w, goal, UnreadLogs(w, d, n)[i])
    requires Pending(w, d.logs, MarksOf(d, n), p)
    ensures Pending(w, Dealt(w, d, m, n).logs, MarksOf(Dealt(w, d, m, n), m), p)
  {
    var us := UnreadLogs(w, d, n);
    var i :| 0 <= i < n && p in Paths(w.names, Tail(w.names, d.logs, i, MarksOf(d, n)[i]));
    assert p in Paths(w.names, us[i]);
    FlatGood(w, goal, us);
    PartsPaths(w.names, m, Flat(us), p);
    var j :| 0 <= j < m && p in Paths(w.names, Part(w.names, m, Flat(us), j));
    DealtTail(w, d, m, n, j);
  }

  /** A dispatch covers what the old logs covered. */
  lemma DealtCovers(w: World, d: Disk, m: nat, n: nat, goal: set<Path>, base: Files)
    requires m > 0 && Covers(w, d.logs, d.local, goal, base, MarksOf(d, n))
    ensures Covers(w, Dealt(w, d, m, n).logs, d.local, goal, base, MarksOf(Dealt(w, d, m, n), m))
  {
    var us, dealt := UnreadLogs(w, d, n), Dealt(w, d, m, n);
    forall i: nat | i < n
      ensures i in d.logs && GoodLog(w, goal, d.logs[i]) && Rest(w.names, d.logs[i], MarkOf(d, i)).Some?
    {
      assert MarksOf(d, n)[i] == MarkOf(d, i);
    }
    UnreadGood(w, d, n, goal);
    FlatGood(w, goal, us);
    PartsGood(w, goal, m, Flat(us));
    forall p | Pending(w, d.logs, MarksOf(d, n), p)
      ensures Pending(w, dealt.logs, MarksOf(dealt, m), p)
    {
      DealtPending(w, d, m, n, goal, p);
    }
  }

  lemma CrewCovers(w: World, s: State, m: nat)
    requires m > 0 && s.disk.flag == Some(Flag(true, m)) && Sound(w.names, w.source, s.raw)
    requires forall i: nat | i < m :: i in s.disk.marks
    requires CoversAt(w, s, MarksOf(s.disk, m))
    ensures RestoreInv(w, s.(phase := Restoring(Crew(m))))
  {
    assert Positions(s.disk, Crew(m)) == MarksOf(s.disk, m);
    forall i | 0 <= i < m
      ensures i in s.disk.logs && WorkerInv(w, s.disk.logs[i], s.disk.marks[i], Crew(m)[i])
    {
      assert MarksOf(s.disk, m)[i] == s.disk.marks[i];
    }
  }

  lemma MoreThreadsKeepInv(w: World, s: State, s': State)
    requires Inv(w, s) && Next(w, s, Check, s') && Trusted(s.disk)
    requires s.disk.flag.value.threads < s.phase.m
    ensures Inv(w, s')
  {
    var m, n := s.phase.m, s.disk.flag.value.threads;
    DealtCovers(w, s.disk, m, n, Goal(w, s), s.base);
    assert MarksOf(s'.disk, m) == MarksOf(Dealt(w, s.disk, m, n), m);
    CrewCovers(w, s', m);
    RestoreGivesDiskInv(w, s');
  }

  lemma FewerThreadsKeepInv(w: World, s: State, s': State)
    requires Inv(w, s) && Next(w, s, Check, s') && Trusted(s.disk)
    requires s.disk.flag.value.threads > s.phase.m
    ensures Inv(w, s')
  {
    DealtCovers(w, s.disk, s.phase.m, s.disk.flag.value.threads, Goal(w, s), s.base);
    DealtTrimInv(w, s, s');
    TrimGivesDiskInv(w, s');
  }

  lemma CheckKeepsInv(w: World, s: State, s': State)
    requires Inv(w, s) && Next(w, s, Check, s')
    ensures Inv(w, s')
  {
    if Trusted(s.disk) {
      if s.disk.flag.value.threads < s.phase.m {
        MoreThreadsKeepInv(w, s, s');
      } else if s.disk.flag.value.threads > s.phase.m {
        FewerThreadsKeepInv(w, s, s');
      } else {
        CrewCovers(w, s, s.phase.m);
      }
    }
  }

  lemma DealtTrimInv(w: World, s: State, s': State)
    requires Inv(w, s) && s.phase.Checking? && Trusted(s.disk)
    requires 0 < s.phase.m < s.disk.flag.value.threads
    requires s' == s.(phase := Trimming(s.phase.m, s.disk.flag.value.threads, s.phase.m),
                      disk := Dealt(w, s.disk, s.phase.m, s.disk.flag.value.threads))
    requires CoversAt(w, s', MarksOf(s'.disk, s.phase.m))
    ensures TrimInv(w, s')
  {
    var n := s.disk.flag.value.threads;
    forall i: nat | s.phase.m <= i < n
      ensures i in s'.disk.marks && GoodLog(w, Goal(w, s), s'.disk.logs[i])
        && Rest(w.names, s'.disk.logs[i], s'.disk.marks[i]).Some?
    {
      assert MarksOf(s.disk, n)[i] == s.disk.marks[i];
    }
  }

  // ---------------------------------------------------------------- dropping surplus logs

  lemma PendingInMore(w: World, logs: map<nat, seq<Record>>, pos: seq<int>, more: seq<int>, p: Path)
    requires Pending(w, logs, pos, p) && pos <= more
    ensures Pending(w, logs, more, p)
  {
    var i :| 0 <= i < |pos| && p in Paths(w.names, Tail(w.names, logs, i, pos[i]));
    assert p in Paths(w.names, Tail(w.names, logs, i, more[i]));
  }

  /** While the flag still lists the old logs, they only add records that are also dealt out. */
  lemma TrimGivesDiskInv(w: World, s: State)
    requires s.phase.Trimming? && TrimInv(w, s)
    ensures DiskInv(w, s)
  {
    if Trusted(s.disk) {
      var m, n, d := s.phase.m, s.phase.n, s.disk;
      assert MarksOf(d, m) <= MarksOf(d, n);
      forall i: nat | i < n ensures i in d.marks && Rest(w.names, d.logs[i], MarkOf(d, i)).Some?
        && GoodLog(w, Goal(w, s), d.logs[i]) {
        if i < m { assert MarksOf(d, m)[i] == MarkOf(d, i); }
      }
      forall p | Pending(w, d.logs, MarksOf(d, m), p) ensures Pending(w, d.logs, MarksOf(d, n), p) {
        PendingInMore(w, d.logs, MarksOf(d, m), MarksOf(d, n), p);
      }
    }
  }

  lemma CoversSameLogs(w: World, logs: map<nat, seq<Record>>, logs': map<nat, seq<Record>>, local: Files,
                       goal: set<Path>, base: Files, pos: seq<int>)
    requires Covers(w, logs, local, goal, base, pos)
    requires forall i: nat | i < |pos| :: i in logs' && i in logs && logs'[i] == logs[i]
    ensures Covers(w, logs', local, goal, base, pos)
  {
    forall p | Pending(w, logs, pos, p) ensures Pending(w, logs', pos, p) {
      var i :| 0 <= i < |pos| && p in Paths(w.names, Tail(w.names, logs, i, pos[i]));
      assert p in Paths(w.names, Tail(w.names, logs', i, pos[i]));
    }
  }

  lemma TrimKeepsTrimInv(w: World, s: State, keepMark: bool, s': State)
    requires s.phase.Trimming? && TrimInv(w, s) && Next(w, s, Trim(keepMark), s')
    ensures TrimInv(w, s')
  {
    var m, d, d' := s.phase.m, s.disk, s'.disk;
    assert CoversAt(w, s', MarksOf(d', m)) by {
      assert MarksOf(d', m) == MarksOf(d, m);
      CoversSameLogs(w, d.logs, d'.logs, d.local, Goal(w, s), s.base, MarksOf(d, m));
    }
    assert forall i: nat | i < m :: i in d'.marks && d'.marks[i] == d.marks[i];
  }

  lemma TrimKeepsInv(w: World, s: State, keepMark: bool, s': State)
    requires Inv(w, s) && Next(w, s, Trim(keepMark), s')
    ensures Inv(w, s')
  {
    TrimKeepsTrimInv(w, s, keepMark, s');
    TrimGivesDiskInv(w, s');
  }

  lemma TrimDoneKeepsInv(w: World, s: State, s': State)
    requires Inv(w, s) && Next(w, s, TrimDone, s')
    ensures Inv(w, s')
  {
    assert MarksOf(s'.disk, s.phase.m) == MarksOf(s.disk, s.phase.m);
    CrewCovers(w, s', s.phase.m);
    RestoreGivesDiskInv(w, s');
  }

  // ---------------------------------------------------------------- all moves, all runs

  /** Every move keeps the invariant. */
  lemma NextKeepsInv(w: World, s: State, step: Step, s': State)
    requires Inv(w, s) && Next(w, s, step, s')
    ensures Inv(w, s')
  {
    match step
    case Prepare(fetched) => PrepareKeepsInv(w, s, fetched, s');
    case Check => CheckKeepsInv(w, s, s');
    case Trim(keepMark) => TrimKeepsInv(w, s, keepMark, s');
    case TrimDone => TrimDoneKeepsInv(w, s, s');
    case Work(i, a) => WorkKeepsInv(w, s, i, a, s');
    case Finish => FinishKeepsInv(w, s, s');
    case _ =>
  }

  /** A run: any number of moves from a disk without a recovery in progress. */
  ghost predicate IsRun(w: World, run: seq<State>, steps: seq<Step>) {
    && |run| == |steps| + 1
    && Init(w, run[0])
    && forall k | 0 <= k < |steps| :: Next(w, run[k], steps[k], run[k + 1])
  }

  lemma {:induction false} RunKeepsInv(w: World, run: seq<State>, steps: seq<Step>, k: nat)
    requires IsRun(w, run, steps) && k < |run|
    ensures Inv(w, run[k])
  {
    if k > 0 {
      RunKeepsInv(w, run, steps, k - 1);
      NextKeepsInv(w, run[k - 1], steps[k - 1], run[k]);
    }
  }

  predicate ReportsRestored(s: State) {
    (s.phase.Clearing? || s.phase.Up?) && s.phase.restored
  }

  /** End to end: whenever restore has removed the flag file, the store path holds what one plain
      replay of the fetched log would have left, whatever crashes, retries and thread counts came before. */
  lemma EndToEnd(w: World, run: seq<State>, steps: seq<Step>, k: nat)
    requires IsRun(w, run, steps) && k < |run| && ReportsRestored(run[k])
    ensures var s := run[k];
      && s.disk.flag.None?
      && s.disk.local == Replayed(w.names, w.source, s.raw, s.base)
      && forall r | r in s.raw ::
           var e := EffectOf(w.names, r);
           && (Downloads(w, e) ==> Lookup(s.disk.local, e.path) == Lookup(w.source, e.path))
           && (e.LinkAt? ==> e.path in s.disk.local)
           && (e.LinkAt? && e.path !in s.base ==> s.disk.local[e.path] == Link(e.target))
  {
    RunKeepsInv(w, run, steps, k);
    var s := run[k];
    ReplayRestores(w.names, w.source, s.raw, s.base);
    forall r | r in s.raw
      ensures var e := EffectOf(w.names, r);
        && (Downloads(w, e) ==> Lookup(s.disk.local, e.path) == Lookup(w.source, e.path))
        && (e.LinkAt? ==> e.path in s.disk.local)
        && (e.LinkAt? && e.path !in s.base ==> s.disk.local[e.path] == Link(e.target))
    {
      RestoredRecord(w.names, w.source, s.raw, s.base, r);
    }
  }

  /** Move k rewrites the flag after a fetch and a split. */
  predicate CompletesFetch(run: seq<State>, steps: seq<Step>, k: nat) {
    k < |steps| && k < |run| && steps[k].Prepare? && run[k].phase.Preparing? && run[k].phase.step == 6
  }

  /** A state that works with, or has finished with, a fetched log. */
  predicate UsesFetch(s: State) {
    Trusted(s.disk) || s.phase.Trimming? || s.phase.Restoring? || ReportsRestored(s)
  }

  lemma UsesFetchBefore(w: World, s: State, step: Step, s': State)
    requires Inv(w, s) && Next(w, s, step, s') && UsesFetch(s')
    requires !(step.Prepare? && s.phase.Preparing? && s.phase.step == 6)
    ensures UsesFetch(s) && s'.raw == s.raw && s'.base == s.base
  {
    if s'.phase.Restoring? && !s.phase.Restoring? {
      assert step.Check? || step.TrimDone?;
    }
  }

  /** The log and the base that a state goes back to are those of an earlier completed fetch. */
  lemma {:induction false} GoesBackToFetch(w: World, run: seq<State>, steps: seq<Step>, j: nat) returns (k: nat)
    requires IsRun(w, run, steps) && j < |run| && UsesFetch(run[j])
    ensures k < j && CompletesFetch(run, steps, k)
    ensures run[j].raw == run[k].raw && run[j].base == run[k].disk.local
  {
    RunKeepsInv(w, run, steps, j - 1);
    if CompletesFetch(run, steps, j - 1) {
      k := j - 1;
    } else {
      UsesFetchBefore(w, run[j - 1], steps[j - 1], run[j]);
      k := GoesBackToFetch(w, run, steps, j - 1);
    }
  }

  /** Restore threads only run on a fetched and split log, with every listed log and mark present. */
  lemma RestoreStartsTrusted(w: World, run: seq<State>, steps: seq<Step>, j: nat)
    requires IsRun(w, run, steps) && j < |run| && run[j].phase.Restoring?
    ensures var n := |run[j].phase.workers|; var d := run[j].disk;
      && n > 0 && d.flag == Some(Flag(true, n))
      && forall i: nat | i < n ::
           && i in d.logs && i in d.marks
           && Sound(w.names, w.source, d.logs[i]) && Clean(w.names, d.logs[i])
           && Paths(w.names, d.logs[i]) <= Paths(w.names, run[j].raw)
  {
    RunKeepsInv(w, run, steps, j);
    assert GoodLog(w, Goal(w, run[j]), run[j].disk.logs[0]);
  }

  /** A flag without `fetched` leads to a fetch before any thread restores. */
  lemma {:induction false} FetchBeforeRestore(w: World, run: seq<State>, steps: seq<Step>, i: nat,
                                              j: nat) returns (k: nat)
    requires IsRun(w, run, steps) && i <= j < |run|
    requires run[i].disk.flag.Some? && !run[i].disk.flag.value.fetched
    requires UsesFetch(run[j])
    ensures i <= k < j && CompletesFetch(run, steps, k)
    decreases j
  {
    RunKeepsInv(w, run, steps, i);
    assert i < j;
    RunKeepsInv(w, run, steps, j - 1);
    if CompletesFetch(run, steps, j - 1) {
      k := j - 1;
    } else {
      UsesFetchBefore(w, run[j - 1], steps[j - 1], run[j]);
      k := FetchBeforeRestore(w, run, steps, i, j - 1);
    }
  }

  /** The flag file disappears in four ways only; restore removes it after every thread has read its
      log to the end. */
  lemma WhoRemovesTheFlag(w: World, run: seq<State>, steps: seq<Step>, k: nat)
    requires IsRun(w, run, steps) && k < |steps|
    requires run[k].disk.flag.Some? && run[k + 1].disk.flag.None?
    ensures steps[k].ReplaceDisk? || steps[k].NoSource? || steps[k].SplitFails? || steps[k].Finish?
    ensures steps[k].Finish? ==>
      && run[k].phase.Restoring?
      && run[k].disk.flag == Some(Flag(true, |run[k].phase.workers|))
      && forall i | 0 <= i < |run[k].phase.workers| ::
           var v := run[k].phase.workers[i];
           && v.status.Done? && v.reader.Some? && i in run[k].disk.logs
           && Rest(w.names, run[k].disk.logs[i], v.reader.value) == Some([])
  {
    RunKeepsInv(w, run, steps, k);
    assert Next(w, run[k], steps[k], run[k + 1]);
    if steps[k].Finish? {
      forall i | 0 <= i < |run[k].phase.workers| ensures run[k].phase.workers[i].status.Done? {
        assert run[k].phase.workers[i] in run[k].phase.workers;
      }
    }
  }

  /** A download never meets a symbolic link: where thread i has a file of the peer to fetch, the store path
      holds a file or nothing, so that writing in place or renaming over it changes this path only. */
  lemma DownloadsReplaceFiles(w: World, run: seq<State>, steps: seq<Step>, j: nat, i: nat)
    requires IsRun(w, run, steps) && j < |run| && run[j].phase.Restoring? && i < |run[j].phase.workers|
    requires run[j].phase.workers[i].reader.Some?
    ensures var d := run[j].disk;
      var u := Tail(w.names, d.logs, i, run[j].phase.workers[i].reader.value);
      u != [] && Downloads(w, EffectOf(w.names, u[0])) && EffectOf(w.names, u[0]).path in d.local ==>
        d.local[EffectOf(w.names, u[0]).path].File?
  {
    RunKeepsInv(w, run, steps, j);
  }
}
