/** How recovery can lose files, as runs of the same machine, and when it does not. */
module RecoveryHazards {
  import opened Options
  import opened BinlogText
  import opened Replay
  import opened RecoveryLog
  import opened Dispatch
  import opened RecoveryState
  import opened RecoveryProtocol
  import opened RecoverySafety
  import opened RecoveryProgress
  import opened InterruptedDispatch
  import TrunkSplit

  /** The store path is not recovered: no flag, the same files, and no restore under way. */
  predicate Abandoned(s: State, files: Files) {
    && s.disk.flag.None? && s.disk.local == files
    && (s.phase.Down? || s.phase.Checking? || s.phase == Up(false))
  }

  /** Neither is the disk replaced nor does a startup find the data directories missing. */
  predicate NoNewDisk(step: Step) {
    !step.ReplaceDisk? && !(step.StartUp? && step.prepare)
  }

  lemma {:induction false} AbandonedStays(w: World, states: seq<State>, steps: seq<Step>, k: nat, files: Files)
    requires IsPath(w, states, steps) && k < |states| && (forall step | step in steps :: NoNewDisk(step))
    requires Abandoned(states[0], files)
    ensures Abandoned(states[k], files)
  {
    if k > 0 {
      AbandonedStays(w, states, steps, k - 1, files);
      assert steps[k - 1] in steps && Next(w, states[k - 1], steps[k - 1], states[k]);
    }
  }

  /** A failed split removes the flag. In every continuation on the same disk, with any number of crashes and
      startups, no file is ever restored and every startup that ends reports success without a restore. */
  lemma SplitFailureSkipsRecovery(w: World, s: State, states: seq<State>, steps: seq<Step>, k: nat)
    requires IsPath(w, states, steps) && k < |states| && (forall step | step in steps :: NoNewDisk(step))
    requires Next(w, s, SplitFails, states[0])
    ensures Abandoned(states[k], s.disk.local)
  {
    AbandonedStays(w, states, steps, k, s.disk.local);
  }

  /** And the next startup does end so. */
  lemma SplitFailureStartsUp(w: World, s: State, m: nat) returns (t: State)
    requires s.phase.Preparing? && 4 <= s.phase.step <= 5 && m > 0
    ensures Reaches(w, s, t) && t.phase == Up(false) && t.disk.local == s.disk.local
  {
    ReachesSelf(w, s);
    var failed := s.(phase := Down, disk := s.disk.(flag := None));
    OneMore(w, s, s, SplitFails, failed);
    var checking := failed.(phase := Checking(m, false));
    OneMore(w, s, failed, StartUp(m, false), checking);
    t := checking.(phase := Up(false));
    OneMore(w, s, checking, Check, t);
  }

  /** Between a state with a flag file and a later one without, either restore has finished or one of
      the three other removals has happened. */
  lemma {:induction false} FlagGoneMeans(w: World, run: seq<State>, steps: seq<Step>, i: nat, j: nat) returns (k: nat)
    requires IsRun(w, run, steps) && i <= j < |run|
    requires run[i].disk.flag.Some? && run[j].disk.flag.None?
    ensures i <= k < j
    ensures steps[k].Finish? || steps[k].SplitFails? || steps[k].NoSource? || steps[k].ReplaceDisk?
    ensures steps[k].Finish? ==> run[k + 1].disk.local == Replayed(w.names, w.source, run[k + 1].raw, run[k + 1].base)
    decreases j
  {
    if run[j - 1].disk.flag.Some? {
      k := j - 1;
      WhoRemovesTheFlag(w, run, steps, k);
      assert Next(w, run[k], steps[k], run[k + 1]);
      if steps[k].Finish? {
        EndToEnd(w, run, steps, k + 1);
      }
    } else {
      k := FlagGoneMeans(w, run, steps, i, j - 1);
    }
  }

  // ---------------------------------------------------------------- a run that loses a file

  lemma SplitOfOne(w: World, r: Record)
    requires Printed(w, [r]) && EffectOf(w.names, r).FileAt?
    ensures TrunkSplit.Split(w.names, [r]) == [r]
  {
    var log, names := [r], w.names;
    assert r in log && log[..0] == [];
    assert TrunkSplit.Plain(names, log) == TrunkSplit.Plain(names, log[..0])
      + if names.isTrunk(r.name) then [] else [r];
    assert TrunkSplit.Collect(names, log) == TrunkSplit.Add(names, TrunkSplit.Collect(names, log[..0]), r);
    assert !TrunkSplit.HasKey([], TrunkId(0, 0, 0));
    if names.isTrunk(r.name) {
      var e := TrunkSplit.Entry(names.trunkOf(r.name).value, r);
      assert r.(src := "") == r;
      assert TrunkSplit.Collect(names, log) == [e];
      assert TrunkSplit.Walk([e]) == [r];
    }
  }

  lemma RunGoesOn(w: World, run: seq<State>, steps: seq<Step>, step: Step, s: State)
    requires IsRun(w, run, steps) && Next(w, run[|steps|], step, s)
    ensures IsRun(w, run + [s], steps + [step])
  {
    forall k | 0 <= k < |steps + [step]| ensures Next(w, (run + [s])[k], (steps + [step])[k], (run + [s])[k + 1]) {
      assert k < |steps| ==> Next(w, run[k], steps[k], run[k + 1]);
    }
  }

  /** The first moves of a fetch, up to the empty log. */
  lemma FetchBegins(w: World, base: Files) returns (run: seq<State>, steps: seq<Step>)
    requires Kinds(w, base)
    ensures IsRun(w, run, steps)
    ensures run[|steps|]
      == State(Preparing(3, 1, false), Disk(Some(Flag(false, -1)), map[0 := []], map[], base), [], base)
  {
    var s := State(Down, Disk(None, map[], map[], base), [], base);
    run, steps := [s], [];
    var next := s.(phase := Preparing(0, 1, false));
    RunGoesOn(w, run, steps, StartUp(1, true), next);
    run, steps, s := run + [next], steps + [StartUp(1, true)], next;
    next := s.(phase := Preparing(1, 1, false), disk := s.disk.(flag := Some(Flag(false, -1))));
    RunGoesOn(w, run, steps, Prepare([]), next);
    run, steps, s := run + [next], steps + [Prepare([])], next;
    next := s.(phase := Preparing(2, 1, false), disk := s.disk.(logs := s.disk.logs[0 := []]));
    RunGoesOn(w, run, steps, Prepare([]), next);
    run, steps, s := run + [next], steps + [Prepare([])], next;
    next := s.(phase := Preparing(3, 1, false));
    RunGoesOn(w, run, steps, Prepare([]), next);
    run, steps := run + [next], steps + [Prepare([])];
  }

  lemma FetchArrives(w: World, r: Record, base: Files) returns (run: seq<State>, steps: seq<Step>)
    requires Printed(w, [r]) && Kinds(w, base)
    ensures IsRun(w, run, steps)
    ensures run[|steps|]
      == State(Preparing(5, 1, false), Disk(Some(Flag(false, -1)), map[0 := [r]], map[0 := 0], base), [r], base)
  {
    run, steps := FetchBegins(w, base);
    var s, step := run[|steps|], Prepare([r]);
    var next := s.(phase := Preparing(4, 1, false), disk := s.disk.(logs := s.disk.logs[0 := [r]]), raw := [r]);
    RunGoesOn(w, run, steps, step, next);
    run, steps, s := run + [next], steps + [step], next;
    next := s.(phase := Preparing(5, 1, false), disk := s.disk.(marks := s.disk.marks[0 := 0]));
    RunGoesOn(w, run, steps, step, next);
    run, steps := run + [next], steps + [step];
    assert next.disk.logs == map[0 := [r]] && next.disk.marks == map[0 := 0];
  }

  /** The split of a one-record log changes nothing. */
  lemma SplitMove(w: World, s: State, r: Record)
    requires Printed(w, [r]) && EffectOf(w.names, r).FileAt?
    requires s.phase == Preparing(5, 1, false) && s.disk.logs == map[0 := [r]] && s.disk.marks == map[0 := 0]
    ensures Next(w, s, Prepare([r]), s.(phase := Preparing(6, 1, false)))
  {
    SplitOfOne(w, r);
    assert Tail(w.names, s.disk.logs, 0, MarkOf(s.disk, 0)) == [r];
    assert s.disk.logs[0 := [r]] == s.disk.logs;
  }

  /** A fetch of a one-record log and a crash before any thread has started. */
  lemma FetchOne(w: World, r: Record, base: Files) returns (run: seq<State>, steps: seq<Step>)
    requires Printed(w, [r]) && EffectOf(w.names, r).FileAt? && Kinds(w, base)
    ensures IsRun(w, run, steps)
    ensures run[|steps|] == State(Down, Disk(Some(Flag(true, 1)), map[0 := [r]], map[0 := 0], base), [r], base)
  {
    run, steps := FetchArrives(w, r, base);
    var s := run[|steps|];
    var next := s.(phase := Preparing(6, 1, false));
    SplitMove(w, s, r);
    RunGoesOn(w, run, steps, Prepare([r]), next);
    run, steps := run + [next], steps + [Prepare([r])];
    run, steps := FetchEnds(w, run, steps);
  }

  lemma FetchEnds(w: World, before: seq<State>, done: seq<Step>) returns (run: seq<State>, steps: seq<Step>)
    requires IsRun(w, before, done) && before[|done|].phase == Preparing(6, 1, false)
    ensures IsRun(w, run, steps)
    ensures var s := before[|done|];
      run[|steps|] == s.(phase := Down, disk := s.disk.(flag := Some(Flag(true, 1))), base := s.disk.local)
  {
    var s := before[|done|];
    var next := s.(phase := Checking(1, false), disk := s.disk.(flag := Some(Flag(true, 1))), base := s.disk.local);
    RunGoesOn(w, before, done, Prepare([]), next);
    run, steps := before + [next], done + [Prepare([])];
    RunGoesOn(w, run, steps, Crash, next.(phase := Down));
    run, steps := run + [next.(phase := Down)], steps + [Crash];
  }

  /** Threads whose logs are empty are done at once, one after the other. */
  lemma {:induction false} EmptyLogsFinish(w: World, from: State, s: State, k: nat) returns (t: State)
    requires Reaches(w, from, s) && s.phase.Restoring? && k <= |s.phase.workers|
    requires forall i | 0 <= i < k :: s.phase.workers[i].status.Done?
    requires forall i | k <= i < |s.phase.workers| :: s.phase.workers[i] == FRESH && EmptyLog(s.disk, i)
    ensures Reaches(w, from, t) && ReportsRestored(t) && t.disk.local == s.disk.local
    decreases |s.phase.workers| - k
  {
    if k == |s.phase.workers| {
      t := s.(phase := Clearing(k, true), disk := s.disk.(flag := None));
      OneMore(w, from, s, Finish, t);
    } else {
      var next := EmptyLogEnds(w, from, s, k);
      t := EmptyLogsFinish(w, from, next, k + 1);
    }
  }

  /** Log i is empty and its mark is 0. */
  predicate EmptyLog(d: Disk, i: nat) {
    i in d.logs && d.logs[i] == [] && i in d.marks && d.marks[i] == 0
  }

  lemma EmptyLogEnds(w: World, from: State, s: State, i: nat) returns (t: State)
    requires Reaches(w, from, s) && s.phase.Restoring? && i < |s.phase.workers|
    requires s.phase.workers[i] == FRESH && EmptyLog(s.disk, i)
    ensures Reaches(w, from, t) && t.phase.Restoring? && t.disk == s.disk
    ensures exists v: Worker :: v.status.Done? && t.phase.workers == s.phase.workers[i := v]
  {
    var d, reading := s.disk, Worker(Some(0), false, 0, Running, false);
    var begun := Moved(s, i, d, reading);
    assert WorkStep(w, d, FRESH, i, Open, d, reading);
    OneMore(w, from, s, Work(i, Open), begun);
    var done := reading.(status := Done);
    t := Moved(begun, i, d, done);
    assert SaveMark(d, i, 0, true) == d by {
      assert d.marks[i := 0] == d.marks;
    }
    assert WorkStep(w, d, reading, i, ReachEnd(true), d, done);
    OneMore(w, from, begun, Work(i, ReachEnd(true)), t);
    assert t.phase.workers == s.phase.workers[i := done];
  }

  /** A restart with as many threads as the flag lists, all of them with empty logs, reports success and
      restores nothing. */
  lemma EmptyDiskFinishes(w: World, s: State, m: nat) returns (t: State)
    requires s.phase.Down? && m > 0 && s.disk.flag == Some(Flag(true, m)) && forall i: nat | i < m :: EmptyLog(s.disk,
    i)
    ensures Reaches(w, s, t) && ReportsRestored(t) && t.disk.local == s.disk.local
  {
    ReachesSelf(w, s);
    var checking := s.(phase := Checking(m, false));
    OneMore(w, s, s, StartUp(m, false), checking);
    var restoring := checking.(phase := Restoring(Crew(m)));
    forall i: nat | i < m ensures i in s.disk.logs {
      assert EmptyLog(s.disk, i);
    }
    assert Next(w, checking, Check, restoring);
    OneMore(w, s, checking, Check, restoring);
    t := EmptyLogsFinish(w, s, restoring, 0);
  }

  /** After the fetch of a one-record log, restore reports success without the file that the log promises. */
  ghost predicate LosesFile(w: World, s: State, d: Disk, t: State, p: Path) {
    && s.phase.Down? && Trusted(s.disk) && d.local == s.disk.local
    && Reaches(w, s.(disk := d), t) && ReportsRestored(t)
    && p !in t.disk.local && t.disk.local != Replayed(w.names, w.source, s.raw, s.base)
  }

  lemma NothingReplayed(w: World, s: State, r: Record, p: Path, d: Disk, t: State)
    requires s.phase.Down? && Trusted(s.disk) && d.local == s.disk.local && s.raw == [r] && s.base == s.disk.local
    requires EffectOf(w.names, r) == FileAt(p) && Downloads(w, FileAt(p)) && p !in s.base
    requires Reaches(w, s.(disk := d), t) && ReportsRestored(t) && t.disk.local == d.local
    ensures LosesFile(w, s, d, t, p)
  {
    assert Replayed(w.names, w.source, [r], s.base)
        == Replayed(w.names, w.source, [], Apply(w.source, FileAt(p), s.base));
  }

  /** A losing run: the one unread record goes to the second of two threads, the crash leaves a flag that
      lists the first, and the next restore reports success without the file. */
  lemma StaleFlagLosesFile(w: World, r: Record, p: Path, base: Files)
    returns (run: seq<State>, steps: seq<Step>, t: State)
    requires Printed(w, [r]) && EffectOf(w.names, r) == FileAt(p) && Downloads(w, FileAt(p))
    requires Kinds(w, base) && p !in base && Home(w.names, 2, Key(r)) == 1
    ensures IsRun(w, run, steps) && run[|steps|].raw == [r] && run[|steps|].base == base
    ensures Trusted(run[|steps|].disk) && run[|steps|].disk.flag.value.threads == 1
    ensures LosesFile(w, run[|steps|], Dealt(w, run[|steps|].disk, 2, 1), t, p)
  {
    run, steps := FetchOne(w, r, base);
    var s := run[|steps|];
    var d := Dealt(w, s.disk, 2, 1);
    EmptyFirstPart(w, s.disk, r);
    t := EmptyDiskFinishes(w, s.(disk := d), 1);
    NothingReplayed(w, s, r, p, d, t);
  }

  /** A losing run: a dispatch to two threads meets a stop request before its first read, puts two empty logs
      in place and reports success. */
  lemma ShortDispatchLosesFile(w: World, r: Record, p: Path, base: Files)
    returns (run: seq<State>, steps: seq<Step>, d: Disk, t: State)
    requires Printed(w, [r]) && EffectOf(w.names, r) == FileAt(p) && Downloads(w, FileAt(p))
    requires Kinds(w, base) && p !in base
    ensures IsRun(w, run, steps) && run[|steps|].raw == [r] && run[|steps|].base == base
    ensures LosesFile(w, run[|steps|], d, t, p)
    ensures ReadCount(UnreadLogs(w, run[|steps|].disk, 1), [LogOk], Some(0), 0) == 0
    ensures Leaves(w, run[|steps|].disk, 2, 0, 2, d) && d.flag == Some(Flag(true, 2))
  {
    run, steps := FetchOne(w, r, base);
    var s := run[|steps|];
    d := Disk(Some(Flag(true, 2)), map[0 := [], 1 := []], map[0 := 0, 1 := 0], base);
    NothingDealt(w, s.disk, d, r);
    t := EmptyDiskFinishes(w, s.(disk := d), 2);
    NothingReplayed(w, s, r, p, d, t);
  }

  lemma NothingDealt(w: World, before: Disk, d: Disk, r: Record)
    requires before.flag == Some(Flag(true, 1)) && before.logs == map[0 := [r]] && before.marks == map[0 := 0]
    requires d == Disk(Some(Flag(true, 2)), map[0 := [], 1 := []], map[0 := 0, 1 := 0], before.local)
    ensures Trusted(before) && Leaves(w, before, 2, 0, 2, d)
    ensures ReadCount(UnreadLogs(w, before, 1), [LogOk], Some(0), 0) == 0
  {
    ReadCountBound(UnreadLogs(w, before, 1), [LogOk], Some(0), 0);
    assert Unread(w, before)[..0] == [];
    assert Parts(w.names, 2, []) == [[], []];
  }

  /** A losing run: the same record, and a crash after the first of two renames. */
  lemma InterruptedRenameLosesFile(w: World, r: Record, p: Path, base: Files)
    returns (run: seq<State>, steps: seq<Step>, d: Disk, t: State)
    requires Printed(w, [r]) && EffectOf(w.names, r) == FileAt(p) && Downloads(w, FileAt(p))
    requires Kinds(w, base) && p !in base && Home(w.names, 2, Key(r)) == 1
    ensures IsRun(w, run, steps) && run[|steps|].raw == [r] && run[|steps|].base == base
    ensures LosesFile(w, run[|steps|], d, t, p)
    ensures |Unread(w, run[|steps|].disk)| == 1 && Leaves(w, run[|steps|].disk, 2, 1, 1, d)
    ensures d.flag == run[|steps|].disk.flag
  {
    run, steps := FetchOne(w, r, base);
    var s := run[|steps|];
    d := Disk(Some(Flag(true, 1)), map[0 := []], map[0 := 0], base);
    OneRename(w, s.disk, d, r);
    t := EmptyDiskFinishes(w, s.(disk := d), 1);
    NothingReplayed(w, s, r, p, d, t);
  }

  lemma OneRename(w: World, before: Disk, d: Disk, r: Record)
    requires before.flag == Some(Flag(true, 1)) && before.logs == map[0 := [r]] && before.marks == map[0 := 0]
    requires d == Disk(before.flag, map[0 := []], map[0 := 0], before.local) && Home(w.names, 2, Key(r)) == 1
    ensures Trusted(before) && |Unread(w, before)| == 1 && Leaves(w, before, 2, 1, 1, d)
  {
    assert UnreadLogs(w, before, 1) == [[r]];
    FlatOne(r);
    PartOfOne(w.names, r);
    assert Unread(w, before)[..1] == [r];
  }

  lemma FlatOne(r: Record)
    ensures Flat([[r]]) == [r]
  {
    var us := [[r]];
    assert us[..0] == [] && us[0] == [r];
    assert Flat(us) == Flat(us[..0]) + us[0];
  }

  lemma PartOfOne(names: Names, r: Record)
    requires Home(names, 2, Key(r)) == 1
    ensures Part(names, 2, [r], 0) == []
  {
    assert [r][..0] == [];
    assert Part(names, 2, [r], 0) == Part(names, 2, [], 0) + [];
  }

  lemma EmptyFirstPart(w: World, d: Disk, r: Record)
    requires d.logs == map[0 := [r]] && d.marks == map[0 := 0] && Home(w.names, 2, Key(r)) == 1
    ensures EmptyLog(Dealt(w, d, 2, 1), 0)
  {
    assert UnreadLogs(w, d, 1) == [[r]];
    FlatOne(r);
    PartOfOne(w.names, r);
    DealtTail(w, d, 2, 1, 0);
  }

  lemma FirstLinkStays(names: Names, source: Files, a: Record, b: Record, base: Files)
    requires EffectOf(names, a).LinkAt? && EffectOf(names, b).LinkAt?
    requires EffectOf(names, a).path == EffectOf(names, b).path && EffectOf(names, a).path !in base
    ensures Replayed(names, source, [a, b], base) == base[EffectOf(names, a).path := Link(EffectOf(names, a).target)]
  {
    var files := Apply(source, EffectOf(names, a), base);
    assert [a, b][1..] == [b] && [b][1..] == [];
    assert Replayed(names, source, [b], files) == Replayed(names, source, [], Apply(source, EffectOf(names, b), files));
  }

  /** Two links of one name commute exactly when they have one target. */
  lemma LinksCommuteIff(names: Names, source: Files, a: Record, b: Record, base: Files)
    requires EffectOf(names, a).LinkAt? && EffectOf(names, b).LinkAt?
    requires EffectOf(names, a).path == EffectOf(names, b).path && EffectOf(names, a).path !in base
    ensures Replayed(names, source, [a, b], base) == Replayed(names, source, [b, a], base)
       <==> EffectOf(names, a).target == EffectOf(names, b).target
  {
    FirstLinkStays(names, source, a, b, base);
    FirstLinkStays(names, source, b, a, base);
    var p := EffectOf(names, a).path;
    assert base[p := Link(EffectOf(names, a).target)][p] == Link(EffectOf(names, a).target);
  }
}
