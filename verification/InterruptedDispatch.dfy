/** Dispatches that end early, and what a later restore makes of the logs they leave. */
module InterruptedDispatch {
  import opened Options
  import opened BinlogText
  import opened Replay
  import opened RecoveryLog
  import opened Dispatch
  import opened RecoveryState
  import opened RecoveryProtocol
  import opened RecoverySafety
  import opened RecoveryProgress

  // ---------------------------------------------------------------- what a restart makes of a disk

  /** The logs that the flag lists. */
  function ListedLogs(d: Disk): seq<seq<Record>>
    requires Trusted(d)
  {
    seq(d.flag.value.threads, i requires 0 <= i < d.flag.value.threads => d.logs[i])
  }

  /** The records that a restart still has to handle. */
  function Unread(w: World, d: Disk): seq<Record>
    requires Trusted(d)
  {
    Flat(UnreadLogs(w, d, d.flag.value.threads))
  }

  /** The listed logs hold records of the fetched log, with marks on record boundaries. */
  ghost predicate Sane(w: World, goal: set<Path>, d: Disk) {
    && Trusted(d)
    && forall i: nat | i < d.flag.value.threads ::
         i in d.marks && GoodLog(w, goal, d.logs[i]) && Rest(w.names, d.logs[i], d.marks[i]).Some?
  }

  /** A recovery in progress on the disk of s is to go on from disk d. */
  ghost predicate GoesOnFrom(w: World, s: State, d: Disk) {
    && Inv(w, s) && s.phase.Down? && Trusted(s.disk)
    && d.local == s.disk.local && Sane(w, Goal(w, s), d)
  }

  ghost predicate IsSettled(w: World, s: State, p: Path) {
    Settled(w, s.disk.local, Goal(w, s), s.base, p)
  }

  /** Every path that the recovery had still to handle is unread in d, or needs no more work. */
  ghost predicate NothingMissing(w: World, s: State, d: Disk)
    requires Trusted(s.disk) && Trusted(d)
  {
    forall p | p in Paths(w.names, Unread(w, s.disk)) :: p in Paths(w.names, Unread(w, d)) || IsSettled(w, s, p)
  }

  /** What lies before the marks of d needs no more work, or comes again behind them. */
  ghost predicate ReadIsSettled(w: World, s: State, d: Disk)
    requires Trusted(d)
  {
    forall p | p in Paths(w.names, Flat(ListedLogs(d))) :: p in Paths(w.names, Unread(w, d)) || IsSettled(w, s, p)
  }

  lemma UnreadPaths(w: World, d: Disk, p: Path)
    requires Trusted(d)
    ensures p in Paths(w.names, Unread(w, d)) <==> Pending(w, d.logs, MarksOf(d, d.flag.value.threads), p)
  {
    var n := d.flag.value.threads;
    var us := UnreadLogs(w, d, n);
    FlatMembers(us);
    if p in Paths(w.names, Flat(us)) {
      var r :| r in Flat(us) && Touches(EffectOf(w.names, r)) && EffectOf(w.names, r).path == p;
      var i :| 0 <= i < |us| && r in us[i];
      assert p in Paths(w.names, Tail(w.names, d.logs, i, MarksOf(d, n)[i]));
    }
    if Pending(w, d.logs, MarksOf(d, n), p) {
      var i :| 0 <= i < n && p in Paths(w.names, Tail(w.names, d.logs, i, MarksOf(d, n)[i]));
      var r :| r in us[i] && Touches(EffectOf(w.names, r)) && EffectOf(w.names, r).path == p;
      assert r in Flat(us);
    }
  }

  lemma SettledOrPending(w: World, s: State, p: Path)
    requires Inv(w, s) && Trusted(s.disk)
    ensures IsSettled(w, s, p) || (Midway(w, s.disk.local, s.base, p) && p in Paths(w.names, Unread(w, s.disk)))
  {
    UnreadPaths(w, s.disk, p);
  }

  /** If nothing is missing, the run goes on as if nothing had happened, whatever comes next. */
  lemma NothingMissingIsSafe(w: World, s: State, d: Disk)
    requires GoesOnFrom(w, s, d) && NothingMissing(w, s, d)
    ensures Inv(w, s.(disk := d))
  {
    var n := d.flag.value.threads;
    forall i: nat | i < n ensures MarksOf(d, n)[i] == d.marks[i] && i in d.logs {
    }
    forall p
      ensures IsSettled(w, s, p) || (Midway(w, d.local, s.base, p) && Pending(w, d.logs, MarksOf(d, n), p))
    {
      SettledOrPending(w, s, p);
      UnreadPaths(w, d, p);
    }
  }

  /** The same state, seen as a recovery of another log from another starting point. */
  function Seen(s: State, raw: seq<Record>, base: Files): State {
    s.(raw := raw, base := base)
  }

  /** The listed logs, put together, are a good log of their own. */
  lemma ListedGood(w: World, goal: set<Path>, d: Disk)
    requires Sane(w, goal, d)
    ensures GoodLog(w, goal, Flat(ListedLogs(d)))
    ensures forall i: nat | i < d.flag.value.threads :: GoodLog(w, Paths(w.names, Flat(ListedLogs(d))), d.logs[i])
  {
    FlatGood(w, goal, ListedLogs(d));
    forall i: nat | i < d.flag.value.threads
      ensures GoodLog(w, Paths(w.names, Flat(ListedLogs(d))), d.logs[i])
    {
      assert ListedLogs(d)[i] == d.logs[i];
    }
  }

  /** A settled path of the goal stays as it is when only listed paths are restored onto the present files. */
  lemma SettledStays(w: World, s: State, listed: set<Path>, p: Path)
    requires listed <= Goal(w, s) && IsSettled(w, s, p)
    ensures Settled(w, s.disk.local, listed, s.disk.local, p)
  {
  }

  /** To a restart, d is a disk on which the listed records are to be restored onto the present files. */
  lemma SeenInv(w: World, s: State, d: Disk)
    requires GoesOnFrom(w, s, d) && ReadIsSettled(w, s, d)
    ensures Inv(w, Seen(s.(disk := d), Flat(ListedLogs(d)), d.local))
  {
    var n, goal := d.flag.value.threads, Paths(w.names, Flat(ListedLogs(d)));
    ListedGood(w, Goal(w, s), d);
    forall i: nat | i < n ensures MarksOf(d, n)[i] == d.marks[i] && i in d.logs {
    }
    forall p
      ensures Settled(w, d.local, goal, d.local, p)
           || (Midway(w, d.local, d.local, p) && Pending(w, d.logs, MarksOf(d, n), p))
    {
      if p in goal {
        UnreadPaths(w, d, p);
        if IsSettled(w, s, p) {
          SettledStays(w, s, goal, p);
        }
      }
    }
  }

  /** The log fetched before and the starting point matter to no move but a new fetch. */
  lemma HistoryIsUnused(w: World, s: State, step: Step, s': State, raw: seq<Record>, base: Files)
    requires Next(w, s, step, s') && !step.Prepare?
    ensures Next(w, Seen(s, raw, base), step, Seen(s', raw, base))
  {
  }

  lemma {:induction false} SeenRunKeepsInv(w: World, states: seq<State>, steps: seq<Step>, k: nat, raw: seq<Record>,
                                           base: Files)
    requires IsPath(w, states, steps) && k < |states| && (forall step | step in steps :: !step.Prepare?)
    requires Inv(w, Seen(states[0], raw, base))
    ensures Inv(w, Seen(states[k], raw, base))
  {
    if k > 0 {
      SeenRunKeepsInv(w, states, steps, k - 1, raw, base);
      assert steps[k - 1] in steps;
      HistoryIsUnused(w, states[k - 1], steps[k - 1], states[k], raw, base);
      NextKeepsInv(w, Seen(states[k - 1], raw, base), steps[k - 1], Seen(states[k], raw, base));
    }
  }

  /** One path after a restore of the listed records only. */
  lemma OutcomeAt(w: World, s: State, listed: set<Path>, p: Path)
    requires listed <= Goal(w, s) && (IsSettled(w, s, p) || Midway(w, s.disk.local, s.base, p))
    ensures Lookup(Restored(w.source, listed, s.disk.local), p) == Lookup(Restored(w.source, Goal(w, s), s.base), p)
       <==> p in listed || IsSettled(w, s, p)
  {
  }

  lemma OutcomeIff(w: World, s: State, d: Disk)
    requires GoesOnFrom(w, s, d) && ReadIsSettled(w, s, d)
    ensures var listed := Paths(w.names, Flat(ListedLogs(d)));
      Restored(w.source, listed, s.disk.local) == Restored(w.source, Goal(w, s), s.base)
      <==> NothingMissing(w, s, d)
  {
    var listed := Paths(w.names, Flat(ListedLogs(d)));
    var a, b := Restored(w.source, listed, s.disk.local), Restored(w.source, Goal(w, s), s.base);
    ListedGood(w, Goal(w, s), d);
    forall p
      ensures Lookup(a, p) == Lookup(b, p) <==> p in listed || IsSettled(w, s, p)
      ensures p in Paths(w.names, Unread(w, s.disk)) || IsSettled(w, s, p)
      ensures p in Paths(w.names, Unread(w, d)) ==> p in listed
    {
      SettledOrPending(w, s, p);
      OutcomeAt(w, s, listed, p);
      UnreadIsListed(w, s, d, p);
    }
    if NothingMissing(w, s, d) {
      SameFiles(a, b);
    }
  }

  lemma UnreadIsListed(w: World, s: State, d: Disk, p: Path)
    requires GoesOnFrom(w, s, d)
    ensures p in Paths(w.names, Unread(w, d)) ==> p in Paths(w.names, Flat(ListedLogs(d)))
  {
    UnreadPaths(w, d, p);
    var n := d.flag.value.threads;
    ListedGood(w, Goal(w, s), d);
    if Pending(w, d.logs, MarksOf(d, n), p) {
      var i :| 0 <= i < n && p in Paths(w.names, Tail(w.names, d.logs, i, MarksOf(d, n)[i]));
      RestIsSuffix(w.names, d.logs[i], d.marks[i]);
      PathsOfSuffix(w.names, d.logs[i], |d.logs[i]| - |Rest(w.names, d.logs[i], d.marks[i]).value|);
    }
  }

  lemma RestoresIfSettled(w: World, s: State, d: Disk, states: seq<State>, steps: seq<Step>)
    requires GoesOnFrom(w, s, d) && ReadIsSettled(w, s, d)
    requires Continues(w, s, d, states, steps) && ReportsRestored(states[|steps|])
    ensures states[|steps|].disk.local == Replayed(w.names, w.source, s.raw, s.base) <==> NothingMissing(w, s, d)
  {
    var raw := Flat(ListedLogs(d));
    SeenInv(w, s, d);
    SeenRunKeepsInv(w, states, steps, |steps|, raw, d.local);
    assert RestoredInv(w, Seen(states[|steps|], raw, d.local));
    ReplayRestores(w.names, w.source, s.raw, s.base);
    OutcomeIff(w, s, d);
  }

  /** The run goes on from disk d, without a new fetch. */
  ghost predicate Continues(w: World, s: State, d: Disk, states: seq<State>, steps: seq<Step>) {
    && IsPath(w, states, steps) && states[0] == s.(disk := d)
    && forall step | step in steps :: !step.Prepare?
  }

  lemma RestoresIfNothingMissing(w: World, s: State, d: Disk, states: seq<State>, steps: seq<Step>)
    requires GoesOnFrom(w, s, d) && NothingMissing(w, s, d)
    requires Continues(w, s, d, states, steps) && ReportsRestored(states[|steps|])
    ensures states[|steps|].disk.local == Replayed(w.names, w.source, s.raw, s.base)
  {
    NothingMissingIsSafe(w, s, d);
    SeenRunKeepsInv(w, states, steps, |steps|, s.raw, s.base);
    assert RestoredInv(w, Seen(states[|steps|], s.raw, s.base));
    ReplayRestores(w.names, w.source, s.raw, s.base);
  }

  // ---------------------------------------------------------------- paths that no listed log has unread

  /** No record from an offset of log i on restores p. */
  predicate AvoidsFrom(w: World, logs: map<nat, seq<Record>>, i: nat, offset: int, p: Path) {
    p !in Paths(w.names, Tail(w.names, logs, i, offset))
  }

  /** No listed log restores p from its mark on. */
  predicate Avoids(w: World, d: Disk, n: int, p: Path) {
    forall i: nat | i < n :: AvoidsFrom(w, d.logs, i, MarkOf(d, i), p)
  }

  predicate WorkerAvoids(w: World, d: Disk, v: Worker, i: nat, p: Path) {
    && AvoidsFrom(w, d.logs, i, MarkOf(d, i), p)
    && (v.reader.Some? ==> AvoidsFrom(w, d.logs, i, v.reader.value, p))
  }

  /** Path p holds x, and nothing that is listed or under way will change that. */
  predicate Spared(w: World, s: State, p: Path, x: Option<Node>) {
    && Lookup(s.disk.local, p) == x
    && (s.disk.flag.Some? && s.disk.flag.value.fetched ==> Avoids(w, s.disk, s.disk.flag.value.threads, p))
    && (s.phase.Preparing? ==> s.phase.step == 0)
    && (s.phase.Trimming? ==> s.disk.flag == Some(Flag(true, s.phase.n)) && s.phase.m <= s.phase.n)
    && (s.phase.Restoring? ==>
          forall i | 0 <= i < |s.phase.workers| :: WorkerAvoids(w, s.disk, s.phase.workers[i], i, p))
  }

  /** There is no recovery any more. */
  predicate Ended(s: State) {
    && s.disk.flag.None? && !s.phase.Trimming? && !s.phase.Restoring? && !ReportsRestored(s)
    && (s.phase.Preparing? ==> s.phase.step == 0)
  }

  /** A move that sets a mark back to 0 because a reader did not open. */
  predicate Resets(step: Step) {
    step.Work? && step.action == OpenFails(true)
  }

  lemma ReaderAvoids(w: World, d: Disk, i: nat, offset: int, p: Path)
    requires i in d.logs && AvoidsFrom(w, d.logs, i, offset, p) && Tail(w.names, d.logs, i, offset) != []
    ensures var u := Tail(w.names, d.logs, i, offset);
      && AvoidsFrom(w, d.logs, i, offset + Size(w.names, u[0]), p)
      && !(Touches(EffectOf(w.names, u[0])) && EffectOf(w.names, u[0]).path == p)
  {
    var u := Tail(w.names, d.logs, i, offset);
    RestAdvances(w.names, d.logs[i], offset);
    PathsOfSuffix(w.names, u, 1);
    assert u[0] in u;
  }

  lemma WorkAvoids(w: World, d: Disk, v: Worker, i: nat, a: Action, d': Disk, v': Worker, p: Path)
    requires WorkStep(w, d, v, i, a, d', v') && a != OpenFails(true) && WorkerAvoids(w, d, v, i, p)
    ensures d'.logs == d.logs && d'.flag == d.flag && WorkerAvoids(w, d', v', i, p)
    ensures Lookup(d'.local, p) == Lookup(d.local, p)
    ensures forall j: nat | j != i :: MarkOf(d', j) == MarkOf(d, j)
  {
    if v.reader.Some? && Tail(w.names, d.logs, i, v.reader.value) != [] {
      ReaderAvoids(w, d, i, v.reader.value, p);
    }
  }

  lemma WorkSpares(w: World, s: State, i: nat, a: Action, s': State, p: Path, x: Option<Node>)
    requires Spared(w, s, p, x) && Next(w, s, Work(i, a), s') && a != OpenFails(true)
    ensures Spared(w, s', p, x)
  {
    var d, d' := s.disk, s'.disk;
    WorkAvoids(w, d, s.phase.workers[i], i, a, d', s'.phase.workers[i], p);
    forall j: nat | AvoidsFrom(w, d.logs, j, MarkOf(d, j), p) && j != i
      ensures AvoidsFrom(w, d'.logs, j, MarkOf(d', j), p)
    {
    }
    forall j | 0 <= j < |s'.phase.workers| ensures WorkerAvoids(w, d', s'.phase.workers[j], j, p) {
      assert WorkerAvoids(w, d, s.phase.workers[j], j, p);
    }
  }

  lemma DealtAvoids(w: World, d: Disk, m: nat, n: nat, p: Path)
    requires m > 0 && Avoids(w, d, n, p)
    ensures Avoids(w, Dealt(w, d, m, n), m, p) && Avoids(w, Dealt(w, d, m, n), n, p)
  {
    var us, dealt := UnreadLogs(w, d, n), Dealt(w, d, m, n);
    FlatMembers(us);
    forall r | r in Flat(us) ensures !(Touches(EffectOf(w.names, r)) && EffectOf(w.names, r).path == p) {
      var i :| 0 <= i < |us| && r in us[i];
      assert AvoidsFrom(w, d.logs, i, MarkOf(d, i), p) && us[i] == Tail(w.names, d.logs, i, MarkOf(d, i));
    }
    forall j: nat | j < m ensures AvoidsFrom(w, dealt.logs, j, MarkOf(dealt, j), p) {
      DealtTail(w, d, m, n, j);
      PartMembers(w.names, m, Flat(us), j);
    }
    forall j: nat | m <= j < n ensures AvoidsFrom(w, dealt.logs, j, MarkOf(dealt, j), p) {
      assert AvoidsFrom(w, d.logs, j, MarkOf(d, j), p);
    }
  }

  lemma CheckSpares(w: World, s: State, s': State, p: Path, x: Option<Node>)
    requires Spared(w, s, p, x) && Next(w, s, Check, s')
    ensures Spared(w, s', p, x)
  {
    if Trusted(s.disk) {
      var m, n := s.phase.m, s.disk.flag.value.threads;
      DealtAvoids(w, s.disk, m, n, p);
      if n < m {
        assert Avoids(w, s'.disk, m, p) by {
          forall i: nat | i < m ensures AvoidsFrom(w, s'.disk.logs, i, MarkOf(s'.disk, i), p) {
            assert AvoidsFrom(w, Dealt(w, s.disk, m, n).logs, i, MarkOf(Dealt(w, s.disk, m, n), i), p);
          }
        }
      }
    }
  }

  /** Logs that are removed or listed no more do not restore anything. */
  lemma FewerAvoid(w: World, d: Disk, d': Disk, n: int, n': int, p: Path)
    requires Avoids(w, d, n, p) && n' <= n
    requires forall i: nat | i < n' && i in d'.logs ::
      i in d.logs && d'.logs[i] == d.logs[i] && MarkOf(d', i) == MarkOf(d, i)
    ensures Avoids(w, d', n', p)
  {
    forall i: nat | i < n' ensures AvoidsFrom(w, d'.logs, i, MarkOf(d', i), p) {
      assert AvoidsFrom(w, d.logs, i, MarkOf(d, i), p);
    }
  }

  lemma TrimSpares(w: World, s: State, step: Step, s': State, p: Path, x: Option<Node>)
    requires Spared(w, s, p, x) && Next(w, s, step, s') && (step.Trim? || step.TrimDone? || step.Clear?)
    ensures Spared(w, s', p, x)
  {
    if s'.disk.flag.Some? && s'.disk.flag.value.fetched {
      FewerAvoid(w, s.disk, s'.disk, s.disk.flag.value.threads, s'.disk.flag.value.threads, p);
    }
    if step.TrimDone? {
      forall i | 0 <= i < |s'.phase.workers| ensures WorkerAvoids(w, s'.disk, s'.phase.workers[i], i, p) {
        assert AvoidsFrom(w, s'.disk.logs, i, MarkOf(s'.disk, i), p);
      }
    }
  }

  lemma NextSpares(w: World, s: State, step: Step, s': State, p: Path, x: Option<Node>)
    requires (Spared(w, s, p, x) || Ended(s)) && Next(w, s, step, s') && !step.Prepare? && !Resets(step)
    ensures Spared(w, s', p, x) || Ended(s')
  {
    if Spared(w, s, p, x) {
      match step
      case Work(i, a) => WorkSpares(w, s, i, a, s', p, x);
      case Check => CheckSpares(w, s, s', p, x);
      case Trim(_) => TrimSpares(w, s, step, s', p, x);
      case TrimDone => TrimSpares(w, s, step, s', p, x);
      case Clear(_) => TrimSpares(w, s, step, s', p, x);
      case _ =>
    }
  }

  lemma {:induction false} RunSpares(w: World, states: seq<State>, steps: seq<Step>, k: nat, p: Path, x: Option<Node>)
    requires IsPath(w, states, steps) && k < |states|
    requires forall step | step in steps :: !step.Prepare? && !Resets(step)
    requires Spared(w, states[0], p, x)
    ensures Spared(w, states[k], p, x) || Ended(states[k])
  {
    if k > 0 {
      RunSpares(w, states, steps, k - 1, p, x);
      assert steps[k - 1] in steps;
      NextSpares(w, states[k - 1], steps[k - 1], states[k], p, x);
    }
  }

  /** If no mark is set back, a path that is missing stays as it is. */
  lemma MissingStays(w: World, s: State, d: Disk, states: seq<State>, steps: seq<Step>, p: Path)
    requires GoesOnFrom(w, s, d) && Continues(w, s, d, states, steps) && ReportsRestored(states[|steps|])
    requires (forall step | step in steps :: !Resets(step)) && p !in Paths(w.names, Unread(w, d))
    ensures Lookup(states[|steps|].disk.local, p) == Lookup(d.local, p)
  {
    var n := d.flag.value.threads;
    UnreadPaths(w, d, p);
    forall i: nat | i < n ensures AvoidsFrom(w, d.logs, i, MarkOf(d, i), p) {
      assert MarksOf(d, n)[i] == MarkOf(d, i);
    }
    RunSpares(w, states, steps, |steps|, p, Lookup(d.local, p));
  }

  /** In every continuation from d without a new fetch, a restore that reports success leaves what the
      fetched log promises if and only if nothing is missing from the logs of d. Either no mark is set back
      to 0 on the way, or what lies before the marks of d is settled. */
  lemma RestoresIff(w: World, s: State, d: Disk, states: seq<State>, steps: seq<Step>)
    requires GoesOnFrom(w, s, d)
    requires ReadIsSettled(w, s, d) || forall step | step in steps :: !Resets(step)
    requires Continues(w, s, d, states, steps) && ReportsRestored(states[|steps|])
    ensures states[|steps|].disk.local == Replayed(w.names, w.source, s.raw, s.base) <==> NothingMissing(w, s, d)
  {
    var files := states[|steps|].disk.local;
    if ReadIsSettled(w, s, d) {
      RestoresIfSettled(w, s, d, states, steps);
    } else if NothingMissing(w, s, d) {
      RestoresIfNothingMissing(w, s, d, states, steps);
    } else {
      var p :| p in Paths(w.names, Unread(w, s.disk)) && p !in Paths(w.names, Unread(w, d)) && !IsSettled(w, s, p);
      MissingStays(w, s, d, states, steps, p);
      SettledOrPending(w, s, p);
      ReplayRestores(w.names, w.source, s.raw, s.base);
      assert Lookup(files, p) != Lookup(Replayed(w.names, w.source, s.raw, s.base), p);
    }
  }

  // ---------------------------------------------------------------- disks that a dispatch leaves

  /** The disk after a dispatch to m threads that dealt out the first `limit` unread records and put the
      first k of its new logs in place with their marks. A further log may be in place with the mark of the
      old one, if that is a record boundary. Other listed logs are as before, and the flag is rewritten only
      when all of the new logs are in place. */
  predicate Leaves(w: World, before: Disk, m: nat, limit: nat, k: nat, d: Disk)
    requires m > 0 && Trusted(before) && limit <= |Unread(w, before)| && k <= m
  {
    var parts := Parts(w.names, m, Unread(w, before)[..limit]);
    && d.local == before.local
    && (d.flag == before.flag || (k == m && d.flag == Some(Flag(true, m))))
    && (forall i: nat | i < k :: i in d.logs && d.logs[i] == parts[i] && i in d.marks && d.marks[i] == 0)
    && (forall i: nat | k <= i < d.flag.value.threads ::
          && i in d.logs && i in d.marks && i in before.marks && d.marks[i] == before.marks[i]
          && ((i in before.logs && d.logs[i] == before.logs[i])
              || (i == k < m && d.logs[i] == parts[i] && Rest(w.names, parts[i], d.marks[i]).Some?)))
  }

  lemma DealtPrefixGood(w: World, s: State, m: nat, limit: nat)
    requires Inv(w, s) && Trusted(s.disk) && m > 0 && limit <= |Unread(w, s.disk)|
    ensures forall i | 0 <= i < m :: GoodLog(w, Goal(w, s), Parts(w.names, m, Unread(w, s.disk)[..limit])[i])
  {
    var d := s.disk;
    var n := d.flag.value.threads;
    forall i: nat | i < n
      ensures i in d.logs && GoodLog(w, Goal(w, s), d.logs[i]) && Rest(w.names, d.logs[i], MarkOf(d, i)).Some?
    {
      assert MarksOf(d, n)[i] == MarkOf(d, i);
    }
    UnreadGood(w, d, n, Goal(w, s));
    FlatGood(w, Goal(w, s), UnreadLogs(w, d, n));
    SubsetGood(w, Goal(w, s), Unread(w, d), Unread(w, d)[..limit]);
    PartsGood(w, Goal(w, s), m, Unread(w, d)[..limit]);
  }

  /** Every such disk is one that a recovery can go on from. */
  lemma LeavesSane(w: World, s: State, m: nat, limit: nat, k: nat, d: Disk)
    requires Inv(w, s) && s.phase.Down? && Trusted(s.disk) && m > 0 && limit <= |Unread(w, s.disk)| && k <= m
    requires Leaves(w, s.disk, m, limit, k, d)
    ensures GoesOnFrom(w, s, d)
  {
    DealtPrefixGood(w, s, m, limit);
    var n := s.disk.flag.value.threads;
    forall i: nat | i < d.flag.value.threads
      ensures i in d.logs && i in d.marks && GoodLog(w, Goal(w, s), d.logs[i])
        && Rest(w.names, d.logs[i], d.marks[i]).Some?
    {
      if i >= k {
        assert MarksOf(s.disk, n)[i] == s.disk.marks[i];
      }
    }
  }

  /** With every mark at 0 there is nothing before the marks. */
  lemma ZeroMarksSettled(w: World, s: State, d: Disk)
    requires Trusted(d) && forall i: nat | i < d.flag.value.threads :: i in d.marks && d.marks[i] == 0
    ensures UnreadLogs(w, d, d.flag.value.threads) == ListedLogs(d) && ReadIsSettled(w, s, d)
  {
  }

  lemma PathsOfParts(names: Names, m: nat, rs: seq<Record>)
    requires m > 0
    ensures Paths(names, Flat(Parts(names, m, rs))) == Paths(names, rs)
  {
    FlatMembers(Parts(names, m, rs));
    forall r ensures r in Flat(Parts(names, m, rs)) <==> r in rs {
      PartMembers(names, m, rs, Home(names, m, Key(r)));
      if r in rs {
        assert r in Parts(names, m, rs)[Home(names, m, Key(r))];
      }
      if r in Flat(Parts(names, m, rs)) {
        var i :| 0 <= i < m && r in Parts(names, m, rs)[i];
        PartMembers(names, m, rs, i);
      }
    }
  }

  /** A dispatch that lost records and reported success: what was not read is what is missing. In every
      continuation without a new fetch, a restore that reports success leaves the promised files if and
      only if every unread path was among the records read or already held its final content. */
  lemma ShortDispatchRestoresIff(w: World, s: State, m: nat, limit: nat, d: Disk, states: seq<State>, steps: seq<Step>)
    requires Inv(w, s) && s.phase.Down? && Trusted(s.disk) && m > 0 && limit <= |Unread(w, s.disk)|
    requires Leaves(w, s.disk, m, limit, m, d) && d.flag == Some(Flag(true, m))
    requires Continues(w, s, d, states, steps) && ReportsRestored(states[|steps|])
    ensures states[|steps|].disk.local == Replayed(w.names, w.source, s.raw, s.base)
       <==> forall p | p in Paths(w.names, Unread(w, s.disk)) ::
              p in Paths(w.names, Unread(w, s.disk)[..limit]) || IsSettled(w, s, p)
  {
    LeavesSane(w, s, m, limit, m, d);
    ZeroMarksSettled(w, s, d);
    RestoresIff(w, s, d, states, steps);
    assert ListedLogs(d) == Parts(w.names, m, Unread(w, s.disk)[..limit]);
    PathsOfParts(w.names, m, Unread(w, s.disk)[..limit]);
  }

  /** From the dispatch pass to the files: after a pass over the unread logs that met some faults or a stop
      request and reported success, a restore keeps the promise if and only if every unread path was among the
      records read or already settled, and so always if nothing ended the reading early. */
  lemma DispatchedRestoresIff(w: World, s: State, m: nat, faults: seq<LogFault>, stop: Option<nat>, d: Disk,
                              states: seq<State>, steps: seq<Step>)
    requires Inv(w, s) && s.phase.Down? && Trusted(s.disk) && m > 0 && |faults| == s.disk.flag.value.threads
    requires var logs := UnreadLogs(w, s.disk, s.disk.flag.value.threads);
      var limit := ReadCount(logs, faults, stop, 0);
      limit <= |Flat(logs)| && Leaves(w, s.disk, m, limit, m, d) && d.flag == Some(Flag(true, m))
    requires Continues(w, s, d, states, steps) && ReportsRestored(states[|steps|])
    ensures var logs := UnreadLogs(w, s.disk, s.disk.flag.value.threads);
      var limit := ReadCount(logs, faults, stop, 0);
      var promised := Replayed(w.names, w.source, s.raw, s.base);
      && (states[|steps|].disk.local == promised
          <==> forall p | p in Paths(w.names, Flat(logs)) ::
                 p in Paths(w.names, Flat(logs)[..limit]) || IsSettled(w, s, p))
      && (ReadsAll(logs, faults, stop) ==> states[|steps|].disk.local == promised)
  {
    var logs := UnreadLogs(w, s.disk, s.disk.flag.value.threads);
    var limit := ReadCount(logs, faults, stop, 0);
    ShortDispatchRestoresIff(w, s, m, limit, d, states, steps);
    ReadCountIff(logs, faults, stop, 0);
    assert Flat(logs)[..|Flat(logs)|] == Flat(logs);
  }

  /** A crash or an error in the rename loop, with k new logs in place and the flag as before. */
  lemma InterruptedRenameRestoresIff(w: World, s: State, m: nat, limit: nat, k: nat, d: Disk, states: seq<State>,
                                     steps: seq<Step>)
    requires Inv(w, s) && s.phase.Down? && Trusted(s.disk) && m > 0 && limit <= |Unread(w, s.disk)| && k <= m
    requires Leaves(w, s.disk, m, limit, k, d) && d.flag == s.disk.flag && Trusted(d)
    requires ReadIsSettled(w, s, d) || forall step | step in steps :: !Resets(step)
    requires Continues(w, s, d, states, steps) && ReportsRestored(states[|steps|])
    ensures states[|steps|].disk.local == Replayed(w.names, w.source, s.raw, s.base) <==> NothingMissing(w, s, d)
  {
    LeavesSane(w, s, m, limit, k, d);
    RestoresIff(w, s, d, states, steps);
  }

  /** A crash between the renames of a dispatch to more threads and the new flag: the flag lists the first n
      logs only. The promise is kept if and only if every unread path was dealt to one of the first n threads
      or already held its final content. */
  lemma StaleFlagRestoresIff(w: World, s: State, m: nat, n: nat, states: seq<State>, steps: seq<Step>)
    requires Inv(w, s) && s.phase.Down? && Trusted(s.disk) && s.disk.flag.value.threads == n && n < m
    requires Continues(w, s, Dealt(w, s.disk, m, n), states, steps) && ReportsRestored(states[|steps|])
    ensures states[|steps|].disk.local == Replayed(w.names, w.source, s.raw, s.base)
       <==> forall p | p in Paths(w.names, Unread(w, s.disk)) ::
              p in Paths(w.names, Flat(Parts(w.names, m, Unread(w, s.disk))[..n])) || IsSettled(w, s, p)
  {
    var d, rs := Dealt(w, s.disk, m, n), Unread(w, s.disk);
    assert rs[..|rs|] == rs;
    DealtLeaves(w, s.disk, m, n);
    LeavesSane(w, s, m, |rs|, m, d);
    ZeroMarksSettled(w, s, d);
    RestoresIff(w, s, d, states, steps);
    assert ListedLogs(d) == Parts(w.names, m, rs)[..n];
  }

  lemma DealtLeaves(w: World, before: Disk, m: nat, n: nat)
    requires Trusted(before) && before.flag.value.threads == n && 0 < n < m
    ensures Leaves(w, before, m, |Unread(w, before)|, m, Dealt(w, before, m, n))
  {
    assert Unread(w, before)[..|Unread(w, before)|] == Unread(w, before);
    forall i: nat | i < m
      ensures var d := Dealt(w, before, m, n);
        i in d.logs && d.logs[i] == Parts(w.names, m, Unread(w, before))[i] && i in d.marks && d.marks[i] == 0
    {
      DealtTail(w, before, m, n, i);
    }
  }
}
