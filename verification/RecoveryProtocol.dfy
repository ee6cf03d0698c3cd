/** Single-disk recovery as a state machine: startup, fetch, split, dispatch, parallel replay,
    crashes and restarts with other thread counts. */
module RecoveryProtocol {
  import opened Options
  import opened BinlogText
  import opened Replay
  import opened RecoveryLog
  import opened TrunkSplit
  import opened Dispatch
  import opened RecoveryState

  /** Where the process is. Preparing(k) has done the first k steps of storage_disk_recovery_prepare;
      retry says that a second EAGAIN ends the startup. */
  datatype Phase =
    | Down
    | Preparing(step: nat, m: nat, retry: bool)
    | Checking(m: nat, retry: bool)
    | Trimming(m: nat, n: nat, next: nat)
    | Restoring(workers: seq<Worker>)
    | Clearing(m: nat, restored: bool)
    | Up(restored: bool)

  /** raw is the log last fetched, base the files found when the flag last became `fetched`. */
  datatype State = State(phase: Phase, disk: Disk, raw: seq<Record>, base: Files)

  /** One move of a recovery thread; `saved` says whether its mark file was written. */
  datatype Action =
    | Open | OpenFails(reset: bool)
    | Begin | Chunk(part: seq<bv8>) | Handle
    | Checkpoint(saved: bool) | Retry(saved: bool) | ReachEnd(saved: bool) | GiveUp(saved: bool)

  datatype Step =
    | ReplaceDisk(files: Files)
    | StartUp(m: nat, prepare: bool)
    | Prepare(fetched: seq<Record>) | NoSource | FetchBreaks(junk: seq<Record>) | SplitFails
    | Check
    | Trim(keepMark: bool) | TrimDone
    | Work(i: nat, action: Action)
    | Finish | Clear(keep: set<nat>)
    | Crash

  /** A log that the peer prints. */
  predicate Printed(w: World, raw: seq<Record>) {
    Sound(w.names, w.source, raw) && Clean(w.names, raw) && OfStore(w.names, w.store, raw)
  }

  /** The flag says fetched and every log it lists exists. */
  predicate Trusted(d: Disk) {
    d.flag.Some? && d.flag.value.fetched && d.flag.value.threads > 0
    && forall i: nat | i < d.flag.value.threads :: i in d.logs
  }

  function MarkOf(d: Disk, i: nat): int {
    if i in d.marks then d.marks[i] else 0
  }

  function MarksOf(d: Disk, n: nat): seq<int> {
    seq(n, i requires 0 <= i < n => MarkOf(d, i))
  }

  function Below(n: nat): (s: set<nat>)
    ensures forall i: nat :: i in s <==> i < n
  {
    if n == 0 then {} else Below(n - 1) + {n - 1}
  }

  /** The numbered files 0, 1, ... replaced by new ones. */
  function Overwrite<T>(files: map<nat, T>, replacements: seq<T>): map<nat, T> {
    map i | i in files.Keys + Below(|replacements|) ::
      if i < |replacements| then replacements[i] else files[i]
  }

  function UnreadLogs(w: World, d: Disk, n: nat): seq<seq<Record>> {
    seq(n, i requires 0 <= i < n => Tail(w.names, d.logs, i, MarkOf(d, i)))
  }

  /** The disk after the rename loop of a dispatch from n to m threads. */
  function Dealt(w: World, d: Disk, m: nat, n: nat): Disk
    requires m > 0
  {
    d.(logs := Overwrite(d.logs, Parts(w.names, m, Flat(UnreadLogs(w, d, n)))),
       marks := Overwrite(d.marks, seq(m, _ => 0)))
  }

  const FRESH := Worker(None, false, 0, Running, false)

  function Crew(m: nat): seq<Worker> {
    seq(m, _ => FRESH)
  }

  predicate PrepareStep(w: World, s: State, fetched: seq<Record>, s': State) {
    s.phase.Preparing? &&
    var d, m, retry := s.disk, s.phase.m, s.phase.retry;
    match s.phase.step
    case 0 => s' == s.(phase := Preparing(1, m, retry), disk := d.(flag := Some(Flag(false, -1))))
    case 1 => s' == s.(phase := Preparing(2, m, retry), disk := d.(logs := d.logs[0 := []]))
    case 2 => s' == s.(phase := Preparing(3, m, retry))
    case 3 => Printed(w, fetched)
      && s' == s.(phase := Preparing(4, m, retry), disk := d.(logs := d.logs[0 := fetched]), raw := fetched)
    case 4 => s' == s.(phase := Preparing(5, m, retry), disk := d.(marks := d.marks[0 := 0]))
    case 5 => s' == s.(phase := Preparing(6, m, retry),
      disk := d.(logs := d.logs[0 := Split(w.names, Tail(w.names, d.logs, 0, MarkOf(d, 0)))]))
    case 6 => s' == s.(phase := Checking(m, retry), disk := d.(flag := Some(Flag(true, 1))), base := d.local)
    case _ => false
  }

  /** storage_disk_recovery_check_restore, with the rename loop of a dispatch as one move. When threads
      are added the flag is rewritten in the same move: see StaleFlagListsAllIff for a crash between. */
  predicate CheckStep(w: World, s: State, s': State) {
    s.phase.Checking? && s.phase.m > 0 &&
    var d, m := s.disk, s.phase.m;
    if d.flag.None? then s' == s.(phase := Up(false))
    else if !Trusted(d) then s' == s.(phase := if s.phase.retry then Down else Preparing(0, m, true))
    else
      var n := d.flag.value.threads;
      if n == m then s' == s.(phase := Restoring(Crew(m)))
      else if n < m then s' == s.(phase := Restoring(Crew(m)), disk := Dealt(w, d, m, n).(flag := Some(Flag(true, m))))
      else s' == s.(phase := Trimming(m, n, m), disk := Dealt(w, d, m, n))
  }

  function SaveMark(d: Disk, i: nat, offset: int, saved: bool): Disk {
    if saved then d.(marks := d.marks[i := offset]) else d
  }

  /** A file of the peer that is downloaded for this effect. */
  predicate Downloads(w: World, e: Effect) {
    e.FileAt? && e.path in w.source && w.source[e.path].File?
  }

  /** storage_do_recovery, one move at a time. */
  predicate WorkStep(w: World, d: Disk, v: Worker, i: nat, a: Action, d': Disk, v': Worker) {
    v.status.Running? && i in d.logs && i in d.marks &&
    if v.reader.None? then
      match a
      case Open => d' == d && v' == Worker(Some(d.marks[i]), false, 0, Running, false)
      case OpenFails(reset) => d' == SaveMark(d, i, 0, reset) && v' == v.(status := Quit)
      case _ => false
    else
      var offset := v.reader.value;
      var u := Tail(w.names, d.logs, i, offset);
      var e := if u == [] then Nothing else EffectOf(w.names, u[0]);
      match a
      case Checkpoint(saved) => v.count == CHECKPOINT
        && d' == SaveMark(d, i, offset, saved) && v' == v.(count := 0, lost := !saved)
      case Begin => v.count < CHECKPOINT && Downloads(w, e) && !v.direct
        && d' == d && v' == v.(direct := e.path !in d.local)
      case Chunk(part) => v.count < CHECKPOINT && Downloads(w, e) && v.direct
        && d' == d.(local := d.local[e.path := File(part)]) && v' == v
      case Handle => v.count < CHECKPOINT && u != [] && !e.Stop?
        && d' == d.(local := Apply(w.source, e, d.local))
        && v' == v.(reader := Some(offset + Size(w.names, u[0])), direct := false, count := v.count + 1)
      case Retry(saved) => v.count < CHECKPOINT && e.FileAt?
        && d' == SaveMark(d, i, offset, saved) && v' == FRESH
      case ReachEnd(saved) => v.count < CHECKPOINT && u == []
        && d' == SaveMark(d, i, offset, saved) && v' == v.(count := 0, status := Done, lost := !saved)
      case GiveUp(saved) => v.count < CHECKPOINT
        && d' == SaveMark(d, i, offset, saved) && v' == FRESH.(status := Quit)
      case _ => false
  }

  function Without<T>(m: map<nat, T>, gone: set<nat>): map<nat, T> {
    m - gone
  }

  /** The moves of the machine. A crash keeps the disk and nothing else. */
  ghost predicate Next(w: World, s: State, step: Step, s': State) {
    var d := s.disk;
    match step
    case ReplaceDisk(files) => s.phase.Down? && Kinds(w, files)
      && s' == s.(disk := Disk(None, map[], map[], files))
    case StartUp(m, prepare) => s.phase.Down? && m > 0
      && s' == s.(phase := if prepare then Preparing(0, m, false) else Checking(m, false))
    case Prepare(fetched) => PrepareStep(w, s, fetched, s')
    case NoSource => s.phase.Preparing? && s.phase.step == 2
      && s' == s.(phase := Clearing(s.phase.m, false), disk := d.(flag := None))
    case FetchBreaks(junk) => s.phase.Preparing? && s.phase.step == 3
      && s' == s.(phase := Down, disk := d.(logs := d.logs[0 := junk]))
    case SplitFails => s.phase.Preparing? && 4 <= s.phase.step <= 5
      && s' == s.(phase := Down, disk := d.(flag := None))
    case Check => CheckStep(w, s, s')
    case Trim(keepMark) => s.phase.Trimming? && s.phase.next < s.phase.n
      && s' == s.(phase := s.phase.(next := s.phase.next + 1),
                  disk := d.(logs := Without(d.logs, {s.phase.next}),
                             marks := if keepMark then d.marks else Without(d.marks, {s.phase.next})))
    case TrimDone => s.phase.Trimming?
      && s' == s.(phase := Restoring(Crew(s.phase.m)), disk := d.(flag := Some(Flag(true, s.phase.m))))
    case Work(i, a) => s.phase.Restoring? && i < |s.phase.workers| && s'.phase.Restoring?
      && |s'.phase.workers| == |s.phase.workers|
      && WorkStep(w, d, s.phase.workers[i], i, a, s'.disk, s'.phase.workers[i])
      && s' == s.(phase := Restoring(s.phase.workers[i := s'.phase.workers[i]]), disk := s'.disk)
    case Finish => s.phase.Restoring? && (forall v | v in s.phase.workers :: v.status.Done?)
      && s' == s.(phase := Clearing(|s.phase.workers|, true), disk := d.(flag := None))
    case Clear(keep) => s.phase.Clearing?
      && (var gone := Below(s.phase.m) - keep;
          s' == s.(phase := Up(s.phase.restored), disk := d.(logs := Without(d.logs, gone), marks := Without(d.marks,
            gone))))
    case Crash => s' == s.(phase := Down)
  }

  // ---------------------------------------------------------------- the invariant

  function Goal(w: World, s: State): set<Path> {
    Paths(w.names, s.raw)
  }

  ghost predicate CoversAt(w: World, s: State, pos: seq<int>) {
    Covers(w, s.disk.logs, s.disk.local, Goal(w, s), s.base, pos)
  }

  /** What a restart can rely on. */
  ghost predicate DiskInv(w: World, s: State) {
    Trusted(s.disk) ==>
      var n := s.disk.flag.value.threads;
      && Sound(w.names, w.source, s.raw)
      && (forall i: nat | i < n :: i in s.disk.marks)
      && CoversAt(w, s, MarksOf(s.disk, n))
  }

  predicate PrepareInv(w: World, s: State)
    requires s.phase.Preparing?
  {
    var k, d := s.phase.step, s.disk;
    && k <= 6
    && (k >= 1 ==> d.flag == Some(Flag(false, -1)))
    && (k >= 4 ==> Printed(w, s.raw) && 0 in d.logs)
    && (4 <= k <= 5 ==> d.logs[0] == s.raw)
    && (k >= 5 ==> MarkOf(d, 0) == 0 && 0 in d.marks)
    && (k == 6 ==> d.logs[0] == Split(w.names, s.raw))
  }

  ghost predicate TrimInv(w: World, s: State)
    requires s.phase.Trimming?
  {
    var m, n, d := s.phase.m, s.phase.n, s.disk;
    && 0 < m < n && m <= s.phase.next <= n && d.flag == Some(Flag(true, n)) && Sound(w.names, w.source, s.raw)
    && (forall i: nat | i < m :: i in d.marks && d.marks[i] == 0)
    && CoversAt(w, s, MarksOf(d, m))
    && (forall i: nat | m <= i < n && i in d.logs ::
          i in d.marks && GoodLog(w, Goal(w, s), d.logs[i]) && Rest(w.names, d.logs[i], d.marks[i]).Some?)
  }

  function Position(d: Disk, v: Worker, i: nat): int {
    if v.reader.Some? then v.reader.value else MarkOf(d, i)
  }

  function Positions(d: Disk, workers: seq<Worker>): seq<int> {
    seq(|workers|, i requires 0 <= i < |workers| => Position(d, workers[i], i))
  }

  /** A thread's mark is a record boundary at or before its reader; with no failed mark write the
      reader is exactly `count` records ahead. */
  predicate WorkerInv(w: World, log: seq<Record>, mark: int, v: Worker) {
    && Rest(w.names, log, mark).Some?
    && v.count <= CHECKPOINT
    && (v.status.Done? ==> v.reader.Some? && Rest(w.names, log, v.reader.value) == Some([]))
    && (v.reader.Some? ==>
          var at := Rest(w.names, log, v.reader.value);
          && mark <= v.reader.value && at.Some?
          && (!v.lost ==> |Rest(w.names, log, mark).value| == |at.value| + v.count))
  }

  ghost predicate RestoreInv(w: World, s: State)
    requires s.phase.Restoring?
  {
    var vs, d := s.phase.workers, s.disk;
    && |vs| > 0 && d.flag == Some(Flag(true, |vs|)) && Sound(w.names, w.source, s.raw)
    && (forall i | 0 <= i < |vs| :: i in d.logs && i in d.marks && WorkerInv(w, d.logs[i], d.marks[i], vs[i]))
    && CoversAt(w, s, Positions(d, vs))
  }

  predicate RestoredInv(w: World, s: State) {
    Sound(w.names, w.source, s.raw) && s.disk.local == Restored(w.source, Goal(w, s), s.base)
  }

  ghost predicate Inv(w: World, s: State) {
    && Kinds(w, s.disk.local)
    && DiskInv(w, s)
    && (s.phase.Preparing? ==> s.phase.m > 0 && PrepareInv(w, s))
    && (s.phase.Checking? ==> s.phase.m > 0)
    && (s.phase.Trimming? ==> TrimInv(w, s))
    && (s.phase.Restoring? ==> RestoreInv(w, s))
    && (s.phase.Clearing? ==> s.disk.flag.None? && (s.phase.restored ==> RestoredInv(w, s)))
    && (s.phase.Up? ==> s.disk.flag.None? && (s.phase.restored ==> RestoredInv(w, s)))
  }

  ghost predicate Init(w: World, s: State) {
    s.phase.Down? && s.disk.flag.None? && Kinds(w, s.disk.local)
  }

  // ---------------------------------------------------------------- threads

  /** A running restore leaves a disk that a restart can rely on. */
  lemma RestoreGivesDiskInv(w: World, s: State)
    requires s.phase.Restoring? && RestoreInv(w, s)
    ensures DiskInv(w, s)
  {
    var n := |s.phase.workers|;
    var pos, marks := Positions(s.disk, s.phase.workers), MarksOf(s.disk, n);
    CoversFromEarlier(w, s.disk.logs, s.disk.local, Goal(w, s), s.base, pos, marks);
  }

  lemma WorkKeepsWorker(w: World, d: Disk, v: Worker, i: nat, a: Action, d': Disk, v': Worker)
    requires WorkStep(w, d, v, i, a, d', v') && WorkerInv(w, d.logs[i], d.marks[i], v)
    ensures d'.logs == d.logs && d'.flag == d.flag && i in d'.marks
    ensures forall j | j in d.marks && j != i :: j in d'.marks && d'.marks[j] == d.marks[j]
    ensures WorkerInv(w, d'.logs[i], d'.marks[i], v')
    ensures !a.Handle? ==> Rest(w.names, d.logs[i], Position(d', v', i)).Some?
    ensures !a.Handle? ==> Position(d', v', i) <= Position(d, v, i)
  {
    if a.Handle? {
      RestAdvances(w.names, d.logs[i], v.reader.value);
    }
  }

  lemma WorkKeepsKinds(w: World, d: Disk, v: Worker, i: nat, a: Action, d': Disk, v': Worker, goal: set<Path>)
    requires WorkStep(w, d, v, i, a, d', v') && Kinds(w, d.local)
    requires GoodLog(w, goal, d.logs[i]) && WorkerInv(w, d.logs[i], d.marks[i], v)
    ensures Kinds(w, d'.local)
  {
    if a.Handle? {
      var u := Tail(w.names, d.logs, i, v.reader.value);
      RestIsSuffix(w.names, d.logs[i], v.reader.value);
      assert u[0] in d.logs[i];
      assert Agrees(w.names, w.source, u[0]);
    }
  }

  lemma PositionsMove(d: Disk, d': Disk, vs: seq<Worker>, i: nat, v: Worker)
    requires i < |vs|
    requires forall j: nat | j < |vs| && j != i :: MarkOf(d', j) == MarkOf(d, j)
    ensures Positions(d', vs[i := v]) == Positions(d, vs)[i := Position(d', v, i)]
  {
  }

  lemma HandleKeepsCovers(w: World, d: Disk, v: Worker, i: nat, d': Disk, v': Worker, goal: set<Path>, base: Files,
                          pos: seq<int>)
    requires WorkStep(w, d, v, i, Handle, d', v') && WorkerInv(w, d.logs[i], d.marks[i], v)
    requires Covers(w, d.logs, d.local, goal, base, pos) && i < |pos| && pos[i] == Position(d, v, i)
    ensures Covers(w, d'.logs, d'.local, goal, base, pos[i := Position(d', v', i)])
  {
    HandleCovers(w, d.logs, d.local, goal, base, pos, i);
  }

  lemma ChunkKeepsCovers(w: World, d: Disk, v: Worker, i: nat, part: seq<bv8>, d': Disk, v': Worker, goal: set<Path>,
                         base: Files, pos: seq<int>)
    requires WorkStep(w, d, v, i, Chunk(part), d', v') && WorkerInv(w, d.logs[i], d.marks[i], v)
    requires Covers(w, d.logs, d.local, goal, base, pos) && i < |pos| && pos[i] == Position(d, v, i)
    ensures Covers(w, d'.logs, d'.local, goal, base, pos)
  {
    var p := EffectOf(w.names, Tail(w.names, d.logs, i, v.reader.value)[0]).path;
    DamageCovers(w, d.logs, d.local, goal, base, pos, i, p, part);
  }

  lemma StayKeepsCovers(w: World, d: Disk, v: Worker, i: nat, a: Action, d': Disk, v': Worker, goal: set<Path>,
                        base: Files, pos: seq<int>)
    requires WorkStep(w, d, v, i, a, d', v') && WorkerInv(w, d.logs[i], d.marks[i], v) && !a.Handle?
    requires Covers(w, d.logs, d.local, goal, base, pos) && i < |pos| && pos[i] == Position(d, v, i)
    ensures Covers(w, d'.logs, d'.local, goal, base, pos[i := Position(d', v', i)])
  {
    WorkKeepsWorker(w, d, v, i, a, d', v');
    if a.Chunk? {
      ChunkKeepsCovers(w, d, v, i, a.part, d', v', goal, base, pos);
    }
    CoversFromEarlier(w, d.logs, d'.local, goal, base, pos, pos[i := Position(d', v', i)]);
  }

  lemma WorkKeepsCovers(w: World, s: State, i: nat, a: Action, s': State)
    requires s.phase.Restoring? && RestoreInv(w, s) && Next(w, s, Work(i, a), s')
    ensures CoversAt(w, s', Positions(s'.disk, s'.phase.workers))
  {
    var d, d', v, v' := s.disk, s'.disk, s.phase.workers[i], s'.phase.workers[i];
    var pos := Positions(d, s.phase.workers);
    WorkKeepsWorker(w, d, v, i, a, d', v');
    PositionsMove(d, d', s.phase.workers, i, v');
    if a.Handle? {
      HandleKeepsCovers(w, d, v, i, d', v', Goal(w, s), s.base, pos);
    } else {
      StayKeepsCovers(w, d, v, i, a, d', v', Goal(w, s), s.base, pos);
    }
  }

  lemma WorkKeepsInv(w: World, s: State, i: nat, a: Action, s': State)
    requires Inv(w, s) && Next(w, s, Work(i, a), s')
    ensures Inv(w, s')
  {
    WorkKeepsWorker(w, s.disk, s.phase.workers[i], i, a, s'.disk, s'.phase.workers[i]);
    WorkKeepsKinds(w, s.disk, s.phase.workers[i], i, a, s'.disk, s'.phase.workers[i], Goal(w, s));
    WorkKeepsCovers(w, s, i, a, s');
    RestoreGivesDiskInv(w, s');
  }

  lemma FinishKeepsInv(w: World, s: State, s': State)
    requires Inv(w, s) && Next(w, s, Finish, s')
    ensures Inv(w, s')
  {
    var pos := Positions(s.disk, s.phase.workers);
    forall i | 0 <= i < |pos| ensures Rest(w.names, s.disk.logs[i], pos[i]) == Some([]) {
      assert s.phase.workers[i] in s.phase.workers;
    }
    AllReadRestores(w, s.disk.logs, s.disk.local, Goal(w, s), s.base, pos);
  }
}
