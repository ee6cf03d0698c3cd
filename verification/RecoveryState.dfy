/** The disk of a recovering store path, the threads that work on it, and what stays true of them. */
module RecoveryState {
  import opened Options
  import opened BinlogText
  import opened Replay
  import opened RecoveryLog

  /** What does not change during a recovery. */
  datatype World = World(names: Names, source: Files, store: nat)

  datatype Flag = Flag(fetched: bool, threads: int)

  /** Everything that survives a crash. A log is the sequence of its records; a mark is the byte
      offset saved for a thread. */
  datatype Disk = Disk(flag: Option<Flag>, logs: map<nat, seq<Record>>, marks: map<nat, int>, local: Files)

  datatype Status = Running | Done | Quit

  /** A recovery thread: its reader's byte offset, whether it is writing a download straight to its
      final place, the records handled since the last checkpoint, and whether a mark write failed
      since the reader was opened. */
  datatype Worker = Worker(reader: Option<int>, direct: bool, count: nat, status: Status, lost: bool)

  const CHECKPOINT := 1000

  /** The records that thread i has not handled, seen from a byte offset. */
  function Tail(names: Names, logs: map<nat, seq<Record>>, i: nat, offset: int): seq<Record> {
    if i in logs && Rest(names, logs[i], offset).Some? then Rest(names, logs[i], offset).value else []
  }

  /** A path that some thread still has to handle. */
  predicate Pending(w: World, logs: map<nat, seq<Record>>, pos: seq<int>, p: Path) {
    exists i | 0 <= i < |pos| :: p in Paths(w.names, Tail(w.names, logs, i, pos[i]))
  }

  /** The path holds what a finished recovery leaves there. */
  predicate Settled(w: World, local: Files, goal: set<Path>, base: Files, p: Path) {
    Lookup(local, p) == Lookup(Restored(w.source, goal, base), p)
  }

  /** The path is as before the recovery, or holds part of a file that the peer has. */
  predicate Midway(w: World, local: Files, base: Files, p: Path) {
    || Lookup(local, p) == Lookup(base, p)
    || (p in w.source && w.source[p].File? && p in local && local[p].File?)
  }

  predicate GoodLog(w: World, goal: set<Path>, log: seq<Record>) {
    Clean(w.names, log) && Sound(w.names, w.source, log) && Paths(w.names, log) <= goal
  }

  /** The first |pos| logs, read from pos, still cover everything that is not settled. */
  ghost predicate Covers(w: World, logs: map<nat, seq<Record>>, local: Files, goal: set<Path>, base: Files,
                         pos: seq<int>) {
    && (forall i | 0 <= i < |pos| ::
          i in logs && GoodLog(w, goal, logs[i]) && Rest(w.names, logs[i], pos[i]).Some?)
    && (forall p :: Settled(w, local, goal, base, p) || (Midway(w, local, base, p) && Pending(w, logs, pos, p)))
  }

  /** Symbolic links are only found where the peer has one, so that a download, which would follow a link,
      never meets one. */
  ghost predicate Kinds(w: World, local: Files) {
    forall p | p in local && local[p].Link? :: p in w.source && w.source[p].Link?
  }

  // ---------------------------------------------------------------- how positions move

  lemma PathsOfSuffix(names: Names, rs: seq<Record>, k: nat)
    requires k <= |rs|
    ensures Paths(names, rs[k..]) <= Paths(names, rs)
  {
    assert forall r | r in rs[k..] :: r in rs;
  }

  lemma {:induction false} EarlierUnreadsMore(names: Names, rs: seq<Record>, a: int, b: int)
    requires a <= b && Rest(names, rs, a).Some? && Rest(names, rs, b).Some?
    ensures |Rest(names, rs, b).value| <= |Rest(names, rs, a).value|
    ensures Paths(names, Rest(names, rs, b).value) <= Paths(names, Rest(names, rs, a).value)
    decreases |rs|
  {
    if a == 0 {
      RestIsSuffix(names, rs, b);
      PathsOfSuffix(names, rs, |rs| - |Rest(names, rs, b).value|);
    } else {
      EarlierUnreadsMore(names, rs[1..], a - Size(names, rs[0]), b - Size(names, rs[0]));
    }
  }

  predicate NoLater(w: World, logs: map<nat, seq<Record>>, pos: seq<int>, earlier: seq<int>) {
    && |pos| == |earlier|
    && forall i | 0 <= i < |pos| ::
         i in logs && earlier[i] <= pos[i] && Rest(w.names, logs[i], earlier[i]).Some?
  }

  /** Falling back to earlier offsets loses nothing. */
  lemma CoversFromEarlier(w: World, logs: map<nat, seq<Record>>, local: Files, goal: set<Path>, base: Files,
                          pos: seq<int>, earlier: seq<int>)
    requires Covers(w, logs, local, goal, base, pos) && NoLater(w, logs, pos, earlier)
    ensures Covers(w, logs, local, goal, base, earlier)
  {
    forall p | Pending(w, logs, pos, p) ensures Pending(w, logs, earlier, p) {
      var i :| 0 <= i < |pos| && p in Paths(w.names, Tail(w.names, logs, i, pos[i]));
      EarlierUnreadsMore(w.names, logs[i], earlier[i], pos[i]);
      assert p in Paths(w.names, Tail(w.names, logs, i, earlier[i]));
    }
  }

  // ---------------------------------------------------------------- what a thread does to the files

  lemma PathsOfFirst(names: Names, rs: seq<Record>, p: Path)
    requires rs != [] && p in Paths(names, rs)
    ensures p in Paths(names, rs[1..]) || (Touches(EffectOf(names, rs[0])) && EffectOf(names, rs[0]).path == p)
  {
    PathsSplit(names, rs);
  }

  lemma AppliedIsSettled(w: World, local: Files, goal: set<Path>, base: Files, r: Record, p: Path)
    requires Agrees(w.names, w.source, r) && Touches(EffectOf(w.names, r)) && EffectOf(w.names, r).path == p
    requires p in goal
    requires Settled(w, local, goal, base, p) || Midway(w, local, base, p)
    ensures Settled(w, Apply(w.source, EffectOf(w.names, r), local), goal, base, p)
  {
  }

  lemma OthersStay(w: World, local: Files, r: Record, p: Path)
    requires !(Touches(EffectOf(w.names, r)) && EffectOf(w.names, r).path == p)
    ensures Lookup(Apply(w.source, EffectOf(w.names, r), local), p) == Lookup(local, p)
  {
  }

  /** Handling one record moves its path from pending to settled and touches no other path. */
  lemma HandleCovers(w: World, logs: map<nat, seq<Record>>, local: Files, goal: set<Path>, base: Files, pos: seq<int>,
                     i: nat)
    requires Covers(w, logs, local, goal, base, pos) && i < |pos|
    requires Rest(w.names, logs[i], pos[i]).value != []
    ensures var r := Rest(w.names, logs[i], pos[i]).value[0];
            Covers(w, logs, Apply(w.source, EffectOf(w.names, r), local), goal, base,
                   pos[i := pos[i] + Size(w.names, r)])
  {
    var u := Rest(w.names, logs[i], pos[i]).value;
    var r := u[0];
    var next := pos[i := pos[i] + Size(w.names, r)];
    var files := Apply(w.source, EffectOf(w.names, r), local);
    RestAdvances(w.names, logs[i], pos[i]);
    RestIsSuffix(w.names, logs[i], pos[i]);
    assert r in u && r in logs[i];
    forall p
      ensures Settled(w, files, goal, base, p) || (Midway(w, files, base, p) && Pending(w, logs, next, p))
    {
      if Touches(EffectOf(w.names, r)) && EffectOf(w.names, r).path == p {
        assert p in Paths(w.names, logs[i]);
        AppliedIsSettled(w, local, goal, base, r, p);
      } else {
        OthersStay(w, local, r, p);
        if !Settled(w, files, goal, base, p) {
          StillPending(w, logs, pos, i, p);
        }
      }
    }
  }

  lemma StillPending(w: World, logs: map<nat, seq<Record>>, pos: seq<int>, i: nat, p: Path)
    requires i < |pos| && i in logs && Pending(w, logs, pos, p)
    requires Rest(w.names, logs[i], pos[i]).Some? && Rest(w.names, logs[i], pos[i]).value != []
    requires var e := EffectOf(w.names, Rest(w.names, logs[i], pos[i]).value[0]); !(Touches(e) && e.path == p)
    ensures Pending(w, logs, pos[i := pos[i] + Size(w.names, Rest(w.names, logs[i], pos[i]).value[0])], p)
  {
    var u := Rest(w.names, logs[i], pos[i]).value;
    var next := pos[i := pos[i] + Size(w.names, u[0])];
    RestAdvances(w.names, logs[i], pos[i]);
    var j :| 0 <= j < |pos| && p in Paths(w.names, Tail(w.names, logs, j, pos[j]));
    if j == i {
      PathsOfFirst(w.names, u, p);
    }
    assert p in Paths(w.names, Tail(w.names, logs, j, next[j]));
  }

  /** Part of a download in its final place leaves the path pending. */
  lemma DamageCovers(w: World, logs: map<nat, seq<Record>>, local: Files, goal: set<Path>, base: Files, pos: seq<int>,
                     i: nat, p: Path, part: seq<bv8>)
    requires Covers(w, logs, local, goal, base, pos) && i < |pos|
    requires Rest(w.names, logs[i], pos[i]).value != []
    requires EffectOf(w.names, Rest(w.names, logs[i], pos[i]).value[0]) == FileAt(p)
    requires p in w.source && w.source[p].File?
    ensures Covers(w, logs, local[p := File(part)], goal, base, pos)
  {
    var u := Rest(w.names, logs[i], pos[i]).value;
    assert u[0] in u;
    assert p in Paths(w.names, Tail(w.names, logs, i, pos[i]));
    var files := local[p := File(part)];
    forall q
      ensures Settled(w, files, goal, base, q) || (Midway(w, files, base, q) && Pending(w, logs, pos, q))
    {
      if q == p {
        assert Midway(w, files, base, q) && Pending(w, logs, pos, q);
      } else {
        assert Lookup(files, q) == Lookup(local, q);
        assert Settled(w, local, goal, base, q) || (Midway(w, local, base, q) && Pending(w, logs, pos, q));
        assert Midway(w, local, base, q) ==> Midway(w, files, base, q);
      }
    }
  }

  /** When every log is read to its end, the store path is restored. */
  lemma AllReadRestores(w: World, logs: map<nat, seq<Record>>, local: Files, goal: set<Path>, base: Files,
                        pos: seq<int>)
    requires Covers(w, logs, local, goal, base, pos)
    requires forall i | 0 <= i < |pos| :: Rest(w.names, logs[i], pos[i]) == Some([])
    ensures local == Restored(w.source, goal, base)
  {
    forall p ensures Lookup(local, p) == Lookup(Restored(w.source, goal, base), p) {
      assert !Pending(w, logs, pos, p);
    }
    SameFiles(local, Restored(w.source, goal, base));
  }
}
