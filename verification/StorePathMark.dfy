/** Which storage server may use a store path: one mark inside the path, a copy in the server's own file. */
module StorePathMark {
  import opened Options

  /** FDFSStorePathMarkInfo. Servers are told apart by address and port. */
  datatype Server = Server(ip: string, port: nat)

  datatype MarkInfo = MarkInfo(server: Server, pathIndex: nat, created: nat)

  /** base64_encode_ex on the mark structure. */
  type Encoding = MarkInfo -> string

  ghost predicate Injective(encode: Encoding) {
    forall a, b :: encode(a) == encode(b) ==> a == b
  }

  /** path is the mark in the store path, ini what each server has recorded, running who is in service. */
  datatype Marks = Marks(path: Option<string>, ini: map<Server, string>, running: set<Server>)

  datatype Outcome = Accepted | Rejected | CrashedBetween

  datatype Step =
    | Check(server: Server, pathIndex: nat, now: nat, outcome: Outcome)
    | Stop(server: Server)
    | DeleteMark
    | LoseIni(server: Server)

  function Recorded(m: Marks, s: Server): Option<string> {
    if s in m.ini then Some(m.ini[s]) else None
  }

  /** storage_check_store_path_mark as one atomic step: a crash or a failing second write may leave the
      new mark in the path only. */
  predicate CheckStep(encode: Encoding, m: Marks, s: Server, pathIndex: nat, now: nat, o: Outcome, m': Marks) {
    var mark := encode(MarkInfo(s, pathIndex, now));
    match o
    case Rejected => m' == m && m.path.Some? && m.path != Recorded(m, s)
    case CrashedBetween => m.path.None? && m' == m.(path := Some(mark))
    case Accepted =>
      if m.path.None? then m' == Marks(Some(mark), m.ini[s := mark], m.running + {s})
      else m.path == Recorded(m, s) && m' == m.(running := m.running + {s})
  }

  predicate Next(encode: Encoding, m: Marks, step: Step, m': Marks) {
    match step
    case Check(s, i, now, o) => CheckStep(encode, m, s, i, now, o, m')
    case Stop(s) => m' == m.(running := m.running - {s})
    case DeleteMark => m' == m.(path := None)
    case LoseIni(s) => m' == m.(ini := m.ini - {s})
  }

  /** The check itself, on the marks of one server. */
  class MarkFiles {
    var path: Option<string>
    var recorded: Option<string>

    constructor (path: Option<string>, recorded: Option<string>)
      ensures this.path == path && this.recorded == recorded
    {
      this.path, this.recorded := path, recorded;
    }

    /** `iniWritten` says whether the second of the two writes happened. */
    method CheckStorePathMark(encode: Encoding, s: Server, pathIndex: nat, now: nat, iniWritten: bool)
      returns (o: Outcome)
      modifies this
      ensures var before, after := AsMarks(s, old(path), old(recorded)), AsMarks(s, path, recorded);
        CheckStep(encode, before, s, pathIndex, now, o, if o.Accepted? then after.(running := {s}) else after)
      ensures o.Accepted? ==> path.Some? && path == recorded
      ensures old(path).None? ==> (o.Accepted? <==> iniWritten)
    {
      if recorded.None? {
        if path.Some? {
          return Rejected;
        }
      } else {
        if path.Some? {
          if recorded.value == path.value {
            return Accepted;
          } else {
            return Rejected;
          }
        }
      }
      var mark := encode(MarkInfo(s, pathIndex, now));
      path := Some(mark);
      if !iniWritten {
        return CrashedBetween;
      }
      recorded := Some(mark);
      o := Accepted;
    }
  }

  function AsMarks(s: Server, path: Option<string>, recorded: Option<string>): Marks {
    Marks(path, if recorded.Some? then map[s := recorded.value] else map[], {})
  }

  // ---------------------------------------------------------------- runs of several servers

  predicate Own(encode: Encoding, s: Server, info: MarkInfo, mark: string) {
    info.server == s && mark == encode(info)
  }

  /** A server only ever records marks that name itself. */
  ghost predicate Inv(encode: Encoding, m: Marks) {
    forall s | s in m.ini :: exists info :: Own(encode, s, info, m.ini[s])
  }

  ghost predicate Init(m: Marks) {
    m.ini == map[] && m.running == {}
  }

  ghost predicate IsRun(encode: Encoding, run: seq<Marks>, steps: seq<Step>) {
    && |run| == |steps| + 1 && Init(run[0])
    && forall k | 0 <= k < |steps| :: Next(encode, run[k], steps[k], run[k + 1])
  }

  lemma NextKeepsInv(encode: Encoding, m: Marks, step: Step, m': Marks)
    requires Inv(encode, m) && Next(encode, m, step, m')
    ensures Inv(encode, m')
  {
    forall s | s in m'.ini ensures exists info :: Own(encode, s, info, m'.ini[s]) {
      if s in m.ini && m'.ini[s] == m.ini[s] {
        var info :| Own(encode, s, info, m.ini[s]);
      } else {
        assert Own(encode, s, MarkInfo(s, step.pathIndex, step.now), m'.ini[s]);
      }
    }
  }

  lemma {:induction false} RunKeepsInv(encode: Encoding, run: seq<Marks>, steps: seq<Step>, k: nat)
    requires IsRun(encode, run, steps) && k < |run|
    ensures Inv(encode, run[k])
  {
    if k > 0 {
      RunKeepsInv(encode, run, steps, k - 1);
      NextKeepsInv(encode, run[k - 1], steps[k - 1], run[k]);
    }
  }

  /** In every reachable state at most one server has recorded the mark that the path carries. */
  lemma AtMostOneHolder(encode: Encoding, run: seq<Marks>, steps: seq<Step>, k: nat, a: Server, b: Server)
    requires Injective(encode) && IsRun(encode, run, steps) && k < |run|
    requires run[k].path.Some? && Recorded(run[k], a) == run[k].path && Recorded(run[k], b) == run[k].path
    ensures a == b
  {
    RunKeepsInv(encode, run, steps, k);
    var ia :| Own(encode, a, ia, run[k].ini[a]);
    var ib :| Own(encode, b, ib, run[k].ini[b]);
  }

  /** Nobody touches the mark or the records by hand between two states. */
  predicate Untouched(steps: seq<Step>, i: nat, j: nat)
    requires i <= j <= |steps|
  {
    forall k | i <= k < j :: !steps[k].DeleteMark?
  }

  /** A mark in the path stays until it is deleted by hand. */
  lemma {:induction false} MarkStays(encode: Encoding, run: seq<Marks>, steps: seq<Step>, i: nat, j: nat)
    requires IsRun(encode, run, steps) && i <= j < |run| && Untouched(steps, i, j) && run[i].path.Some?
    ensures run[j].path == run[i].path
    decreases j
  {
    if i < j {
      MarkStays(encode, run, steps, i, j - 1);
      assert Next(encode, run[j - 1], steps[j - 1], run[j]);
    }
  }

  /** Exclusion: once a server was accepted, every other server is refused until the mark is deleted by
      hand, through any crashes, restarts and lost records in between. */
  lemma OthersAreRefused(encode: Encoding, run: seq<Marks>, steps: seq<Step>, i: nat, j: nat)
    requires Injective(encode) && IsRun(encode, run, steps) && i < j < |steps|
    requires steps[i].Check? && steps[i].outcome.Accepted? && Untouched(steps, i + 1, j)
    requires steps[j].Check? && steps[j].server != steps[i].server
    ensures steps[j].outcome.Rejected?
  {
    assert Next(encode, run[i], steps[i], run[i + 1]) && Next(encode, run[j], steps[j], run[j + 1]);
    MarkStays(encode, run, steps, i + 1, j);
    RunKeepsInv(encode, run, steps, i + 1);
    RunKeepsInv(encode, run, steps, j);
  }

  // ---------------------------------------------------------------- exactly when two servers are in service

  /** At most one server is in service. */
  predicate Exclusive(m: Marks) {
    forall a, b | a in m.running && b in m.running :: a == b
  }

  /** A server other than s is in service. */
  predicate OtherRunning(m: Marks, s: Server) {
    exists t | t in m.running :: t != s
  }

  /** A crash between the two writes, while another server is in service, whose mark is the one that its
      server had recorded before: same path, same second. */
  predicate Repeats(m: Marks, step: Step, m': Marks) {
    step.Check? && step.outcome.CrashedBetween? && OtherRunning(m, step.server) && m'.path == Recorded(m', step.server)
  }

  /** The mark in the path was left by such a crash of server s. */
  ghost predicate Replanted(run: seq<Marks>, steps: seq<Step>, k: nat, s: Server)
    requires |run| == |steps| + 1 && k < |run|
  {
    exists i | 0 <= i < k ::
      Repeats(run[i], steps[i], run[i + 1]) && steps[i].server == s && Untouched(steps, i + 1, k)
  }

  /** Step k lets a server in while another one is in service: there is no mark in the path, or the server's
      own crash has put its old mark back. */
  ghost predicate Intrudes(run: seq<Marks>, steps: seq<Step>, k: nat)
    requires |run| == |steps| + 1 && k < |steps|
  {
    && steps[k].Check? && steps[k].outcome.Accepted? && OtherRunning(run[k], steps[k].server)
    && (run[k].path.None? || Replanted(run, steps, k, steps[k].server))
  }

  /** Every server in service owns the mark in the path. */
  ghost predicate Owned(encode: Encoding, m: Marks) {
    m.path.Some? && forall a | a in m.running :: exists info :: Own(encode, a, info, m.path.value)
  }

  /** Nobody could be let in by the mark in the path. */
  ghost predicate Orphaned(m: Marks) {
    m.path.Some? && forall s :: Recorded(m, s) != m.path
  }

  /** Without a mark, or with one that belongs to every server in service, or to nobody, or to a server that
      crashed and put its old mark back. */
  ghost predicate Guarded(encode: Encoding, run: seq<Marks>, steps: seq<Step>, k: nat)
    requires |run| == |steps| + 1 && k < |run|
  {
    || run[k].path.None? || Owned(encode, run[k]) || Orphaned(run[k])
    || exists s :: Replanted(run, steps, k, s) && forall t | Recorded(run[k], t) == run[k].path :: t == s
  }

  lemma OwnersAreEqual(encode: Encoding, a: Server, b: Server, mark: string)
    requires Injective(encode)
    requires (exists info :: Own(encode, a, info, mark)) && (exists info :: Own(encode, b, info, mark))
    ensures a == b
  {
    var ia :| Own(encode, a, ia, mark);
    var ib :| Own(encode, b, ib, mark);
  }

  lemma ReplantedStays(run: seq<Marks>, steps: seq<Step>, k: nat, s: Server)
    requires |run| == |steps| + 1 && k < |steps| && Replanted(run, steps, k, s) && !steps[k].DeleteMark?
    ensures Replanted(run, steps, k + 1, s)
  {
    var i :| 0 <= i < k && Repeats(run[i], steps[i], run[i + 1]) && steps[i].server == s && Untouched(steps, i + 1, k);
    assert Untouched(steps, i + 1, k + 1);
  }

  /** A new mark in the path. */
  lemma NewMarkIsGuarded(encode: Encoding, run: seq<Marks>, steps: seq<Step>, k: nat)
    requires Injective(encode) && IsRun(encode, run, steps) && k < |steps| && Exclusive(run[k])
    requires steps[k].Check? && run[k].path.None? && !steps[k].outcome.Rejected? && !Intrudes(run, steps, k)
    ensures Guarded(encode, run, steps, k + 1) && Exclusive(run[k + 1])
  {
    var m, m', step := run[k], run[k + 1], steps[k];
    var s, info := step.server, MarkInfo(step.server, step.pathIndex, step.now);
    assert Next(encode, m, step, m') && Own(encode, s, info, encode(info));
    RunKeepsInv(encode, run, steps, k + 1);
    forall t | Recorded(m', t) == m'.path ensures t == s {
      OwnersAreEqual(encode, s, t, encode(info));
    }
    if !OtherRunning(m, s) {
      assert Owned(encode, m');
    } else if Recorded(m', s) == m'.path {
      assert Repeats(m, step, m') && Untouched(steps, k + 1, k + 1);
      assert Replanted(run, steps, k + 1, s);
    } else {
      assert Orphaned(m');
    }
  }

  /** A server that is let in by its own mark. */
  lemma AcceptedIsGuarded(encode: Encoding, run: seq<Marks>, steps: seq<Step>, k: nat)
    requires Injective(encode) && IsRun(encode, run, steps) && k < |steps| && Exclusive(run[k])
    requires Guarded(encode, run, steps, k) && !Intrudes(run, steps, k)
    requires steps[k].Check? && steps[k].outcome.Accepted? && run[k].path.Some?
    ensures Guarded(encode, run, steps, k + 1) && Exclusive(run[k + 1])
  {
    var m, m', s := run[k], run[k + 1], steps[k].server;
    assert Next(encode, m, steps[k], m') && Recorded(m, s) == m.path;
    RunKeepsInv(encode, run, steps, k);
    if Owned(encode, m) {
      forall a | a in m.running ensures a == s {
        OwnersAreEqual(encode, a, s, m.path.value);
      }
    }
    assert forall a | a in m'.running :: a == s;
    assert Owned(encode, m');
  }

  /** Every other step. */
  lemma RestIsGuarded(encode: Encoding, run: seq<Marks>, steps: seq<Step>, k: nat)
    requires IsRun(encode, run, steps) && k < |steps| && Exclusive(run[k]) && Guarded(encode, run, steps, k)
    requires steps[k].Check? ==> steps[k].outcome.Rejected?
    ensures Guarded(encode, run, steps, k + 1) && Exclusive(run[k + 1])
  {
    var m, m' := run[k], run[k + 1];
    assert Next(encode, m, steps[k], m');
    assert forall t :: Recorded(m', t) == Recorded(m, t) || Recorded(m', t) == None;
    if m'.path.Some? {
      if !Owned(encode, m) && !Orphaned(m) {
        var s :| Replanted(run, steps, k, s) && forall t | Recorded(m, t) == m.path :: t == s;
        ReplantedStays(run, steps, k, s);
      } else if Orphaned(m) {
        assert Orphaned(m');
      } else {
        assert Owned(encode, m');
      }
    }
  }

  lemma {:induction false} RunStaysExclusive(encode: Encoding, run: seq<Marks>, steps: seq<Step>, k: nat)
    requires Injective(encode) && IsRun(encode, run, steps) && k < |run|
    requires forall j | 0 <= j < k :: !Intrudes(run, steps, j)
    ensures Guarded(encode, run, steps, k) && Exclusive(run[k])
  {
    if k == 0 {
      assert run[0].path.Some? ==> Owned(encode, run[0]);
    } else {
      RunStaysExclusive(encode, run, steps, k - 1);
      assert Next(encode, run[k - 1], steps[k - 1], run[k]);
      if !steps[k - 1].Check? || steps[k - 1].outcome.Rejected? {
        RestIsGuarded(encode, run, steps, k - 1);
      } else if run[k - 1].path.None? {
        NewMarkIsGuarded(encode, run, steps, k - 1);
      } else {
        AcceptedIsGuarded(encode, run, steps, k - 1);
      }
    }
  }

  /** Exclusion holds up to a state exactly when no server was let in, while another one was in service, that
      found no mark or had put its old mark back by a crash. A deletion by hand with nobody else in service is
      therefore safe, as the server's own message says. */
  lemma ExclusiveIff(encode: Encoding, run: seq<Marks>, steps: seq<Step>, k: nat)
    requires Injective(encode) && IsRun(encode, run, steps) && k < |run|
    ensures (forall j | 0 <= j <= k :: Exclusive(run[j])) <==> (forall j | 0 <= j < k :: !Intrudes(run, steps, j))
  {
    if forall j | 0 <= j < k :: !Intrudes(run, steps, j) {
      forall j | 0 <= j <= k ensures Exclusive(run[j]) {
        RunStaysExclusive(encode, run, steps, j);
      }
    }
    if forall j | 0 <= j <= k :: Exclusive(run[j]) {
      forall j | 0 <= j < k ensures !Intrudes(run, steps, j) {
        assert Next(encode, run[j], steps[j], run[j + 1]) && Exclusive(run[j + 1]);
      }
    }
  }

  lemma {:induction false} NobodyWithoutMark(encode: Encoding, run: seq<Marks>, steps: seq<Step>, k: nat)
    requires IsRun(encode, run, steps) && k < |run| && Untouched(steps, 0, k) && run[k].path.None?
    ensures run[k].running == {}
  {
    if k > 0 {
      assert Next(encode, run[k - 1], steps[k - 1], run[k]);
      NobodyWithoutMark(encode, run, steps, k - 1);
    }
  }

  /** Without a deletion by hand no crash puts an old mark back while another server is in service. */
  lemma NoRepeatsUntouched(encode: Encoding, run: seq<Marks>, steps: seq<Step>, k: nat)
    requires IsRun(encode, run, steps) && k < |run| && Untouched(steps, 0, k)
    ensures forall s :: !Replanted(run, steps, k, s)
  {
    forall i | 0 <= i < k ensures !Repeats(run[i], steps[i], run[i + 1]) {
      assert Next(encode, run[i], steps[i], run[i + 1]);
      if run[i].path.None? {
        NobodyWithoutMark(encode, run, steps, i);
      }
    }
  }

  /** The mark in the path is one of server a. */
  ghost predicate OwnsPath(encode: Encoding, m: Marks, a: Server) {
    m.path.Some? && exists info :: Own(encode, a, info, m.path.value)
  }

  lemma StartedOwnsPath(encode: Encoding, m: Marks, step: Step, m': Marks, a: Server)
    requires Inv(encode, m') && Next(encode, m, step, m') && a in m'.running && a !in m.running
    ensures OwnsPath(encode, m', a)
  {
    assert a in m'.ini && m'.path == Some(m'.ini[a]);
    assert exists info :: Own(encode, a, info, m'.ini[a]);
  }

  lemma StaysOwner(encode: Encoding, m: Marks, step: Step, m': Marks, a: Server)
    requires Next(encode, m, step, m') && !step.DeleteMark? && OwnsPath(encode, m, a)
    ensures OwnsPath(encode, m', a)
  {
    assert m'.path == m.path;
  }

  /** Without a deletion by hand every server in service owns the mark in the path. */
  lemma {:induction false} RunningOwnTheMark(encode: Encoding, run: seq<Marks>, steps: seq<Step>, k: nat)
    requires IsRun(encode, run, steps) && k < |run| && Untouched(steps, 0, k)
    ensures forall a | a in run[k].running :: OwnsPath(encode, run[k], a)
  {
    if k > 0 {
      RunningOwnTheMark(encode, run, steps, k - 1);
      RunKeepsInv(encode, run, steps, k);
      var m, m' := run[k - 1], run[k];
      assert Next(encode, m, steps[k - 1], m');
      forall a | a in m'.running ensures OwnsPath(encode, m', a) {
        if a in m.running {
          StaysOwner(encode, m, steps[k - 1], m', a);
        } else {
          StartedOwnsPath(encode, m, steps[k - 1], m', a);
        }
      }
    }
  }

  /** So without any deletion by hand at most one server is in service at all times, and it owns the mark. */
  lemma AtMostOneRunning(encode: Encoding, run: seq<Marks>, steps: seq<Step>, k: nat)
    requires Injective(encode) && IsRun(encode, run, steps) && k < |run| && Untouched(steps, 0, k)
    ensures forall j | 0 <= j <= k :: Exclusive(run[j])
    ensures forall a | a in run[k].running :: OwnsPath(encode, run[k], a)
  {
    forall j | 0 <= j < k ensures !Intrudes(run, steps, j) {
      NoRepeatsUntouched(encode, run, steps, j);
      if run[j].path.None? {
        NobodyWithoutMark(encode, run, steps, j);
      }
    }
    ExclusiveIff(encode, run, steps, k);
    RunningOwnTheMark(encode, run, steps, k);
  }

  /** A deletion by hand suspends the exclusion: two servers end up in service. */
  lemma DeletionLetsTwoRun(encode: Encoding, a: Server, b: Server) returns (run: seq<Marks>, steps: seq<Step>)
    requires a != b
    ensures IsRun(encode, run, steps) && |run| == 4 && a in run[3].running && b in run[3].running
  {
    var ma, mb := encode(MarkInfo(a, 0, 0)), encode(MarkInfo(b, 0, 0));
    var s0 := Marks(None, map[], {});
    var s1 := Marks(Some(ma), map[a := ma], {a});
    var s2 := s1.(path := None);
    var s3 := Marks(Some(mb), map[a := ma, b := mb], {a, b});
    run := [s0, s1, s2, s3];
    steps := [Check(a, 0, 0, Accepted), DeleteMark, Check(b, 0, 0, Accepted)];
    assert s3.ini == s2.ini[b := mb] && s3.running == s2.running + {b};
    assert s1.ini == s0.ini[a := ma] && s1.running == s0.running + {a};
  }

  /** The server has lost its record somewhere in between. */
  predicate Lost(steps: seq<Step>, s: Server, i: nat, j: nat)
    requires i <= j <= |steps|
  {
    exists k | i <= k < j :: steps[k] == LoseIni(s)
  }

  /** A crash between the two writes: until the mark is deleted by hand a server is accepted if and only if it
      is the one that crashed, its new mark is the one that it had recorded before, and it has not lost that
      record since. Every other start is refused. */
  lemma CrashLocksOutIff(encode: Encoding, run: seq<Marks>, steps: seq<Step>, i: nat, j: nat)
    requires Injective(encode) && IsRun(encode, run, steps) && i < j < |steps|
    requires steps[i].Check? && steps[i].outcome.CrashedBetween? && Untouched(steps, i + 1, j)
    requires steps[j].Check?
    ensures steps[j].outcome.Accepted? <==>
      && steps[j].server == steps[i].server
      && run[i + 1].path == Recorded(run[i + 1], steps[i].server)
      && !Lost(steps, steps[i].server, i + 1, j)
    ensures !steps[j].outcome.Accepted? ==> steps[j].outcome.Rejected?
  {
    var s := steps[j].server;
    assert Next(encode, run[i], steps[i], run[i + 1]) && Next(encode, run[j], steps[j], run[j + 1]);
    MarkStays(encode, run, steps, i + 1, j);
    HolderIff(encode, run, steps, i + 1, j, s);
    if s != steps[i].server {
      RunKeepsInv(encode, run, steps, i + 1);
      if Recorded(run[i + 1], s) == run[i + 1].path {
        var info :| Own(encode, s, info, run[i + 1].ini[s]);
      }
    }
  }

  /** Such a run: the server that crashed is refused at its next start. */
  lemma CrashedServerIsRefused(encode: Encoding, s: Server) returns (run: seq<Marks>, steps: seq<Step>)
    ensures IsRun(encode, run, steps) && |steps| == 2
    ensures steps == [Check(s, 0, 0, CrashedBetween), Check(s, 0, 1, Rejected)]
  {
    var empty := Marks(None, map[], {});
    var marked := empty.(path := Some(encode(MarkInfo(s, 0, 0))));
    run, steps := [empty, marked, marked], [Check(s, 0, 0, CrashedBetween), Check(s, 0, 1, Rejected)];
  }

  /** While the mark stays, a server has it recorded exactly if it had and has not lost its record. */
  lemma {:induction false} HolderIff(encode: Encoding, run: seq<Marks>, steps: seq<Step>, i: nat, j: nat, s: Server)
    requires IsRun(encode, run, steps) && i <= j < |run| && Untouched(steps, i, j) && run[i].path.Some?
    ensures Recorded(run[j], s) == run[j].path <==> Recorded(run[i], s) == run[i].path && !Lost(steps, s, i, j)
    decreases j
  {
    if i < j {
      HolderIff(encode, run, steps, i, j - 1, s);
      MarkStays(encode, run, steps, i, j - 1);
      assert Next(encode, run[j - 1], steps[j - 1], run[j]);
      if steps[j - 1] == LoseIni(s) {
        assert Lost(steps, s, i, j);
      } else if Lost(steps, s, i, j) {
        var k :| i <= k < j && steps[k] == LoseIni(s);
        assert k < j - 1;
      }
      if Lost(steps, s, i, j - 1) {
        var k :| i <= k < j - 1 && steps[k] == LoseIni(s);
        assert Lost(steps, s, i, j);
      }
    }
  }
}
