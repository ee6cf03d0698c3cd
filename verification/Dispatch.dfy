/** The dispatch pass: the unread records of the old threads' logs are dealt out to new threads. */
module Dispatch {
  import opened Options
  import opened Sequences
  import opened BinlogText
  import opened Replay

  /** Records are dealt out by the name of the file they depend on. */
  function Key(r: Record): string {
    if r.src != "" then r.src else r.name
  }

  function Home(names: Names, m: nat, key: string): nat
    requires m > 0
  {
    names.hash(key) % m
  }

  /** The records of rs that go to thread i of m. */
  function Part(names: Names, m: nat, rs: seq<Record>, i: nat): seq<Record>
    requires m > 0
  {
    if rs == [] then []
    else Part(names, m, rs[..|rs| - 1], i) +
         (if Home(names, m, Key(rs[|rs| - 1])) == i then [rs[|rs| - 1]] else [])
  }

  function Parts(names: Names, m: nat, rs: seq<Record>): seq<seq<Record>>
    requires m > 0
  {
    seq(m, i requires 0 <= i < m => Part(names, m, rs, i))
  }

  function Flat(logs: seq<seq<Record>>): seq<Record> {
    if logs == [] then [] else Flat(logs[..|logs| - 1]) + logs[|logs| - 1]
  }

  // ---------------------------------------------------------------- the pass, with its errors

  /** What goes wrong with one of the old logs: its reader does not open, or the read or the write of
      record `at` fails. A failing read at |log| is one that does not report the end. */
  datatype LogFault = LogOk | InitFails(error: int) | ReadFails(at: nat, error: int) | WriteFails(at: nat, error: int)

  /** What goes wrong with one of the new logs. */
  datatype RenameFault = RenameOk | RenameFails(error: int) | MarkFails(error: int)

  /** Error codes are not zero. */
  predicate Proper(faults: seq<LogFault>, renames: seq<RenameFault>) {
    && (forall f | f in faults :: !f.LogOk? ==> f.error != 0)
    && (forall f | f in renames :: !f.RenameOk? ==> f.error != 0)
  }

  /** A stop request is noticed before a read once `stop` records have been dealt out. */
  predicate Stopped(stop: Option<nat>, done: nat) {
    stop.Some? && stop.value <= done
  }

  /** How many records of a log are dealt out when `done` have been before. */
  function LogCount(log: seq<Record>, fault: LogFault, stop: Option<nat>, done: nat): (c: nat)
    ensures c <= |log|
  {
    if fault.InitFails? || Stopped(stop, done) then 0 else
    var c := if !fault.LogOk? && fault.at < |log| then fault.at else |log|;
    if stop.Some? && stop.value < done + c then stop.value - done else c
  }

  /** The fault ends the reading of all logs. */
  predicate LogBreaks(log: seq<Record>, fault: LogFault, stop: Option<nat>, done: nat) {
    match fault
    case LogOk => false
    case InitFails(_) => true
    case ReadFails(at, _) => at <= |log| && !Stopped(stop, done + at)
    case WriteFails(at, _) => at < |log| && !Stopped(stop, done + at)
  }

  /** How many records have been dealt out at the end of the pass. */
  function ReadCount(logs: seq<seq<Record>>, faults: seq<LogFault>, stop: Option<nat>, done: nat): nat
    requires |faults| == |logs|
  {
    if logs == [] then done else
    var c := LogCount(logs[0], faults[0], stop, done);
    if LogBreaks(logs[0], faults[0], stop, done) then done + c
    else ReadCount(logs[1..], faults[1..], stop, done + c)
  }

  /** How many new logs are renamed and get their mark. */
  function RenameCount(renames: seq<RenameFault>): (k: nat)
    ensures k <= |renames|
    ensures k == |renames| <==> forall f | f in renames :: f.RenameOk?
  {
    if renames == [] || !renames[0].RenameOk? then 0 else 1 + RenameCount(renames[1..])
  }

  /** Deals out one log. */
  method DealOut(names: Names, m: nat, log: seq<Record>, fault: LogFault, stop: Option<nat>, done: nat,
                 parts: seq<seq<Record>>, ghost taken: seq<Record>)
    returns (result: int, next: seq<seq<Record>>, count: nat)
    requires m > 0 && parts == Parts(names, m, taken) && (!fault.LogOk? ==> fault.error != 0)
    ensures count == LogCount(log, fault, stop, done)
    ensures result != 0 <==> LogBreaks(log, fault, stop, done)
    ensures next == Parts(names, m, taken + log[..count])
  {
    result, next, count := 0, parts, 0;
    assert taken + log[..0] == taken;
    if fault.InitFails? {
      result := fault.error;
      return;
    }
    while !Stopped(stop, done + count)
      invariant 0 <= count <= |log| && result == 0
      invariant count > 0 ==> !Stopped(stop, done + count - 1)
      invariant !fault.LogOk? && fault.at < |log| ==> count <= fault.at
      invariant next == Parts(names, m, taken + log[..count])
      decreases |log| - count
    {
      if fault.ReadFails? && fault.at == count {
        result := fault.error;
        break;
      }
      if count == |log| {
        break;
      }
      var record := log[count];
      var h := Home(names, m, Key(record));
      if fault.WriteFails? && fault.at == count {
        result := fault.error;
        break;
      }
      AppendParts(names, m, taken + log[..count], record);
      assert taken + log[..count + 1] == taken + log[..count] + [record];
      next := next[h := next[h] + [record]];
      count := count + 1;
    }
  }

  /** Between two logs: what is left to read, and either all of the earlier logs was dealt out or a stop
      request keeps the later ones from being read. */
  ghost predicate Between(logs: seq<seq<Record>>, faults: seq<LogFault>, stop: Option<nat>, i: nat, done: nat)
    requires |faults| == |logs| && i <= |logs|
  {
    && done <= |Flat(logs[..i])| && (done < |Flat(logs[..i])| ==> Stopped(stop, done))
    && ReadCount(logs, faults, stop, 0) == ReadCount(logs[i..], faults[i..], stop, done)
  }

  lemma NextLog(logs: seq<seq<Record>>, faults: seq<LogFault>, stop: Option<nat>, i: nat, done: nat)
    requires |faults| == |logs| && i < |logs| && Between(logs, faults, stop, i, done)
    ensures var c := LogCount(logs[i], faults[i], stop, done);
      && done + c <= |Flat(logs[..i + 1])|
      && Flat(logs[..i])[..done] + logs[i][..c] == Flat(logs[..i + 1])[..done + c]
      && (if LogBreaks(logs[i], faults[i], stop, done) then ReadCount(logs, faults, stop, 0) == done + c
          else Between(logs, faults, stop, i + 1, done + c))
  {
    assert logs[..i + 1][..i] == logs[..i];
    assert logs[i..][1..] == logs[i + 1..] && faults[i..][1..] == faults[i + 1..];
    assert |Flat(logs[..i + 1])| == |Flat(logs[..i])| + |logs[i]|;
  }

  lemma PrefixOfFlat(logs: seq<seq<Record>>, i: nat, done: nat)
    requires i <= |logs| && done <= |Flat(logs[..i])|
    ensures done <= |Flat(logs)| && Flat(logs[..i])[..done] == Flat(logs)[..done]
  {
    FlatPrefix(logs, i);
  }

  /** The parts hold the first `done` records, which lie in the first i logs. */
  ghost predicate DealtOut(names: Names, m: nat, logs: seq<seq<Record>>, i: nat, done: nat, parts: seq<seq<Record>>)
    requires m > 0 && i <= |logs|
  {
    done <= |Flat(logs[..i])| && parts == Parts(names, m, Flat(logs[..i])[..done])
  }

  /** Log i of the old logs. */
  method DealOutNext(names: Names, m: nat, logs: seq<seq<Record>>, faults: seq<LogFault>, stop: Option<nat>,
                     i: nat, done: nat, parts: seq<seq<Record>>)
    returns (result: int, next: seq<seq<Record>>, total: nat)
    requires m > 0 && |faults| == |logs| && Proper(faults, []) && i < |logs|
    requires Between(logs, faults, stop, i, done) && DealtOut(names, m, logs, i, done, parts)
    ensures DealtOut(names, m, logs, i + 1, total, next)
    ensures if result != 0 then ReadCount(logs, faults, stop, 0) == total
            else Between(logs, faults, stop, i + 1, total)
  {
    var count;
    NextLog(logs, faults, stop, i, done);
    assert faults[i] in faults;
    result, next, count := DealOut(names, m, logs[i], faults[i], stop, done, parts, Flat(logs[..i])[..done]);
    total := done + count;
  }

  /** Reads the old logs one after the other until an error. */
  method DealOutAll(names: Names, m: nat, logs: seq<seq<Record>>, faults: seq<LogFault>, stop: Option<nat>)
    returns (result: int, parts: seq<seq<Record>>)
    requires m > 0 && |faults| == |logs| && Proper(faults, [])
    ensures ReadCount(logs, faults, stop, 0) <= |Flat(logs)|
    ensures parts == Parts(names, m, Flat(logs)[..ReadCount(logs, faults, stop, 0)])
  {
    result, parts := 0, seq(m, _ => []);
    var done, i := 0, 0;
    assert logs[0..] == logs && faults[0..] == faults;
    while i < |logs|
      invariant 0 <= i <= |logs| && 0 <= done && Between(logs, faults, stop, i, done)
      invariant DealtOut(names, m, logs, i, done, parts)
    {
      result, parts, done := DealOutNext(names, m, logs, faults, stop, i, done, parts);
      i := i + 1;
      if result != 0 {
        break;
      }
    }
    PrefixOfFlat(logs, i, done);
  }

  /** do_dispatch_binlog_for_threads. The result of each mark write replaces the one before, so an error
      of the reading phase is forgotten. `renamed` counts the new logs that are in place with their mark. */
  method DispatchBinlog(names: Names, m: nat, logs: seq<seq<Record>>, faults: seq<LogFault>, stop: Option<nat>,
                        opening: int, renames: seq<RenameFault>)
    returns (result: int, parts: seq<seq<Record>>, renamed: nat)
    requires m > 0 && |faults| == |logs| && |renames| == m && Proper(faults, renames)
    ensures opening != 0 ==> result == opening && renamed == 0
    ensures opening == 0 ==> renamed == RenameCount(renames)
    ensures ReadCount(logs, faults, stop, 0) <= |Flat(logs)|
    ensures opening == 0 ==> parts == Parts(names, m, Flat(logs)[..ReadCount(logs, faults, stop, 0)])
    ensures result == 0 <==> opening == 0 && renamed == m
    ensures result == 0 && Merge(parts) != Merge(logs) <==>
      opening == 0 && (forall f | f in renames :: f.RenameOk?) && !ReadsAll(logs, faults, stop)
  {
    ReadCountBound(logs, faults, stop, 0);
    if opening != 0 {
      return opening, [], 0;
    }
    result, parts := DealOutAll(names, m, logs, faults, stop);
    renamed := 0;
    assert renames[0..] == renames;
    while renamed < m
      invariant 0 <= renamed <= m && RenameCount(renames) == renamed + RenameCount(renames[renamed..])
      invariant renamed > 0 ==> result == 0
    {
      assert renames[renamed] in renames && renames[renamed..][1..] == renames[renamed + 1..];
      if renames[renamed].RenameFails? {
        result := renames[renamed].error;
        break;
      }
      result := if renames[renamed].MarkFails? then renames[renamed].error else 0;
      if result != 0 {
        break;
      }
      renamed := renamed + 1;
    }
    DispatchKeepsAllIff(names, m, logs, faults, stop);
  }

  lemma AppendParts(names: Names, m: nat, rs: seq<Record>, r: Record)
    requires m > 0
    ensures var h := Home(names, m, Key(r)); var parts := Parts(names, m, rs);
            Parts(names, m, rs + [r]) == parts[h := parts[h] + [r]]
  {
    assert (rs + [r])[..|rs|] == rs;
    var h, parts := Home(names, m, Key(r)), Parts(names, m, rs);
    forall i | 0 <= i < m
      ensures Parts(names, m, rs + [r])[i] == parts[h := parts[h] + [r]][i]
    {
    }
  }

  lemma {:induction false} FlatPrefix(logs: seq<seq<Record>>, i: nat)
    requires i <= |logs|
    ensures Flat(logs[..i]) <= Flat(logs)
    decreases |logs| - i
  {
    if i == |logs| {
      assert logs[..i] == logs;
    } else {
      assert logs[..i + 1][..i] == logs[..i];
      FlatPrefix(logs, i + 1);
    }
  }

  /** All records of some logs, with their number of occurrences. */
  function Merge(logs: seq<seq<Record>>): multiset<Record> {
    if logs == [] then multiset{} else Merge(logs[..|logs| - 1]) + multiset(logs[|logs| - 1])
  }

  lemma {:induction false} MergeIsFlat(logs: seq<seq<Record>>)
    ensures Merge(logs) == multiset(Flat(logs))
  {
    if logs != [] {
      MergeIsFlat(logs[..|logs| - 1]);
    }
  }

  lemma {:induction false} MergeUpdate(logs: seq<seq<Record>>, h: nat, r: Record)
    requires h < |logs|
    ensures Merge(logs[h := logs[h] + [r]]) == Merge(logs) + multiset{r}
  {
    var n := |logs| - 1;
    var next := logs[h := logs[h] + [r]];
    if h == n {
      assert next[..n] == logs[..n];
    } else {
      assert next[..n] == logs[..n][h := logs[..n][h] + [r]];
      MergeUpdate(logs[..n], h, r);
    }
  }

  lemma {:induction false} MergeEmpty(logs: seq<seq<Record>>)
    requires forall i | 0 <= i < |logs| :: logs[i] == []
    ensures Merge(logs) == multiset{}
  {
    if logs != [] {
      MergeEmpty(logs[..|logs| - 1]);
    }
  }

  /** No record is lost or doubled by dealing out. */
  lemma {:induction false} PartsConserve(names: Names, m: nat, rs: seq<Record>)
    requires m > 0
    ensures Merge(Parts(names, m, rs)) == multiset(rs)
  {
    if rs == [] {
      MergeEmpty(Parts(names, m, rs));
    } else {
      var init, last := rs[..|rs| - 1], rs[|rs| - 1];
      assert rs == init + [last];
      AppendParts(names, m, init, last);
      PartsConserve(names, m, init);
      MergeUpdate(Parts(names, m, init), Home(names, m, Key(last)), last);
    }
  }

  lemma {:induction false} PartMembers(names: Names, m: nat, rs: seq<Record>, i: nat)
    requires m > 0
    ensures forall r :: r in Part(names, m, rs, i) <==> r in rs && Home(names, m, Key(r)) == i
  {
    if rs != [] {
      PartMembers(names, m, rs[..|rs| - 1], i);
      assert forall r :: r in rs <==> r in rs[..|rs| - 1] || r == rs[|rs| - 1];
    }
  }

  /** No error and no stop request comes before the last record: a reader that does not open has nothing
      left to read, a failing read comes where all records are read, and no write fails. */
  predicate ReadsAll(logs: seq<seq<Record>>, faults: seq<LogFault>, stop: Option<nat>)
    requires |faults| == |logs|
  {
    (stop.Some? ==> stop.value >= |Flat(logs)|) && SparesAll(logs, faults)
  }

  /** The fault at log i leaves no record unread. */
  predicate Spares(logs: seq<seq<Record>>, fault: LogFault, i: nat)
    requires i < |logs|
  {
    match fault
    case LogOk => true
    case InitFails(_) => Flat(logs[i..]) == []
    case ReadFails(at, _) => at > |logs[i]| || (at == |logs[i]| && Flat(logs[i + 1..]) == [])
    case WriteFails(at, _) => at >= |logs[i]|
  }

  lemma {:induction false} FlatFirst(logs: seq<seq<Record>>)
    requires logs != []
    ensures Flat(logs) == logs[0] + Flat(logs[1..])
    decreases |logs|
  {
    var init := logs[..|logs| - 1];
    if init == [] {
      assert logs[1..] == [];
      assert Flat(logs) == Flat(init) + logs[0];
    } else {
      FlatFirst(init);
      assert init[1..] == logs[1..][..|logs| - 2];
      Regroup(logs[0], Flat(init[1..]), logs[|logs| - 1]);
    }
  }

  lemma {:induction false} ReadCountBound(logs: seq<seq<Record>>, faults: seq<LogFault>, stop: Option<nat>, done: nat)
    requires |faults| == |logs|
    ensures done <= ReadCount(logs, faults, stop, done) <= done + |Flat(logs)|
    ensures stop.Some? && done <= stop.value ==> ReadCount(logs, faults, stop, done) <= stop.value
  {
    if logs != [] {
      FlatFirst(logs);
      ReadCountBound(logs[1..], faults[1..], stop, done + LogCount(logs[0], faults[0], stop, done));
    }
  }

  lemma SparesRest(logs: seq<seq<Record>>, faults: seq<LogFault>)
    requires |faults| == |logs| > 0
    ensures (forall i | 0 <= i < |logs| :: Spares(logs, faults[i], i)) <==>
      Spares(logs, faults[0], 0) && forall i | 0 <= i < |logs| - 1 :: Spares(logs[1..], faults[1..][i], i)
  {
    forall i | 0 <= i < |logs| - 1
      ensures Spares(logs[1..], faults[1..][i], i) <==> Spares(logs, faults[i + 1], i + 1)
    {
      assert logs[1..][i..] == logs[i + 1..] && logs[1..][i + 1..] == logs[i + 2..];
    }
    if forall i | 0 <= i < |logs| - 1 :: Spares(logs[1..], faults[1..][i], i) {
      forall i | 0 < i < |logs| ensures Spares(logs, faults[i], i) {
        assert Spares(logs[1..], faults[1..][i - 1], i - 1);
      }
    }
  }

  /** Where there are no records, no fault can lose one. */
  lemma {:induction false} EmptySpares(logs: seq<seq<Record>>, fault: LogFault, i: nat)
    requires i < |logs| && Flat(logs) == []
    ensures Spares(logs, fault, i)
    decreases i
  {
    FlatFirst(logs);
    if i > 0 {
      EmptySpares(logs[1..], fault, i - 1);
      assert logs[1..][i - 1..] == logs[i..] && logs[1..][i..] == logs[i + 1..];
    } else {
      assert logs[0..] == logs;
    }
  }

  /** The stop request, if any, comes after `total` records. */
  predicate StopSpares(stop: Option<nat>, done: nat, total: nat) {
    stop.Some? && total > 0 ==> stop.value >= done + total
  }

  lemma FirstLogIff(logs: seq<seq<Record>>, fault: LogFault, stop: Option<nat>, done: nat)
    requires logs != []
    ensures var c, rest := LogCount(logs[0], fault, stop, done), |Flat(logs[1..])|;
      if LogBreaks(logs[0], fault, stop, done)
      then c == |logs[0]| + rest <==> StopSpares(stop, done, |logs[0]| + rest) && Spares(logs, fault, 0) && rest == 0
      else c == |logs[0]| && StopSpares(stop, done + c, rest)
           <==> StopSpares(stop, done, |logs[0]| + rest) && Spares(logs, fault, 0)
  {
    FlatFirst(logs);
    assert logs[0..] == logs;
  }

  predicate SparesAll(logs: seq<seq<Record>>, faults: seq<LogFault>)
    requires |faults| == |logs|
  {
    forall i | 0 <= i < |logs| :: Spares(logs, faults[i], i)
  }

  lemma EmptySparesAll(logs: seq<seq<Record>>, faults: seq<LogFault>)
    requires |faults| == |logs| && Flat(logs) == []
    ensures SparesAll(logs, faults)
  {
    forall i | 0 <= i < |logs| ensures Spares(logs, faults[i], i) {
      EmptySpares(logs, faults[i], i);
    }
  }

  /** The pass deals out every record exactly when nothing ends the reading early. */
  lemma {:induction false} ReadCountIff(logs: seq<seq<Record>>, faults: seq<LogFault>, stop: Option<nat>, done: nat)
    requires |faults| == |logs|
    ensures ReadCount(logs, faults, stop, done) == done + |Flat(logs)| <==>
      StopSpares(stop, done, |Flat(logs)|) && SparesAll(logs, faults)
  {
    if logs != [] {
      var c, rest := LogCount(logs[0], faults[0], stop, done), |Flat(logs[1..])|;
      assert |Flat(logs)| == |logs[0]| + rest by {
        FlatFirst(logs);
      }
      FirstLogIff(logs, faults[0], stop, done);
      assert SparesAll(logs, faults) <==> Spares(logs, faults[0], 0) && SparesAll(logs[1..], faults[1..]) by {
        SparesRest(logs, faults);
      }
      if LogBreaks(logs[0], faults[0], stop, done) {
        if rest == 0 {
          EmptySparesAll(logs[1..], faults[1..]);
        }
      } else {
        ReadCountIff(logs[1..], faults[1..], stop, done + c);
        ReadCountBound(logs[1..], faults[1..], stop, done + c);
      }
    }
  }

  /** A pass keeps every unread record exactly when no error and no stop request comes before the last. */
  lemma DispatchKeepsAllIff(names: Names, m: nat, logs: seq<seq<Record>>, faults: seq<LogFault>, stop: Option<nat>)
    requires m > 0 && |faults| == |logs|
    ensures ReadCount(logs, faults, stop, 0) <= |Flat(logs)|
    ensures Merge(Parts(names, m, Flat(logs)[..ReadCount(logs, faults, stop, 0)])) == Merge(logs)
       <==> ReadsAll(logs, faults, stop)
  {
    var n := ReadCount(logs, faults, stop, 0);
    ReadCountBound(logs, faults, stop, 0);
    ReadCountIff(logs, faults, stop, 0);
    PartsConserve(names, m, Flat(logs)[..n]);
    MergeIsFlat(logs);
    assert |multiset(Flat(logs))| == |Flat(logs)| && |multiset(Flat(logs)[..n])| == n;
    assert Flat(logs)[..|Flat(logs)|] == Flat(logs);
  }

  /** Such a pass: a stop request before the first read. Nothing goes wrong, and nothing is dealt out. */
  lemma StopLosesRecords(names: Names, m: nat, logs: seq<seq<Record>>)
    requires m > 0 && Flat(logs) != []
    ensures var faults := seq(|logs|, _ => LogOk);
      && ReadCount(logs, faults, Some(0), 0) == 0 && !ReadsAll(logs, faults, Some(0))
      && Merge(Parts(names, m, Flat(logs)[..0])) != Merge(logs)
  {
    var faults := seq(|logs|, _ => LogOk);
    ReadCountBound(logs, faults, Some(0), 0);
    DispatchKeepsAllIff(names, m, logs, faults, Some(0));
  }

  // ---------------------------------------------------------------- records of one key

  /** The records of one key, in order. */
  function Of(rs: seq<Record>, key: string): seq<Record> {
    if rs == [] then []
    else Of(rs[..|rs| - 1], key) + (if Key(rs[|rs| - 1]) == key then [rs[|rs| - 1]] else [])
  }

  lemma {:induction false} OfConcat(rs: seq<Record>, us: seq<Record>, key: string)
    ensures Of(rs + us, key) == Of(rs, key) + Of(us, key)
    decreases |us|
  {
    if us == [] {
      assert rs + us == rs;
    } else {
      assert (rs + us)[..|rs + us| - 1] == rs + us[..|us| - 1];
      OfConcat(rs, us[..|us| - 1], key);
    }
  }

  /** All records of a key go to one thread, in their order. */
  lemma {:induction false} PartOfKey(names: Names, m: nat, rs: seq<Record>, i: nat, key: string)
    requires m > 0
    ensures Of(Part(names, m, rs, i), key) == if Home(names, m, key) == i then Of(rs, key) else []
  {
    if rs != [] {
      var init, last := rs[..|rs| - 1], rs[|rs| - 1];
      PartOfKey(names, m, init, i, key);
      var tail := if Home(names, m, Key(last)) == i then [last] else [];
      OfConcat(Part(names, m, init, i), tail, key);
      assert tail != [] ==> tail[..0] == [] && Of(tail, key) == if Key(last) == key then [last] else [];
    }
  }

  /** A link goes to the thread of the file it points to, and the two keep their order. */
  lemma LinkStaysWithFile(names: Names, m: nat, rs: seq<Record>, file: Record, link: Record)
    requires m > 0 && file in rs && link in rs
    requires file.src == "" && link.src == file.name && link.src != ""
    ensures var part := Part(names, m, rs, Home(names, m, file.name));
      file in part && link in part && Of(part, file.name) == Of(rs, file.name)
  {
    PartMembers(names, m, rs, Home(names, m, file.name));
    PartOfKey(names, m, rs, Home(names, m, file.name), file.name);
  }

  predicate IsSuffix(a: seq<Record>, b: seq<Record>) {
    |a| <= |b| && a == b[|b| - |a|..]
  }

  /** The unread records of a key are the end of its original records and lie in log h alone. */
  predicate AtHome(logs: seq<seq<Record>>, original: seq<Record>, key: string, h: nat) {
    && h < |logs|
    && IsSuffix(Of(logs[h], key), Of(original, key))
    && forall i | 0 <= i < |logs| && i != h :: Of(logs[i], key) == []
  }

  /** What the threads leave unread after handling some first records of their logs. */
  function Drop(logs: seq<seq<Record>>, handled: seq<nat>): (rest: seq<seq<Record>>)
    requires |handled| == |logs| && forall i | 0 <= i < |logs| :: handled[i] <= |logs[i]|
    ensures |rest| == |logs|
  {
    seq(|logs|, i requires 0 <= i < |logs| => logs[i][handled[i]..])
  }

  datatype Epoch = Epoch(handled: seq<nat>, threads: nat)

  /** One restart with another thread count after some progress. */
  predicate Possible(logs: seq<seq<Record>>, e: Epoch) {
    && e.threads > 0
    && |e.handled| == |logs|
    && forall i | 0 <= i < |logs| :: e.handled[i] <= |logs[i]|
  }

  function Redispatch(names: Names, logs: seq<seq<Record>>, e: Epoch): seq<seq<Record>>
    requires Possible(logs, e)
  {
    Parts(names, e.threads, Flat(Drop(logs, e.handled)))
  }

  predicate PossibleChain(names: Names, logs: seq<seq<Record>>, chain: seq<Epoch>)
    decreases |chain|
  {
    chain == [] ||
    (Possible(logs, chain[0]) && PossibleChain(names, Redispatch(names, logs, chain[0]), chain[1..]))
  }

  /** The logs after any number of restarts, each with its own progress and thread count. */
  function AfterChain(names: Names, logs: seq<seq<Record>>, chain: seq<Epoch>): seq<seq<Record>>
    requires PossibleChain(names, logs, chain)
    decreases |chain|
  {
    if chain == [] then logs
    else AfterChain(names, Redispatch(names, logs, chain[0]), chain[1..])
  }

  lemma {:induction false} FlatOfKey(logs: seq<seq<Record>>, key: string, h: nat)
    requires forall i | 0 <= i < |logs| && i != h :: Of(logs[i], key) == []
    ensures Of(Flat(logs), key) == if h < |logs| then Of(logs[h], key) else []
  {
    if logs != [] {
      FlatOfKey(logs[..|logs| - 1], key, h);
      OfConcat(Flat(logs[..|logs| - 1]), logs[|logs| - 1], key);
    }
  }

  lemma DropOfKey(log: seq<Record>, n: nat, key: string, original: seq<Record>)
    requires n <= |log| && IsSuffix(Of(log, key), Of(original, key))
    ensures IsSuffix(Of(log[n..], key), Of(original, key))
    ensures Of(log, key) == [] ==> Of(log[n..], key) == []
  {
    assert log == log[..n] + log[n..];
    OfConcat(log[..n], log[n..], key);
  }

  /** What is left unread of a key is still in its one log. */
  lemma DropAtHome(logs: seq<seq<Record>>, handled: seq<nat>, original: seq<Record>, key: string, h: nat)
    requires |handled| == |logs| && (forall i | 0 <= i < |logs| :: handled[i] <= |logs[i]|)
    requires AtHome(logs, original, key, h)
    ensures AtHome(Drop(logs, handled), original, key, h)
  {
    var rest := Drop(logs, handled);
    forall i | 0 <= i < |logs|
      ensures i == h ==> IsSuffix(Of(rest[i], key), Of(original, key))
      ensures i != h ==> Of(rest[i], key) == []
    {
      assert rest[i] == logs[i][handled[i]..];
      DropOfKey(logs[i], handled[i], key, original);
    }
  }

  /** Dealing out keeps a key in one log. */
  lemma PartsAtHome(names: Names, m: nat, rs: seq<Record>, original: seq<Record>, key: string)
    requires m > 0 && IsSuffix(Of(rs, key), Of(original, key))
    ensures AtHome(Parts(names, m, rs), original, key, Home(names, m, key))
  {
    var parts := Parts(names, m, rs);
    forall i | 0 <= i < m ensures Of(parts[i], key) == if Home(names, m, key) == i then Of(rs, key) else [] {
      assert parts[i] == Part(names, m, rs, i);
      PartOfKey(names, m, rs, i, key);
    }
  }

  /** One epoch keeps a key's unread records together and in order. */
  lemma RedispatchAtHome(names: Names, logs: seq<seq<Record>>, e: Epoch, original: seq<Record>, key: string, h: nat)
    requires Possible(logs, e) && AtHome(logs, original, key, h)
    ensures AtHome(Redispatch(names, logs, e), original, key, Home(names, e.threads, key))
  {
    var rest := Drop(logs, e.handled);
    assert IsSuffix(Of(Flat(rest), key), Of(original, key)) by {
      DropAtHome(logs, e.handled, original, key, h);
      FlatOfKey(rest, key, h);
    }
    PartsAtHome(names, e.threads, Flat(rest), original, key);
  }

  /** The thread that holds a key after a chain of restarts. */
  function HomeAfter(names: Names, chain: seq<Epoch>, key: string, h: nat): nat
    requires forall e | e in chain :: e.threads > 0
  {
    if chain == [] then h else Home(names, chain[|chain| - 1].threads, key)
  }

  lemma {:induction false} PossibleThreads(names: Names, logs: seq<seq<Record>>, chain: seq<Epoch>)
    requires PossibleChain(names, logs, chain)
    ensures forall e | e in chain :: e.threads > 0
    decreases |chain|
  {
    if chain != [] {
      PossibleThreads(names, Redispatch(names, logs, chain[0]), chain[1..]);
    }
  }

  lemma HomeAfterRest(names: Names, chain: seq<Epoch>, key: string, h: nat)
    requires chain != [] && forall e | e in chain :: e.threads > 0
    ensures chain[0] in chain && forall e | e in chain[1..] :: e.threads > 0
    ensures HomeAfter(names, chain, key, h) == HomeAfter(names, chain[1..], key, Home(names, chain[0].threads, key))
  {
  }

  /** Over every chain of thread counts: a key's unread records stay in one log, in original order. */
  lemma {:induction false} ChainKeepsKeys(names: Names, logs: seq<seq<Record>>, chain: seq<Epoch>,
                                          original: seq<Record>, key: string, h: nat)
    requires PossibleChain(names, logs, chain) && AtHome(logs, original, key, h)
    ensures forall e | e in chain :: e.threads > 0
    ensures AtHome(AfterChain(names, logs, chain), original, key, HomeAfter(names, chain, key, h))
    decreases |chain|
  {
    PossibleThreads(names, logs, chain);
    if chain != [] {
      var next, home := Redispatch(names, logs, chain[0]), Home(names, chain[0].threads, key);
      assert AtHome(next, original, key, home) by {
        RedispatchAtHome(names, logs, chain[0], original, key, h);
      }
      ChainKeepsKeys(names, next, chain[1..], original, key, home);
      HomeAfterRest(names, chain, key, h);
      assert AfterChain(names, logs, chain) == AfterChain(names, next, chain[1..]);
    }
  }

  /** Each step of a chain conserves the unread records, with their number of occurrences. */
  lemma RedispatchConserves(names: Names, logs: seq<seq<Record>>, e: Epoch)
    requires Possible(logs, e)
    ensures Merge(Redispatch(names, logs, e)) == Merge(Drop(logs, e.handled))
  {
    PartsConserve(names, e.threads, Flat(Drop(logs, e.handled)));
    MergeIsFlat(Drop(logs, e.handled));
  }

  // ---------------------------------------------------------------- paths and stale flags

  lemma PartsPaths(names: Names, m: nat, rs: seq<Record>, p: Path)
    requires m > 0
    ensures p in Paths(names, rs) <==>
      exists i | 0 <= i < m :: p in Paths(names, Part(names, m, rs, i))
  {
    forall i: nat ensures forall r :: r in Part(names, m, rs, i) <==>
      r in rs && Home(names, m, Key(r)) == i
    {
      PartMembers(names, m, rs, i);
    }
    if p in Paths(names, rs) {
      var r :| r in rs && Touches(EffectOf(names, r)) && EffectOf(names, r).path == p;
      assert p in Paths(names, Part(names, m, rs, Home(names, m, Key(r))));
    }
  }

  /** A record lies in one of the first n of m new logs. */
  predicate Listed(names: Names, m: nat, rs: seq<Record>, n: nat, r: Record)
    requires m > 0
  {
    exists i | 0 <= i < n :: r in Part(names, m, rs, i)
  }

  lemma ListedIff(names: Names, m: nat, rs: seq<Record>, n: nat, r: Record)
    requires m > 0
    ensures Listed(names, m, rs, n, r) <==> r in rs && Home(names, m, Key(r)) < n
  {
    PartMembers(names, m, rs, Home(names, m, Key(r)));
    forall i | 0 <= i < n && r in Part(names, m, rs, i) ensures r in rs && Home(names, m, Key(r)) == i {
      PartMembers(names, m, rs, i);
    }
  }

  /** With more threads than before, a crash after the renames and before the flag is rewritten
      leaves a flag that lists only the first n logs: all records are still listed exactly when
      every key hashes below n. */
  lemma StaleFlagListsAllIff(names: Names, n: nat, m: nat, rs: seq<Record>)
    requires 0 < n < m
    ensures (forall r | r in rs :: Listed(names, m, rs, n, r))
       <==> (forall r | r in rs :: Home(names, m, Key(r)) < n)
  {
    forall r | r in rs ensures Listed(names, m, rs, n, r) <==> Home(names, m, Key(r)) < n {
      ListedIff(names, m, rs, n, r);
    }
  }
}
