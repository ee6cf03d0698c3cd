/** The split pass: many records of files inside one trunk file become one record. */
module TrunkSplit {
  import opened Options
  import opened BinlogText
  import opened Replay
  import opened RecoveryLog

  /** The trunk file a record's file lies in, if its name says so and decodes. */
  function TrunkKey(names: Names, r: Record): Option<TrunkId> {
    if names.isTrunk(r.name) then names.trunkOf(r.name) else None
  }

  datatype Entry = Entry(key: TrunkId, record: Record)

  /** The order of the tree of trunk files: path bytes first, then the id. */
  predicate Less(a: TrunkId, b: TrunkId) {
    a.high < b.high || (a.high == b.high && (a.low < b.low || (a.low == b.low && a.id < b.id)))
  }

  ghost predicate Ascending(tree: seq<Entry>) {
    forall i, j | 0 <= i < j < |tree| :: Less(tree[i].key, tree[j].key)
  }

  predicate HasKey(tree: seq<Entry>, key: TrunkId) {
    exists e | e in tree :: e.key == key
  }

  function Insert(tree: seq<Entry>, e: Entry): seq<Entry> {
    if tree == [] || Less(e.key, tree[0].key) then [e] + tree
    else [tree[0]] + Insert(tree[1..], e)
  }

  function Add(names: Names, tree: seq<Entry>, r: Record): seq<Entry> {
    var key := TrunkKey(names, r);
    if key.None? || HasKey(tree, key.value) then tree
    else Insert(tree, Entry(key.value, r.(src := "")))
  }

  function Collect(names: Names, rs: seq<Record>): seq<Entry> {
    if rs == [] then []
    else Add(names, Collect(names, rs[..|rs| - 1]), rs[|rs| - 1])
  }

  function Plain(names: Names, rs: seq<Record>): seq<Record> {
    if rs == [] then []
    else Plain(names, rs[..|rs| - 1]) +
         (if names.isTrunk(rs[|rs| - 1].name) then [] else [rs[|rs| - 1]])
  }

  function Walk(tree: seq<Entry>): seq<Record> {
    seq(|tree|, i requires 0 <= i < |tree| => tree[i].record)
  }

  /** The log after the split. */
  function Split(names: Names, rs: seq<Record>): seq<Record> {
    Plain(names, rs) + Walk(Collect(names, rs))
  }

  const EINTR := 4

  /** What ends the pass early: an error at record `at` (reading it, or writing it or taking it into the tree),
      where an error at |log| is one at the end of the log or after it; or a stop request. */
  datatype SplitFault = NoSplitFault | ErrorAt(at: nat, error: int) | StopAt(at: nat)

  /** The pass itself: one read of the log, plain records copied, trunk files collected. Only a pass without
      error replaces the log. */
  method SplitTrunkBinlog(names: Names, log: seq<Record>, fault: SplitFault) returns (result: int, out: seq<Record>)
    requires fault.ErrorAt? ==> fault.error != 0
    ensures result == 0 <==> fault.NoSplitFault? || fault.at > |log|
    ensures out == if result == 0 then Split(names, log) else log
  {
    var tmp := [];
    var tree := [];
    var i := 0;
    while i < |log|
      invariant 0 <= i <= |log| && (!fault.NoSplitFault? ==> i <= fault.at)
      invariant tmp == Plain(names, log[..i])
      invariant tree == Collect(names, log[..i])
    {
      if !fault.NoSplitFault? && fault.at == i {
        return if fault.ErrorAt? then fault.error else EINTR, log;
      }
      var record := log[i];
      assert log[..i + 1][..i] == log[..i];
      if names.isTrunk(record.name) {
        var key := names.trunkOf(record.name);
        if key.Some? && !HasKey(tree, key.value) {
          tree := Insert(tree, Entry(key.value, record.(src := "")));
        }
      } else {
        tmp := tmp + [record];
      }
      i := i + 1;
    }
    assert log[..i] == log;
    if !fault.NoSplitFault? && fault.at == i {
      return if fault.ErrorAt? then fault.error else EINTR, log;
    }
    result, out := 0, tmp + Walk(tree);
  }

  lemma {:induction false} InsertKeeps(tree: seq<Entry>, e: Entry)
    requires Ascending(tree) && !HasKey(tree, e.key)
    ensures forall x :: x in Insert(tree, e) <==> x in tree || x == e
    ensures Ascending(Insert(tree, e))
  {
    if tree == [] || Less(e.key, tree[0].key) {
    } else {
      assert forall x :: x in tree <==> x == tree[0] || x in tree[1..];
      InsertKeeps(tree[1..], e);
      var out := Insert(tree[1..], e);
      forall j | 0 <= j < |out| ensures Less(tree[0].key, out[j].key) {
        assert out[j] in out;
      }
    }
  }

  /** The first record of a log that lies in a given trunk file. */
  function First(names: Names, rs: seq<Record>, key: TrunkId): Option<Record> {
    if rs == [] then None else
    var earlier := First(names, rs[..|rs| - 1], key);
    if earlier.Some? then earlier
    else if TrunkKey(names, rs[|rs| - 1]) == Some(key) then Some(rs[|rs| - 1]) else None
  }

  /** The collected entries are, in key order, the first record of every trunk file. */
  lemma {:induction false} CollectIsFirst(names: Names, rs: seq<Record>)
    ensures Ascending(Collect(names, rs))
    ensures forall e :: e in Collect(names, rs) <==>
      First(names, rs, e.key).Some? && e.record == First(names, rs, e.key).value.(src := "")
  {
    if rs != [] {
      var init, last := rs[..|rs| - 1], rs[|rs| - 1];
      CollectIsFirst(names, init);
      var key := TrunkKey(names, last);
      if key.Some? {
        assert HasKey(Collect(names, init), key.value) <==> First(names, init, key.value).Some? by {
          if First(names, init, key.value).Some? {
            var e := Entry(key.value, First(names, init, key.value).value.(src := ""));
            assert e in Collect(names, init);
          }
        }
        if First(names, init, key.value).None? {
          InsertKeeps(Collect(names, init), Entry(key.value, last.(src := "")));
        }
      }
    }
  }

  lemma {:induction false} FirstExists(names: Names, rs: seq<Record>, key: TrunkId)
    ensures First(names, rs, key).Some? <==> exists r | r in rs :: TrunkKey(names, r) == Some(key)
    ensures First(names, rs, key).Some? ==>
      First(names, rs, key).value in rs && TrunkKey(names, First(names, rs, key).value) == Some(key)
  {
    if rs != [] {
      FirstExists(names, rs[..|rs| - 1], key);
      assert forall r :: r in rs <==> r in rs[..|rs| - 1] || r == rs[|rs| - 1];
    }
  }

  lemma {:induction false} PlainIsFilter(names: Names, rs: seq<Record>)
    ensures forall r :: r in Plain(names, rs) <==> r in rs && !names.isTrunk(r.name)
  {
    if rs != [] {
      PlainIsFilter(names, rs[..|rs| - 1]);
      assert forall r :: r in rs <==> r in rs[..|rs| - 1] || r == rs[|rs| - 1];
    }
  }

  lemma WalkIsRecords(tree: seq<Entry>)
    ensures forall r :: r in Walk(tree) <==> exists e | e in tree :: e.record == r
  {
    forall e | e in tree ensures e.record in Walk(tree) {
      var i :| 0 <= i < |tree| && tree[i] == e;
      assert Walk(tree)[i] == e.record;
    }
  }

  /** A log as the peer prints it for one store path. */
  predicate OfStore(names: Names, store: nat, rs: seq<Record>) {
    forall r | r in rs ::
      && names.pathOf(r.name).Some? && names.pathOf(r.name).value.store == store
      && (names.isTrunk(r.name) ==> IsCreateFile(r.op) && r.src == "")
  }

  /** Every record after the split stands in the log, and none of another trunk file is missing. */
  lemma SplitContents(names: Names, store: nat, rs: seq<Record>)
    requires OfStore(names, store, rs)
    ensures forall r | r in Split(names, rs) :: r in rs
    ensures forall r | r in rs && !names.isTrunk(r.name) :: r in Split(names, rs)
    ensures forall r | r in rs && TrunkKey(names, r).Some? ::
      exists s | s in Split(names, rs) :: TrunkKey(names, s) == TrunkKey(names, r)
  {
    PlainIsFilter(names, rs);
    CollectIsFirst(names, rs);
    var tree := Collect(names, rs);
    WalkIsRecords(tree);
    forall e | e in tree ensures e.record in rs && TrunkKey(names, e.record) == Some(e.key) {
      FirstExists(names, rs, e.key);
    }
    forall r | r in rs && TrunkKey(names, r).Some?
      ensures exists s | s in Split(names, rs) :: TrunkKey(names, s) == TrunkKey(names, r)
    {
      var key := TrunkKey(names, r).value;
      FirstExists(names, rs, key);
      var e := Entry(key, First(names, rs, key).value.(src := ""));
      assert e in tree && e.record in Walk(tree);
    }
  }

  lemma SameTrunkSameEffect(names: Names, store: nat, rs: seq<Record>, r: Record, s: Record)
    requires OfStore(names, store, rs) && r in rs && s in rs
    requires TrunkKey(names, r).Some? && TrunkKey(names, s) == TrunkKey(names, r)
    ensures EffectOf(names, s) == EffectOf(names, r)
  {
  }

  lemma PathsGrow(names: Names, rs: seq<Record>, us: seq<Record>)
    requires forall r | r in rs && Touches(EffectOf(names, r)) ::
      exists s | s in us :: EffectOf(names, s) == EffectOf(names, r)
    ensures Paths(names, rs) <= Paths(names, us)
  {
  }

  /** The split keeps the meaning of the log: the same paths, hence the same replay. */
  lemma SplitKeepsPaths(names: Names, source: Files, store: nat, rs: seq<Record>)
    requires OfStore(names, store, rs) && Sound(names, source, rs)
    ensures Paths(names, Split(names, rs)) == Paths(names, rs)
    ensures Sound(names, source, Split(names, rs))
  {
    SplitContents(names, store, rs);
    var us := Split(names, rs);
    forall r | r in rs && Touches(EffectOf(names, r))
      ensures exists s | s in us :: EffectOf(names, s) == EffectOf(names, r)
    {
      if names.isTrunk(r.name) {
        var s :| s in us && TrunkKey(names, s) == TrunkKey(names, r);
        SameTrunkSameEffect(names, store, rs, r, s);
      }
    }
    PathsGrow(names, rs, us);
    PathsGrow(names, us, rs);
  }

  lemma SplitKeepsReplay(names: Names, source: Files, store: nat, rs: seq<Record>, base: Files)
    requires OfStore(names, store, rs) && Sound(names, source, rs)
    ensures Replayed(names, source, Split(names, rs), base) == Replayed(names, source, rs, base)
  {
    SplitKeepsPaths(names, source, store, rs);
    ReplayRestores(names, source, rs, base);
    ReplayRestores(names, source, Split(names, rs), base);
  }
}
