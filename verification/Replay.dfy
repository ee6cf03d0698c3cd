/** What replaying a recovery binlog does to the files of a store path. */
module Replay {
  import opened Options
  import opened BinlogText

  /** A data file: the store path it lies in and its name below that path's data directory. */
  datatype Path = Path(store: nat, rel: string)

  datatype TrunkId = TrunkId(high: nat, low: nat, id: nat)

  /** What the shared name-handling code computes from names and records:
      - pathOf: storage_split_filename_ex, None when it rejects the name
      - isTrunk: fdfs_is_trunk_file
      - trunkOf: fdfs_decode_trunk_info, None when it rejects the name
      - trunkPath: trunk_get_full_filename
      - logicName: the logical name that the peer prints for a link target
      - hash: Time33Hash read as an unsigned integer
      - lineBytes: the length of a record's line without its newline */
  datatype Names = Names(
    pathOf: string -> Option<Path>,
    isTrunk: string -> bool,
    trunkOf: string -> Option<TrunkId>,
    trunkPath: (nat, TrunkId) -> Path,
    logicName: Path -> string,
    hash: string -> nat,
    lineBytes: Record -> nat)

  datatype Node = File(content: seq<bv8>) | Link(target: Path)

  type Files = map<Path, Node>

  /** The effect of one record. `Stop` ends the thread with an error. */
  datatype Effect = FileAt(path: Path) | LinkAt(path: Path, target: Path) | Nothing | Stop

  function EffectOf(names: Names, r: Record): Effect {
    var own := names.pathOf(r.name);
    if own.None? then Stop
    else if IsCreateFile(r.op) then
      if !names.isTrunk(r.name) then FileAt(own.value)
      else match names.trunkOf(r.name)
        case None => Nothing
        case Some(t) => FileAt(names.trunkPath(own.value.store, t))
    else if IsCreateLink(r.op) && r.src != "" && names.pathOf(r.src).Some? then
      LinkAt(own.value, names.pathOf(r.src).value)
    else Stop
  }

  predicate Touches(e: Effect) {
    e.FileAt? || e.LinkAt?
  }

  /** A file is set from the peer if the peer has it; a link is made if nothing is there. */
  function Apply(source: Files, e: Effect, files: Files): Files {
    match e
    case FileAt(p) => if p in source && source[p].File? then files[p := source[p]] else files
    case LinkAt(p, q) => if p in files then files else files[p := Link(q)]
    case _ => files
  }

  /** One uninterrupted replay of a log. */
  function Replayed(names: Names, source: Files, rs: seq<Record>, files: Files): Files {
    if rs == [] then files
    else Replayed(names, source, rs[1..], Apply(source, EffectOf(names, rs[0]), files))
  }

  /** The record names a node of the peer by its own kind. */
  predicate Agrees(names: Names, source: Files, r: Record) {
    match EffectOf(names, r)
    case FileAt(p) => p in source ==> source[p].File?
    case LinkAt(p, q) => p in source && source[p] == Link(q)
    case Nothing => true
    case Stop => false
  }

  predicate Sound(names: Names, source: Files, rs: seq<Record>) {
    forall r | r in rs :: Agrees(names, source, r)
  }

  /** The paths that a log restores. */
  function Paths(names: Names, rs: seq<Record>): set<Path> {
    set r | r in rs && Touches(EffectOf(names, r)) :: EffectOf(names, r).path
  }

  /** `base` with the paths of `goal` brought over from the peer. */
  function Restored(source: Files, goal: set<Path>, base: Files): Files {
    map p | p in base.Keys + goal * source.Keys ::
      if p in goal && p in source && (source[p].File? || p !in base) then source[p] else base[p]
  }

  function Lookup(files: Files, p: Path): Option<Node> {
    if p in files then Some(files[p]) else None
  }

  /** Equal on every path means equal. */
  lemma SameFiles(a: Files, b: Files)
    requires forall p :: Lookup(a, p) == Lookup(b, p)
    ensures a == b
  {
    forall p ensures p in a <==> p in b {
      assert Lookup(a, p) == Lookup(b, p);
    }
    forall p | p in a ensures a[p] == b[p] {
      assert Lookup(a, p) == Lookup(b, p);
    }
  }

  lemma PathsSplit(names: Names, rs: seq<Record>)
    requires rs != []
    ensures Paths(names, rs) == Paths(names, rs[..1]) + Paths(names, rs[1..])
    ensures Paths(names, rs[..1]) ==
      if Touches(EffectOf(names, rs[0])) then {EffectOf(names, rs[0]).path} else {}
  {
    assert forall r :: r in rs <==> r == rs[0] || r in rs[1..];
    assert rs[..1] == [rs[0]];
  }

  lemma RestoredAfterApply(names: Names, source: Files, r: Record, goal: set<Path>, base: Files)
    requires Agrees(names, source, r)
    ensures Restored(source, goal, Apply(source, EffectOf(names, r), base))
         == Restored(source, goal + Paths(names, [r]), base)
  {
    PathsSplit(names, [r]);
    SameFiles(Restored(source, goal, Apply(source, EffectOf(names, r), base)),
              Restored(source, goal + Paths(names, [r]), base));
  }

  /** Replay in order reaches a state that only the set of restored paths decides. */
  lemma {:induction false} ReplayRestores(names: Names, source: Files, rs: seq<Record>, base: Files)
    requires Sound(names, source, rs)
    ensures Replayed(names, source, rs, base) == Restored(source, Paths(names, rs), base)
    decreases |rs|
  {
    if rs == [] {
      SameFiles(base, Restored(source, {}, base));
    } else {
      var next := Apply(source, EffectOf(names, rs[0]), base);
      ReplayRestores(names, source, rs[1..], next);
      RestoredAfterApply(names, source, rs[0], Paths(names, rs[1..]), base);
      PathsSplit(names, rs);
      assert rs[..1] == [rs[0]];
      assert Paths(names, rs) == Paths(names, rs[1..]) + Paths(names, [rs[0]]);
    }
  }

  /** Confluence: order and repetition of sound records do not matter. */
  lemma ReplayConfluent(names: Names, source: Files, rs: seq<Record>, us: seq<Record>, base: Files)
    requires Sound(names, source, rs) && Sound(names, source, us)
    requires forall r :: r in rs <==> r in us
    ensures Replayed(names, source, rs, base) == Replayed(names, source, us, base)
  {
    ReplayRestores(names, source, rs, base);
    ReplayRestores(names, source, us, base);
    assert Paths(names, rs) == Paths(names, us);
  }

  /** What a reader of the restored store path finds for each record of the log. */
  lemma RestoredRecord(names: Names, source: Files, rs: seq<Record>, base: Files, r: Record)
    requires Sound(names, source, rs) && r in rs
    ensures var e := EffectOf(names, r);
            var files := Restored(source, Paths(names, rs), base);
            && (e.FileAt? && e.path in source ==> e.path in files && files[e.path] == source[e.path])
            && (e.LinkAt? ==> e.path in files)
            && (e.LinkAt? && e.path !in base ==> files[e.path] == Link(e.target))
  {
    assert Agrees(names, source, r);
  }
}
