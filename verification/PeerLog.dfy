/** How the peer prints its binlog for one store path, and why the printed log is sound. */
module PeerLog {
  import opened Options
  import opened BinlogText
  import opened Replay
  import opened RecoveryLog
  import opened TrunkSplit

  predicate IsRename(op: char) {
    op == 'R' || op == 'r'
  }

  /** The operation without its kind: source operations are upper case. */
  function AsFile(op: char): char {
    if op == 'L' || op == 'R' then 'C' else if op == 'l' || op == 'r' then 'c' else op
  }

  function AsLink(op: char): char {
    if op == 'C' then 'L' else if op == 'c' then 'l' else op
  }

  /** The operation printed for a file whose node on the peer is known. */
  function PrintedOp(op: char, isLink: bool): char {
    if isLink && !IsRename(op) then AsLink(op) else AsFile(op)
  }

  /** One record of the peer's own binlog, as printed for a store path; None when left out. */
  function Emit(names: Names, store: nat, peer: Files, r: Record): Option<Record> {
    var own := names.pathOf(r.name);
    if own.None? || own.value.store != store || !(IsCreateFile(r.op) || TakesSource(r.op)) then None
    else if names.isTrunk(r.name) then Some(Record(r.timestamp, AsFile(r.op), r.name, ""))
    else if own.value !in peer then None
    else
      var node := peer[own.value];
      var op := PrintedOp(r.op, node.Link?);
      if IsCreateFile(op) then Some(Record(r.timestamp, op, r.name, ""))
      else if node.target !in peer then None
      else Some(Record(r.timestamp, op, r.name, names.logicName(node.target)))
  }

  function Fetched(names: Names, store: nat, peer: Files, log: seq<Record>): seq<Record> {
    if log == [] then [] else
    var first := Emit(names, store, peer, log[0]);
    (if first.Some? then [first.value] else []) + Fetched(names, store, peer, log[1..])
  }

  /** What a record must be like for its printed form to name a node of the peer by its kind and to survive
      being written to a log: a trunk file is no symbolic link; a symbolic link was not renamed, has no blank
      in its name, and the name printed for its target decodes to that target. */
  predicate Faithful(names: Names, store: nat, peer: Files, r: Record)
    requires Emit(names, store, peer, r).Some?
  {
    '\n' !in r.name &&
    if names.isTrunk(r.name) then
      match names.trunkOf(r.name)
      case None => true
      case Some(t) => names.trunkPath(store, t) in peer ==> peer[names.trunkPath(store, t)].File?
    else
      match peer[names.pathOf(r.name).value]
      case File(_) => true
      case Link(target) =>
        var src := names.logicName(target);
        !IsRename(r.op) && ' ' !in r.name && src != "" && '\n' !in src && names.pathOf(src) == Some(target)
  }

  /** The printed record can be fetched: it names a node by its kind, can be written, lies in the store path. */
  predicate Usable(names: Names, store: nat, peer: Files, e: Record) {
    Agrees(names, peer, e) && Clean(names, [e]) && OfStore(names, store, [e])
  }

  lemma EmitIsUsableIff(names: Names, store: nat, peer: Files, r: Record)
    requires Emit(names, store, peer, r).Some?
    ensures Usable(names, store, peer, Emit(names, store, peer, r).value) <==> Faithful(names, store, peer, r)
  {
    var e := Emit(names, store, peer, r).value;
    assert e in [e];
  }

  /** A printed log can be fetched, written and read back, stays in its store path and names every node by its
      kind, if and only if every record that is printed is faithful. */
  lemma {:induction false} FetchedIsSoundIff(names: Names, store: nat, peer: Files, log: seq<Record>)
    ensures var out := Fetched(names, store, peer, log);
      Sound(names, peer, out) && Clean(names, out) && OfStore(names, store, out) <==>
      forall r | r in log && Emit(names, store, peer, r).Some? :: Faithful(names, store, peer, r)
  {
    UsableEach(names, store, peer, Fetched(names, store, peer, log));
    FetchedMembers(names, store, peer, log);
    forall r | r in log && Emit(names, store, peer, r).Some?
      ensures Emit(names, store, peer, r).value in Fetched(names, store, peer, log)
      ensures Usable(names, store, peer, Emit(names, store, peer, r).value) <==> Faithful(names, store, peer, r)
    {
      EmitIsUsableIff(names, store, peer, r);
    }
  }

  lemma UsableEach(names: Names, store: nat, peer: Files, out: seq<Record>)
    ensures Sound(names, peer, out) && Clean(names, out) && OfStore(names, store, out) <==>
      forall e | e in out :: Usable(names, store, peer, e)
  {
    forall e | e in out && Usable(names, store, peer, e)
      ensures Writable(e) && names.pathOf(e.name).Some? && OfStore(names, store, [e])
    {
      assert e in [e];
    }
  }

  lemma {:induction false} FetchedMembers(names: Names, store: nat, peer: Files, log: seq<Record>)
    ensures forall e :: e in Fetched(names, store, peer, log) <==>
      exists r | r in log :: Emit(names, store, peer, r) == Some(e)
  {
    if log != [] {
      FetchedMembers(names, store, peer, log[1..]);
      assert forall r :: r in log <==> r == log[0] || r in log[1..];
    }
  }

  /** A rename record names a node by its kind exactly when that node is not a symbolic link. */
  lemma RenameIsSoundIff(names: Names, store: nat, peer: Files, r: Record)
    requires IsRename(r.op) && Emit(names, store, peer, r).Some?
    ensures Agrees(names, peer, Emit(names, store, peer, r).value) <==>
      if !names.isTrunk(r.name) then peer[names.pathOf(r.name).value].File?
      else names.trunkOf(r.name).Some? ==>
        var p := names.trunkPath(store, names.trunkOf(r.name).value);
        p in peer ==> peer[p].File?
  {
  }

  /** A rename record of a symbolic link is printed as a file: no log that holds one can be trusted. */
  lemma RenamedLinkIsUnsound(names: Names, store: nat, peer: Files, log: seq<Record>, r: Record, p: Path)
    requires r in log && IsRename(r.op) && !names.isTrunk(r.name)
    requires names.pathOf(r.name) == Some(p) && p.store == store && p in peer && peer[p].Link? && peer[p].target in peer
    ensures Emit(names, store, peer, r).Some? && IsCreateFile(Emit(names, store, peer, r).value.op)
    ensures !Agrees(names, peer, Emit(names, store, peer, r).value)
    ensures !Sound(names, peer, Fetched(names, store, peer, log))
  {
    FetchedMembers(names, store, peer, log);
    assert Emit(names, store, peer, r).value in Fetched(names, store, peer, log);
  }
}
