/** A recovery log on disk and the byte offsets at which it can be resumed. */
module RecoveryLog {
  import opened Options
  import opened BinlogText
  import opened Replay

  function Size(names: Names, r: Record): nat {
    names.lineBytes(r) + 1
  }

  function Bytes(names: Names, rs: seq<Record>): nat {
    if rs == [] then 0 else Size(names, rs[0]) + Bytes(names, rs[1..])
  }

  /** The unread records at a byte offset; None when no record starts or ends there. */
  function Rest(names: Names, rs: seq<Record>, offset: int): Option<seq<Record>>
    decreases |rs|
  {
    if offset == 0 then Some(rs)
    else if rs == [] || offset < Size(names, rs[0]) then None
    else Rest(names, rs[1..], offset - Size(names, rs[0]))
  }

  /** Records that the recovery passes can write to a log and read back. */
  predicate Clean(names: Names, rs: seq<Record>) {
    forall r | r in rs :: Writable(r) && names.pathOf(r.name).Some?
  }

  lemma {:induction false} RestAdvances(names: Names, rs: seq<Record>, offset: int)
    requires Rest(names, rs, offset).Some? && Rest(names, rs, offset).value != []
    ensures var u := Rest(names, rs, offset).value;
            Rest(names, rs, offset + Size(names, u[0])) == Some(u[1..])
    decreases |rs|
  {
    if offset != 0 {
      var rest := offset - Size(names, rs[0]);
      assert Rest(names, rs, offset) == Rest(names, rs[1..], rest);
      RestAdvances(names, rs[1..], rest);
      var to := rest + Size(names, Rest(names, rs, offset).value[0]);
      assert Rest(names, rs, to + Size(names, rs[0])) == Rest(names, rs[1..], to);
    }
  }

  lemma {:induction false} RestIsSuffix(names: Names, rs: seq<Record>, offset: int)
    requires Rest(names, rs, offset).Some?
    ensures var u := Rest(names, rs, offset).value;
            |u| <= |rs| && u == rs[|rs| - |u|..] && offset == Bytes(names, rs[..|rs| - |u|])
    decreases |rs|
  {
    var u := Rest(names, rs, offset).value;
    if offset != 0 {
      RestIsSuffix(names, rs[1..], offset - Size(names, rs[0]));
      var k := |rs| - |u|;
      assert rs[1..][..k - 1] == rs[..k][1..];
      assert rs[1..][k - 1..] == rs[k..];
    }
  }

  /** The line lengths are those of the text format. */
  ghost predicate PrintsLines(names: Names) {
    forall r :: names.lineBytes(r) == |Line(r)|
  }

  lemma {:induction false} BytesAreText(names: Names, rs: seq<Record>)
    requires PrintsLines(names)
    ensures Bytes(names, rs) == |Text(rs)|
  {
    if rs != [] {
      BytesAreText(names, rs[1..]);
      MappedConcat(Line, rs, []);
    }
  }

  lemma ResumeAt(names: Names, done: seq<Record>, unread: seq<Record>)
    requires PrintsLines(names) && AllWritable(unread)
    ensures Bytes(names, done) <= |Text(done + unread)|
    ensures ReadFrom(Text(done + unread), Bytes(names, done)) == Some(unread)
  {
    BytesAreText(names, done);
    ReadBack(done, unread);
  }

  /** Resuming the written file at a saved offset yields exactly the unread records. */
  lemma ResumeReadsRest(names: Names, rs: seq<Record>, offset: nat)
    requires PrintsLines(names) && AllWritable(rs)
    requires Rest(names, rs, offset).Some?
    ensures offset <= |Text(rs)|
    ensures ReadFrom(Text(rs), offset) == Rest(names, rs, offset)
  {
    var u := Rest(names, rs, offset).value;
    RestIsSuffix(names, rs, offset);
    var done := rs[..|rs| - |u|];
    assert rs == done + u;
    ResumeAt(names, done, u);
  }
}
