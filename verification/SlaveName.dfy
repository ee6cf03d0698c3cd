/** The name of a slave file, made from its master's name, a prefix and an extension. */
module SlaveName {
  import opened Options
  import opened Sequences

  const EXT_MAX := 6

  /** The first dot at or after `from`, or |s|. */
  function DotFrom(s: string, from: nat): (i: nat)
    requires from <= |s|
    ensures from <= i <= |s| && (i < |s| ==> s[i] == '.')
    ensures forall k | from <= k < i :: s[k] != '.'
    decreases |s| - from
  {
    if from == |s| || s[from] == '.' then from else DotFrom(s, from + 1)
  }

  /** Where the extension of a master name starts: a dot among its last seven characters. */
  function MasterDot(master: string): nat
    requires |master| >= 28 + EXT_MAX
  {
    DotFrom(master, |master| - (EXT_MAX + 1))
  }

  function Shorten(ext: string): string {
    if |ext| > EXT_MAX + 1 then ext[..EXT_MAX + 1] else ext
  }

  /** The extension with its dot; without one given, the master's. */
  function TrueExt(master: string, ext: Option<string>): string
    requires |master| >= 28 + EXT_MAX
  {
    match ext
    case None => master[MasterDot(master)..]
    case Some(e) => if e == "" then "" else if e[0] == '.' then Shorten(e) else Shorten("." + e)
  }

  /** fdfs_gen_slave_filename; None is EINVAL. */
  function Generate(master: string, prefix: string, ext: Option<string>): Option<string> {
    if |master| < 28 + EXT_MAX then None else
    var dot := MasterDot(master);
    var trueExt := TrueExt(master, ext);
    if trueExt == "" && prefix == "-m" then None
    else if prefix == "" && trueExt == master[dot..] then None
    else Some(master[..dot] + prefix + trueExt)
  }

  lemma ExtStartsWithDot(master: string, ext: Option<string>)
    requires |master| >= 28 + EXT_MAX
    ensures TrueExt(master, ext) == "" || TrueExt(master, ext)[0] == '.'
  {
  }

  lemma SamePrefix(base: string, a: string, b: string)
    ensures base + a == base + b <==> a == b
  {
    if base + a == base + b {
      assert (base + a)[|base|..] == a && (base + b)[|base|..] == b;
    }
  }

  /** A slave file takes its master's name exactly when the prefix itself ends in the master's extension. */
  lemma TakesMastersNameIff(master: string, prefix: string, ext: Option<string>)
    requires Generate(master, prefix, ext).Some?
    ensures Generate(master, prefix, ext).value == master <==>
      prefix != "" && prefix + TrueExt(master, ext) == master[MasterDot(master)..]
  {
    var dot, e := MasterDot(master), TrueExt(master, ext);
    assert master == master[..dot] + master[dot..];
    assert master[..dot] + prefix + e == master[..dot] + (prefix + e);
    SamePrefix(master[..dot], prefix + e, master[dot..]);
    assert prefix == "" ==> prefix + e == e;
  }

  /** Such an input: the master's own extension as prefix, and an empty extension. */
  lemma ExtensionAsPrefix(stem: string)
    requires |stem| >= 30 && '.' !in stem
    ensures Generate(stem + ".jpg", ".jpg", Some("")) == Some(stem + ".jpg")
  {
    var master := stem + ".jpg";
    assert MasterDot(master) == |stem| by {
      assert master[|stem|] == '.';
    }
    assert master[|stem|..] == ".jpg" && master[..|stem|] == stem;
    TakesMastersNameIff(master, ".jpg", Some(""));
  }

  /** So a prefix without a dot never does. */
  lemma DotlessPrefixIsSafe(master: string, prefix: string, ext: Option<string>)
    requires Generate(master, prefix, ext).Some? && '.' !in prefix
    ensures Generate(master, prefix, ext).value != master
  {
    TakesMastersNameIff(master, prefix, ext);
    assert prefix != "" ==> (prefix + TrueExt(master, ext))[0] == prefix[0] != '.';
  }

  lemma GeneratedTail(master: string, prefix: string, ext: Option<string>)
    requires Generate(master, prefix, ext).Some?
    ensures Generate(master, prefix, ext).value == master[..MasterDot(master)] + (prefix + TrueExt(master, ext))
  {
    Regroup(master[..MasterDot(master)], prefix, TrueExt(master, ext));
  }

  /** A dotless prefix and an extension that starts with a dot can be told apart. */
  lemma TailsAreEqual(p: string, te: string, q: string, tf: string)
    requires p + te == q + tf && '.' !in p && '.' !in q
    requires (te == "" || te[0] == '.') && (tf == "" || tf[0] == '.')
    ensures p == q && te == tf
  {
    if |p| < |q| {
      DotInPrefix(p, te, q, tf);
    } else if |q| < |p| {
      DotInPrefix(q, tf, p, te);
    } else {
      assert (p + te)[..|p|] == p && (q + tf)[..|q|] == q;
      assert (p + te)[|p|..] == te && (q + tf)[|q|..] == tf;
    }
  }

  /** Slaves of one master with dotless prefixes share a name only if prefix and extension agree. */
  lemma SlavesAreDistinct(master: string, p: string, q: string, e: Option<string>, f: Option<string>)
    requires '.' !in p && '.' !in q
    requires Generate(master, p, e).Some? && Generate(master, q, f).Some?
    requires Generate(master, p, e) == Generate(master, q, f)
    ensures p == q && TrueExt(master, e) == TrueExt(master, f)
  {
    var te, tf := TrueExt(master, e), TrueExt(master, f);
    assert p + te == q + tf by {
      GeneratedTail(master, p, e);
      GeneratedTail(master, q, f);
      SamePrefix(master[..MasterDot(master)], p + te, q + tf);
    }
    ExtStartsWithDot(master, e);
    ExtStartsWithDot(master, f);
    TailsAreEqual(p, te, q, tf);
  }

  lemma DotInPrefix(p: string, te: string, q: string, tf: string)
    requires |p| < |q| && p + te == q + tf && '.' !in q
    ensures te != "" && te[0] != '.'
  {
    assert |p + te| == |q + tf|;
    assert (p + te)[|p|] == (q + tf)[|p|] == q[|p|];
    assert q[|p|] in q;
  }
}
