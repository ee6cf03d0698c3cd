/** Choosing a tracker: round robin with failover, and its fairness over many calls. */
module RoundRobin {
  import opened Options
  import opened Sequences

  function Range(low: nat, high: nat): seq<nat>
    requires low <= high
  {
    seq(high - low, k requires 0 <= k < high - low => low + k)
  }

  /** The servers in the cyclic order that starts at i. */
  function Order(n: nat, i: nat): seq<nat>
    requires i <= n
  {
    Range(i, n) + Range(0, i)
  }

  /** The reachable ones among some servers. */
  function Ups(up: seq<bool>, s: seq<nat>): seq<nat> {
    if s == [] then [] else (if s[0] < |up| && up[s[0]] then [s[0]] else []) + Ups(up, s[1..])
  }

  /** Where a call starts: an index out of range counts as 0. */
  function StartOf(n: nat, index: nat): nat {
    if index >= n then 0 else index
  }

  /** The next server, modulo n. */
  function After(n: nat, c: nat): (d: nat)
    requires n > 0
    ensures d < n
  {
    if c + 1 >= n then 0 else c + 1
  }

  /** The server that a call from i connects to. */
  function Choice(up: seq<bool>, i: nat): Option<nat>
    requires i <= |up|
  {
    var all := Ups(up, Order(|up|, i));
    if all == [] then None else Some(all[0])
  }

  class TrackerGroup {
    const n: nat
    var serverIndex: nat

    constructor (n: nat, serverIndex: nat)
      ensures this.n == n && this.serverIndex == serverIndex
    {
      this.n, this.serverIndex := n, serverIndex;
    }

    /** One of the two failover loops: tries the servers from low to high. */
    method TryRange(up: seq<bool>, low: nat, high: nat) returns (conn: Option<nat>, tried: seq<nat>)
      requires |up| == n && low <= high <= n
      modifies this
      ensures conn.None? ==> tried == Range(low, high) && Ups(up, tried) == [] && serverIndex == old(serverIndex)
      ensures conn.Some? ==> low <= conn.value < high && up[conn.value] && serverIndex == conn.value
      ensures conn.Some? ==> tried == Range(low, conn.value) + [conn.value] && Ups(up, Range(low, conn.value)) == []
    {
      conn, tried := None, [];
      var p := low;
      while p < high
        invariant low <= p <= high && tried == Range(low, p) && Ups(up, tried) == []
        invariant serverIndex == old(serverIndex) && conn.None?
      {
        tried := tried + [p];
        if up[p] {
          serverIndex := p;
          return Some(p), tried;
        }
        UpsConcat(up, Range(low, p), [p]);
        p := p + 1;
      }
    }

    /** All servers in cyclic order until one accepts; the index moves to it unless it is the first. */
    method Search(up: seq<bool>, index: nat) returns (conn: Option<nat>, tried: seq<nat>)
      requires |up| == n && index < n
      modifies this
      ensures conn == Choice(up, index) && tried <= Order(n, index)
      ensures conn.None? ==> tried == Order(n, index) && serverIndex == old(serverIndex)
      ensures conn.Some? ==> conn.value < n && tried != [] && tried[|tried| - 1] == conn.value
      ensures conn.Some? ==> Ups(up, tried) == [conn.value]
      ensures conn.Some? ==> serverIndex == if conn.value == index then old(serverIndex) else conn.value
    {
      assert Range(index, index) == [];
      if up[index] {
        FoundRight(up, index, index);
        return Some(index), Range(index, index) + [index];
      }
      assert Ups(up, [index]) == [];
      var right, left;
      conn, right := TryRange(up, index + 1, n);
      tried := [index] + right;
      if conn.Some? {
        UpsConcat(up, [index], Range(index + 1, conn.value));
        RangeAt(index, conn.value);
        Regroup([index], Range(index + 1, conn.value), [conn.value]);
        FoundRight(up, index, conn.value);
        return;
      }
      RangeAt(index, n);
      UpsConcat(up, [index], right);
      conn, left := TryRange(up, 0, index);
      tried := tried + left;
      if conn.Some? {
        Regroup(Range(index, n), Range(0, conn.value), [conn.value]);
        FoundLeft(up, index, conn.value);
      } else {
        UpsConcat(up, Range(index, n), left);
      }
    }

    /** tracker_get_connection_ex, tracker_get_connection_no_pool and tracker_get_connection_r_ex, which
        differ only in how a connection is made. `up` says which servers accept one during this call. */
    method GetConnection(up: seq<bool>) returns (conn: Option<nat>, tried: seq<nat>)
      requires |up| == n > 0
      modifies this
      ensures conn == Choice(up, StartOf(n, old(serverIndex)))
      ensures tried <= Order(n, StartOf(n, old(serverIndex)))
      ensures conn.None? ==> tried == Order(n, StartOf(n, old(serverIndex)))
      ensures conn.Some? ==> tried != [] && tried[|tried| - 1] == conn.value && Ups(up, tried) == [conn.value]
      ensures old(serverIndex) < n ==>
        serverIndex == After(n, if conn.Some? then conn.value else old(serverIndex))
      ensures old(serverIndex) >= n ==>
        serverIndex == if conn.Some? && conn.value != 0 then After(n, conn.value) else 0
      ensures serverIndex < n
    {
      var index := if serverIndex >= n then 0 else serverIndex;
      conn, tried := Search(up, index);
      serverIndex := serverIndex + 1;
      if serverIndex >= n {
        serverIndex := 0;
      }
    }
  }

  /** A client that asks for k connections in turn. */
  method Calls(group: TrackerGroup, up: seq<bool>, k: nat) returns (picked: seq<nat>)
    requires |up| == group.n && group.serverIndex < group.n && Choice(up, group.serverIndex).Some?
    modifies group
    ensures picked == Picks(up, old(group.serverIndex), k)
  {
    picked := [];
    ghost var i := group.serverIndex;
    for j := 0 to k
      invariant group.serverIndex < group.n && Choice(up, group.serverIndex).Some?
      invariant picked + Picks(up, group.serverIndex, k - j) == Picks(up, i, k)
    {
      ChoiceIsUp(up, group.serverIndex);
      NextStarts(up, group.serverIndex);
      ghost var c := Choice(up, group.serverIndex).value;
      Regroup(picked, [c], Picks(up, After(group.n, c), k - j - 1));
      var conn, _ := group.GetConnection(up);
      picked := picked + [conn.value];
    }
  }

  lemma {:induction false} UpsConcat(up: seq<bool>, a: seq<nat>, b: seq<nat>)
    ensures Ups(up, a + b) == Ups(up, a) + Ups(up, b)
  {
    if a == [] {
      assert a + b == b;
    } else {
      assert (a + b)[1..] == a[1..] + b;
      UpsConcat(up, a[1..], b);
    }
  }

  lemma Chosen(up: seq<bool>, before: seq<nat>, c: nat, after: seq<nat>)
    requires c < |up| && up[c] && Ups(up, before) == []
    ensures Ups(up, before + [c] + after) == [c] + Ups(up, after)
    ensures Ups(up, before + [c]) == [c]
  {
    UpsConcat(up, before, [c]);
    UpsConcat(up, before + [c], after);
  }

  lemma RangeSplit(a: nat, b: nat, c: nat)
    requires a <= b <= c
    ensures Range(a, c) == Range(a, b) + Range(b, c)
  {
  }

  lemma RangeAt(a: nat, b: nat)
    requires a < b
    ensures Range(a, b) == [a] + Range(a + 1, b)
  {
  }

  /** The first reachable server of a cyclic order is the choice. */
  lemma FoundIn(up: seq<bool>, i: nat, before: seq<nat>, c: nat, after: seq<nat>)
    requires i <= |up| && Order(|up|, i) == before + [c] + after
    requires c < |up| && up[c] && Ups(up, before) == []
    ensures Choice(up, i) == Some(c) && before + [c] <= Order(|up|, i) && Ups(up, before + [c]) == [c]
  {
    Chosen(up, before, c, after);
  }

  lemma FoundRight(up: seq<bool>, i: nat, c: nat)
    requires i <= c < |up| && up[c] && Ups(up, Range(i, c)) == []
    ensures var tried := Range(i, c) + [c];
      Choice(up, i) == Some(c) && tried <= Order(|up|, i) && Ups(up, tried) == [c]
  {
    RangeSplit(i, c, |up|);
    RangeAt(c, |up|);
    Regroup(Range(i, c), [c], Range(c + 1, |up|));
    Regroup(Range(i, c) + [c], Range(c + 1, |up|), Range(0, i));
    FoundIn(up, i, Range(i, c), c, Range(c + 1, |up|) + Range(0, i));
  }

  lemma FoundLeft(up: seq<bool>, i: nat, c: nat)
    requires c < i <= |up| && up[c] && Ups(up, Range(i, |up|)) == [] && Ups(up, Range(0, c)) == []
    ensures var tried := Range(i, |up|) + Range(0, c) + [c];
      Choice(up, i) == Some(c) && tried <= Order(|up|, i) && Ups(up, tried) == [c]
  {
    RangeSplit(0, c, i);
    RangeAt(c, i);
    var first := Range(i, |up|);
    UpsConcat(up, first, Range(0, c));
    Regroup(first, Range(0, c), [c] + Range(c + 1, i));
    Regroup(first + Range(0, c), [c], Range(c + 1, i));
    FoundIn(up, i, first + Range(0, c), c, Range(c + 1, i));
  }

  // ---------------------------------------------------------------- many calls

  /** The servers that the next k calls from index i connect to, while reachability stays the same. */
  function Picks(up: seq<bool>, i: nat, k: nat): seq<nat>
    requires i < |up| && Choice(up, i).Some?
    decreases k
  {
    if k == 0 then [] else
    var c := Choice(up, i).value;
    ChoiceIsUp(up, i);
    NextStarts(up, i);
    [c] + Picks(up, After(|up|, c), k - 1)
  }

  lemma {:induction false} UpsMembers(up: seq<bool>, s: seq<nat>)
    ensures forall c :: c in Ups(up, s) <==> c in s && c < |up| && up[c]
  {
    if s != [] {
      UpsMembers(up, s[1..]);
    }
  }

  lemma ChoiceIsUp(up: seq<bool>, i: nat)
    requires i <= |up| && Choice(up, i).Some?
    ensures Choice(up, i).value < |up| && up[Choice(up, i).value]
  {
    UpsMembers(up, Order(|up|, i));
    assert Ups(up, Order(|up|, i))[0] in Ups(up, Order(|up|, i));
  }

  /** The call after a call to c sees the remaining servers first and c last. */
  lemma NextStarts(up: seq<bool>, i: nat)
    requires i < |up| && Choice(up, i).Some?
    ensures var all := Ups(up, Order(|up|, i)); var next := After(|up|, Choice(up, i).value);
      && Ups(up, Order(|up|, next)) == all[1..] + [all[0]]
      && Choice(up, next).Some?
  {
    ChoiceIsUp(up, i);
    var o, c := Order(|up|, i), Choice(up, i).value;
    var j := FirstUp(up, o);
    OrderAt(|up|, i, j);
    Rotated(|up|, i, j);
    AroundChoice(up, o, j);
  }

  lemma AroundChoice(up: seq<bool>, o: seq<nat>, j: nat)
    requires j < |o| && o[j] < |up| && up[o[j]] && Ups(up, o[..j]) == []
    ensures var all := Ups(up, o);
      all != [] && all[0] == o[j] && Ups(up, o[j + 1..] + o[..j] + [o[j]]) == all[1..] + [o[j]]
  {
    var before, c, after := o[..j], o[j], o[j + 1..];
    assert o == before + [c] + after;
    Chosen(up, before, c, after);
    RotatedUps(up, before, c, after);
    assert ([c] + Ups(up, after))[1..] == Ups(up, after);
  }

  lemma RotatedUps(up: seq<bool>, before: seq<nat>, c: nat, after: seq<nat>)
    requires c < |up| && up[c] && Ups(up, before) == []
    ensures Ups(up, after + before + [c]) == Ups(up, after) + [c]
  {
    UpsConcat(up, after + before, [c]);
    UpsConcat(up, after, before);
    assert Ups(up, [c]) == [c];
  }

  /** The position of the first reachable server. */
  lemma {:induction false} FirstUp(up: seq<bool>, s: seq<nat>) returns (j: nat)
    requires Ups(up, s) != []
    ensures j < |s| && s[j] == Ups(up, s)[0] && Ups(up, s[..j]) == []
  {
    if s[0] < |up| && up[s[0]] {
      j := 0;
    } else {
      j := FirstUp(up, s[1..]);
      j := j + 1;
      assert s[..j][1..] == s[1..][..j - 1];
    }
  }

  lemma OrderAt(n: nat, i: nat, j: nat)
    requires i < n && j < n
    ensures |Order(n, i)| == n && Order(n, i)[j] == if i + j < n then i + j else i + j - n
  {
  }

  lemma Rotated(n: nat, i: nat, j: nat)
    requires i < n && j < n
    ensures var o := Order(n, i); |o| == n && Order(n, After(n, o[j])) == o[j + 1..] + o[..j] + [o[j]]
  {
    var o := Order(n, i);
    OrderAt(n, i, j);
    var next := After(n, o[j]);
    var r := o[j + 1..] + o[..j] + [o[j]];
    forall k | 0 <= k < n ensures Order(n, next)[k] == r[k] {
      RotatedAt(n, i, j, k);
    }
    OrderAt(n, next, 0);
  }

  lemma RotatedAt(n: nat, i: nat, j: nat, k: nat)
    requires i < n && j < n && k < n && |Order(n, i)| == n
    ensures var o := Order(n, i);
      |Order(n, After(n, o[j]))| == n && Order(n, After(n, o[j]))[k] == (o[j + 1..] + o[..j] + [o[j]])[k]
  {
    var o := Order(n, i);
    OrderAt(n, i, j);
    OrderAt(n, After(n, o[j]), k);
    var at := if k < n - j - 1 then j + 1 + k else if k < n - 1 then k - (n - j - 1) else j;
    OrderAt(n, i, at);
    assert (o[j + 1..] + o[..j] + [o[j]])[k] == o[at];
  }

  /** Consecutive calls go through the reachable servers in cyclic order, one after the other. */
  lemma {:induction false} PicksCycle(up: seq<bool>, i: nat, k: nat)
    requires i < |up| && Choice(up, i).Some? && k <= |Ups(up, Order(|up|, i))|
    ensures Picks(up, i, k) == Ups(up, Order(|up|, i))[..k]
    decreases k
  {
    if k > 0 {
      var all := Ups(up, Order(|up|, i));
      NextStarts(up, i);
      ChoiceIsUp(up, i);
      PicksCycle(up, After(|up|, Choice(up, i).value), k - 1);
    }
  }

  lemma {:induction false} UpsOnce(up: seq<bool>, s: seq<nat>, c: nat)
    requires c < |up| && up[c] && multiset(s)[c] == 1
    ensures multiset(Ups(up, s))[c] == 1
  {
    assert s == [s[0]] + s[1..];
    if s[0] == c {
      UpsMembers(up, s[1..]);
      assert c !in s[1..];
    } else {
      UpsOnce(up, s[1..], c);
    }
  }

  lemma OrderOnce(n: nat, i: nat, c: nat)
    requires i < n && c < n
    ensures multiset(Order(n, i))[c] == 1
  {
    var o := Order(n, i);
    var j := if c >= i then c - i else c - i + n;
    OrderAt(n, i, j);
    assert o == o[..j] + [c] + o[j + 1..];
    forall k | 0 <= k < n && k != j ensures o[k] != c {
      OrderAt(n, i, k);
    }
    assert c !in o[..j] && c !in o[j + 1..];
  }

  /** Fairness: while reachability stays the same, as many calls as there are reachable servers use each
      of them exactly once and no other, from any index. */
  lemma FairRound(up: seq<bool>, i: nat, c: nat)
    requires i < |up| && Choice(up, i).Some? && c < |up|
    ensures multiset(Picks(up, i, |Ups(up, Order(|up|, i))|))[c] == if up[c] then 1 else 0
  {
    var all := Ups(up, Order(|up|, i));
    PicksCycle(up, i, |all|);
    assert all[..|all|] == all;
    if up[c] {
      OrderOnce(|up|, i, c);
      UpsOnce(up, Order(|up|, i), c);
    } else {
      UpsMembers(up, Order(|up|, i));
      assert c !in all;
    }
  }
}
