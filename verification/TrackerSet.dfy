/** The sorted, duplicate-free array of tracker servers built from the configuration. */
module TrackerSet {
  import opened Options

  /** A character of a C string: never the terminating zero. */
  type CChar = c: int | 0 < c < 256 witness 1

  datatype Connection = Connection(ip: seq<CChar>, port: nat)

  datatype Server = Server(connections: seq<Connection>)

  /** strcmp. */
  function StrCmp(a: seq<CChar>, b: seq<CChar>): int {
    if a == [] && b == [] then 0
    else if a == [] then 0 - b[0]
    else if b == [] then a[0]
    else if a[0] != b[0] then a[0] as int - b[0]
    else StrCmp(a[1..], b[1..])
  }

  /** storage_cmp_by_ip_and_port. */
  function CmpConnection(a: Connection, b: Connection): int {
    var res := StrCmp(a.ip, b.ip);
    if res != 0 then res else a.port - b.port
  }

  function CmpConnections(a: seq<Connection>, b: seq<Connection>): int
    requires |a| == |b|
  {
    if a == [] then 0 else
    var res := CmpConnection(a[0], b[0]);
    if res != 0 then res else CmpConnections(a[1..], b[1..])
  }

  /** storage_cmp_server_info. */
  function CmpServer(a: Server, b: Server): int {
    var res := |a.connections| - |b.connections|;
    if res != 0 then res else CmpConnections(a.connections, b.connections)
  }

  // ---------------------------------------------------------------- the comparator is a total order

  lemma {:induction false} StrCmpOrder(a: seq<CChar>, b: seq<CChar>)
    ensures StrCmp(a, b) == 0 <==> a == b
    ensures StrCmp(a, b) == -StrCmp(b, a)
  {
    if a != [] && b != [] && a[0] == b[0] {
      StrCmpOrder(a[1..], b[1..]);
      assert a == [a[0]] + a[1..] && b == [b[0]] + b[1..];
    }
  }

  lemma {:induction false} StrCmpChain(a: seq<CChar>, b: seq<CChar>, c: seq<CChar>)
    requires StrCmp(a, b) < 0 && StrCmp(b, c) < 0
    ensures StrCmp(a, c) < 0
  {
    if a != [] && b != [] && c != [] && a[0] == b[0] && b[0] == c[0] {
      StrCmpChain(a[1..], b[1..], c[1..]);
    }
  }

  lemma CmpConnectionOrder(a: Connection, b: Connection)
    ensures CmpConnection(a, b) == 0 <==> a == b
    ensures CmpConnection(a, b) == -CmpConnection(b, a)
  {
    StrCmpOrder(a.ip, b.ip);
  }

  lemma CmpConnectionChain(a: Connection, b: Connection, c: Connection)
    requires CmpConnection(a, b) < 0 && CmpConnection(b, c) < 0
    ensures CmpConnection(a, c) < 0
  {
    StrCmpOrder(a.ip, b.ip);
    StrCmpOrder(b.ip, c.ip);
    if StrCmp(a.ip, b.ip) < 0 && StrCmp(b.ip, c.ip) < 0 {
      StrCmpChain(a.ip, b.ip, c.ip);
    }
  }

  lemma {:induction false} CmpConnectionsOrder(a: seq<Connection>, b: seq<Connection>)
    requires |a| == |b|
    ensures CmpConnections(a, b) == 0 <==> a == b
    ensures CmpConnections(a, b) == -CmpConnections(b, a)
  {
    if a != [] {
      CmpConnectionOrder(a[0], b[0]);
      CmpConnectionsOrder(a[1..], b[1..]);
      assert a == [a[0]] + a[1..] && b == [b[0]] + b[1..];
    }
  }

  lemma {:induction false} CmpConnectionsChain(a: seq<Connection>, b: seq<Connection>, c: seq<Connection>)
    requires |a| == |b| == |c| && CmpConnections(a, b) < 0 && CmpConnections(b, c) < 0
    ensures CmpConnections(a, c) < 0
  {
    CmpConnectionOrder(a[0], b[0]);
    CmpConnectionOrder(b[0], c[0]);
    if CmpConnection(a[0], b[0]) != 0 && CmpConnection(b[0], c[0]) != 0 {
      CmpConnectionChain(a[0], b[0], c[0]);
    } else if a[0] == b[0] == c[0] {
      CmpConnectionsChain(a[1..], b[1..], c[1..]);
    }
  }

  /** Zero means equal, and exchanging the arguments changes the sign. */
  lemma CmpServerOrder(a: Server, b: Server)
    ensures CmpServer(a, b) == 0 <==> a == b
    ensures CmpServer(a, b) == -CmpServer(b, a)
  {
    if |a.connections| == |b.connections| {
      CmpConnectionsOrder(a.connections, b.connections);
    }
  }

  lemma CmpServerChain(a: Server, b: Server, c: Server)
    requires CmpServer(a, b) < 0 && CmpServer(b, c) < 0
    ensures CmpServer(a, c) < 0
  {
    if |a.connections| == |b.connections| == |c.connections| {
      CmpConnectionsChain(a.connections, b.connections, c.connections);
    }
  }

  // ---------------------------------------------------------------- sorted insertion

  ghost predicate Sorted(s: seq<Server>) {
    forall i, j | 0 <= i < j < |s| :: CmpServer(s[i], s[j]) < 0
  }

  /** The sequence after an insertion that shifts from the end. */
  function Inserted(s: seq<Server>, x: Server): seq<Server> {
    if s == [] || CmpServer(x, s[|s| - 1]) > 0 then s + [x]
    else Inserted(s[..|s| - 1], x) + [s[|s| - 1]]
  }

  lemma {:induction false} InsertedAt(s: seq<Server>, x: Server, k: nat)
    requires k <= |s| && (k == 0 || CmpServer(x, s[k - 1]) > 0)
    requires forall i | k <= i < |s| :: CmpServer(x, s[i]) <= 0
    ensures Inserted(s, x) == s[..k] + [x] + s[k..]
    decreases |s|
  {
    if k < |s| {
      InsertedAt(s[..|s| - 1], x, k);
      assert s[..|s| - 1][..k] == s[..k];
      assert s[..|s| - 1][k..] + [s[|s| - 1]] == s[k..];
    }
  }

  lemma Spliced(t: seq<Server>, s: seq<Server>, x: Server, k: nat)
    requires k <= |s| && |t| == |s| + 1 && t[k] == x
    requires forall i | 0 <= i < k :: t[i] == s[i]
    requires forall i | k < i <= |s| :: t[i] == s[i - 1]
    ensures t == s[..k] + [x] + s[k..]
  {
  }

  lemma {:induction false} InsertedKeepsSorted(s: seq<Server>, x: Server)
    requires Sorted(s) && x !in s
    ensures |Inserted(s, x)| == |s| + 1 && Sorted(Inserted(s, x))
    ensures forall y :: y in Inserted(s, x) <==> y in s || y == x
  {
    if s == [] {
    } else if CmpServer(x, s[|s| - 1]) > 0 {
      var n := |s| - 1;
      CmpServerOrder(x, s[n]);
      forall i | 0 <= i < n ensures CmpServer(s[i], x) < 0 {
        CmpServerChain(s[i], s[n], x);
      }
    } else {
      var init, last := s[..|s| - 1], s[|s| - 1];
      InsertedKeepsSorted(init, x);
      CmpServerOrder(x, last);
      assert last in s;
      var out := Inserted(init, x);
      forall i | 0 <= i < |out| ensures CmpServer(out[i], last) < 0 {
        assert out[i] in out;
        assert out[i] == x || out[i] in init;
      }
      assert s == init + [last];
    }
  }

  class TrackerServerGroup {
    var servers: array<Server>
    var serverCount: nat

    constructor (servers: array<Server>)
      ensures this.servers == servers && serverCount == 0
    {
      this.servers, serverCount := servers, 0;
    }

    /** The loop of insert_into_sorted_servers: larger servers move up by one, in place. */
    method MakeRoom(inserted: Server) returns (dest: nat)
      requires serverCount < servers.Length
      modifies servers
      ensures dest <= serverCount
      ensures forall k | 0 <= k < dest :: servers[k] == old(servers[k])
      ensures forall k | dest < k <= serverCount :: servers[k] == old(servers[k - 1])
      ensures forall k | serverCount < k < servers.Length :: servers[k] == old(servers[k])
      ensures forall k | dest <= k < serverCount :: CmpServer(inserted, old(servers[k])) <= 0
      ensures dest > 0 ==> CmpServer(inserted, old(servers[dest - 1])) > 0
    {
      dest := serverCount;
      while dest > 0 && CmpServer(inserted, servers[dest - 1]) <= 0
        invariant 0 <= dest <= serverCount
        invariant forall k | 0 <= k < dest :: servers[k] == old(servers[k])
        invariant forall k | dest < k <= serverCount :: servers[k] == old(servers[k - 1])
        invariant forall k | serverCount < k < servers.Length :: servers[k] == old(servers[k])
        invariant forall k | dest <= k < serverCount :: CmpServer(inserted, old(servers[k])) <= 0
      {
        servers[dest] := servers[dest - 1];
        dest := dest - 1;
      }
    }

    /** insert_into_sorted_servers: writes no further than the next free element. */
    method InsertIntoSortedServers(inserted: Server)
      requires serverCount < servers.Length
      modifies servers
      ensures servers[..serverCount + 1] == Inserted(old(servers[..serverCount]), inserted)
      ensures forall k | serverCount < k < servers.Length :: servers[k] == old(servers[k])
    {
      ghost var s := servers[..serverCount];
      var dest := MakeRoom(inserted);
      servers[dest] := inserted;
      InsertedAt(s, inserted, dest);
      Spliced(servers[..serverCount + 1], s, inserted, dest);
    }

    /** bsearch over the servers inserted so far. */
    method Contains(x: Server) returns (found: bool)
      requires serverCount <= servers.Length && Sorted(servers[..serverCount])
      ensures found <==> x in servers[..serverCount]
    {
      ghost var s := servers[..serverCount];
      var low, high := 0, serverCount;
      while low < high
        invariant 0 <= low <= high <= serverCount
        invariant forall i | 0 <= i < low :: CmpServer(s[i], x) < 0
        invariant forall i | high <= i < serverCount :: CmpServer(x, s[i]) < 0
      {
        var mid := (low + high) / 2;
        assert servers[mid] == s[mid];
        var res := CmpServer(x, servers[mid]);
        CmpServerOrder(x, s[mid]);
        if res == 0 {
          return true;
        } else if res > 0 {
          forall i | 0 <= i < mid ensures CmpServer(s[i], x) < 0 {
            CmpServerChain(s[i], s[mid], x);
          }
          low := mid + 1;
        } else {
          forall i | mid < i < serverCount ensures CmpServer(x, s[i]) < 0 {
            CmpServerChain(x, s[mid], s[i]);
          }
          high := mid;
        }
      }
      forall i | 0 <= i < serverCount ensures s[i] != x {
        CmpServerOrder(s[i], x);
        CmpServerOrder(x, s[i]);
      }
      found := false;
    }

    /** copy_tracker_servers: each entry is what parsing an address gave, None for an error. */
    method CopyTrackerServers(parsed: seq<Option<Server>>) returns (ok: bool)
      requires servers.Length == |parsed|
      modifies this`serverCount, servers
      ensures ok <==> None !in parsed
      ensures serverCount <= servers.Length && Sorted(servers[..serverCount])
      ensures ok ==> forall x :: x in servers[..serverCount] <==> Some(x) in parsed
    {
      serverCount := 0;
      var i := 0;
      while i < |parsed|
        invariant 0 <= i <= |parsed| && serverCount <= i && servers == old(servers)
        invariant None !in parsed[..i]
        invariant Sorted(servers[..serverCount])
        invariant forall x :: x in servers[..serverCount] <==> Some(x) in parsed[..i]
      {
        assert parsed[..i + 1] == parsed[..i] + [parsed[i]];
        if parsed[i].None? {
          return false;
        }
        var found := Contains(parsed[i].value);
        if !found {
          InsertedKeepsSorted(servers[..serverCount], parsed[i].value);
          InsertIntoSortedServers(parsed[i].value);
          serverCount := serverCount + 1;
        }
        i := i + 1;
      }
      assert parsed[..i] == parsed;
      ok := true;
    }
  }
}
