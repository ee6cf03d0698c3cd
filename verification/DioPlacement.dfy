/** Which disk thread serves a task: every store path has its own block of threads. */
module DioPlacement {

  /** The disk settings, as read from the configuration. */
  datatype Config = Config(separated: bool, readers: int, writers: int)

  /** The validation of the thread counts. */
  predicate Valid(c: Config) {
    && c.readers >= 0 && c.writers >= 0
    && (if c.separated then c.readers != 0 && c.writers != 0 else c.readers + c.writers != 0)
  }

  /** storage_dio_thread_data: positions in the one array of thread contexts. */
  datatype Block = Block(contexts: int, reader: int, writer: int, count: int)

  datatype FileOp = Read | Write | AppendOp | DeleteOp | Discard

  const U32 := 0x1_0000_0000

  function PerPath(c: Config): int {
    c.readers + c.writers
  }

  /** The layout loop of storage_dio_init. */
  method BuildBlocks(c: Config, paths: nat) returns (blocks: seq<Block>)
    ensures |blocks| == paths
    ensures forall p | 0 <= p < paths :: blocks[p] == BlockOf(c, p)
  {
    blocks := [];
    var p := 0;
    var next := 0;
    while p < paths
      invariant 0 <= p <= paths && |blocks| == p && next == p * PerPath(c)
      invariant forall q | 0 <= q < p :: blocks[q] == BlockOf(c, q)
    {
      blocks := blocks + [Block(next, next, next + c.readers, c.readers + c.writers)];
      NextBlock(p, PerPath(c));
      next, p := next + PerPath(c), p + 1;
    }
  }

  function BlockOf(c: Config, path: nat): Block {
    var first := path * PerPath(c);
    Block(first, first, first + c.readers, PerPath(c))
  }

  lemma NextBlock(p: nat, n: int)
    ensures p * n + n == (p + 1) * n
  {
  }

  /** The number of threads that a file operation may go to. */
  function Choices(c: Config, b: Block, op: FileOp): int {
    if c.separated then (if op.Read? then c.readers else c.writers) else b.count
  }

  /** storage_dio_get_thread_index; the descriptor is read as an unsigned 32-bit integer. */
  function ThreadIndex(c: Config, b: Block, fd: int, op: FileOp): int
    requires Choices(c, b, op) > 0
  {
    var first := if c.separated then (if op.Read? then b.reader else b.writer) else b.contexts;
    first + fd % U32 % Choices(c, b, op)
  }

  /** The index is computed without a division by zero for every operation exactly when the settings
      are valid, given that they are not negative. */
  lemma DividesIff(c: Config, path: nat)
    requires c.readers >= 0 && c.writers >= 0
    ensures (forall op :: Choices(c, BlockOf(c, path), op) > 0) <==> Valid(c)
  {
    assert Choices(c, BlockOf(c, path), Read) == if c.separated then c.readers else PerPath(c);
    assert Choices(c, BlockOf(c, path), Write) == if c.separated then c.writers else PerPath(c);
  }

  /** A task stays in the block of its store path; separated readers and writers never share a thread. */
  lemma StaysInBlock(c: Config, path: nat, fd: int, op: FileOp)
    requires Valid(c)
    ensures Choices(c, BlockOf(c, path), op) > 0
    ensures var i := ThreadIndex(c, BlockOf(c, path), fd, op);
      && path * PerPath(c) <= i < (path + 1) * PerPath(c)
      && (c.separated ==> (op.Read? <==> i < path * PerPath(c) + c.readers))
  {
    NextBlock(path, PerPath(c));
  }

  /** Tasks of different store paths never meet in one thread. */
  lemma PathsAreDisjoint(c: Config, p: nat, q: nat, fd: int, gd: int, op: FileOp, oq: FileOp)
    requires Valid(c) && p != q
    ensures Choices(c, BlockOf(c, p), op) > 0 && Choices(c, BlockOf(c, q), oq) > 0
    ensures ThreadIndex(c, BlockOf(c, p), fd, op) != ThreadIndex(c, BlockOf(c, q), gd, oq)
  {
    StaysInBlock(c, p, fd, op);
    StaysInBlock(c, q, gd, oq);
    if p < q {
      BlocksAscend(p + 1, q, PerPath(c));
    } else {
      BlocksAscend(q + 1, p, PerPath(c));
    }
  }

  lemma BlocksAscend(p: nat, q: nat, n: int)
    requires p <= q && n >= 0
    ensures p * n <= q * n
  {
  }
}
