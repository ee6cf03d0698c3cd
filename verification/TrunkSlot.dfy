/** Uploads into a slot of a trunk file: the header that marks the slot as taken, the check before an
    upload, and what every upload leaves in the trunk file. */
module TrunkSlot {
  import opened FileWrite

  const HEADER := 24
  const EXT := 7

  /** FDFSTrunkHeader; the integers are 32 bits wide and kept without sign. */
  datatype Header = Header(fileType: Byte, allocSize: int, fileSize: int, crc32: int, mtime: int, ext: seq<Byte>)

  const WIDTH := 0x1_0000_0000

  /** int2buff: the four bytes of a 32-bit integer, most significant first. */
  function Int2Buff(n: int): (b: seq<Byte>)
    ensures |b| == 4
  {
    [n / 256 / 256 / 256 % 256, n / 256 / 256 % 256, n / 256 % 256, n % 256]
  }

  function Buff2Int(b: seq<Byte>): (n: int)
    requires |b| == 4
    ensures 0 <= n < WIDTH
  {
    ((b[0] as int * 256 + b[1]) * 256 + b[2]) * 256 + b[3]
  }

  /** trunk_pack_header. */
  function Pack(h: Header): (b: seq<Byte>)
    requires |h.ext| == EXT
    ensures |b| == HEADER
  {
    [h.fileType] + Int2Buff(h.allocSize) + Int2Buff(h.fileSize) + Int2Buff(h.crc32) + Int2Buff(h.mtime) + h.ext
  }

  /** trunk_unpack_header. */
  function Unpack(b: seq<Byte>): (h: Header)
    requires |b| == HEADER
    ensures |h.ext| == EXT
  {
    Header(b[0], Buff2Int(b[1..5]), Buff2Int(b[5..9]), Buff2Int(b[9..13]), Buff2Int(b[13..17]), b[17..24])
  }

  function Zeros(n: nat): (z: seq<Byte>)
    ensures |z| == n && forall i | 0 <= i < n :: z[i] == 0
  {
    seq(n, _ => 0)
  }

  /** A slot is free when its crc, time and extension are zero, whatever its type and sizes. */
  predicate Free(b: seq<Byte>)
    requires |b| == HEADER
  {
    b[9..] == Zeros(15)
  }

  /** dio_check_trunk_file_ex: unpacks the header, clears type and sizes and packs it again. */
  method CheckTrunkFile(b: seq<Byte>) returns (ok: bool)
    requires |b| == HEADER
    ensures ok <==> Free(b)
  {
    ok := true;
    if b != Zeros(HEADER) {
      var header := Unpack(b);
      header := header.(allocSize := 0, fileSize := 0, fileType := 0);
      ok := Pack(header) == Zeros(HEADER);
      RepackIsFree(b);
    } else {
      assert Zeros(HEADER)[9..] == Zeros(15);
    }
  }

  lemma LastByte(q: int, r: Byte)
    ensures (q * 256 + r) / 256 == q && (q * 256 + r) % 256 == r
  {
  }

  lemma BytesOfInt(b: seq<Byte>)
    requires |b| == 4
    ensures Int2Buff(Buff2Int(b)) == b
  {
    var high: int := b[0];
    LastByte(high, b[1]);
    LastByte(high * 256 + b[1], b[2]);
    LastByte((high * 256 + b[1]) * 256 + b[2], b[3]);
  }

  lemma IntOfBytes(n: int)
    requires 0 <= n < WIDTH
    ensures Buff2Int(Int2Buff(n)) == n
  {
    var a, b, c := n / 256, n / 256 / 256, n / 256 / 256 / 256;
    assert n == a * 256 + n % 256 && a == b * 256 + a % 256 && b == c * 256 + b % 256;
    assert c % 256 == c;
  }

  /** Packing undoes unpacking. */
  lemma PackUnpack(b: seq<Byte>)
    requires |b| == HEADER
    ensures Pack(Unpack(b)) == b
  {
    BytesOfInt(b[1..5]);
    BytesOfInt(b[5..9]);
    BytesOfInt(b[9..13]);
    BytesOfInt(b[13..17]);
  }

  lemma RepackIsFree(b: seq<Byte>)
    requires |b| == HEADER
    ensures Pack(Unpack(b).(allocSize := 0, fileSize := 0, fileType := 0)) == Zeros(HEADER) <==> Free(b)
  {
    BytesOfInt(b[9..13]);
    BytesOfInt(b[13..17]);
    var p := Pack(Unpack(b).(allocSize := 0, fileSize := 0, fileType := 0));
    assert p[9..13] == b[9..13] && p[13..17] == b[13..17] && p[17..24] == b[17..24];
    assert p[0..9] == Zeros(9);
    assert b[9..] == b[9..13] + b[13..17] + b[17..24];
    assert p[9..] == p[9..13] + p[13..17] + p[17..24];
    assert p == p[0..9] + p[9..];
    assert Zeros(24) == Zeros(9) + Zeros(15);
    assert Zeros(24)[9..] == Zeros(15);
  }

  lemma ZeroInt(b: seq<Byte>)
    requires |b| == 4
    ensures b == Zeros(4) <==> Buff2Int(b) == 0
  {
    BytesOfInt(b);
    assert Int2Buff(0) == Zeros(4);
  }

  lemma FreeFields(b: seq<Byte>)
    requires |b| == HEADER
    ensures Free(b) <==> Unpack(b).crc32 == 0 && Unpack(b).mtime == 0 && Unpack(b).ext == Zeros(EXT)
  {
    ZeroInt(b[9..13]);
    ZeroInt(b[13..17]);
    var z := Zeros(15);
    assert z[..4] == Zeros(4) && z[4..8] == Zeros(4) && z[8..] == Zeros(7);
    assert b[9..][..4] == b[9..13] && b[9..][4..8] == b[13..17] && b[9..][8..] == b[17..24];
    assert b[9..] == b[9..][..4] + b[9..][4..8] + b[9..][8..];
    assert z == z[..4] + z[4..8] + z[8..];
  }

  // ---------------------------------------------------------------- uploads into a slot

  datatype Slot = Slot(offset: nat, size: nat)

  /** What an upload puts into its slot. */
  datatype Job = Job(data: seq<Byte>, fileType: Byte, stamp: int, ext: seq<Byte>)

  datatype Result = Refused | Stored | Failed

  /** The slot lies in the trunk file and is large enough for header and data. */
  predicate Fits(t: seq<Byte>, s: Slot, job: Job) {
    HEADER + |job.data| <= s.size && s.offset + s.size <= |t| && |job.ext| == EXT
  }

  function Head(t: seq<Byte>, s: Slot): (b: seq<Byte>)
    requires s.size >= HEADER && s.offset + s.size <= |t|
    ensures |b| == HEADER
  {
    t[s.offset..s.offset + HEADER]
  }

  /** The header that dio_write_chunk_header writes. */
  function HeaderOf(crc: Crc, s: Slot, job: Job): Header {
    Header(job.fileType, s.size, |job.data|, Sum(crc, job.data), job.stamp, job.ext)
  }

  function StoredIn(crc: Crc, t: seq<Byte>, s: Slot, job: Job): seq<Byte>
    requires Fits(t, s, job)
  {
    t[..s.offset] + Pack(HeaderOf(crc, s, job)) + job.data + t[s.offset + HEADER + |job.data|..]
  }

  predicate SameOutside(t: seq<Byte>, t': seq<Byte>, s: Slot) {
    && |t'| == |t| && s.offset + s.size <= |t|
    && t'[..s.offset] == t[..s.offset]
    && t'[s.offset + s.size..] == t[s.offset + s.size..]
  }

  /** trunk_file_delete: the whole slot overwritten with zeros. */
  function Cleared(t: seq<Byte>, s: Slot): seq<Byte>
    requires s.offset + s.size <= |t|
  {
    t[..s.offset] + Zeros(s.size) + t[s.offset + s.size..]
  }

  /** Only the slot has changed and it is still free. */
  predicate KeptFree(t: seq<Byte>, t': seq<Byte>, s: Slot) {
    SameOutside(t, t', s) && s.size >= HEADER && Free(Head(t', s))
  }

  /** HeaderFails(n): the header write takes only n of its bytes. */
  datatype SlotFault =
    | NoSlotFault | SlotOpenFails | SlotShortWrite(at: nat, written: nat) | SlotDisconnect(after: nat)
    | HeaderFails(bytes: nat)

  /** A header that was written in part shows: one of its bytes that decide about a free slot is not zero. */
  predicate Shows(h: Header, n: nat)
    requires |h.ext| == EXT && n <= HEADER
  {
    exists i | 9 <= i < n :: Pack(h)[i] != 0
  }

  /** dio_write_file with the trunk call-backs, working in place on the trunk file. */
  class SlotUpload {
    const crc: Crc
    const slot: Slot
    const job: Job
    const descriptor: nat
    const start: nat
    const end: nat
    var trunk: seq<Byte>
    var fd: int
    var offset: nat
    var value: int

    constructor (crc: Crc, slot: Slot, job: Job, descriptor: nat, trunk: seq<Byte>)
      requires Fits(trunk, slot, job)
      ensures this.crc == crc && this.slot == slot && this.job == job && this.trunk == trunk
      ensures this.descriptor == descriptor && start == slot.offset + HEADER && end == start + |job.data|
      ensures fd == -1 && offset == start && value == crc.init
    {
      this.crc, this.slot, this.job, this.descriptor, this.trunk := crc, slot, job, descriptor, trunk;
      start, end := slot.offset + HEADER, slot.offset + HEADER + |job.data|;
      fd, offset, value := -1, slot.offset + HEADER, crc.init;
    }

    /** dio_trunk_write_finish_clean_up. */
    method CleanUp()
      requires slot.offset + slot.size <= |trunk|
      modifies this`trunk, this`fd
      ensures trunk == if old(fd) > 0 && start < offset < end then Cleared(old(trunk), slot) else old(trunk)
    {
      if fd > 0 {
        fd := -1;
        if start < offset < end {
          trunk := Cleared(trunk, slot);
        }
      }
    }

    /** The slot is open for this upload and `sent` bytes of data are written. */
    ghost predicate Writing(t: seq<Byte>, sent: seq<Byte>)
      reads this
    {
      && Fits(t, slot, job) && start == slot.offset + HEADER && end == start + |job.data|
      && fd == descriptor && offset == start + |sent| && offset <= end
      && trunk == WrittenAt(t, start, sent) && value == Fold(crc, crc.init, sent)
    }

    /** The clean-up after an abort, with some data written behind the free header. */
    method Abort(ghost t: seq<Byte>, ghost written: seq<Byte>)
      requires Fits(t, slot, job) && |written| <= |job.data| && Free(Head(t, slot))
      requires start == slot.offset + HEADER && trunk == WrittenAt(t, start, written)
      modifies this`trunk, this`fd
      ensures KeptFree(t, trunk, slot)
      ensures trunk == if old(fd) > 0 && start < offset < end then Cleared(old(trunk), slot) else old(trunk)
    {
      StillFree(t, slot, job, written);
      CleanUp();
    }

    /** One chunk, of which the kernel takes `written` bytes. */
    method WriteChunk(chunk: seq<Byte>, written: nat, ghost t: seq<Byte>, ghost sent: seq<Byte>) returns (ok: bool)
      requires Writing(t, sent) && Free(Head(t, slot))
      requires |sent| + |chunk| <= |job.data| && written <= |chunk|
      modifies this
      ensures ok <==> written == |chunk|
      ensures ok ==> Writing(t, sent + chunk)
      ensures !ok ==> KeptFree(t, trunk, slot)
      ensures var now := WrittenAt(old(trunk), old(offset), chunk[..written]);
        trunk == if !ok && old(fd) > 0 && start < old(offset) < end then Cleared(now, slot) else now
    {
      ghost var part := chunk[..written];
      WriteOn(t, start, sent, part);
      trunk := WrittenAt(trunk, offset, chunk[..written]);
      if written < |chunk| {
        Abort(t, sent + part);
        return false;
      }
      assert part == chunk;
      FoldConcat(crc, crc.init, sent, chunk);
      value := Fold(crc, value, chunk);
      offset := offset + |chunk|;
      ok := true;
    }

    /** The call for chunk i, unless the client is gone by then. */
    method WriteNext(chunks: seq<seq<Byte>>, i: nat, fault: SlotFault, ghost t: seq<Byte>) returns (ok: bool)
      requires i < |chunks| && Writing(t, Concat(chunks[..i])) && Free(Head(t, slot))
      requires Cut(chunks, |job.data|)
      modifies this
      ensures ok <==> !StrikesAt(fault, chunks, i)
      ensures ok ==> Writing(t, Concat(chunks[..i + 1]))
      ensures !ok ==> KeptFree(t, trunk, slot)
    {
      CutPrefix(chunks, |job.data|, i);
      if fault.SlotDisconnect? && fault.after == i {
        Abort(t, Concat(chunks[..i]));
        return false;
      }
      var written := if fault.SlotShortWrite? && fault.at == i && fault.written < |chunks[i]|
                     then fault.written else |chunks[i]|;
      ok := WriteChunk(chunks[i], written, t, Concat(chunks[..i]));
    }

    method WriteChunks(chunks: seq<seq<Byte>>, fault: SlotFault, ghost t: seq<Byte>) returns (ok: bool)
      requires Writing(t, []) && Free(Head(t, slot)) && fault != SlotDisconnect(0)
      requires Cut(chunks, |job.data|) && Concat(chunks) == job.data
      modifies this
      ensures ok <==> !SlotStrikes(fault, chunks) || fault.SlotOpenFails? || fault.HeaderFails?
      ensures ok ==> Writing(t, job.data)
      ensures !ok ==> KeptFree(t, trunk, slot)
    {
      var i := 0;
      ok := true;
      while i < |chunks|
        invariant 0 <= i <= |chunks| && ok && Writing(t, Concat(chunks[..i]))
        invariant forall k | 0 <= k < i :: !StrikesAt(fault, chunks, k)
      {
        ok := WriteNext(chunks, i, fault, t);
        if !ok {
          StrikesSomewhere(fault, chunks, i);
          return;
        }
        i := i + 1;
      }
      assert chunks[..i] == chunks;
      StrikesNowhere(fault, chunks);
    }

    /** dio_write_chunk_header, of which the kernel takes `bytes` bytes. */
    method WriteHeader(bytes: nat, ghost t: seq<Byte>) returns (ok: bool)
      requires Fits(t, slot, job) && Free(Head(t, slot)) && bytes <= HEADER
      requires start == slot.offset + HEADER && end == start + |job.data|
      requires trunk == WrittenAt(t, start, job.data) && value == Sum(crc, job.data)
      modifies this`trunk
      ensures ok <==> bytes == HEADER
      ensures ok ==> trunk == StoredIn(crc, t, slot, job)
      ensures trunk == WrittenAt(old(trunk), slot.offset, Pack(HeaderOf(crc, slot, job))[..bytes])
      ensures SameOutside(t, trunk, slot) && (Free(Head(trunk, slot)) <==> !Shows(HeaderOf(crc, slot, job), bytes))
    {
      ghost var h := HeaderOf(crc, slot, job);
      var header := Pack(Header(job.fileType, slot.size, end - start, value, job.stamp, job.ext));
      StillFree(t, slot, job, job.data);
      HeaderPart(trunk, slot, h, bytes);
      HeaderCompletes(crc, t, slot, job);
      OutsideTwice(t, trunk, WrittenAt(trunk, slot.offset, header[..bytes]), slot);
      trunk := WrittenAt(trunk, slot.offset, header[..bytes]);
      assert bytes == HEADER ==> header[..bytes] == header;
      ok := bytes == HEADER;
    }

    /** One whole upload, cut into chunks in any way and struck by at most one fault: refused exactly when it
        gets to see a taken slot, and then without a trace; stored exactly when the slot is free and no fault
        strikes; otherwise a taken slot is as before, and a free one stays free unless part of its header
        shows. Nothing outside the slot changes. */
    method Run(chunks: seq<seq<Byte>>, fault: SlotFault) returns (r: Result)
      requires Fits(trunk, slot, job) && start == slot.offset + HEADER && end == start + |job.data|
      requires fd == -1 && offset == start && value == crc.init
      requires Cut(chunks, |job.data|) && Concat(chunks) == job.data
      modifies this
      ensures SameOutside(old(trunk), trunk, slot)
      ensures r.Refused? <==> !fault.SlotOpenFails? && fault != SlotDisconnect(0) && !Free(Head(old(trunk), slot))
      ensures r.Stored? <==> Free(Head(old(trunk), slot)) && !SlotStrikes(fault, chunks)
      ensures !Free(Head(old(trunk), slot)) ==> trunk == old(trunk)
      ensures r.Stored? ==> trunk == StoredIn(crc, old(trunk), slot, job)
      ensures r.Failed? && Free(Head(old(trunk), slot)) ==>
        (Free(Head(trunk, slot)) <==> !(fault.HeaderFails? && Shows(HeaderOf(crc, slot, job), fault.bytes)))
    {
      ghost var t := trunk;
      if fault == SlotDisconnect(0) || fault.SlotOpenFails? {
        CleanUp();
        return Failed;
      }
      fd := descriptor;
      var free := CheckTrunkFile(Head(trunk, slot));
      if !free {
        CleanUp();
        return Refused;
      }
      assert WrittenAt(t, start, []) == t;
      var ok := WriteChunks(chunks, fault, t);
      if !ok {
        return Failed;
      }
      value := crc.finish(value);
      fd := -1;
      ok := WriteHeader(if fault.HeaderFails? && fault.bytes < HEADER then fault.bytes else HEADER, t);
      r := if ok then Stored else Failed;
    }
  }

  predicate SlotStrikes(fault: SlotFault, chunks: seq<seq<Byte>>) {
    match fault
    case NoSlotFault => false
    case SlotOpenFails => true
    case SlotShortWrite(at, written) => at < |chunks| && written < |chunks[at]|
    case SlotDisconnect(after) => after < |chunks|
    case HeaderFails(bytes) => bytes < HEADER
  }

  /** Bytes 9 to 24 decide whether a slot is free. */
  lemma FreeBytes(b: seq<Byte>)
    requires |b| == HEADER
    ensures Free(b) <==> forall i | 9 <= i < HEADER :: b[i] == 0
  {
    assert forall i | 9 <= i < HEADER :: b[i] == b[9..][i - 9];
  }

  /** Part of a header over a free one. */
  lemma HeaderPart(t: seq<Byte>, s: Slot, h: Header, n: nat)
    requires s.size >= HEADER && s.offset + s.size <= |t| && |h.ext| == EXT && n <= HEADER && Free(Head(t, s))
    ensures var now := WrittenAt(t, s.offset, Pack(h)[..n]);
      SameOutside(t, now, s) && (Free(Head(now, s)) <==> !Shows(h, n))
  {
    var now := WrittenAt(t, s.offset, Pack(h)[..n]);
    var b := Head(now, s);
    assert forall i | 0 <= i < HEADER :: b[i] == if i < n then Pack(h)[i] else Head(t, s)[i];
    FreeBytes(b);
    FreeBytes(Head(t, s));
  }

  lemma OutsideTwice(t: seq<Byte>, u: seq<Byte>, v: seq<Byte>, s: Slot)
    requires SameOutside(t, u, s) && SameOutside(u, v, s)
    ensures SameOutside(t, v, s)
  {
  }

  /** The fault hits chunk i. */
  predicate StrikesAt(fault: SlotFault, chunks: seq<seq<Byte>>, i: nat)
    requires i < |chunks|
  {
    || (fault.SlotDisconnect? && fault.after == i)
    || (fault.SlotShortWrite? && fault.at == i && fault.written < |chunks[i]|)
  }

  lemma StrikesSomewhere(fault: SlotFault, chunks: seq<seq<Byte>>, i: nat)
    requires i < |chunks| && StrikesAt(fault, chunks, i)
    ensures SlotStrikes(fault, chunks) && !fault.SlotOpenFails? && !fault.HeaderFails?
  {
  }

  lemma StrikesNowhere(fault: SlotFault, chunks: seq<seq<Byte>>)
    requires forall k | 0 <= k < |chunks| :: !StrikesAt(fault, chunks, k)
    ensures !SlotStrikes(fault, chunks) || fault.SlotOpenFails? || fault.HeaderFails?
  {
    if fault.SlotDisconnect? && fault.after < |chunks| {
      assert StrikesAt(fault, chunks, fault.after);
    } else if fault.SlotShortWrite? && fault.at < |chunks| {
      assert !StrikesAt(fault, chunks, fault.at);
    }
  }

  lemma WriteOn(t: seq<Byte>, pos: nat, a: seq<Byte>, b: seq<Byte>)
    requires pos + |a| + |b| <= |t|
    ensures pos + |a| <= |WrittenAt(t, pos, a)|
    ensures WrittenAt(WrittenAt(t, pos, a), pos + |a|, b) == WrittenAt(t, pos, a + b)
  {
  }

  /** Data without a header leaves a free slot free, and so does the zeroing clean-up. */
  lemma StillFree(t: seq<Byte>, s: Slot, job: Job, written: seq<Byte>)
    requires Fits(t, s, job) && |written| <= |job.data| && Free(Head(t, s))
    ensures var now := WrittenAt(t, s.offset + HEADER, written);
      |now| == |t| && KeptFree(t, now, s) && KeptFree(t, Cleared(now, s), s)
  {
    var now := WrittenAt(t, s.offset + HEADER, written);
    assert Head(now, s) == Head(t, s);
    assert Head(Cleared(now, s), s) == Zeros(HEADER);
    assert Zeros(HEADER)[9..] == Zeros(15);
  }

  lemma HeaderCompletes(crc: Crc, t: seq<Byte>, s: Slot, job: Job)
    requires Fits(t, s, job)
    ensures var now := WrittenAt(t, s.offset + HEADER, job.data);
      WrittenAt(now, s.offset, Pack(HeaderOf(crc, s, job))) == StoredIn(crc, t, s, job)
    ensures SameOutside(t, StoredIn(crc, t, s, job), s)
  {
  }
}
