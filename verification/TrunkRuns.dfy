/** Any interleaving of uploads and deletions on the slots of one trunk file, one disk call at a time. */
module TrunkRuns {
  import opened FileWrite
  import opened TrunkSlot

  /** An upload, or the copy of one from another server, between two calls of dio_write_file. */
  datatype SlotWrite = SlotWrite(slot: Slot, job: Job, sync: bool, sent: seq<Byte>, value: int)

  /** The trunk file and the uploads that are under way. */
  datatype Trunk = Trunk(bytes: seq<Byte>, active: map<nat, SlotWrite>)

  /** What one call does:
      - Begin: the slot is opened, checked and found free; Refuse: it is found taken
      - Sync: the slot is opened for a copy from another server, without a look at its header
      - Write: a whole chunk; TornWrite: part of a chunk, after which only Abort can follow in the source
      - Abort: the clean-up, which zeroes the slot if it finds an unfinished write
      - Complete: the header is written; TornHeader: its first n bytes are
      - Delete: the file in the slot is deleted */
  datatype Op =
    | Begin(id: nat, slot: Slot, job: Job) | Refuse(slot: Slot) | Sync(id: nat, slot: Slot, job: Job)
    | Write(id: nat, chunk: seq<Byte>) | TornWrite(id: nat, chunk: seq<Byte>)
    | Abort(id: nat, zeroes: bool)
    | Complete(id: nat) | TornHeader(id: nat, n: nat)
    | Delete(slot: Slot)

  function DataAt(u: SlotWrite): nat {
    u.slot.offset + HEADER
  }

  /** The header as the finished upload computes it. */
  function FinalHeader(crc: Crc, u: SlotWrite): Header {
    Header(u.job.fileType, u.slot.size, |u.sent|, crc.finish(u.value), u.job.stamp, u.job.ext)
  }

  predicate OnUpload(s: Trunk, op: Op) {
    (op.Write? || op.TornWrite? || op.Abort? || op.Complete? || op.TornHeader?)
    && op.id in s.active
    && Fits(s.bytes, s.active[op.id].slot, s.active[op.id].job)
    && s.active[op.id].sent <= s.active[op.id].job.data
  }

  predicate OpStep(crc: Crc, s: Trunk, op: Op, s': Trunk) {
    match op
    case Begin(id, slot, job) => id !in s.active && Fits(s.bytes, slot, job) && Free(Head(s.bytes, slot))
      && s' == s.(active := s.active[id := SlotWrite(slot, job, false, [], crc.init)])
    case Sync(id, slot, job) => id !in s.active && Fits(s.bytes, slot, job)
      && s' == s.(active := s.active[id := SlotWrite(slot, job, true, [], crc.init)])
    case Refuse(slot) => slot.size >= HEADER && slot.offset + slot.size <= |s.bytes|
      && !Free(Head(s.bytes, slot)) && s' == s
    case Delete(slot) => slot.offset + slot.size <= |s.bytes| && s' == s.(bytes := Cleared(s.bytes, slot))
    case _ => OnUpload(s, op) && UploadStep(crc, s, op, s')
  }

  predicate UploadStep(crc: Crc, s: Trunk, op: Op, s': Trunk)
    requires OnUpload(s, op)
  {
    var u := s.active[op.id];
    match op
    case Write(id, chunk) => u.sent + chunk <= u.job.data
      && s' == Trunk(WrittenAt(s.bytes, DataAt(u) + |u.sent|, chunk),
                     s.active[id := u.(sent := u.sent + chunk, value := Fold(crc, u.value, chunk))])
    case TornWrite(id, part) => u.sent + part <= u.job.data
      && s' == s.(bytes := WrittenAt(s.bytes, DataAt(u) + |u.sent|, part))
    case Abort(id, zeroes) => (zeroes ==> 0 < |u.sent| < |u.job.data|)
      && s' == Trunk(if zeroes then Cleared(s.bytes, u.slot) else s.bytes, s.active - {id})
    case Complete(id) => u.sent == u.job.data
      && s' == Trunk(WrittenAt(s.bytes, u.slot.offset, Pack(FinalHeader(crc, u))), s.active - {id})
    case TornHeader(id, n) => u.sent == u.job.data && n < HEADER
      && s' == Trunk(WrittenAt(s.bytes, u.slot.offset, Pack(FinalHeader(crc, u))[..n]), s.active - {id})
    case _ => false
  }

  /** The call names its slot itself. */
  predicate NamesSlot(op: Op) {
    op.Begin? || op.Sync? || op.Refuse? || op.Delete?
  }

  function SlotOf(s: Trunk, op: Op): Slot
    requires NamesSlot(op) || OnUpload(s, op)
  {
    if NamesSlot(op) then op.slot else s.active[op.id].slot
  }

  predicate Apart(a: Slot, b: Slot) {
    a.offset + a.size <= b.offset || b.offset + b.size <= a.offset
  }

  /** The allocator divides the trunk file into slots that do not overlap. */
  predicate Divided(slots: set<Slot>, length: nat) {
    && (forall s | s in slots :: s.size >= HEADER && s.offset + s.size <= length)
    && (forall a, b | a in slots && b in slots && a != b :: Apart(a, b))
  }

  predicate Busy(s: Trunk, slot: Slot) {
    exists id | id in s.active :: s.active[id].slot == slot
  }

  /** The allocator gives a slot to one upload at a time, and takes back none that is being written. */
  predicate Allowed(slots: set<Slot>, s: Trunk, op: Op) {
    && (NamesSlot(op) ==> op.slot in slots)
    && (op.Begin? || op.Sync? || op.Delete? ==> !Busy(s, op.slot))
  }

  ghost predicate IsHistory(crc: Crc, slots: set<Slot>, states: seq<Trunk>, ops: seq<Op>) {
    && |states| == |ops| + 1 && states[0].active == map[] && Divided(slots, |states[0].bytes|)
    && forall k | 0 <= k < |ops| :: OpStep(crc, states[k], ops[k], states[k + 1]) && Allowed(slots, states[k], ops[k])
  }

  function Region(t: seq<Byte>, s: Slot): seq<Byte>
    requires s.offset + s.size <= |t|
  {
    t[s.offset..s.offset + s.size]
  }

  // ---------------------------------------------------------------- when a stored header is seen

  lemma ZeroBytes(n: int)
    ensures Int2Buff(n) == Zeros(4) <==> n % WIDTH == 0
  {
    var a, b, c, d := n / 256, n / 256 / 256, n / 256 / 256 / 256, n / 256 / 256 / 256 / 256;
    assert n == a * 256 + n % 256 && a == b * 256 + a % 256 && b == c * 256 + b % 256 && c == d * 256 + c % 256;
    assert n == d * WIDTH + (((c % 256) * 256 + b % 256) * 256 + a % 256) * 256 + n % 256;
    var low := (((c % 256) * 256 + b % 256) * 256 + a % 256) * 256 + n % 256;
    assert 0 <= low < WIDTH && n == d * WIDTH + low;
    assert n % WIDTH == low;
    if Int2Buff(n) == Zeros(4) {
      assert Int2Buff(n)[0] == 0 && Int2Buff(n)[1] == 0 && Int2Buff(n)[2] == 0 && Int2Buff(n)[3] == 0;
    }
  }

  /** A header is taken for free exactly when crc, time and extension are all zero. */
  lemma PackedFreeIff(h: Header)
    requires |h.ext| == EXT
    ensures Free(Pack(h)) <==> h.crc32 % WIDTH == 0 && h.mtime % WIDTH == 0 && h.ext == Zeros(EXT)
  {
    var b := Pack(h);
    ZeroBytes(h.crc32);
    ZeroBytes(h.mtime);
    assert b[9..] == Int2Buff(h.crc32) + Int2Buff(h.mtime) + h.ext;
    var z := Zeros(15);
    assert z == Zeros(4) + Zeros(4) + Zeros(EXT);
    assert b[9..][..4] == Int2Buff(h.crc32) && b[9..][4..8] == Int2Buff(h.mtime) && b[9..][8..] == h.ext;
    assert z[..4] == Zeros(4) && z[4..8] == Zeros(4) && z[8..] == Zeros(EXT);
  }

  /** The stored header reads back as the true length and CRC. */
  lemma StoredReadsBack(crc: Crc, s: Slot, job: Job)
    requires |job.ext| == EXT && 0 <= s.size < WIDTH && |job.data| <= s.size
    requires 0 <= Sum(crc, job.data) < WIDTH && 0 <= job.stamp < WIDTH
    ensures Unpack(Pack(HeaderOf(crc, s, job))) == HeaderOf(crc, s, job)
  {
    var h := HeaderOf(crc, s, job);
    var b := Pack(h);
    IntOfBytes(h.allocSize);
    IntOfBytes(h.fileSize);
    IntOfBytes(h.crc32);
    IntOfBytes(h.mtime);
    assert b[1..5] == Int2Buff(h.allocSize) && b[5..9] == Int2Buff(h.fileSize);
    assert b[9..13] == Int2Buff(h.crc32) && b[13..17] == Int2Buff(h.mtime) && b[17..24] == h.ext;
  }

  // ---------------------------------------------------------------- one call

  lemma SliceOfDrop(t: seq<Byte>, k: nat, o: Slot)
    requires k <= o.offset && o.offset + o.size <= |t|
    ensures Region(t, o) == t[k..][o.offset - k..o.offset - k + o.size]
  {
  }

  lemma SliceOfTake(t: seq<Byte>, k: nat, o: Slot)
    requires o.offset + o.size <= k <= |t|
    ensures Region(t, o) == t[..k][o.offset..o.offset + o.size]
  {
  }

  lemma OtherSlotStays(t: seq<Byte>, t': seq<Byte>, s: Slot, o: Slot)
    requires SameOutside(t, t', s) && Apart(s, o) && o.offset + o.size <= |t|
    ensures Region(t', o) == Region(t, o)
  {
    if s.offset + s.size <= o.offset {
      SliceOfDrop(t, s.offset + s.size, o);
      SliceOfDrop(t', s.offset + s.size, o);
    } else {
      SliceOfTake(t, s.offset, o);
      SliceOfTake(t', s.offset, o);
    }
  }

  lemma WrittenInside(t: seq<Byte>, pos: nat, data: seq<Byte>, s: Slot)
    requires s.offset <= pos && pos + |data| <= s.offset + s.size <= |t|
    ensures SameOutside(t, WrittenAt(t, pos, data), s)
  {
  }

  lemma ClearedOutside(t: seq<Byte>, s: Slot)
    requires s.offset + s.size <= |t|
    ensures SameOutside(t, Cleared(t, s), s)
  {
  }

  lemma DataStaysInSlot(crc: Crc, s: Trunk, op: Op, s': Trunk)
    requires (op.Write? || op.TornWrite?) && OnUpload(s, op) && UploadStep(crc, s, op, s')
    ensures SameOutside(s.bytes, s'.bytes, s.active[op.id].slot)
  {
    var u := s.active[op.id];
    assert |u.sent + op.chunk| <= |u.job.data|;
    WrittenInside(s.bytes, DataAt(u) + |u.sent|, op.chunk, u.slot);
  }

  lemma HeaderStaysInSlot(crc: Crc, s: Trunk, op: Op, s': Trunk)
    requires (op.Complete? || op.TornHeader?) && OnUpload(s, op) && UploadStep(crc, s, op, s')
    ensures SameOutside(s.bytes, s'.bytes, s.active[op.id].slot)
  {
    var u := s.active[op.id];
    var header := Pack(FinalHeader(crc, u));
    WrittenInside(s.bytes, u.slot.offset, if op.TornHeader? then header[..op.n] else header, u.slot);
  }

  /** Every call changes its own slot only. */
  lemma StaysInSlot(crc: Crc, s: Trunk, op: Op, s': Trunk)
    requires OpStep(crc, s, op, s') && SlotOf(s, op).offset + SlotOf(s, op).size <= |s.bytes|
    ensures SameOutside(s.bytes, s'.bytes, SlotOf(s, op))
  {
    if op.Write? || op.TornWrite? {
      DataStaysInSlot(crc, s, op, s');
    } else if op.Complete? || op.TornHeader? {
      HeaderStaysInSlot(crc, s, op, s');
    } else if op.Delete? || op.Abort? {
      ClearedOutside(s.bytes, SlotOf(s, op));
    }
  }

  /** The slot, seen by itself, holds the first data of an upload, behind a free header if it was checked. */
  predicate Begun(crc: Crc, bytes: seq<Byte>, u: SlotWrite) {
    && Fits(bytes, u.slot, u.job) && u.sent <= u.job.data
    && u.value == Fold(crc, crc.init, u.sent)
    && (!u.sync ==> Free(Head(bytes, u.slot)))
    && bytes[DataAt(u)..DataAt(u) + |u.sent|] == u.sent
  }

  /** Whatever other uploads did meanwhile, the trunk file is then as SlotUpload.Writing asks for, with the
      present bytes as the ones it started from: the next call can be made. */
  lemma ReadyForNextCall(crc: Crc, bytes: seq<Byte>, u: SlotWrite)
    requires Begun(crc, bytes, u)
    ensures WrittenAt(bytes, DataAt(u), u.sent) == bytes
  {
    assert bytes == bytes[..DataAt(u)] + bytes[DataAt(u)..DataAt(u) + |u.sent|] + bytes[DataAt(u) + |u.sent|..];
  }

  /** The slot holds the finished file of a job. */
  predicate Holds(crc: Crc, bytes: seq<Byte>, s: Slot, job: Job) {
    && Fits(bytes, s, job)
    && Head(bytes, s) == Pack(HeaderOf(crc, s, job))
    && bytes[s.offset + HEADER..s.offset + HEADER + |job.data|] == job.data
  }

  lemma HeadInRegion(t: seq<Byte>, s: Slot)
    requires s.size >= HEADER && s.offset + s.size <= |t|
    ensures Head(t, s) == Region(t, s)[..HEADER]
  {
  }

  lemma DataInRegion(t: seq<Byte>, s: Slot, n: nat)
    requires HEADER + n <= s.size && s.offset + s.size <= |t|
    ensures t[s.offset + HEADER..s.offset + HEADER + n] == Region(t, s)[HEADER..HEADER + n]
  {
    var a, b := t[s.offset + HEADER..s.offset + HEADER + n], Region(t, s)[HEADER..HEADER + n];
    assert forall i | 0 <= i < n :: a[i] == t[s.offset + HEADER + i] && b[i] == Region(t, s)[HEADER + i];
  }

  /** Header and data depend on the slot's own bytes only. */
  lemma SamePartsOfRegion(t: seq<Byte>, t': seq<Byte>, s: Slot, n: nat)
    requires HEADER + n <= s.size && s.offset + s.size <= |t| && |t'| == |t| && Region(t', s) == Region(t, s)
    ensures Head(t', s) == Head(t, s)
    ensures t'[s.offset + HEADER..s.offset + HEADER + n] == t[s.offset + HEADER..s.offset + HEADER + n]
  {
    HeadInRegion(t, s);
    HeadInRegion(t', s);
    DataInRegion(t, s, n);
    DataInRegion(t', s, n);
  }

  lemma BegunElsewhere(crc: Crc, t: seq<Byte>, t': seq<Byte>, u: SlotWrite)
    requires Begun(crc, t, u) && |t'| == |t| && Region(t', u.slot) == Region(t, u.slot)
    ensures Begun(crc, t', u)
  {
    SamePartsOfRegion(t, t', u.slot, |u.sent|);
  }

  lemma HoldsElsewhere(crc: Crc, t: seq<Byte>, t': seq<Byte>, s: Slot, job: Job)
    requires Holds(crc, t, s, job) && |t'| == |t| && Region(t', s) == Region(t, s)
    ensures Holds(crc, t', s, job)
  {
    SamePartsOfRegion(t, t', s, |job.data|);
  }

  lemma WrittenSlices(t: seq<Byte>, pos: nat, data: seq<Byte>, a: nat, b: nat)
    requires a <= b <= pos && pos + |data| <= |t|
    ensures var now := WrittenAt(t, pos, data);
      |now| == |t| && now[a..b] == t[a..b] && now[b..pos + |data|] == t[b..pos] + data
  {
  }

  lemma MoreData(crc: Crc, t: seq<Byte>, u: SlotWrite, chunk: seq<Byte>)
    requires Begun(crc, t, u) && u.sent + chunk <= u.job.data
    ensures var now := WrittenAt(t, DataAt(u) + |u.sent|, chunk);
      Begun(crc, now, u.(sent := u.sent + chunk, value := Fold(crc, u.value, chunk)))
  {
    FoldConcat(crc, crc.init, u.sent, chunk);
    WrittenSlices(t, DataAt(u) + |u.sent|, chunk, u.slot.offset, DataAt(u));
  }

  lemma SameData(crc: Crc, t: seq<Byte>, u: SlotWrite, part: seq<Byte>)
    requires Begun(crc, t, u) && u.sent + part <= u.job.data
    ensures Begun(crc, WrittenAt(t, DataAt(u) + |u.sent|, part), u)
  {
    var pos := DataAt(u) + |u.sent|;
    WrittenSlices(t, pos, part, u.slot.offset, DataAt(u));
    WrittenSlices(t, pos, part, DataAt(u), pos);
  }

  /** The header completes the file. */
  lemma Completed(crc: Crc, t: seq<Byte>, u: SlotWrite)
    requires Begun(crc, t, u) && u.sent == u.job.data
    ensures FinalHeader(crc, u) == HeaderOf(crc, u.slot, u.job)
    ensures Holds(crc, WrittenAt(t, u.slot.offset, Pack(FinalHeader(crc, u))), u.slot, u.job)
  {
    var now := WrittenAt(t, u.slot.offset, Pack(FinalHeader(crc, u)));
    assert now[DataAt(u)..DataAt(u) + |u.sent|] == t[DataAt(u)..DataAt(u) + |u.sent|];
  }

  // ---------------------------------------------------------------- all interleavings

  /** The slots of two uploads differ. */
  predicate Distinct(s: Trunk, a: nat, b: nat) {
    a in s.active && b in s.active && a != b ==> s.active[a].slot != s.active[b].slot
  }

  ghost predicate Inv(crc: Crc, slots: set<Slot>, s: Trunk) {
    && Divided(slots, |s.bytes|)
    && (forall id | id in s.active :: s.active[id].slot in slots && Begun(crc, s.bytes, s.active[id]))
    && (forall a, b :: Distinct(s, a, b))
  }

  lemma ElsewhereStays(crc: Crc, slots: set<Slot>, s: Trunk, op: Op, s': Trunk, o: Slot)
    requires Inv(crc, slots, s) && OpStep(crc, s, op, s') && Allowed(slots, s, op)
    requires o in slots && o != SlotOf(s, op)
    ensures |s'.bytes| == |s.bytes| && Region(s'.bytes, o) == Region(s.bytes, o)
  {
    StaysInSlot(crc, s, op, s');
    OtherSlotStays(s.bytes, s'.bytes, SlotOf(s, op), o);
  }

  lemma BeginBegins(crc: Crc, s: Trunk, op: Op, s': Trunk)
    requires OpStep(crc, s, op, s') && (op.Begin? || op.Sync?)
    ensures op.id in s'.active && Begun(crc, s'.bytes, s'.active[op.id])
  {
  }

  lemma WholeWriteGoesOn(crc: Crc, s: Trunk, op: Op, s': Trunk)
    requires OnUpload(s, op) && UploadStep(crc, s, op, s') && op.Write? && Begun(crc, s.bytes, s.active[op.id])
    ensures op.id in s'.active && Begun(crc, s'.bytes, s'.active[op.id])
      && s'.active[op.id].slot == s.active[op.id].slot
  {
    var u := s.active[op.id];
    var next := u.(sent := u.sent + op.chunk, value := Fold(crc, u.value, op.chunk));
    assert s'.active[op.id] == next;
    MoreData(crc, s.bytes, u, op.chunk);
  }

  lemma TornWriteGoesOn(crc: Crc, s: Trunk, op: Op, s': Trunk)
    requires OnUpload(s, op) && UploadStep(crc, s, op, s') && op.TornWrite? && Begun(crc, s.bytes, s.active[op.id])
    ensures op.id in s'.active && Begun(crc, s'.bytes, s'.active[op.id])
      && s'.active[op.id].slot == s.active[op.id].slot
  {
    SameData(crc, s.bytes, s.active[op.id], op.chunk);
  }

  lemma WriteGoesOn(crc: Crc, s: Trunk, op: Op, s': Trunk)
    requires OpStep(crc, s, op, s') && (op.Write? || op.TornWrite?) && Begun(crc, s.bytes, s.active[op.id])
    ensures op.id in s'.active && Begun(crc, s'.bytes, s'.active[op.id])
      && s'.active[op.id].slot == s.active[op.id].slot
  {
    if op.Write? {
      WholeWriteGoesOn(crc, s, op, s');
    } else {
      TornWriteGoesOn(crc, s, op, s');
    }
  }

  /** The call is about this upload, and the upload goes on after it. */
  predicate GoesOn(op: Op, id: nat) {
    (op.Begin? || op.Sync? || op.Write? || op.TornWrite?) && op.id == id
  }

  lemma OtherIsListed(crc: Crc, s: Trunk, op: Op, s': Trunk, id: nat)
    requires OpStep(crc, s, op, s') && id in s'.active && !GoesOn(op, id)
    ensures id in s.active && s'.active[id] == s.active[id]
    ensures OnUpload(s, op) ==> op.id != id
  {
  }

  lemma OtherSlot(crc: Crc, slots: set<Slot>, s: Trunk, op: Op, s': Trunk, id: nat)
    requires (forall a, b :: Distinct(s, a, b)) && OpStep(crc, s, op, s') && Allowed(slots, s, op) && !op.Refuse?
    requires id in s.active && (OnUpload(s, op) ==> op.id != id)
    ensures s.active[id].slot != SlotOf(s, op)
  {
    if OnUpload(s, op) {
      assert Distinct(s, id, op.id);
    } else {
      assert !Busy(s, op.slot);
    }
  }

  lemma OtherGoesOn(crc: Crc, slots: set<Slot>, s: Trunk, op: Op, s': Trunk, id: nat)
    requires Inv(crc, slots, s) && OpStep(crc, s, op, s') && Allowed(slots, s, op)
    requires id in s.active && (OnUpload(s, op) ==> op.id != id)
    ensures Begun(crc, s'.bytes, s.active[id])
  {
    var u := s.active[id];
    if !op.Refuse? {
      assert |s'.bytes| == |s.bytes| && Region(s'.bytes, u.slot) == Region(s.bytes, u.slot) by {
        OtherSlot(crc, slots, s, op, s', id);
        ElsewhereStays(crc, slots, s, op, s', u.slot);
      }
      BegunElsewhere(crc, s.bytes, s'.bytes, u);
    }
  }

  lemma UploadGoesOn(crc: Crc, slots: set<Slot>, s: Trunk, op: Op, s': Trunk, id: nat)
    requires Inv(crc, slots, s) && OpStep(crc, s, op, s') && Allowed(slots, s, op) && id in s'.active
    ensures s'.active[id].slot in slots && Begun(crc, s'.bytes, s'.active[id])
    ensures if (op.Begin? || op.Sync?) && op.id == id then id !in s.active && s'.active[id].slot == op.slot
            else id in s.active && s'.active[id].slot == s.active[id].slot
  {
    if !GoesOn(op, id) {
      OtherIsListed(crc, s, op, s', id);
      OtherGoesOn(crc, slots, s, op, s', id);
    } else if op.Begin? || op.Sync? {
      BeginBegins(crc, s, op, s');
    } else {
      WriteGoesOn(crc, s, op, s');
    }
  }

  lemma StaysDistinct(crc: Crc, slots: set<Slot>, s: Trunk, op: Op, s': Trunk, a: nat, b: nat)
    requires Inv(crc, slots, s) && OpStep(crc, s, op, s') && Allowed(slots, s, op)
    ensures Distinct(s', a, b)
  {
    if a in s'.active && b in s'.active && a != b {
      UploadGoesOn(crc, slots, s, op, s', a);
      UploadGoesOn(crc, slots, s, op, s', b);
      assert Distinct(s, a, b);
      assert op.Begin? || op.Sync? ==> !Busy(s, op.slot);
    }
  }

  lemma StepKeepsInv(crc: Crc, slots: set<Slot>, s: Trunk, op: Op, s': Trunk)
    requires Inv(crc, slots, s) && OpStep(crc, s, op, s') && Allowed(slots, s, op)
    ensures Inv(crc, slots, s')
  {
    assert |s'.bytes| == |s.bytes| by {
      StaysInSlot(crc, s, op, s');
    }
    forall id | id in s'.active ensures s'.active[id].slot in slots && Begun(crc, s'.bytes, s'.active[id]) {
      UploadGoesOn(crc, slots, s, op, s', id);
    }
    forall a, b ensures Distinct(s', a, b) {
      StaysDistinct(crc, slots, s, op, s', a, b);
    }
  }

  lemma {:induction false} HistoryKeepsInv(crc: Crc, slots: set<Slot>, states: seq<Trunk>, ops: seq<Op>, k: nat)
    requires IsHistory(crc, slots, states, ops) && k < |states|
    ensures Inv(crc, slots, states[k])
  {
    if k > 0 {
      HistoryKeepsInv(crc, slots, states, ops, k - 1);
      StepKeepsInv(crc, slots, states[k - 1], ops[k - 1], states[k]);
    }
  }

  /** A finished file in a slot that nobody writes to. */
  ghost predicate AtRest(crc: Crc, s: Trunk, slot: Slot, job: Job) {
    Holds(crc, s.bytes, slot, job) && !Busy(s, slot)
  }

  /** The call may change a slot that is taken and at rest: it deletes the file or copies another over it. */
  predicate Replaces(op: Op, slot: Slot) {
    (op.Delete? || op.Sync?) && op.slot == slot
  }

  /** No call but its own deletion or a copy over it changes a taken slot at rest; no upload begins in it. */
  lemma TakenStays(crc: Crc, slots: set<Slot>, s: Trunk, op: Op, s': Trunk, slot: Slot)
    requires Inv(crc, slots, s) && OpStep(crc, s, op, s') && Allowed(slots, s, op) && slot in slots
    requires !Free(Head(s.bytes, slot)) && !Busy(s, slot) && !Replaces(op, slot)
    ensures |s'.bytes| == |s.bytes| && Region(s'.bytes, slot) == Region(s.bytes, slot)
    ensures !Busy(s', slot) && !(op.Begin? && op.slot == slot)
  {
    if SlotOf(s, op) == slot {
      assert !OnUpload(s, op);
    } else {
      ElsewhereStays(crc, slots, s, op, s', slot);
      StaysIdle(crc, s, op, s', slot);
    }
  }

  lemma StaysIdle(crc: Crc, s: Trunk, op: Op, s': Trunk, slot: Slot)
    requires OpStep(crc, s, op, s') && !Busy(s, slot) && SlotOf(s, op) != slot
    ensures !Busy(s', slot)
  {
    forall id | id in s'.active ensures s'.active[id].slot != slot {
      if !GoesOn(op, id) {
        OtherIsListed(crc, s, op, s', id);
      }
    }
  }

  /** An upload that was checked keeps its slot free until it is completed, so a taken slot is at rest unless
      a copy is being written to it. */
  lemma TakenIsIdle(crc: Crc, slots: set<Slot>, s: Trunk, slot: Slot)
    requires Inv(crc, slots, s) && slot in slots && !Free(Head(s.bytes, slot))
    requires forall id | id in s.active && s.active[id].slot == slot :: !s.active[id].sync
    ensures !Busy(s, slot)
  {
    forall id | id in s.active ensures s.active[id].slot != slot {
      assert Begun(crc, s.bytes, s.active[id]);
    }
  }

  /** So nothing but these touches a finished file whose header shows. */
  lemma FileStays(crc: Crc, slots: set<Slot>, s: Trunk, op: Op, s': Trunk, slot: Slot, job: Job)
    requires Inv(crc, slots, s) && OpStep(crc, s, op, s') && Allowed(slots, s, op) && slot in slots
    requires AtRest(crc, s, slot, job) && !Free(Pack(HeaderOf(crc, slot, job))) && !Replaces(op, slot)
    ensures AtRest(crc, s', slot, job) && !(op.Begin? && op.slot == slot)
  {
    TakenStays(crc, slots, s, op, s', slot);
    HoldsElsewhere(crc, s.bytes, s'.bytes, slot, job);
  }

  lemma EndedIsIdle(crc: Crc, s: Trunk, op: Op, s': Trunk)
    requires (forall a, b :: Distinct(s, a, b)) && OpStep(crc, s, op, s') && op.Complete?
    ensures !Busy(s', s.active[op.id].slot)
  {
    forall id | id in s'.active ensures s'.active[id].slot != s.active[op.id].slot {
      assert Distinct(s, id, op.id);
    }
  }

  lemma CompleteRests(crc: Crc, slots: set<Slot>, s: Trunk, op: Op, s': Trunk)
    requires Inv(crc, slots, s) && OpStep(crc, s, op, s') && op.Complete?
    ensures AtRest(crc, s', s.active[op.id].slot, s.active[op.id].job)
  {
    EndedIsIdle(crc, s, op, s');
    Completed(crc, s.bytes, s.active[op.id]);
  }

  lemma FileStaysAt(crc: Crc, slots: set<Slot>, states: seq<Trunk>, ops: seq<Op>, k: nat, slot: Slot, job: Job)
    requires IsHistory(crc, slots, states, ops) && k < |ops| && slot in slots
    requires AtRest(crc, states[k], slot, job) && !Free(Pack(HeaderOf(crc, slot, job))) && !Replaces(ops[k], slot)
    ensures AtRest(crc, states[k + 1], slot, job) && !(ops[k].Begin? && ops[k].slot == slot)
  {
    HistoryKeepsInv(crc, slots, states, ops, k);
    FileStays(crc, slots, states[k], ops[k], states[k + 1], slot, job);
  }

  lemma {:induction false} FileSurvives(crc: Crc, slots: set<Slot>, states: seq<Trunk>, ops: seq<Op>, i: nat, j: nat,
                                        slot: Slot, job: Job)
    requires IsHistory(crc, slots, states, ops) && i <= j < |states| && slot in slots
    requires AtRest(crc, states[i], slot, job) && !Free(Pack(HeaderOf(crc, slot, job)))
    requires forall k | i <= k < j :: !Replaces(ops[k], slot)
    ensures AtRest(crc, states[j], slot, job)
    decreases j - i
  {
    if i < j {
      FileStaysAt(crc, slots, states, ops, i, slot, job);
      FileSurvives(crc, slots, states, ops, i + 1, j, slot, job);
    }
  }

  /** Over all interleavings of the calls of any number of uploads, copies and deletions: a file that is
      completed and whose header shows keeps its header and all of its bytes, and no upload begins in its
      slot, until the slot is deleted or a copy from another server is written to it. */
  lemma StoredFileSurvives(crc: Crc, slots: set<Slot>, states: seq<Trunk>, ops: seq<Op>, i: nat, j: nat)
    requires IsHistory(crc, slots, states, ops) && i < j < |states|
    requires ops[i].Complete? && OpStep(crc, states[i], ops[i], states[i + 1])
    requires var u := states[i].active[ops[i].id];
      !Free(Pack(HeaderOf(crc, u.slot, u.job))) && forall k | i < k < j :: !Replaces(ops[k], u.slot)
    ensures var u := states[i].active[ops[i].id];
      && Holds(crc, states[j].bytes, u.slot, u.job)
      && (j < |ops| ==> !(ops[j].Begin? && ops[j].slot == u.slot))
  {
    var u := states[i].active[ops[i].id];
    HistoryKeepsInv(crc, slots, states, ops, i);
    CompleteRests(crc, slots, states[i], ops[i], states[i + 1]);
    FileSurvives(crc, slots, states, ops, i + 1, j, u.slot, u.job);
    if j < |ops| && !Replaces(ops[j], u.slot) {
      FileStaysAt(crc, slots, states, ops, j, u.slot, u.job);
    }
  }

  /** The bytes at a place of the trunk file. */
  predicate Reads(t: seq<Byte>, o: Slot, bytes: seq<Byte>) {
    o.offset + o.size <= |t| && Region(t, o) == bytes
  }

  lemma ReadsStays(crc: Crc, slots: set<Slot>, s: Trunk, op: Op, s': Trunk, o: Slot, bytes: seq<Byte>)
    requires Inv(crc, slots, s) && OpStep(crc, s, op, s') && Allowed(slots, s, op)
    requires Reads(s.bytes, o, bytes) && Apart(SlotOf(s, op), o)
    ensures Reads(s'.bytes, o, bytes)
  {
    StaysInSlot(crc, s, op, s');
    OtherSlotStays(s.bytes, s'.bytes, SlotOf(s, op), o);
  }

  /** The call works outside a place of the trunk file. */
  predicate WorksOutside(s: Trunk, op: Op, o: Slot) {
    (NamesSlot(op) || OnUpload(s, op)) && Apart(SlotOf(s, op), o)
  }

  lemma ReadsStaysAt(crc: Crc, slots: set<Slot>, states: seq<Trunk>, ops: seq<Op>, k: nat, o: Slot, bytes: seq<Byte>)
    requires IsHistory(crc, slots, states, ops) && k < |ops| && Reads(states[k].bytes, o, bytes)
    requires WorksOutside(states[k], ops[k], o)
    ensures Reads(states[k + 1].bytes, o, bytes)
  {
    HistoryKeepsInv(crc, slots, states, ops, k);
    ReadsStays(crc, slots, states[k], ops[k], states[k + 1], o, bytes);
  }

  /** A part of the trunk file that lies outside the slots of some calls is not changed by them. */
  lemma {:induction false} OutsideStays(crc: Crc, slots: set<Slot>, states: seq<Trunk>, ops: seq<Op>, i: nat, j: nat,
                                        o: Slot, bytes: seq<Byte>)
    requires IsHistory(crc, slots, states, ops) && i <= j < |states| && Reads(states[i].bytes, o, bytes)
    requires forall k | i <= k < j :: WorksOutside(states[k], ops[k], o)
    ensures Reads(states[j].bytes, o, bytes)
    decreases j - i
  {
    if i < j {
      ReadsStaysAt(crc, slots, states, ops, i, o, bytes);
      OutsideStays(crc, slots, states, ops, i + 1, j, o, bytes);
    }
  }

  /** An upload that ends without its file leaves its slot free, exactly unless part of its header shows; so
      does a copy into a free slot. */
  lemma EndedIsFreeIff(crc: Crc, slots: set<Slot>, s: Trunk, op: Op, s': Trunk)
    requires Inv(crc, slots, s) && OpStep(crc, s, op, s') && (op.Abort? || op.TornHeader?)
    requires var u := s.active[op.id]; u.sync ==> Free(Head(s.bytes, u.slot))
    ensures var u := s.active[op.id];
      && Fits(s'.bytes, u.slot, u.job)
      && (Free(Head(s'.bytes, u.slot)) <==> !(op.TornHeader? && Shows(HeaderOf(crc, u.slot, u.job), op.n)))
  {
    var u := s.active[op.id];
    if op.Abort? {
      assert op.zeroes ==> Head(s'.bytes, u.slot) == Zeros(HEADER);
      FreeBytes(Zeros(HEADER));
    } else {
      Completed(crc, s.bytes, u);
      HeaderPart(s.bytes, u.slot, FinalHeader(crc, u), op.n);
    }
  }

  /** Such an end: 17 bytes of the header hold the whole time stamp, and the slot stays taken without a file. */
  lemma TornHeaderTakesSlot(crc: Crc, slots: set<Slot>, s: Trunk, id: nat, s': Trunk)
    requires Inv(crc, slots, s) && OpStep(crc, s, TornHeader(id, 17), s')
    requires var u := s.active[id]; !u.sync && u.job.stamp % WIDTH != 0
    ensures var u := s.active[id]; Fits(s'.bytes, u.slot, u.job) && !Free(Head(s'.bytes, u.slot))
  {
    var u := s.active[id];
    EndedIsFreeIff(crc, slots, s, TornHeader(id, 17), s');
    StampShows(HeaderOf(crc, u.slot, u.job));
  }

  lemma StampShows(h: Header)
    requires |h.ext| == EXT && h.mtime % WIDTH != 0
    ensures Shows(h, 17)
  {
    var b := Int2Buff(h.mtime);
    ZeroBytes(h.mtime);
    assert Pack(h)[13..17] == b;
    var i :| 0 <= i < 4 && b[i] != 0;
    assert Pack(h)[13 + i] == b[i];
  }

  /** A stored file can be overwritten by a later upload exactly when its crc, time and extension are zero. */
  lemma OverwritableIff(crc: Crc, s: Trunk, slot: Slot, job: Job, id: nat, other: Job)
    requires AtRest(crc, s, slot, job) && id !in s.active && Fits(s.bytes, slot, other)
    ensures (exists s' :: OpStep(crc, s, Begin(id, slot, other), s')) <==>
      Sum(crc, job.data) % WIDTH == 0 && job.stamp % WIDTH == 0 && job.ext == Zeros(EXT)
  {
    PackedFreeIff(HeaderOf(crc, slot, job));
    if Free(Head(s.bytes, slot)) {
      assert OpStep(crc, s, Begin(id, slot, other), s.(active := s.active[id := SlotWrite(slot, other, false, [],
        crc.init)]));
    }
  }

  lemma DataReplaced(crc: Crc, t: seq<Byte>, s: Slot, a: Job, data: seq<Byte>)
    requires s.offset + HEADER + |data| <= |t| && |data| == |a.data| && data != a.data
    ensures !Holds(crc, WrittenAt(t, s.offset + HEADER, data), s, a)
  {
    var from := s.offset + HEADER;
    WrittenSlices(t, from, data, from, from);
    assert t[from..from] + data == data;
    assert WrittenAt(t, from, data)[from..from + |data|] == data;
  }

  /** A write that is begun in the slot of another file replaces its data. */
  lemma FirstChunkOverwrites(crc: Crc, s: Trunk, id: nat, a: Job) returns (lost: Trunk)
    requires id in s.active && Fits(s.bytes, s.active[id].slot, s.active[id].job) && s.active[id].sent == []
    requires |s.active[id].job.data| == |a.data| && s.active[id].job.data != a.data
    ensures OpStep(crc, s, Write(id, s.active[id].job.data), lost) && !Holds(crc, lost.bytes, s.active[id].slot, a)
  {
    var u := s.active[id];
    lost := CanWriteAll(crc, s, id);
    DataReplaced(crc, s.bytes, u.slot, a, u.job.data);
  }

  lemma CanWriteAll(crc: Crc, s: Trunk, id: nat) returns (next: Trunk)
    requires id in s.active && Fits(s.bytes, s.active[id].slot, s.active[id].job) && s.active[id].sent == []
    ensures OpStep(crc, s, Write(id, s.active[id].job.data), next)
    ensures next.bytes == WrittenAt(s.bytes, DataAt(s.active[id]), s.active[id].job.data)
  {
    var u := s.active[id];
    var data := u.job.data;
    assert u.sent + data == data;
    next := Trunk(WrittenAt(s.bytes, DataAt(u), data),
                  s.active[id := u.(sent := u.sent + data, value := Fold(crc, u.value, data))]);
  }

  /** One upload at a time is needed: with two in one slot, the second writes over the file that the first
      has completed. */
  lemma SharedSlotLosesData(crc: Crc, s: Trunk, a: Job, first: nat, second: nat)
    returns (stored: Trunk, lost: Trunk)
    requires first != second && first in s.active && second in s.active
    requires Begun(crc, s.bytes, s.active[first]) && s.active[first].job == a && s.active[first].sent == a.data
    requires Begun(crc, s.bytes, s.active[second]) && s.active[second].sent == []
    requires s.active[second].slot == s.active[first].slot
    requires |s.active[second].job.data| == |a.data| && s.active[second].job.data != a.data
    ensures OpStep(crc, s, Complete(first), stored) && Holds(crc, stored.bytes, s.active[first].slot, a)
    ensures OpStep(crc, stored, Write(second, s.active[second].job.data), lost)
    ensures !Holds(crc, lost.bytes, s.active[first].slot, a)
  {
    stored := CanComplete(crc, s, first);
    lost := FirstChunkOverwrites(crc, stored, second, a);
  }

  lemma CanComplete(crc: Crc, s: Trunk, id: nat) returns (stored: Trunk)
    requires id in s.active && Begun(crc, s.bytes, s.active[id]) && s.active[id].sent == s.active[id].job.data
    ensures OpStep(crc, s, Complete(id), stored) && stored.active == s.active - {id} && |stored.bytes| == |s.bytes|
    ensures Holds(crc, stored.bytes, s.active[id].slot, s.active[id].job)
  {
    var u := s.active[id];
    stored := Trunk(WrittenAt(s.bytes, u.slot.offset, Pack(FinalHeader(crc, u))), s.active - {id});
    Completed(crc, s.bytes, u);
  }

  /** A copy from another server is written over a stored file, since its slot is not checked. */
  lemma SyncOverwrites(crc: Crc, slots: set<Slot>, s: Trunk, slot: Slot, a: Job, b: Job, id: nat)
    returns (begun: Trunk, lost: Trunk)
    requires AtRest(crc, s, slot, a) && slot in slots && id !in s.active && Fits(s.bytes, slot, b)
    requires |b.data| == |a.data| && b.data != a.data
    ensures OpStep(crc, s, Sync(id, slot, b), begun) && Allowed(slots, s, Sync(id, slot, b))
    ensures OpStep(crc, begun, Write(id, b.data), lost) && Allowed(slots, begun, Write(id, b.data))
    ensures !Holds(crc, lost.bytes, slot, a)
  {
    begun := s.(active := s.active[id := SlotWrite(slot, b, true, [], crc.init)]);
    lost := FirstChunkOverwrites(crc, begun, id, a);
  }
}
