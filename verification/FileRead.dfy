/** Chunk-by-chunk reading of a file range into a task buffer of fixed size. */
module FileRead {
  import opened FileWrite
  import opened Sequences

  /** The bytes of a range; a range of no bytes may lie anywhere. */
  function Slice(file: seq<Byte>, from: nat, to: nat): seq<Byte>
    requires from <= to && (from == to || to <= |file|)
  {
    if from == to then [] else file[from..to]
  }

  lemma SliceConcat(file: seq<Byte>, a: nat, b: nat, c: nat)
    requires a <= b <= c && (a == c || c <= |file|)
    ensures Slice(file, a, b) + Slice(file, b, c) == Slice(file, a, c)
  {
  }

  /** The packets sent so far and the buffer make up header and range. */
  lemma PacketAdded(sent: seq<seq<Byte>>, data: seq<Byte>, header: seq<Byte>, x: seq<Byte>, y: seq<Byte>)
    requires Concat(sent) + data == header + x
    ensures Concat(sent + [data + y]) == header + (x + y)
  {
    assert (sent + [data + y])[..|sent|] == sent;
    Regroup(Concat(sent), data, y);
    Regroup(header, x, y);
  }

  class ReadTask {
    const crc: Crc
    const file: seq<Byte>
    const end: nat
    const size: nat
    var offset: nat
    var data: seq<Byte>
    var value: int

    /** The buffer starts with the response header. */
    constructor (crc: Crc, file: seq<Byte>, start: nat, length: nat, size: nat, header: seq<Byte>)
      requires |header| <= size
      ensures this.crc == crc && this.file == file && end == start + length && this.size == size
      ensures offset == start && data == header && value == crc.init
    {
      this.crc, this.file, end, this.size := crc, file, start + length, size;
      offset, data, value := start, header, crc.init;
    }

    /** How much one call reads: what fits and what is left. */
    function Amount(): (n: nat)
      requires offset <= end && |data| <= size
      reads this
      ensures n <= end - offset && |data| + n <= size
      ensures n == end - offset || |data| + n == size
    {
      if size - |data| < end - offset then size - |data| else end - offset
    }

    /** dio_read_file: the file may not open or may turn out too short. */
    method ReadFile(opens: bool) returns (r: Outcome)
      requires offset <= end && |data| <= size
      modifies this
      ensures |data| <= size && old(offset) <= offset <= end
      ensures r.Fails? <==> !opens || (old(Amount()) > 0 && old(offset + Amount()) > |file|)
      ensures !r.Fails? ==> offset == old(offset + Amount()) && (offset == old(offset) || offset <= |file|)
      ensures !r.Fails? ==> data == old(data) + Slice(file, old(offset), offset)
      ensures r.Continues? ==> offset < end && value == Fold(crc, old(value), Slice(file, old(offset), offset))
      ensures r.Completes? ==> offset == end
      ensures r.Completes? ==> value == crc.finish(Fold(crc, old(value), Slice(file, old(offset), offset)))
    {
      var n := Amount();
      if !opens || (n > 0 && offset + n > |file|) {
        return Fails;
      }
      var bytes := Slice(file, offset, offset + n);
      value := Fold(crc, value, bytes);
      data := data + bytes;
      offset := offset + n;
      if offset < end {
        r := Continues;
      } else {
        value := crc.finish(value);
        r := Completes;
      }
    }

    /** A whole download, the buffer being sent and emptied between calls. */
    method Download(opens: bool) returns (ok: bool, sent: seq<seq<Byte>>)
      requires size > 0 && offset <= end && |data| <= size && value == crc.init
      modifies this
      ensures ok <==> opens && (old(offset) == end || end <= |file|)
      ensures forall packet | packet in sent :: |packet| <= size
      ensures ok ==> Concat(sent) == old(data) + Slice(file, old(offset), end)
      ensures ok ==> value == Sum(crc, Slice(file, old(offset), end))
    {
      ghost var start, header := offset, data;
      sent := [];
      while true
        invariant start <= offset <= end && |data| <= size
        invariant (offset == start || offset <= |file|) && (offset == end ==> start == end && sent == [])
        invariant forall packet | packet in sent :: |packet| <= size
        invariant Concat(sent) + data == header + Slice(file, start, offset)
        invariant value == Fold(crc, crc.init, Slice(file, start, offset))
        invariant sent != [] ==> opens && data == []
        decreases end - offset, |data|
      {
        ghost var at, buffer := offset, data;
        var r := ReadFile(opens);
        if r.Fails? {
          return false, sent;
        }
        SliceConcat(file, start, at, offset);
        FoldConcat(crc, crc.init, Slice(file, start, at), Slice(file, at, offset));
        PacketAdded(sent, buffer, header, Slice(file, start, at), Slice(file, at, offset));
        sent := sent + [data];
        if r.Completes? {
          return true, sent;
        }
        data := [];
        assert Concat(sent) + data == Concat(sent);
      }
    }
  }
}
