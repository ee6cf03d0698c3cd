/** Chunk-by-chunk writing of uploaded and appended files, with the clean-up after an abort. */
module FileWrite {
  import opened Options

  type Byte = b: int | 0 <= b < 256

  /** CRC32_XINIT, one byte of CRC32_ex, and CRC32_FINAL. */
  datatype Crc = Crc(init: int, step: (int, Byte) -> int, finish: int -> int)

  function Fold(crc: Crc, value: int, data: seq<Byte>): int {
    if data == [] then value else crc.step(Fold(crc, value, data[..|data| - 1]), data[|data| - 1])
  }

  /** The CRC of a whole file. */
  function Sum(crc: Crc, data: seq<Byte>): int {
    crc.finish(Fold(crc, crc.init, data))
  }

  /** A CRC does not depend on where the data is cut. */
  lemma {:induction false} FoldConcat(crc: Crc, value: int, a: seq<Byte>, b: seq<Byte>)
    ensures Fold(crc, value, a + b) == Fold(crc, Fold(crc, value, a), b)
    decreases |b|
  {
    if b == [] {
      assert a + b == a;
    } else {
      assert (a + b)[..|a + b| - 1] == a + b[..|b| - 1];
      FoldConcat(crc, value, a, b[..|b| - 1]);
    }
  }

  function Concat(chunks: seq<seq<Byte>>): seq<Byte> {
    if chunks == [] then [] else Concat(chunks[..|chunks| - 1]) + chunks[|chunks| - 1]
  }

  /** A file after `data` was written at a position inside it or at its end. */
  function WrittenAt(file: seq<Byte>, pos: nat, data: seq<Byte>): seq<Byte>
    requires pos <= |file|
  {
    file[..pos] + data + (if pos + |data| <= |file| then file[pos + |data|..] else [])
  }

  datatype Mode = Upload | Append

  datatype Fault = NoFault | OpenFails | ShortWrite(at: nat, written: nat) | Disconnect(after: nat)

  datatype Outcome = Continues | Completes | Fails

  /** What an aborted task leaves: `sent` is what it had written in whole chunks, `part` what the
      failing write had written of its chunk. */
  function Leftover(mode: Mode, before: seq<Byte>, descriptor: nat, sent: seq<Byte>,
                    part: seq<Byte>): Option<seq<Byte>> {
    match mode
    case Upload => if descriptor > 0 then None else Some(sent + part)
    case Append => if descriptor > 0 && sent != [] then Some(before) else Some(before + sent + part)
  }

  /** A payload cut into chunks: nothing follows the chunk that completes it. */
  ghost predicate Cut(chunks: seq<seq<Byte>>, length: nat) {
    && chunks != [] && |Concat(chunks)| == length
    && forall k | 0 < k < |chunks| :: |Concat(chunks[..k])| < length
  }

  lemma {:induction false} ConcatPrefix(chunks: seq<seq<Byte>>, i: nat)
    requires i <= |chunks|
    ensures |Concat(chunks[..i])| <= |Concat(chunks)|
    decreases |chunks| - i
  {
    if i == |chunks| {
      assert chunks[..i] == chunks;
    } else {
      assert chunks[..i + 1][..i] == chunks[..i];
      ConcatPrefix(chunks, i + 1);
    }
  }

  lemma CutPrefix(chunks: seq<seq<Byte>>, length: nat, i: nat)
    requires Cut(chunks, length) && i < |chunks|
    ensures Concat(chunks[..i + 1]) == Concat(chunks[..i]) + chunks[i]
    ensures |Concat(chunks[..i + 1])| <= length
    ensures i > 0 ==> |Concat(chunks[..i])| < length
    ensures i + 1 == |chunks| <==> |Concat(chunks[..i + 1])| == length
    ensures i + 1 == |chunks| ==> Concat(chunks[..i + 1]) == Concat(chunks)
  {
    assert chunks[..i + 1][..i] == chunks[..i];
    ConcatPrefix(chunks, i + 1);
    if i + 1 == |chunks| {
      assert chunks[..i + 1] == chunks;
    }
  }

  /** The fault happens before the last chunk is written. */
  predicate Strikes(fault: Fault, chunks: seq<seq<Byte>>) {
    match fault
    case NoFault => false
    case OpenFails => true
    case ShortWrite(at, written) => at < |chunks| && written < |chunks[at]|
    case Disconnect(after) => after < |chunks|
  }

  /** The fault hits chunk i. */
  predicate HitsAt(fault: Fault, chunks: seq<seq<Byte>>, i: nat)
    requires i < |chunks|
  {
    match fault
    case NoFault => false
    case OpenFails => i == 0
    case ShortWrite(at, written) => at == i && written < |chunks[i]|
    case Disconnect(after) => after == i
  }

  lemma HitsSomewhere(fault: Fault, chunks: seq<seq<Byte>>) returns (k: nat)
    requires chunks != [] && Strikes(fault, chunks)
    ensures k < |chunks| && HitsAt(fault, chunks, k)
  {
    k := if fault.ShortWrite? then fault.at else if fault.Disconnect? then fault.after else 0;
  }

  lemma HitsNowhere(fault: Fault, chunks: seq<seq<Byte>>)
    requires chunks != [] && forall k | 0 <= k < |chunks| :: !HitsAt(fault, chunks, k)
    ensures !Strikes(fault, chunks)
  {
    if Strikes(fault, chunks) {
      var k := HitsSomewhere(fault, chunks);
    }
  }

  /** What a struck transfer leaves. */
  function Aborted(mode: Mode, before: Option<seq<Byte>>, descriptor: nat, chunks: seq<seq<Byte>>,
                   fault: Fault): Option<seq<Byte>>
    requires Strikes(fault, chunks)
  {
    var base := if mode.Append? && before.Some? then before.value else [];
    match fault
    case OpenFails => before
    case ShortWrite(at, written) => Leftover(mode, base, descriptor, Concat(chunks[..at]), chunks[at][..written])
    case Disconnect(after) =>
      if after == 0 then before else Leftover(mode, base, descriptor, Concat(chunks[..after]), [])
  }

  /** An aborted upload of a new file leaves nothing, exactly unless the file was opened on descriptor 0,
      which the clean-up takes for closed. */
  lemma AbortedUploadIff(descriptor: nat, chunks: seq<seq<Byte>>, fault: Fault)
    requires Strikes(fault, chunks)
    ensures Aborted(Upload, None, descriptor, chunks, fault).None?
       <==> descriptor > 0 || fault.OpenFails? || fault == Disconnect(0)
  {
  }

  /** Such an abort: a client that goes away after the first of several chunks leaves that chunk behind. */
  lemma DescriptorZeroStays(chunks: seq<seq<Byte>>)
    requires |chunks| > 1
    ensures Strikes(Disconnect(1), chunks)
    ensures Aborted(Upload, None, 0, chunks, Disconnect(1)) == Some(chunks[0])
  {
    assert chunks[..1][..0] == [];
    assert Concat(chunks[..1]) == Concat(chunks[..1][..0]) + chunks[..1][0];
    assert Concat(chunks[..1]) == chunks[0] && chunks[0] + [] == chunks[0];
  }

  /** An aborted append restores the old content, exactly when the file was not touched yet or the
      truncating clean-up runs: a first chunk that is written in part stays behind. */
  lemma AbortedAppendIff(before: seq<Byte>, descriptor: nat, chunks: seq<seq<Byte>>, fault: Fault)
    requires Strikes(fault, chunks)
    ensures Aborted(Append, Some(before), descriptor, chunks, fault) == Some(before) <==>
      match fault
      case ShortWrite(at, written) =>
        if Concat(chunks[..at]) == [] then written == 0 else descriptor > 0
      case Disconnect(after) => Concat(chunks[..after]) == [] || descriptor > 0
      case _ => true
  {
    var sent := match fault
      case ShortWrite(at, _) => Concat(chunks[..at])
      case Disconnect(after) => Concat(chunks[..after])
      case _ => [];
    var part := if fault.ShortWrite? then chunks[fault.at][..fault.written] else [];
    assert |before + sent + part| == |before| + |sent| + |part|;
    assert sent == [] && part == [] ==> before + sent + part == before;
  }

  /** Such an abort: part of the first chunk is written, and the appended bytes stay in the file. */
  lemma PartOfFirstChunkStays(before: seq<Byte>, descriptor: nat, chunks: seq<seq<Byte>>, written: nat)
    requires chunks != [] && 0 < written < |chunks[0]|
    ensures Strikes(ShortWrite(0, written), chunks)
    ensures Aborted(Append, Some(before), descriptor, chunks, ShortWrite(0, written)) == Some(before
      + chunks[0][..written])
    ensures before + chunks[0][..written] != before
  {
    assert before + Concat(chunks[..0]) + chunks[0][..written] == before + chunks[0][..written];
    assert |before + chunks[0][..written]| > |before|;
  }

  class WriteTask {
    const crc: Crc
    const mode: Mode
    const descriptor: nat
    const start: nat
    const end: nat
    ghost const before: Option<seq<Byte>>
    var file: Option<seq<Byte>>
    var pos: nat
    var fd: int
    var offset: nat
    var value: int
    ghost var sent: seq<Byte>

    constructor (crc: Crc, mode: Mode, before: Option<seq<Byte>>, length: nat, descriptor: nat)
      requires mode.Append? ==> before.Some?
      ensures Valid() && fd < 0 && sent == [] && file == before
      ensures this.crc == crc && this.mode == mode && this.before == before && this.descriptor == descriptor
      ensures end == start + length
    {
      var from := if mode.Append? then |before.value| else 0;
      this.crc, this.mode, this.before, this.descriptor := crc, mode, before, descriptor;
      start, end, offset, pos := from, from + length, from, 0;
      file, fd, value, sent := before, -1, crc.init, [];
    }

    /** The content the task writes behind. */
    ghost function Base(): seq<Byte> {
      if mode.Append? && before.Some? then before.value else []
    }

    ghost predicate Valid()
      reads this
    {
      && (mode.Append? ==> before.Some?)
      && start == |Base()| && offset == start + |sent| && offset <= end
      && (fd < 0 ==> sent == [] && file == before && value == crc.init)
      && (fd >= 0 ==> fd == descriptor && file == Some(Base() + sent) && pos == offset
                      && value == Fold(crc, crc.init, sent))
    }

    /** dio_open_file. */
    method OpenFile()
      requires Valid() && fd < 0
      modifies this
      ensures Valid() && fd == descriptor && sent == []
    {
      fd := descriptor;
      if mode.Upload? {
        file := Some([]);
      }
      pos := if offset > 0 then offset else 0;
      assert Base() + sent == Base();
    }

    /** dio_write_finish_clean_up and dio_append_finish_clean_up. The file may end with `part`, the
        written bytes of a failed chunk. */
    method CleanUp(ghost part: seq<Byte>)
      requires mode.Append? ==> before.Some?
      requires start == |Base()| && offset == start + |sent|
      requires fd >= 0 ==> offset < end && fd == descriptor && file == Some(Base() + sent + part)
      modifies this
      ensures old(fd) < 0 ==> file == old(file)
      ensures old(fd) >= 0 ==> file == Leftover(mode, Base(), descriptor, old(sent), part)
    {
      if fd > 0 {
        if mode.Upload? {
          if offset < end {
            file := None;
          }
        } else if offset > start && offset < end {
          assert (Base() + sent + part)[..start] == Base();
          file := Some(file.value[..start]);
        }
        fd := -1;
      }
      assert mode.Upload? ==> Base() + sent + part == sent + part;
    }

    /** dio_write_file for one chunk, of which the kernel takes `written` bytes. */
    method WriteFile(chunk: seq<Byte>, opens: bool, written: nat) returns (r: Outcome)
      requires Valid() && (offset < end || fd < 0)
      requires offset + |chunk| <= end && written <= |chunk|
      modifies this
      ensures (r.Fails? <==> (old(fd) < 0 && !opens) || written < |chunk|)
      ensures r.Continues? ==> Valid() && fd >= 0 && sent == old(sent) + chunk && offset < end
      ensures !r.Fails? ==> offset == old(offset) + |chunk|
      ensures r.Completes? ==> offset == end && file == Some(Base() + old(sent) + chunk)
      ensures r.Completes? ==> value == Sum(crc, old(sent) + chunk)
      ensures r.Fails? && old(fd) < 0 && !opens ==> file == before
      ensures r.Fails? && (old(fd) >= 0 || opens)
        ==> file == Leftover(mode, Base(), descriptor, old(sent), chunk[..written])
    {
      if fd < 0 {
        if !opens {
          CleanUp([]);
          return Fails;
        }
        OpenFile();
      }
      ghost var content := Base() + sent;
      file := Some(WrittenAt(file.value, pos, chunk[..written]));
      assert file.value == content + chunk[..written];
      pos := pos + written;
      if written < |chunk| {
        CleanUp(chunk[..written]);
        return Fails;
      }
      assert chunk[..written] == chunk && content + chunk == Base() + (sent + chunk);
      FoldConcat(crc, crc.init, sent, chunk);
      value := UpdatedCrc(chunk);
      offset := offset + |chunk|;
      sent := sent + chunk;
      if offset < end {
        r := Continues;
      } else {
        value := crc.finish(value);
        fd := -1;
        r := Completes;
      }
    }

    /** The call for chunk i, unless the client is gone by then. */
    method SendChunk(chunks: seq<seq<Byte>>, i: nat, fault: Fault) returns (r: Outcome)
      requires Valid() && i < |chunks| && Cut(chunks, end - start) && (fault.OpenFails? ==> i == 0)
      requires sent == Concat(chunks[..i]) && (i == 0 <==> fd < 0)
      modifies this
      ensures r.Fails? <==> HitsAt(fault, chunks, i)
      ensures r.Continues? ==> Valid() && fd >= 0 && sent == Concat(chunks[..i + 1]) && i + 1 < |chunks|
      ensures r.Completes? ==> file == Some(Base() + Concat(chunks)) && value == Sum(crc, Concat(chunks))
      ensures r.Completes? ==> i + 1 == |chunks|
      ensures r.Fails? ==> Strikes(fault, chunks) && file == Aborted(mode, before, descriptor, chunks, fault)
    {
      CutPrefix(chunks, end - start, i);
      if fault.Disconnect? && fault.after == i {
        assert Base() + sent + [] == Base() + sent;
        CleanUp([]);
        return Fails;
      }
      var written := if fault.ShortWrite? && fault.at == i && fault.written < |chunks[i]|
                     then fault.written else |chunks[i]|;
      r := WriteFile(chunks[i], !fault.OpenFails?, written);
      assert Base() + Concat(chunks[..i]) + chunks[i] == Base() + (Concat(chunks[..i]) + chunks[i]);
    }

    /** A whole transfer, cut into chunks in any way and struck by at most one fault. */
    method Transfer(chunks: seq<seq<Byte>>, fault: Fault) returns (completed: bool)
      requires Valid() && fd < 0 && Cut(chunks, end - start)
      modifies this
      ensures completed <==> !Strikes(fault, chunks)
      ensures completed ==> file == Some(Base() + Concat(chunks)) && value == Sum(crc, Concat(chunks))
      ensures !completed ==> file == Aborted(mode, before, descriptor, chunks, fault)
    {
      var i := 0;
      while true
        invariant 0 <= i < |chunks|
        invariant Valid() && sent == Concat(chunks[..i]) && (i == 0 <==> fd < 0)
        invariant forall k | 0 <= k < i :: !HitsAt(fault, chunks, k)
        decreases |chunks| - i
      {
        assert fault.OpenFails? && i > 0 ==> HitsAt(fault, chunks, 0);
        var r := SendChunk(chunks, i, fault);
        if r.Fails? {
          return false;
        }
        i := i + 1;
        if r.Completes? {
          HitsNowhere(fault, chunks);
          return true;
        }
      }
    }

    /** CRC32_ex over one chunk. */
    function UpdatedCrc(chunk: seq<Byte>): int
      reads this
    {
      Fold(crc, value, chunk)
    }
  }
}
