/** One recovery thread as the loop it is: read, handle, checkpoint, reconnect, resume. */
module RecoveryThread {
  import opened Options
  import opened BinlogText
  import opened Replay
  import opened RecoveryLog
  import opened RecoveryState

  /** What the surroundings do at one turn of the loop: whether mark file and log open, whether the peer
      accepts a connection, how a download ends (broken off after some bytes, perhaps none), and whether a
      mark file is written. */
  datatype Event = Event(opens: bool, connects: bool, broken: Option<seq<bv8>>, saves: bool)

  /** A schedule without faults. */
  predicate Healthy(events: seq<Event>) {
    forall e | e in events :: e.opens && e.connects && e.broken.None?
  }

  /** The files and the mark file of a thread. The event list is a schedule; its end is a stop request. */
  class Thread {
    const w: World
    const log: seq<Record>
    var mark: int
    var local: Files
    var done: bool

    constructor (w: World, log: seq<Record>, local: Files)
      requires Sound(w.names, w.source, log) && Clean(w.names, log)
      ensures this.w == w && this.log == log && this.local == local && mark == 0 && !done
      ensures Resumable(Paths(w.names, log), local)
    {
      this.w, this.log, this.local, mark, done := w, log, local, 0, false;
      new;
      StartCovers(w, log, local);
    }

    /** Handling the log from `offset` on completes the recovery. */
    ghost predicate Reached(offset: int, goal: set<Path>, base: Files)
      reads this
    {
      Covers(w, map[0 := log], local, goal, base, [offset])
    }

    /** The thread can be started, or started again after any crash, from here. */
    ghost predicate Resumable(goal: set<Path>, base: Files)
      reads this
    {
      Reached(mark, goal, base)
    }

    /** The records from an offset on. */
    function Unread(offset: int): seq<Record> {
      Tail(w.names, map[0 := log], 0, offset)
    }

    method SaveMark(offset: int, saves: bool)
      modifies this`mark
      ensures mark == if saves then offset else old(mark)
    {
      if saves {
        mark := offset;
      }
    }

    /** recovery_download_file_to_local: a download into an absent file is written in place, one over
        an existing file goes to a temporary name first. */
    method Download(p: Path, broken: Option<seq<bv8>>) returns (ok: bool)
      modifies this`local
      ensures ok == !(p in w.source && w.source[p].File? && broken.Some?)
      ensures ok ==> local == Apply(w.source, FileAt(p), old(local))
      ensures !ok ==> local == if p in old(local) then old(local) else old(local)[p := File(broken.value)]
    {
      ok := true;
      if p in w.source && w.source[p].File? {
        if broken.None? {
          local := local[p := w.source[p]];
        } else {
          ok := false;
          if p !in local {
            local := local[p := File(broken.value)];
          }
        }
      }
    }

    /** Handles the record at the reader, or leaves the reader there when a download breaks off. */
    method HandleOne(offset: int, event: Event, ghost goal: set<Path>, ghost base: Files) returns (next: int)
      requires Resumable(goal, base) && Reached(offset, goal, base) && mark <= offset
      requires Unread(offset) != [] && !EffectOf(w.names, Unread(offset)[0]).Stop?
      modifies this`local
      ensures Resumable(goal, base) && Reached(next, goal, base) && offset <= next
      ensures next == offset ==> event.broken.Some?
      ensures next > offset ==> Unread(next) == Unread(offset)[1..]
    {
      var r := Unread(offset)[0];
      var e := EffectOf(w.names, r);
      ghost var before := local;
      var ok := true;
      if e.FileAt? {
        ok := Download(e.path, event.broken);
      } else if e.LinkAt? && e.path !in local {
        local := local[e.path := Link(e.target)];
      }
      if ok {
        next := offset + Size(w.names, r);
        HandleCovers(w, map[0 := log], before, goal, base, [offset], 0);
        RestAdvances(w.names, log, offset);
        assert [offset][0 := next] == [next];
      } else {
        next := offset;
        DamageCovers(w, map[0 := log], before, goal, base, [offset], 0, e.path, event.broken.value);
      }
      FallBack(next, goal, base);
    }

    lemma FallBack(offset: int, goal: set<Path>, base: Files)
      requires Reached(offset, goal, base) && mark <= offset && Rest(w.names, log, mark).Some?
      ensures Resumable(goal, base)
    {
      CoversFromEarlier(w, map[0 := log], local, goal, base, [offset], [mark]);
    }

    lemma LogIsSound(offset: int, goal: set<Path>, base: Files)
      requires Reached(offset, goal, base)
      ensures Sound(w.names, w.source, log)
    {
      assert Rest(w.names, map[0 := log][0], [offset][0]).Some?;
    }

    lemma NoStop(offset: int, goal: set<Path>, base: Files)
      requires Reached(offset, goal, base)
      ensures Rest(w.names, log, offset).Some?
      ensures Unread(offset) != [] ==> !EffectOf(w.names, Unread(offset)[0]).Stop?
    {
      assert Rest(w.names, log, [offset][0]).Some?;
      RestIsSuffix(w.names, log, offset);
      assert Unread(offset) != [] ==> Unread(offset)[0] in log;
    }

    /** The mark that is written after a reader did not open: the offset it had, or 0. */
    method OpenFails(saves: bool, ghost goal: set<Path>, ghost base: Files)
      requires Resumable(goal, base)
      modifies this`mark
      ensures mark == (if saves then 0 else old(mark)) && Resumable(goal, base)
    {
      ghost var offset := mark;
      NoStop(offset, goal, base);
      RestIsSuffix(w.names, log, offset);
      SaveMark(0, saves);
      FallBack(offset, goal, base);
    }

    /** storage_do_recovery. For every schedule of failed opens and connections, broken downloads and lost
        mark writes: a thread that ends `done` leaves exactly what one uninterrupted replay of its log leaves,
        and one that ends otherwise can be resumed from its mark. */
    method DoRecovery(events: seq<Event>, ghost goal: set<Path>, ghost base: Files)
      requires Resumable(goal, base) && !done
      modifies this
      ensures Resumable(goal, base)
      ensures done ==> local == Restored(w.source, goal, base)
      ensures done && goal == Paths(w.names, log) ==> local == Replayed(w.names, w.source, log, base)
      ensures Healthy(events) && |events| >= |Unread(old(mark))| + 2 ==> done
    {
      LogIsSound(mark, goal, base);
      ReplayRestores(w.names, w.source, log, base);
      var at, count, go := 0, 0, true;
      var reader: Option<int> := None;
      while go
        invariant 0 <= at <= |events| && (go || at > 0)
        invariant Resumable(goal, base)
        invariant reader.Some? ==> mark <= reader.value && Reached(reader.value, goal, base)
        invariant done ==> !go && local == Restored(w.source, goal, base)
        invariant Healthy(events) && |events| >= |Unread(old(mark))| + 2 ==>
          done || (at == 0 && mark == old(mark) && reader.None?)
        decreases go, |events| - at
      {
        if at == |events| {
          break;
        }
        assert events[at] in events;
        if reader.None? {
          if !events[at].opens {
            OpenFails(events[at].saves, goal, base);
            break;
          }
          reader := Some(mark);
        }
        at := at + 1;
        if events[at - 1].connects {
          at, count, reader, go := ReplayLoop(events, at, count, reader.value, goal, base);
        }
      }
    }

    /** The inner loop, up to a broken download, the end of the log or a stop request, and the mark
        write after it. NoStop shows that a sound log has no record that ends the thread. */
    method ReplayLoop(events: seq<Event>, start: nat, handled: nat, from: int, ghost goal: set<Path>, ghost base: Files)
      returns (at: nat, count: nat, reader: Option<int>, go: bool)
      requires start <= |events| && !done
      requires Resumable(goal, base) && mark <= from
      requires Reached(from, goal, base)
      modifies this
      ensures start <= at <= |events|
      ensures Resumable(goal, base)
      ensures reader.Some? ==> mark <= reader.value && Reached(reader.value, goal, base)
      ensures done ==> !go && local == Restored(w.source, goal, base)
      ensures Healthy(events) && |events| - start > |Unread(from)| ==> done
    {
      var offset := from;
      at, count, go := start, handled, true;
      while at < |events|
        invariant start <= at <= |events| && mark <= offset && !done && go
        invariant Resumable(goal, base)
        invariant Reached(offset, goal, base)
        invariant |events| - start > |Unread(from)| && Healthy(events) ==> |events| - at > |Unread(offset)|
      {
        var event := events[at];
        assert event in events;
        at := at + 1;
        NoStop(offset, goal, base);
        if Unread(offset) == [] {
          done, go := true, false;
          AllReadRestores(w, map[0 := log], local, goal, base, [offset]);
          break;
        }
        var next := HandleOne(offset, event, goal, base);
        if next == offset {
          break;
        }
        offset := next;
        count := count + 1;
        if count == CHECKPOINT {
          SaveMark(offset, event.saves);
          count := 0;
        }
      }
      SaveMark(offset, start < at && events[at - 1].saves);
      reader := if at == |events| || !go then Some(offset) else None;
      go := go && at < |events|;
      count := 0;
    }
  }

  lemma StartCovers(w: World, log: seq<Record>, local: Files)
    requires Sound(w.names, w.source, log) && Clean(w.names, log)
    ensures Covers(w, map[0 := log], local, Paths(w.names, log), local, [0])
  {
    var logs, goal := map[0 := log], Paths(w.names, log);
    forall p
      ensures Settled(w, local, goal, local, p) || (Midway(w, local, local, p) && Pending(w, logs, [0], p))
    {
      if p in goal {
        assert p in Paths(w.names, Tail(w.names, logs, 0, [0][0]));
      }
    }
  }
}
