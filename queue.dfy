/**
  The command queue both pad drivers share in shape: a FIFO of entries, each an
  optional delay followed by an optional frame, drained by a single writer
  that pauses 700 ms after every write so that the pad is not overwhelmed.
  Timeouts are in milliseconds.
 */
module Queue {
  import opened Wrappers
  import opened Protocol

  /** A queued entry: a delay to wait first (0 for none), then a frame to write (None for a wait entry). */
  datatype Entry = Entry(timeout: nat, buffer: Option<seq<Byte>>)

  /** What the writer does to the device: write a frame, or pause for a number of milliseconds. */
  datatype Event = Write(frame: seq<Byte>) | Pause(ms: nat)

  /** The pause after every write. */
  const WriteSpacingMs: nat := 700
  /** The wait between starting the belt and setting its speed, so the speed beep follows the start beeps. */
  const StartDelayMs: nat := 2500

  // ---------------------------------------------------------------------------
  // Pushing

  /** The entry a push appends: the frame, if any, with its checksum fixed. */
  function Pushed(cmd: Option<seq<Byte>>, timeout: nat): (e: Entry)
    ensures e.timeout == timeout && e.buffer.Some? == cmd.Some?
    ensures e.buffer.Some? ==> Checksummed(e.buffer.value) && |e.buffer.value| == |cmd.value|
    ensures e.buffer.Some? ==> e.buffer.value == WithCrc(cmd.value)
  {
    match cmd
    case None => Entry(timeout, None)
    case Some(frame) =>
      WithCrcIdempotent(frame);
      Entry(timeout, Some(WithCrc(frame)))
  }

  function ChangeModeEntry(mode: Byte): Entry
  {
    Pushed(Some(ChangeModeFrame(mode)), 0)
  }

  function StartBeltEntry(): Entry
  {
    Pushed(Some(StartBeltFrame()), 0)
  }

  function ChangeSpeedEntry(tenths: Byte): Entry
  {
    Pushed(Some(ChangeSpeedFrame(tenths)), 0)
  }

  function AskStatsEntry(): Entry
  {
    Pushed(Some(AskStatsFrame()), 0)
  }

  function WaitEntry(ms: nat): Entry
  {
    Pushed(None, ms)
  }

  /**
    What a start request queues: a switch to manual mode only when the pad
    was last seen in standby (it ignores commands there), then start belt, a
    2.5 s wait, and the target speed.
   */
  function StartEntries(mode: Byte, target: Byte): seq<Entry>
  {
    (if mode == ModeStandby then [ChangeModeEntry(ModeManual)] else [])
    + [StartBeltEntry(), WaitEntry(StartDelayMs), ChangeSpeedEntry(target)]
  }

  /** From standby a start queues four entries, with these exact bytes, in this order. */
  lemma StartEntriesFromStandby(target: Byte)
    requires target <= MaxSpeedTenths
    ensures StartEntries(ModeStandby, target) == [
      Entry(0, Some([247, 162, 2, 1, 165, 253])),
      Entry(0, Some([247, 162, 4, 1, 167, 253])),
      Entry(2500, None),
      Entry(0, Some([247, 162, 1, target, 163 + target, 253]))]
  {
    CommandFrameBytes(OpChangeMode, ModeManual);
    CommandFrameBytes(OpStartBelt, 1);
    ChangeSpeedFrameBytes(target);
  }

  /** From any other mode a start queues three entries: no mode change. */
  lemma StartEntriesOutsideStandby(mode: Byte, target: Byte)
    requires mode != ModeStandby && target <= MaxSpeedTenths
    ensures StartEntries(mode, target) == [
      Entry(0, Some([247, 162, 4, 1, 167, 253])),
      Entry(2500, None),
      Entry(0, Some([247, 162, 1, target, 163 + target, 253]))]
  {
    CommandFrameBytes(OpStartBelt, 1);
    ChangeSpeedFrameBytes(target);
  }

  /** Stopping the belt is a speed change to 0: the frame 247, 162, 1, 0, 163, 253. */
  lemma StopEntryBytes()
    ensures ChangeSpeedEntry(0) == Entry(0, Some([247, 162, 1, 0, 163, 253]))
  {
    ChangeSpeedFrameBytes(0);
  }

  /** The stats request is queued byte for byte as written: its checksum was already right. */
  lemma AskStatsEntryBytes()
    ensures AskStatsEntry() == Entry(0, Some(AskStatsFrame()))
  {
    AskStatsFrameChecksummed();
  }

  /** Every queued frame carries a correct checksum. */
  predicate AllChecksummed(q: seq<Entry>)
  {
    forall i :: 0 <= i < |q| ==> q[i].buffer.Some? ==> Checksummed(q[i].buffer.value)
  }

  /** Taking the front entry keeps the rest checksummed. */
  lemma AllChecksummedTail(q: seq<Entry>)
    requires q != [] && AllChecksummed(q)
    ensures AllChecksummed(q[1..])
  {
    forall i | 0 <= i < |q[1..]| ensures q[1..][i].buffer.Some? ==> Checksummed(q[1..][i].buffer.value) {
      assert q[1..][i] == q[i + 1];
    }
  }

  // ---------------------------------------------------------------------------
  // Writing

  /** The writer's work for one entry: the delay if there is one, then the write and the 700 ms spacing. */
  function EntryEvents(e: Entry): seq<Event>
  {
    (if e.timeout != 0 then [Pause(e.timeout)] else [])
    + (match e.buffer
       case None => []
       case Some(frame) => [Write(frame), Pause(WriteSpacingMs)])
  }

  /** The writer's work for a whole queue, front first. */
  function Drain(q: seq<Entry>): seq<Event>
  {
    if q == [] then [] else EntryEvents(q[0]) + Drain(q[1..])
  }

  lemma {:induction false} DrainAppend(p: seq<Entry>, q: seq<Entry>)
    ensures Drain(p + q) == Drain(p) + Drain(q)
  {
    if p == [] {
      assert p + q == q;
    } else {
      assert (p + q)[0] == p[0] && (p + q)[1..] == p[1..] + q;
      DrainAppend(p[1..], q);
      assert Drain(p + q) == EntryEvents(p[0]) + (Drain(p[1..]) + Drain(q));
    }
  }

  /** The frames among a run of events, in order. */
  function Written(events: seq<Event>): seq<seq<Byte>>
  {
    if events == [] then []
    else (if events[0].Write? then [events[0].frame] else []) + Written(events[1..])
  }

  lemma {:induction false} WrittenAppend(a: seq<Event>, b: seq<Event>)
    ensures Written(a + b) == Written(a) + Written(b)
  {
    if a == [] {
      assert a + b == b;
    } else {
      assert (a + b)[0] == a[0] && (a + b)[1..] == a[1..] + b;
      WrittenAppend(a[1..], b);
    }
  }

  /** The frames of a queue, skipping wait entries, in order. */
  function Buffers(q: seq<Entry>): seq<seq<Byte>>
  {
    if q == [] then []
    else (if q[0].buffer.Some? then [q[0].buffer.value] else []) + Buffers(q[1..])
  }

  /** Draining the first k entries and then the k-th is draining the first k + 1. */
  lemma DrainStep(q: seq<Entry>, k: nat, t0: seq<Event>, before: seq<Event>, after: seq<Event>)
    requires k < |q| && before == t0 + Drain(q[..k]) && after == before + EntryEvents(q[k])
    ensures after == t0 + Drain(q[..k + 1])
    ensures q[k..][0] == q[k] && q[k..][1..] == q[k + 1..]
  {
    assert q[..k + 1] == q[..k] + [q[k]];
    DrainAppend(q[..k], [q[k]]);
    assert [q[k]][1..] == [];
    assert Drain([q[k]]) == EntryEvents(q[k]) + Drain([]);
  }

  /** Draining writes exactly the queue's frames, in FIFO order; wait entries write nothing. */
  lemma {:induction false} DrainWritesBuffers(q: seq<Entry>)
    ensures Written(Drain(q)) == Buffers(q)
  {
    if q != [] {
      var e := q[0];
      WrittenAppend(EntryEvents(e), Drain(q[1..]));
      DrainWritesBuffers(q[1..]);
      var delay: seq<Event> := if e.timeout != 0 then [Pause(e.timeout)] else [];
      assert Written(delay) == [];
      match e.buffer
      case None =>
        assert EntryEvents(e) == delay + [];
      case Some(frame) =>
        WrittenAppend(delay, [Write(frame), Pause(WriteSpacingMs)]);
        var tail: seq<Event> := [Write(frame), Pause(WriteSpacingMs)];
        assert tail[1..] == [Pause(WriteSpacingMs)];
        assert tail[1..][1..] == [];
        assert Written(tail) == [frame];
    }
  }

  /** Every write in a drain is followed at once by the 700 ms pause. */
  lemma {:induction false} DrainPausesAfterWrites(q: seq<Entry>)
    ensures forall i :: 0 <= i < |Drain(q)| && Drain(q)[i].Write? ==>
      i + 1 < |Drain(q)| && Drain(q)[i + 1] == Pause(WriteSpacingMs)
  {
    if q != [] {
      DrainPausesAfterWrites(q[1..]);
      var head: seq<Event>, rest: seq<Event> := EntryEvents(q[0]), Drain(q[1..]);
      var all: seq<Event> := head + rest;
      assert Drain(q) == all;
      forall i | 0 <= i < |all| && all[i].Write?
        ensures i + 1 < |all| && all[i + 1] == Pause(WriteSpacingMs)
      {
        if i >= |head| {
          assert all[i] == rest[i - |head|];
          assert all[i + 1] == rest[i - |head| + 1];
        }
      }
    }
  }

  /** The checksum property of a queue carries over to everything draining it writes. */
  lemma DrainWritesChecksummed(q: seq<Entry>)
    requires AllChecksummed(q)
    ensures forall f :: f in Written(Drain(q)) ==> Checksummed(f)
  {
    DrainWritesBuffers(q);
    BuffersChecksummed(q);
  }

  lemma {:induction false} BuffersChecksummed(q: seq<Entry>)
    requires AllChecksummed(q)
    ensures forall f :: f in Buffers(q) ==> Checksummed(f)
  {
    if q != [] {
      AllChecksummedTail(q);
      BuffersChecksummed(q[1..]);
    }
  }

  /** Writing one checksummed entry keeps every written frame checksummed. */
  lemma WriteKeepsChecksums(trace: seq<Event>, e: Entry)
    requires forall f :: f in Written(trace) ==> Checksummed(f)
    requires e.buffer.Some? ==> Checksummed(e.buffer.value)
    ensures forall f :: f in Written(trace + EntryEvents(e)) ==> Checksummed(f)
  {
    WrittenAppend(trace, EntryEvents(e));
    DrainWritesBuffers([e]);
    assert [e][1..] == [];
    assert Drain([e]) == EntryEvents(e) + Drain([]);
    assert Drain([e]) == EntryEvents(e);
    assert Buffers([e]) == (if e.buffer.Some? then [e.buffer.value] else []) + Buffers([]);
    forall f | f in Written(trace + EntryEvents(e)) ensures Checksummed(f) {
      if f !in Written(trace) {
        assert f in Buffers([e]);
      }
    }
  }
}
