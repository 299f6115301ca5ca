/**
  The Kingsmith pad driver of the newer layout
  (internal/walkingpads/kingsmith.go). A driver object owns the command queue
  and the last decoded status. The app's commands are expanded into queue
  entries, a single writer drains the queue to the device, and notifications
  overwrite the last status and are forwarded as stats updates.

  The goroutines and channels become methods run one at a time: the command
  channel is the sequence handed to ProcessCmds, the queue channel a sequence
  field, the update channel a bounded sequence field. The device's writes and
  pauses are recorded in a ghost trace, its disconnects in a ghost counter.
 */
module Kingsmith {
  import opened Wrappers
  import opened Protocol
  import opened Queue
  import opened Walkingpad

  /** Capacity of the update channel; a stats update that does not fit is dropped. */
  const UpdateCapacity := 50

  /** The commands whose speed the driver accepts: 0 to 6 km/h. Any other speed makes it panic. */
  predicate SpeedInRange(cmd: Command)
  {
    match cmd
    case Start(speed) => 0 <= speed <= MaxSpeedTenths
    case Stop => true
    case ChangeSpeed(speed) => 0 <= speed <= MaxSpeedTenths
  }

  /** The queue entries one command turns into, given the mode of the last status. */
  function Expand(cmd: Command, mode: Byte): seq<Entry>
    requires SpeedInRange(cmd)
  {
    match cmd
    case Start(speed) => StartEntries(mode, speed)
    case Stop => [ChangeSpeedEntry(0)]
    case ChangeSpeed(speed) => [ChangeSpeedEntry(speed)]
  }

  /**
    A start queues four entries from standby and three otherwise; stop and
    change speed queue one speed frame each, stop's with speed 0.
   */
  lemma ExpandShape(cmd: Command, mode: Byte)
    requires SpeedInRange(cmd)
    ensures cmd.Start? && mode == ModeStandby ==> |Expand(cmd, mode)| == 4 && Expand(cmd, mode)[0] == ChangeModeEntry(ModeManual)
    ensures cmd.Start? && mode != ModeStandby ==> |Expand(cmd, mode)| == 3 && Expand(cmd, mode)[0] == StartBeltEntry()
    ensures cmd.Start? ==> Expand(cmd, mode)[|Expand(cmd, mode)| - 2..] == [WaitEntry(StartDelayMs), ChangeSpeedEntry(cmd.speed)]
    ensures cmd.Stop? ==> Expand(cmd, mode) == [Entry(0, Some([247, 162, 1, 0, 163, 253]))]
    ensures cmd.ChangeSpeed? ==> Expand(cmd, mode) == [Entry(0, Some([247, 162, 1, cmd.speed, 163 + cmd.speed, 253]))]
  {
    match cmd
    case Start(speed) =>
    case Stop => StopEntryBytes();
    case ChangeSpeed(speed) => ChangeSpeedFrameBytes(speed);
  }

  predicate AllSpeedsInRange(cmds: seq<Command>)
  {
    forall i :: 0 <= i < |cmds| ==> SpeedInRange(cmds[i])
  }

  /** The entries a run of commands turns into, all read against the same mode. */
  function ExpandAll(cmds: seq<Command>, mode: Byte): seq<Entry>
    requires AllSpeedsInRange(cmds)
  {
    if cmds == [] then [] else ExpandAll(cmds[..|cmds| - 1], mode) + Expand(cmds[|cmds| - 1], mode)
  }

  /** Proof step, with no counterpart in the driver: ExpandAll of one more command appends that command's entries. */
  lemma ExpandAllStep(cmds: seq<Command>, k: nat, mode: Byte)
    requires AllSpeedsInRange(cmds) && k < |cmds|
    ensures AllSpeedsInRange(cmds[..k]) && AllSpeedsInRange(cmds[..k + 1])
    ensures ExpandAll(cmds[..k + 1], mode) == ExpandAll(cmds[..k], mode) + Expand(cmds[k], mode)
  {
    assert cmds[..k + 1][..k] == cmds[..k];
  }

  /** Appending the entries of the k-th command to those of the first k gives those of the first k + 1. */
  lemma ExpandAllExtend(q0: seq<Entry>, before: seq<Entry>, after: seq<Entry>, cmds: seq<Command>, k: nat, mode: Byte)
    requires AllSpeedsInRange(cmds) && k < |cmds|
    requires AllSpeedsInRange(cmds[..k]) && before == q0 + ExpandAll(cmds[..k], mode)
    requires after == before + Expand(cmds[k], mode)
    ensures AllSpeedsInRange(cmds[..k + 1]) && after == q0 + ExpandAll(cmds[..k + 1], mode)
  {
    ExpandAllStep(cmds, k, mode);
    AppendRegroup(q0, ExpandAll(cmds[..k], mode), Expand(cmds[k], mode), before, after, ExpandAll(cmds[..k + 1], mode));
  }

  /** Proof step, with no counterpart in the driver: regrouping a concatenation of three queues. */
  lemma AppendRegroup(q0: seq<Entry>, a: seq<Entry>, e: seq<Entry>, before: seq<Entry>, after: seq<Entry>, ae: seq<Entry>)
    requires before == q0 + a && after == before + e && ae == a + e
    ensures after == q0 + ae
  {
  }

  /** The stats update published for a decoded status. */
  function UpdateOf(status: StatusReading): Stats
  {
    Stats(status.speed, status.time, status.distance, status.steps)
  }

  class KingsmithPad {
    var queue: seq<Entry>
    var stopped: bool
    var lastStatus: StatusReading
    /** The capture time of lastStatus; 0 stands for the zero time (no status yet). */
    var lastStatusTime: int
    /** The update channel's buffered contents. */
    var updates: seq<Stats>
    ghost var trace: seq<Event>
    ghost var deviceDisconnects: nat

    /**
      The driver's invariant: the device has been disconnected exactly when
      the driver is stopped, and only once; the update channel holds at most
      its capacity; every frame queued or written carries a correct checksum.
     */
    ghost predicate Valid()
      reads this
    {
      && deviceDisconnects == (if stopped then 1 else 0)
      && |updates| <= UpdateCapacity
      && AllChecksummed(queue)
      && forall f :: f in Written(trace) ==> Checksummed(f)
    }

    constructor ()
      ensures Valid() && !stopped && queue == [] && updates == [] && trace == []
      ensures lastStatus == ZeroStatus && lastStatusTime == 0
    {
      queue, stopped, updates := [], false, [];
      lastStatus, lastStatusTime := ZeroStatus, 0;
      trace, deviceDisconnects := [], 0;
    }

    /**
      Teardown, guarded by the stopped flag: the first call closes the
      channels, cancels the loops and disconnects the device; every later call
      returns at once. Entries still queued stay for the writer to drain.
     */
    method Disconnect()
      requires Valid()
      modifies this`stopped, this`deviceDisconnects
      ensures Valid() && stopped && deviceDisconnects == 1
      ensures old(stopped) ==> deviceDisconnects == old(deviceDisconnects)
    {
      if stopped {
        return;
      }
      stopped := true;
      deviceDisconnects := deviceDisconnects + 1;
    }

    /** Fixes the frame's checksum in place and appends it, with its delay, to the queue. */
    method PushCmd(cmd: Option<seq<Byte>>, timeout: nat)
      requires Valid() && !stopped
      modifies this`queue
      ensures Valid() && queue == old(queue) + [Pushed(cmd, timeout)]
    {
      var buffer: Option<seq<Byte>> := None;
      if cmd.Some? {
        var frame := cmd.value;
        var bytes := new Byte[|frame|](i requires 0 <= i < |frame| => frame[i]);
        assert bytes[..] == frame;
        FixCrc(bytes);
        buffer := Some(bytes[..]);
      }
      queue := queue + [Entry(timeout, buffer)];
    }

    method ChangeMode(mode: Byte)
      requires Valid() && !stopped
      modifies this`queue
      ensures Valid() && queue == old(queue) + [ChangeModeEntry(mode)]
    {
      PushCmd(Some(ChangeModeFrame(mode)), 0);
    }

    method StartBelt()
      requires Valid() && !stopped
      modifies this`queue
      ensures Valid() && queue == old(queue) + [StartBeltEntry()]
    {
      PushCmd(Some(StartBeltFrame()), 0);
    }

    /** Stops the belt by setting its speed to 0. */
    method StopBelt()
      requires Valid() && !stopped
      modifies this`queue
      ensures Valid() && queue == old(queue) + [ChangeSpeedEntry(0)]
    {
      ChangeSpeed(0);
    }

    /** Queues a speed change; a speed outside 0 to 6 km/h is a programming error (the driver panics). */
    method ChangeSpeed(tenths: int)
      requires Valid() && !stopped
      requires 0 <= tenths <= MaxSpeedTenths
      modifies this`queue
      ensures Valid() && queue == old(queue) + [ChangeSpeedEntry(tenths)]
    {
      PushCmd(Some(ChangeSpeedFrame(tenths)), 0);
    }

    method AskStats()
      requires Valid() && !stopped
      modifies this`queue
      ensures Valid() && queue == old(queue) + [AskStatsEntry()]
    {
      PushCmd(Some(AskStatsFrame()), 0);
    }

    /** Queues a pause of the writer, with no frame. */
    method WaitCmd(ms: nat)
      requires Valid() && !stopped
      modifies this`queue
      ensures Valid() && queue == old(queue) + [WaitEntry(ms)]
    {
      PushCmd(None, ms);
    }

    /**
      The notification callback. Frames shorter than two bytes or without the
      248, 162 signature are ignored. A status frame overwrites the last
      status and its time and is offered to the update channel, where it is
      dropped if the channel is full. The payload is read without a length
      check, and the update channel is closed once the driver is stopped, so
      a status frame must be long enough and arrive before teardown.
     */
    method OnBufferReceive(buf: seq<Byte>, now: int)
      requires Valid()
      requires IsStatusFrame(buf) ==> |buf| >= 14 && !stopped
      modifies this`lastStatus, this`lastStatusTime, this`updates
      ensures Valid()
      ensures !IsStatusFrame(buf) ==>
        lastStatus == old(lastStatus) && lastStatusTime == old(lastStatusTime) && updates == old(updates)
      ensures IsStatusFrame(buf) ==>
        && lastStatus == DecodeStatus(buf[2..])
        && lastStatusTime == now
        && updates == (if |old(updates)| < UpdateCapacity then old(updates) + [UpdateOf(lastStatus)] else old(updates))
    {
      if |buf| < 2 {
        return;
      }
      if buf[0] == StatusHeader && buf[1] == ProtocolByte {
        var status := DecodeStatus(buf[2..]);
        lastStatus := status;
        lastStatusTime := now;
        if |updates| < UpdateCapacity {
          updates := updates + [UpdateOf(status)];
        }
        return;
      }
    }

    /** One command from the app, expanded against the mode of the last status. */
    method ProcessCmd(cmd: Command)
      requires Valid() && !stopped && SpeedInRange(cmd)
      modifies this`queue
      ensures Valid() && queue == old(queue) + Expand(cmd, lastStatus.mode)
    {
      match cmd
      case Start(speed) =>
        ghost var q0 := queue;
        if lastStatus.mode == ModeStandby {
          // the pad ignores commands in standby, which it enters after a while without use
          ChangeMode(ModeManual);
        }
        ghost var q1 := queue;
        StartBelt();
        WaitCmd(StartDelayMs);
        ChangeSpeed(speed);
        assert queue == q1 + [StartBeltEntry(), WaitEntry(StartDelayMs), ChangeSpeedEntry(speed)];
      case Stop =>
        StopBelt();
      case ChangeSpeed(speed) =>
        ChangeSpeed(speed);
    }

    /** The commands the app sends, in order, each expanded against the same last status. */
    method ProcessEach(cmds: seq<Command>)
      requires Valid() && !stopped && AllSpeedsInRange(cmds)
      modifies this`queue
      ensures Valid() && queue == old(queue) + ExpandAll(cmds, lastStatus.mode)
    {
      ghost var q0 := queue;
      var k := 0;
      assert cmds[..0] == [];
      while k < |cmds|
        invariant 0 <= k <= |cmds| && AllSpeedsInRange(cmds[..k])
        invariant Valid() && !stopped
        invariant queue == q0 + ExpandAll(cmds[..k], lastStatus.mode)
      {
        ghost var before := queue;
        ExpandAllStep(cmds, k, lastStatus.mode);
        ProcessCmd(cmds[k]);
        ExpandAllExtend(q0, before, queue, cmds, k, lastStatus.mode);
        k := k + 1;
      }
      assert cmds[..k] == cmds;
    }

    /**
      The command loop: every command the app sends, until the app closes the
      command channel, which asks for the device to be disconnected.
     */
    method ProcessCmds(cmds: seq<Command>)
      requires Valid() && !stopped && AllSpeedsInRange(cmds)
      modifies this`queue, this`stopped, this`deviceDisconnects
      ensures Valid() && stopped && deviceDisconnects == 1
      ensures queue == old(queue) + ExpandAll(cmds, lastStatus.mode)
    {
      ProcessEach(cmds);
      Disconnect();
    }

    /**
      One round of the writer: takes the front entry, waits out its delay,
      writes its frame, if any, and then pauses 700 ms whether or not the
      write succeeded (a failed write is only logged).
     */
    method WriteNext()
      requires Valid() && queue != []
      modifies this`queue, this`trace
      ensures Valid() && queue == old(queue)[1..] && trace == old(trace) + EntryEvents(old(queue)[0])
    {
      var cmd := queue[0];
      AllChecksummedTail(queue);
      queue := queue[1..];
      if cmd.timeout != 0 {
        trace := trace + [Pause(cmd.timeout)];
      }
      if cmd.buffer.Some? {
        trace := trace + [Write(cmd.buffer.value)];
        trace := trace + [Pause(WriteSpacingMs)];
      }
      assert trace == old(trace) + EntryEvents(cmd);
      WriteKeepsChecksums(old(trace), cmd);
    }

    /**
      The writer: takes entries from the front of the queue; waits out an
      entry's delay; writes its frame, if any, and then pauses 700 ms whether
      or not the write succeeded (a failed write is only logged).
     */
    method WriteLoop()
      requires Valid()
      modifies this`queue, this`trace
      ensures Valid() && queue == [] && trace == old(trace) + Drain(old(queue))
    {
      ghost var q0 := queue;
      ghost var k := 0;
      while queue != []
        invariant 0 <= k <= |q0| && queue == q0[k..]
        invariant trace == old(trace) + Drain(q0[..k])
        invariant Valid()
        decreases |queue|
      {
        ghost var before := trace;
        WriteNext();
        DrainStep(q0, k, old(trace), before, trace);
        k := k + 1;
      }
      assert q0[..k] == q0;
    }
  }
}
