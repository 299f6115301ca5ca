/**
  The legacy app (app.go at the repository root): the same main loop as the
  newer app, but it holds the legacy pad object itself and calls its methods,
  keeps only the since-start accumulators, accumulates before it syncs
  external starts and stops, and has no deferred reset in its connection
  attempt.

  Units and inputs are as in the newer app; the stats are read from the pad's
  last status, and a pad has reported once its status time is not 0.
 */
module LegacySupervisor {
  import opened Wrappers
  import opened Protocol
  import opened Queue
  import opened Walkingpad
  import opened LegacyPad
  import opened Supervisor

  /** The legacy app's state record. */
  datatype LegacyState = LegacyState(
    connState: ConnState,
    started: bool,
    status: StatusReading,
    timeAccum: int, stepsAccum: int, kmAccum: int)

  const LegacyInitialState := LegacyState(Disconnected, false, ZeroStatus, 0, 0, 0)

  /** None of the pad's three counters went back since the last reading. */
  predicate NoCounterWentBack(last: StatusReading, now: StatusReading)
  {
    now.time - last.time >= 0 && now.steps - last.steps >= 0 && now.distance - last.distance >= 0
  }

  /** While the session runs, the pad's progress since the last reading is added, all or nothing. */
  function LegacyAccumulate(s: LegacyState, last: StatusReading): LegacyState
  {
    if s.started && NoCounterWentBack(last, s.status) then
      s.(timeAccum := s.timeAccum + (s.status.time - last.time),
         stepsAccum := s.stepsAccum + (s.status.steps - last.steps),
         kmAccum := s.kmAccum + (s.status.distance - last.distance))
    else s
  }

  /** External start and stop only flip the flag: no webhook and no reset. */
  function LegacySync(s: LegacyState, last: StatusReading): LegacyState
  {
    var tempoDiff := s.status.speed - last.speed;
    var s1 := if !s.started && tempoDiff > 0 then s.(started := true) else s;
    if s1.started && tempoDiff < 0 && s1.status.speed == 0 then s1.(started := false) else s1
  }

  /** One turn of the legacy loop once a pad is linked: promotion, then for a ready pad accumulation and then the sync. */
  function LegacyAfterTick(s: LegacyState, status: StatusReading, stamped: bool): LegacyState
  {
    var s1 := if s.connState == Connected && stamped then s.(connState := Ready) else s;
    if s1.connState == Ready then
      var last := s1.status;
      LegacySync(LegacyAccumulate(s1.(status := status), last), last)
    else
      s1.(started := false, status := ZeroStatus)
  }

  /** A connected pad becomes ready once it has reported; a turn that does not end ready clears the flag and the status. */
  lemma LegacyReadyPromotion(s: LegacyState, status: StatusReading, stamped: bool)
    ensures LegacyAfterTick(s, status, stamped).connState == (if s.connState == Connected && stamped then Ready else s.connState)
    ensures LegacyAfterTick(s, status, stamped).connState != Ready ==>
      LegacyAfterTick(s, status, stamped) == s.(started := false, status := ZeroStatus)
  {
  }

  /**
    The legacy accumulation: a ready turn adds the pad's progress exactly
    when the session ran before the sync and no counter went back; the three
    accumulators move together.
   */
  lemma LegacyJointAccumulation(s: LegacyState, status: StatusReading, stamped: bool)
    requires s.connState == Ready
    ensures var t := LegacyAfterTick(s, status, stamped);
      var grows := s.started && NoCounterWentBack(s.status, status);
      && t.status == status
      && t.timeAccum == s.timeAccum + (if grows then status.time - s.status.time else 0)
      && t.stepsAccum == s.stepsAccum + (if grows then status.steps - s.status.steps else 0)
      && t.kmAccum == s.kmAccum + (if grows then status.distance - s.status.distance else 0)
  {
  }

  /** External start and stop flip the flag on the same speed conditions as the newer app. */
  lemma LegacyExternalStartStop(s: LegacyState, status: StatusReading, stamped: bool)
    requires s.connState == Ready
    ensures LegacyAfterTick(s, status, stamped).started ==
      if !s.started then status.speed > s.status.speed
      else !(status.speed < s.status.speed && status.speed == 0)
  {
  }

  /**
    Because the accumulation runs first, the turn that sees an external start
    does not count that turn's progress, and the turn that sees an external
    stop still counts it: the opposite of the newer app.
   */
  lemma AccumulateBeforeSync(s: LegacyState, status: StatusReading, stamped: bool)
    requires s.connState == Ready && NoCounterWentBack(s.status, status)
    ensures !s.started && status.speed > s.status.speed ==>
      LegacyAfterTick(s, status, stamped).started && LegacyAfterTick(s, status, stamped).timeAccum == s.timeAccum
      && LegacyAfterTick(s, status, stamped).stepsAccum == s.stepsAccum && LegacyAfterTick(s, status, stamped).kmAccum == s.kmAccum
    ensures s.started && status.speed < s.status.speed && status.speed == 0 ==>
      !LegacyAfterTick(s, status, stamped).started
      && LegacyAfterTick(s, status, stamped).timeAccum == s.timeAccum + (status.time - s.status.time)
      && LegacyAfterTick(s, status, stamped).stepsAccum == s.stepsAccum + (status.steps - s.status.steps)
      && LegacyAfterTick(s, status, stamped).kmAccum == s.kmAccum + (status.distance - s.status.distance)
  {
  }

  // ---------------------------------------------------------------------------
  // Connecting, as written and corrected

  /**
    The connection state the legacy attempt leaves as written: a failed scan
    returns while scanning and a failed connection while connecting.
   */
  function AttemptResultAsWritten(o: AttemptOutcome): ConnState
  {
    match o
    case ScanFailed => Scanning
    case NoCandidates => Disconnected
    case ConnectFailed => Connecting
    case Linked => Connected
  }

  /** What happens around one turn of the loop: whether the link of a linked pad was lost first, the attempt's outcome, and whether the pad has reported. */
  datatype Turn = Turn(linkLost: bool, outcome: AttemptOutcome, stamped: bool)

  /** Only a linked pad can be lost: the connect handler ignores everything while no pad is held. */
  function AfterLinkLoss(c: ConnState, lost: bool): ConnState
  {
    if lost && (c == Connected || c == Ready) then Disconnected else c
  }

  /** The connection state after one turn, given how an attempt ends. */
  function ConnAfterTurn(c: ConnState, t: Turn, fixed: bool): ConnState
  {
    var c0 := AfterLinkLoss(c, t.linkLost);
    var c1 := if c0 == Disconnected then (if fixed then AttemptResult(t.outcome) else AttemptResultAsWritten(t.outcome)) else c0;
    if c1 == Connected && t.stamped then Ready else c1
  }

  /**
    One whole turn of the legacy loop, given the attempt's outcome (read only
    from the disconnected state) and the pad's status and report afterwards:
    a turn still disconnected after the attempt ends there; any other ticks.
   */
  function LegacyAfterIteration(s: LegacyState, o: AttemptOutcome, fixed: bool, status: StatusReading, stamped: bool): LegacyState
  {
    var s0 := if s.connState == Disconnected then s.(connState := if fixed then AttemptResult(o) else AttemptResultAsWritten(o)) else s;
    if s0.connState == Disconnected then s0 else LegacyAfterTick(s0, status, stamped)
  }

  /** The connection state of a whole turn is the one ConnAfterTurn gives, with no link lost. */
  lemma LegacyIterationConn(s: LegacyState, o: AttemptOutcome, fixed: bool, status: StatusReading, stamped: bool)
    ensures LegacyAfterIteration(s, o, fixed, status, stamped).connState == ConnAfterTurn(s.connState, Turn(false, o, stamped), fixed)
  {
  }

  /**
    A failed attempt with the fix leaves the whole state as it was; as
    written, a failed scan or connection leaves the app scanning or
    connecting and that same turn clears the session flag and the status,
    keeping the accumulators.
   */
  lemma LegacyFailedTurn(s: LegacyState, o: AttemptOutcome, status: StatusReading, stamped: bool)
    requires s.connState == Disconnected
    ensures o != Linked ==> LegacyAfterIteration(s, o, true, status, stamped) == s
    ensures o == ScanFailed || o == ConnectFailed ==>
      LegacyAfterIteration(s, o, false, status, stamped) == s.(connState := AttemptResultAsWritten(o), started := false, status := ZeroStatus)
  {
  }

  function ConnRun(c: ConnState, turns: seq<Turn>, fixed: bool): ConnState
    decreases |turns|
  {
    if turns == [] then c else ConnRun(ConnAfterTurn(c, turns[0], fixed), turns[1..], fixed)
  }

  /**
    As written, one failed scan or one failed connection leaves the loop
    scanning or connecting for good: it only attempts from the disconnected
    state, and no pad is held whose loss could bring it back there.
   */
  lemma {:induction false} StuckAfterFailedAttempt(c: ConnState, turns: seq<Turn>)
    requires c == Scanning || c == Connecting
    ensures ConnRun(c, turns, false) == c
    decreases |turns|
  {
    if turns != [] {
      assert ConnAfterTurn(c, turns[0], false) == c;
      StuckAfterFailedAttempt(c, turns[1..]);
    }
  }

  /** The failing input: a disconnected app whose scan fails never connects again, whatever the later attempts would bring. */
  lemma FailedScanNeverReconnects(turns: seq<Turn>)
    ensures ConnRun(Disconnected, [Turn(false, ScanFailed, false)] + turns, false) == Scanning
  {
    var all := [Turn(false, ScanFailed, false)] + turns;
    assert all[1..] == turns;
    assert ConnAfterTurn(Disconnected, all[0], false) == Scanning;
    StuckAfterFailedAttempt(Scanning, turns);
  }

  /**
    With the deferred reset the loop only ever observes settled states, and
    after any run that ends disconnected the next successful attempt connects.
   */
  lemma {:induction false} FixedRunSettles(c: ConnState, turns: seq<Turn>)
    requires Settled(c)
    ensures Settled(ConnRun(c, turns, true))
    decreases |turns|
  {
    if turns != [] {
      assert Settled(ConnAfterTurn(c, turns[0], true));
      FixedRunSettles(ConnAfterTurn(c, turns[0], true), turns[1..]);
    }
  }

  /** With the deferred reset a failed attempt leaves the app disconnected, so the next successful attempt links the pad. */
  lemma FixedRecoversFromFailure(o: AttemptOutcome, stamped: bool)
    requires o != Linked
    ensures ConnAfterTurn(Disconnected, Turn(false, o, false), true) == Disconnected
    ensures ConnRun(Disconnected, [Turn(false, o, false), Turn(false, Linked, stamped)], true) == (if stamped then Ready else Connected)
  {
    var turns := [Turn(false, o, false), Turn(false, Linked, stamped)];
    assert turns[1..] == [Turn(false, Linked, stamped)] && turns[1..][1..] == [];
    assert ConnRun(Disconnected, turns, true) == ConnRun(Disconnected, turns[1..], true);
    assert ConnRun(Disconnected, turns[1..], true) == ConnRun(if stamped then Ready else Connected, [], true);
  }

  // ---------------------------------------------------------------------------
  // The app

  class LegacyApp {
    var state: LegacyState
    var pad: WalkingPad?
    /** The selected speed, in tenths of km/h. */
    var targetSpeed: int

    /** A pad is held exactly when connected or ready, and a held pad is running. */
    ghost predicate Valid()
      reads this, pad
    {
      && (pad != null <==> state.connState == Connected || state.connState == Ready)
      && (pad != null ==> pad.Valid() && !pad.stopped)
      && 0 <= targetSpeed <= 60
    }

    constructor (targetSpeed: int)
      requires 0 <= targetSpeed <= 60
      ensures Valid() && state == LegacyInitialState && pad == null && this.targetSpeed == targetSpeed
    {
      state := LegacyInitialState;
      pad := null;
      this.targetSpeed := targetSpeed;
    }

    /** The pad's status as the loop reads it, and whether the pad has reported. */
    function PadStatus(): StatusReading
      reads this, pad
    {
      if pad == null then ZeroStatus else pad.lastStatus
    }

    predicate PadStamped()
      reads this, pad
    {
      pad != null && pad.lastStatusTime != 0
    }

    /** One turn of the legacy loop with the app not disconnected. */
    method Tick()
      requires Valid() && state.connState != Disconnected
      modifies this`state
      ensures Valid() && state == LegacyAfterTick(old(state), PadStatus(), PadStamped())
    {
      if state.connState == Connected && pad.lastStatusTime != 0 {
        state := state.(connState := Ready);
      }
      if state.connState == Ready {
        var lastStatus := state.status;
        state := state.(status := pad.lastStatus);

        AddProgress(lastStatus);
        SyncExternal(lastStatus);
      } else {
        state := state.(started := false, status := ZeroStatus);
      }
    }

    /** Adds the progress since the last reading while the belt runs. */
    method AddProgress(lastStatus: StatusReading)
      modifies this`state
      ensures state == LegacyAccumulate(old(state), lastStatus)
    {
      if state.started {
        var timeDiff := state.status.time - lastStatus.time;
        var stepsDiff := state.status.steps - lastStatus.steps;
        var kmDiff := state.status.distance - lastStatus.distance;
        if timeDiff >= 0 && stepsDiff >= 0 && kmDiff >= 0 {
          state := state.(timeAccum := state.timeAccum + timeDiff);
          state := state.(stepsAccum := state.stepsAccum + stepsDiff);
          state := state.(kmAccum := state.kmAccum + kmDiff);
        }
      }
    }

    /** Takes the pad's own starts and stops from the change of speed since the last reading. */
    method SyncExternal(lastStatus: StatusReading)
      modifies this`state
      ensures state == LegacySync(old(state), lastStatus)
    {
      var tempoDiff := state.status.speed - lastStatus.speed;
      if !state.started && tempoDiff > 0 {
        state := state.(started := true);
      }
      if state.started && tempoDiff < 0 && state.status.speed == 0 {
        state := state.(started := false);
      }
    }

    /**
      The Start/Pause menu entry. A start queues a mode change when the app's
      copy of the status shows standby, then start belt, the 2.5 s wait and the
      selected speed; a pause queues speed 0. The source calls the pad without
      checking that one is held.
     */
    method StartPauseClick()
      requires Valid() && pad != null
      modifies this`state, pad`queue
      ensures Valid()
      ensures !old(state.started) ==>
        state == old(state).(started := true) && pad.queue == old(pad.queue) + StartEntries(state.status.mode, targetSpeed)
      ensures old(state.started) ==>
        state == old(state).(started := false) && pad.queue == old(pad.queue) + [ChangeSpeedEntry(0)]
    {
      if !state.started {
        state := state.(started := true);
        QueueStart(state.status.mode);
      } else {
        state := state.(started := false);
        pad.StopBelt();
      }
    }

    /** The pad calls of a start, read against the given mode. */
    method QueueStart(mode: Byte)
      requires pad != null && pad.Valid() && !pad.stopped && 0 <= targetSpeed <= 60
      modifies pad`queue
      ensures pad.Valid() && pad.queue == old(pad.queue) + StartEntries(mode, targetSpeed)
    {
      var p, speed := pad, targetSpeed;
      if mode == ModeStandby {
        p.ChangeMode(ModeManual);
      }
      ghost var q1 := p.queue;
      p.StartBelt();
      p.WaitCmd(StartDelayMs);
      p.ChangeSpeed(speed);
      assert p.queue == q1 + [StartBeltEntry(), WaitEntry(StartDelayMs), ChangeSpeedEntry(speed)];
    }

    /** The Stop menu entry: stops a running belt through the pad and clears the three accumulators. */
    method StopClick()
      requires Valid() && (state.started ==> pad != null)
      modifies this`state, pad
      ensures Valid()
      ensures pad != null ==> unchanged(pad`stopped, pad`deviceDisconnects, pad`lastStatus, pad`lastStatusTime, pad`trace)
      ensures state == old(state).(started := false, timeAccum := 0, stepsAccum := 0, kmAccum := 0)
      ensures pad != null ==> pad.queue == old(pad.queue) + (if old(state.started) then [ChangeSpeedEntry(0)] else [])
    {
      if state.started {
        state := state.(started := false);
        pad.StopBelt();
      }
      state := state.(timeAccum := 0, stepsAccum := 0, kmAccum := 0);
    }

    /** A speed menu item (0.5 to 6 km/h in steps of 0.5): the pad follows only while ready and walking. */
    method SelectSpeed(tenths: int)
      requires Valid() && 5 <= tenths <= 60 && tenths % 5 == 0
      modifies this`targetSpeed, pad
      ensures Valid() && targetSpeed == tenths
      ensures pad != null ==> unchanged(pad`stopped, pad`deviceDisconnects, pad`lastStatus, pad`lastStatusTime, pad`trace)
      ensures pad != null ==> pad.queue == old(pad.queue) + (if state.connState == Ready && state.started then [ChangeSpeedEntry(tenths)] else [])
    {
      targetSpeed := tenths;
      if state.connState == Ready && state.started {
        pad.ChangeSpeed(tenths);
      }
    }

    /** Drops the held pad, if any; without one nothing changes, not even the connection state. */
    method DisconnectConnectedPad()
      requires Valid()
      modifies this`state, this`pad, pad
      ensures Valid() && pad == null
      ensures old(pad) == null ==> state == old(state)
      ensures old(pad) != null ==>
        state == old(state).(connState := Disconnected) && old(pad).stopped && old(pad).deviceDisconnects == 1
    {
      if pad != null {
        pad.Disconnect();
        state := state.(connState := Disconnected);
        pad := null;
      }
    }

    /** The attempt to connect as written: its two error returns leave the state scanning or connecting. */
    method AttemptToConnectAsWritten(scan: seq<ScanResult>, scanOk: bool, uuids: seq<Uuid>, preferred: Option<Address>, connectOk: bool)
      returns (o: AttemptOutcome)
      requires Valid()
      modifies this`state, this`pad, pad
      ensures Valid()
      ensures o == OutcomeOf(scanOk, Collected(scan, uuids, preferred, {}), connectOk)
      ensures state == old(state).(connState := AttemptResultAsWritten(o))
      ensures o == Linked ==> fresh(pad) && pad.queue == [] && pad.lastStatusTime == 0
    {
      DisconnectConnectedPad();
      state := state.(connState := Scanning);
      o := ScanFailed;
      if !scanOk {
        // find walking pad candidates failed
        return;
      }
      var devices := FindWalkingPadCandidates(scan, uuids, preferred);
      if |devices| == 0 {
        o := NoCandidates;
        state := state.(connState := Disconnected);
        return;
      }
      state := state.(connState := Connecting);
      o := ConnectFailed;
      if !connectOk {
        // connect walking pad failed
        return;
      }
      var p := new WalkingPad();
      o := Linked;
      state := state.(connState := Connected);
      pad := p;
    }

    /** The corrected attempt: the legacy attempt followed by the newer app's deferred reset. */
    method AttemptToConnect(scan: seq<ScanResult>, scanOk: bool, uuids: seq<Uuid>, preferred: Option<Address>, connectOk: bool)
      returns (o: AttemptOutcome)
      requires Valid()
      modifies this`state, this`pad, pad
      ensures Valid()
      ensures o == OutcomeOf(scanOk, Collected(scan, uuids, preferred, {}), connectOk)
      ensures state == old(state).(connState := AttemptResult(o))
      ensures o == Linked ==> fresh(pad) && pad.queue == [] && pad.lastStatusTime == 0
    {
      o := AttemptToConnectAsWritten(scan, scanOk, uuids, preferred, connectOk);
      if state.connState != Connected {
        state := state.(connState := Disconnected);
      }
    }

    /** The Bluetooth link of the held pad dropped; with no pad held nothing happens. */
    method OnConnectionLost()
      requires Valid()
      modifies this`state, this`pad, pad
      ensures Valid()
      ensures state.connState == AfterLinkLoss(old(state.connState), true)
      ensures old(pad) != null ==>
        pad == null && old(pad).stopped && old(pad).deviceDisconnects == 1 && state == old(state).(connState := Disconnected)
      ensures old(pad) == null ==> pad == null && state == old(state)
    {
      if pad != null {
        DisconnectConnectedPad();
      }
    }

    /** One turn of the legacy loop with the corrected attempt: it keeps the connection state as ConnAfterTurn says. */
    method Iterate(scan: seq<ScanResult>, scanOk: bool, uuids: seq<Uuid>, preferred: Option<Address>, connectOk: bool)
      returns (o: AttemptOutcome)
      requires Valid()
      modifies this`state, this`pad, pad
      ensures Valid()
      ensures state == LegacyAfterIteration(old(state), o, true, PadStatus(), PadStamped())
      ensures old(state.connState) == Disconnected ==> o == OutcomeOf(scanOk, Collected(scan, uuids, preferred, {}), connectOk)
      ensures state.connState == ConnAfterTurn(old(state.connState), Turn(false, o, PadStamped()), true)
    {
      o := Linked;
      if state.connState == Disconnected {
        o := AttemptToConnect(scan, scanOk, uuids, preferred, connectOk);
        if state.connState == Disconnected {
          // still not connected: wait a bit before trying again
          return;
        }
      }
      Tick();
    }

    /** One turn of the legacy loop as written. */
    method IterateAsWritten(scan: seq<ScanResult>, scanOk: bool, uuids: seq<Uuid>, preferred: Option<Address>, connectOk: bool)
      returns (o: AttemptOutcome)
      requires Valid()
      modifies this`state, this`pad, pad
      ensures Valid()
      ensures state == LegacyAfterIteration(old(state), o, false, PadStatus(), PadStamped())
      ensures old(state.connState) == Disconnected ==> o == OutcomeOf(scanOk, Collected(scan, uuids, preferred, {}), connectOk)
      ensures state.connState == ConnAfterTurn(old(state.connState), Turn(false, o, PadStamped()), false)
    {
      o := Linked;
      if state.connState == Disconnected {
        o := AttemptToConnectAsWritten(scan, scanOk, uuids, preferred, connectOk);
        if state.connState == Disconnected {
          return;
        }
      }
      Tick();
    }
  }
}
