/**
  The newer app's supervisor (internal/app/app.go): the connection state
  machine run by the main loop, the external start and stop detection from the
  pad's speed, and the session accounting, both since the last start (reported
  by the webhook) and in total (shown in the menu bar).

  Units: speed in tenths of km/h, time in seconds, distance in hundredths of a
  km. The clock, the pad's last stats, whether they carry a timestamp, the
  webhook's result and the outcome of the scan and of the connection are
  inputs. A time of 0 stands for Go's zero time.
 */
module Supervisor {
  import opened Wrappers
  import opened Walkingpad

  datatype ConnState = Disconnected | Scanning | Connecting | Connected | Ready

  /** The app's state record. */
  datatype AppState = AppState(
    connState: ConnState,
    started: bool,
    status: Stats,
    startedAt: int,
    timeAccum: int, stepsAccum: int, kmAccum: int,
    timeAccumTotal: int, stepsAccumTotal: int, kmAccumTotal: int)

  const InitialState := AppState(Disconnected, false, ZeroStats, 0, 0, 0, 0, 0, 0, 0)

  /** What one turn of the main loop reads: the pad's last stats and whether they were ever received, the clock, and whether a webhook would be sent. */
  datatype TickInput = TickInput(stats: Stats, stamped: bool, now: int, webhookSent: bool)

  // ---------------------------------------------------------------------------
  // Session accounting

  /** The belt started: remember when; nothing else changes. */
  function AfterBeltStart(s: AppState, now: int): (t: AppState)
    ensures t.started && t.startedAt == now
    ensures t.(started := s.started, startedAt := s.startedAt) == s
  {
    s.(started := true, startedAt := now)
  }

  /**
    The belt stopped: the session is reported by the webhook, and the
    since-start accumulators and start time are cleared only if it was sent,
    so that an unsent session is kept for the next attempt.
   */
  function AfterBeltStop(s: AppState, webhookSent: bool): AppState
  {
    if webhookSent then s.(started := false, startedAt := 0, timeAccum := 0, stepsAccum := 0, kmAccum := 0)
    else s.(started := false)
  }

  /** The Stop menu entry: after stopping a running belt, the start time and all six accumulators are cleared. */
  function AfterStopMenu(s: AppState, webhookSent: bool): AppState
  {
    var s1 := if s.started then AfterBeltStop(s, webhookSent) else s;
    s1.(startedAt := 0, timeAccum := 0, stepsAccum := 0, kmAccum := 0, timeAccumTotal := 0, stepsAccumTotal := 0, kmAccumTotal := 0)
  }

  /** All three counters of the pad moved forward or stayed (none went back, as after a pad reset). */
  predicate NoneWentBack(last: Stats, now: Stats)
  {
    now.time - last.time >= 0 && now.steps - last.steps >= 0 && now.walkedKm - last.walkedKm >= 0
  }

  /** While the belt runs, the pad's progress since the last reading is added to both sets of accumulators, all or nothing. */
  function Accumulate(s: AppState, last: Stats): AppState
  {
    if s.started && NoneWentBack(last, s.status) then
      var dt, ds, dk := s.status.time - last.time, s.status.steps - last.steps, s.status.walkedKm - last.walkedKm;
      s.(timeAccum := s.timeAccum + dt, stepsAccum := s.stepsAccum + ds, kmAccum := s.kmAccum + dk,
         timeAccumTotal := s.timeAccumTotal + dt, stepsAccumTotal := s.stepsAccumTotal + ds, kmAccumTotal := s.kmAccumTotal + dk)
    else s
  }

  /** The start and stop the pad reports on its own, read from the change of speed. */
  function Sync(s: AppState, last: Stats, tick: TickInput): AppState
  {
    var tempoDiff := s.status.speed - last.speed;
    var s1 := if !s.started && tempoDiff > 0 then AfterBeltStart(s, tick.now) else s;
    if s1.started && tempoDiff < 0 && s1.status.speed == 0 then AfterBeltStop(s1, tick.webhookSent) else s1
  }

  /**
    One turn of the main loop once a pad is linked: a connected pad becomes
    ready once it has reported stats; a ready pad's stats are taken, external
    starts and stops synced, and then progress accumulated; in any other state
    the session is marked not started and the stats cleared.
   */
  function AfterTick(s: AppState, tick: TickInput): AppState
  {
    var s1 := if s.connState == Connected && tick.stamped then s.(connState := Ready) else s;
    if s1.connState == Ready then
      var last := s1.status;
      Accumulate(Sync(s1.(status := tick.stats), last, tick), last)
    else
      s1.(started := false, status := ZeroStats)
  }

  /** A run of turns of the main loop with the pad linked. */
  function Run(s: AppState, ins: seq<TickInput>): AppState
    decreases |ins|
  {
    if ins == [] then s else Run(AfterTick(s, ins[0]), ins[1..])
  }

  // ---------------------------------------------------------------------------
  // Connecting

  /** How an attempt to connect ended. */
  datatype AttemptOutcome = ScanFailed | NoCandidates | ConnectFailed | Linked

  function OutcomeOf<T>(scanOk: bool, candidates: seq<T>, connectOk: bool): AttemptOutcome
  {
    if !scanOk then ScanFailed
    else if candidates == [] then NoCandidates
    else if !connectOk then ConnectFailed
    else Linked
  }

  /** The connection state an attempt leaves: connected, or (by the deferred reset) disconnected whatever went wrong. */
  function AttemptResult(o: AttemptOutcome): ConnState
  {
    if o == Linked then Connected else Disconnected
  }

  /**
    One whole turn of the main loop: a disconnected app first tries to
    connect and, if that fails, waits and tries again next turn without
    ticking; otherwise it ticks.
   */
  function AfterIteration(s: AppState, o: AttemptOutcome, tick: TickInput): AppState
  {
    if s.connState == Disconnected then
      if AttemptResult(o) == Disconnected then s
      else AfterTick(s.(connState := AttemptResult(o)), tick)
    else AfterTick(s, tick)
  }

  /** The states the main loop observes between turns: never halfway through a scan or a connection. */
  predicate Settled(c: ConnState)
  {
    c == Disconnected || c == Connected || c == Ready
  }

  // ---------------------------------------------------------------------------
  // The app

  class App {
    var state: AppState
    /** Whether a pad is linked (the pad pointer is not nil). */
    var hasPad: bool
    /** The address of the linked pad, set when a connection succeeds. */
    var padAddress: Address
    /** The selected speed, in tenths of km/h. */
    var targetSpeed: int
    /** The commands sent to the linked pad, in order. */
    ghost var sent: seq<Command>
    /** How many times a linked pad was told to disconnect. */
    ghost var padDisconnects: nat

    /** Between turns the app is never mid-attempt, and a pad is linked exactly when connected or ready. */
    ghost predicate Valid()
      reads this
    {
      && Settled(state.connState)
      && (hasPad <==> state.connState == Connected || state.connState == Ready)
    }

    constructor (targetSpeed: int)
      ensures Valid() && state == InitialState && !hasPad && this.targetSpeed == targetSpeed
      ensures sent == [] && padDisconnects == 0
    {
      state := InitialState;
      hasPad, padAddress := false, "";
      this.targetSpeed := targetSpeed;
      sent, padDisconnects := [], 0;
    }

    method OnBeltStart(now: int)
      modifies this`state
      ensures state == AfterBeltStart(old(state), now)
    {
      state := state.(started := true);
      state := state.(startedAt := now);
    }

    /** Stops the session; webhookSent is what the webhook reported. */
    method OnBeltStop(webhookSent: bool)
      modifies this`state
      ensures state == AfterBeltStop(old(state), webhookSent)
    {
      state := state.(started := false);
      if webhookSent {
        // only reset if the webhook was sent; otherwise keep the data for the next attempt
        state := state.(startedAt := 0);
        state := state.(timeAccum := 0, stepsAccum := 0, kmAccum := 0);
      }
    }

    /** One turn of the main loop with the app not disconnected. */
    method Tick(tick: TickInput)
      requires Valid() && state.connState != Disconnected
      modifies this`state
      ensures Valid() && state == AfterTick(old(state), tick)
    {
      if state.connState == Connected && tick.stamped {
        state := state.(connState := Ready);
      }
      if state.connState == Ready {
        var lastStatus := state.status;
        state := state.(status := tick.stats);
        SyncExternal(lastStatus, tick);
        AddProgress(lastStatus);
      } else {
        state := state.(started := false, status := ZeroStats);
      }
    }

    /** Takes the pad's own starts and stops from the change of speed since the last reading. */
    method SyncExternal(lastStatus: Stats, tick: TickInput)
      modifies this`state
      ensures state == Sync(old(state), lastStatus, tick)
    {
      var tempoDiff := state.status.speed - lastStatus.speed;
      if !state.started && tempoDiff > 0 {
        OnBeltStart(tick.now);
      }
      if state.started && tempoDiff < 0 && state.status.speed == 0 {
        OnBeltStop(tick.webhookSent);
      }
    }

    /** Adds the progress since the last reading while the belt runs. */
    method AddProgress(lastStatus: Stats)
      modifies this`state
      ensures state == Accumulate(old(state), lastStatus)
    {
      if state.started {
        var timeDiff := state.status.time - lastStatus.time;
        var stepsDiff := state.status.steps - lastStatus.steps;
        var kmDiff := state.status.walkedKm - lastStatus.walkedKm;
        if timeDiff >= 0 && stepsDiff >= 0 && kmDiff >= 0 {
          state := state.(timeAccum := state.timeAccum + timeDiff);
          state := state.(stepsAccum := state.stepsAccum + stepsDiff);
          state := state.(kmAccum := state.kmAccum + kmDiff);
          state := state.(timeAccumTotal := state.timeAccumTotal + timeDiff);
          state := state.(stepsAccumTotal := state.stepsAccumTotal + stepsDiff);
          state := state.(kmAccumTotal := state.kmAccumTotal + kmDiff);
        }
      }
    }

    /** The Start/Pause menu entry; the source sends to the pad without checking that one is linked. */
    method StartPauseClick(now: int, webhookSent: bool)
      requires Valid() && hasPad
      modifies this`state, this`sent
      ensures Valid()
      ensures !old(state.started) ==> state == AfterBeltStart(old(state), now) && sent == old(sent) + [Start(targetSpeed)]
      ensures old(state.started) ==> state == AfterBeltStop(old(state), webhookSent) && sent == old(sent) + [Stop]
    {
      if !state.started {
        OnBeltStart(now);
        sent := sent + [Start(targetSpeed)];
      } else {
        sent := sent + [Stop];
        OnBeltStop(webhookSent);
      }
    }

    /** The Stop menu entry; a running belt is stopped through the pad, which must then be linked. */
    method StopClick(webhookSent: bool)
      requires Valid() && (state.started ==> hasPad)
      modifies this`state, this`sent
      ensures Valid() && state == AfterStopMenu(old(state), webhookSent)
      ensures sent == old(sent) + (if old(state.started) then [Stop] else [])
    {
      if state.started {
        sent := sent + [Stop];
        OnBeltStop(webhookSent);
      }
      state := state.(startedAt := 0);
      state := state.(timeAccum := 0, stepsAccum := 0, kmAccum := 0);
      state := state.(timeAccumTotal := 0, stepsAccumTotal := 0, kmAccumTotal := 0);
    }

    /** A speed menu item (0.5 to 6 km/h in steps of 0.5): the pad follows only while ready and walking. */
    method SelectSpeed(tenths: int)
      requires Valid() && 5 <= tenths <= 60 && tenths % 5 == 0
      modifies this`targetSpeed, this`sent
      ensures Valid() && targetSpeed == tenths
      ensures sent == old(sent) + (if state.connState == Ready && state.started then [ChangeSpeed(tenths)] else [])
    {
      targetSpeed := tenths;
      if state.connState == Ready && state.started {
        sent := sent + [ChangeSpeed(tenths)];
      }
    }

    /** Drops the linked pad, if any, and always ends disconnected. */
    method DisconnectConnectedPad()
      requires Valid()
      modifies this`hasPad, this`padDisconnects, this`state
      ensures Valid()
      ensures !hasPad && state == old(state).(connState := Disconnected)
      ensures padDisconnects == old(padDisconnects) + (if old(hasPad) then 1 else 0)
    {
      if hasPad {
        padDisconnects := padDisconnects + 1;
        hasPad := false;
      }
      state := state.(connState := Disconnected);
    }

    /**
      The Bluetooth link of the linked pad dropped (a link to any other device is ignored).
     */
    method OnConnectionLost(device: Address)
      requires Valid()
      modifies this`hasPad, this`padDisconnects, this`state
      ensures Valid()
      ensures old(hasPad) && device != padAddress ==> state == old(state) && hasPad && padDisconnects == old(padDisconnects)
      ensures old(hasPad) && device == padAddress ==>
        !hasPad && state == old(state).(connState := Disconnected) && padDisconnects == old(padDisconnects) + 1
      ensures !old(hasPad) ==> state == old(state) && !hasPad && padDisconnects == old(padDisconnects)
    {
      if hasPad && device == padAddress {
        DisconnectConnectedPad();
      }
    }

    /**
      An attempt to connect: scan with the registered discoverers, and connect
      to the first candidate. A failed scan, an empty scan and a failed
      connection all end disconnected (the deferred reset).
     */
    method AttemptToConnect(scan: seq<ScanResult>, scanOk: bool, discoverers: seq<Discoverer>, preferred: Option<Address>, connectOk: bool)
      returns (o: AttemptOutcome, chosen: Option<Candidate>)
      requires Valid()
      modifies this`hasPad, this`padAddress, this`padDisconnects, this`state
      ensures Valid()
      ensures o == OutcomeOf(scanOk, Discovered(scan, First(discoverers), preferred, {}), connectOk)
      ensures state == old(state).(connState := AttemptResult(o))
      ensures o == Linked ==> chosen == Some(Discovered(scan, First(discoverers), preferred, {})[0])
      ensures o != Linked ==> chosen == None
      ensures o == Linked ==> padAddress == chosen.value.device.address
      ensures padDisconnects == old(padDisconnects) + (if old(hasPad) then 1 else 0)
    {
      if hasPad {
        DisconnectConnectedPad();
      }
      chosen := None;
      state := state.(connState := Scanning);
      var devices: seq<Candidate> := [];
      if scanOk {
        devices := DiscoverCandidates(scan, discoverers, preferred);
      }
      o := OutcomeOf(scanOk, devices, connectOk);
      if !scanOk {
        // find walking pad candidates failed
      } else if |devices| == 0 {
        state := state.(connState := Disconnected);
      } else {
        state := state.(connState := Connecting);
        if connectOk {
          chosen := Some(devices[0]);
          hasPad, padAddress := true, devices[0].device.address;
          state := state.(connState := Connected);
        }
      }
      // the deferred reset
      if state.connState != Connected {
        state := state.(connState := Disconnected);
      }
    }

    /** One turn of the main loop. */
    method Iterate(tick: TickInput, scan: seq<ScanResult>, scanOk: bool, discoverers: seq<Discoverer>, preferred: Option<Address>, connectOk: bool)
      requires Valid()
      modifies this`hasPad, this`padAddress, this`padDisconnects, this`state
      ensures Valid()
      ensures state == AfterIteration(old(state), OutcomeOf(scanOk, Discovered(scan, First(discoverers), preferred, {}), connectOk), tick)
    {
      if state.connState == Disconnected {
        var o, chosen := AttemptToConnect(scan, scanOk, discoverers, preferred, connectOk);
        if state.connState == Disconnected {
          // still not connected: wait a bit before trying again
          return;
        }
      }
      Tick(tick);
    }
  }

  // ---------------------------------------------------------------------------
  // Properties of a turn

  /** A connected pad becomes ready exactly when its stats carry a timestamp; a ready one stays ready; nothing else changes the connection. */
  lemma ReadyPromotion(s: AppState, tick: TickInput)
    ensures AfterTick(s, tick).connState == (if s.connState == Connected && tick.stamped then Ready else s.connState)
    ensures AfterTick(s, tick).connState == Ready <==> s.connState == Ready || (s.connState == Connected && tick.stamped)
  {
  }

  /** A turn that does not end ready marks the session not started and clears the stats, and touches nothing else. */
  lemma NotReadyResets(s: AppState, tick: TickInput)
    requires AfterTick(s, tick).connState != Ready
    ensures AfterTick(s, tick) == s.(started := false, status := ZeroStats)
  {
  }

  /**
    External start and stop, as a ready turn sees them: a rise in speed while
    not started starts the session; a drop to zero while started stops it; a
    drop to a non-zero speed changes nothing.
   */
  lemma ExternalStartStop(s: AppState, tick: TickInput)
    requires s.connState == Ready
    ensures AfterTick(s, tick).status == tick.stats
    ensures AfterTick(s, tick).started ==
      if !s.started then tick.stats.speed > s.status.speed
      else !(tick.stats.speed < s.status.speed && tick.stats.speed == 0)
    ensures !s.started && tick.stats.speed > s.status.speed ==> AfterTick(s, tick).startedAt == tick.now
  {
  }

  /**
    The accumulation of a ready turn: all six accumulators grow by the pad's
    progress exactly when the session runs after the sync and no counter went
    back; otherwise none of them changes, except that an external stop whose
    webhook was sent first clears the three since-start accumulators.
   */
  lemma JointAccumulation(s: AppState, tick: TickInput)
    requires s.connState == Ready
    ensures var t := AfterTick(s, tick);
      var grows := t.started && NoneWentBack(s.status, tick.stats);
      var cleared := s.started && tick.stats.speed < s.status.speed && tick.stats.speed == 0 && tick.webhookSent;
      && t.timeAccumTotal == s.timeAccumTotal + (if grows then tick.stats.time - s.status.time else 0)
      && t.stepsAccumTotal == s.stepsAccumTotal + (if grows then tick.stats.steps - s.status.steps else 0)
      && t.kmAccumTotal == s.kmAccumTotal + (if grows then tick.stats.walkedKm - s.status.walkedKm else 0)
      && t.timeAccum == (if cleared then 0 else s.timeAccum) + (if grows then tick.stats.time - s.status.time else 0)
      && t.stepsAccum == (if cleared then 0 else s.stepsAccum) + (if grows then tick.stats.steps - s.status.steps else 0)
      && t.kmAccum == (if cleared then 0 else s.kmAccum) + (if grows then tick.stats.walkedKm - s.status.walkedKm else 0)
  {
  }

  /**
    Because the sync runs first, the turn that sees an external start already
    counts that turn's progress, and the turn that sees an external stop does
    not count it.
   */
  lemma SyncBeforeAccumulate(s: AppState, tick: TickInput)
    requires s.connState == Ready && NoneWentBack(s.status, tick.stats)
    ensures !s.started && tick.stats.speed > s.status.speed ==>
      AfterTick(s, tick).timeAccumTotal == s.timeAccumTotal + tick.stats.time - s.status.time
      && AfterTick(s, tick).stepsAccumTotal == s.stepsAccumTotal + tick.stats.steps - s.status.steps
      && AfterTick(s, tick).kmAccumTotal == s.kmAccumTotal + tick.stats.walkedKm - s.status.walkedKm
    ensures s.started && tick.stats.speed < s.status.speed && tick.stats.speed == 0 ==>
      AfterTick(s, tick).timeAccumTotal == s.timeAccumTotal && AfterTick(s, tick).stepsAccumTotal == s.stepsAccumTotal
      && AfterTick(s, tick).kmAccumTotal == s.kmAccumTotal
  {
  }

  /** Stopping the belt never touches the totals, and clears the since-start accumulators exactly when the webhook was sent. */
  lemma BeltStopKeepsTotals(s: AppState, webhookSent: bool)
    ensures var t := AfterBeltStop(s, webhookSent);
      && !t.started && t.connState == s.connState && t.status == s.status
      && t.timeAccumTotal == s.timeAccumTotal && t.stepsAccumTotal == s.stepsAccumTotal && t.kmAccumTotal == s.kmAccumTotal
      && (webhookSent ==> t.startedAt == 0 && t.timeAccum == 0 && t.stepsAccum == 0 && t.kmAccum == 0)
      && (!webhookSent ==> t.startedAt == s.startedAt && t.timeAccum == s.timeAccum && t.stepsAccum == s.stepsAccum && t.kmAccum == s.kmAccum)
  {
  }

  /** The Stop menu leaves the session stopped with every accumulator at zero, whatever the webhook did. */
  lemma StopMenuResets(s: AppState, webhookSent: bool)
    ensures var t := AfterStopMenu(s, webhookSent);
      && !t.started && t.startedAt == 0 && t.connState == s.connState
      && t.timeAccum == 0 && t.stepsAccum == 0 && t.kmAccum == 0
      && t.timeAccumTotal == 0 && t.stepsAccumTotal == 0 && t.kmAccumTotal == 0
  {
  }

  /** The totals never go down over a run of turns. */
  lemma {:induction false} TotalsNeverDecrease(s: AppState, ins: seq<TickInput>)
    ensures Run(s, ins).timeAccumTotal >= s.timeAccumTotal
    ensures Run(s, ins).stepsAccumTotal >= s.stepsAccumTotal
    ensures Run(s, ins).kmAccumTotal >= s.kmAccumTotal
    decreases |ins|
  {
    if ins != [] {
      TotalsNeverDecrease(AfterTick(s, ins[0]), ins[1..]);
    }
  }

  /** The reading before the i-th of a run that follows the reading last. */
  function Before(last: Stats, ins: seq<TickInput>, i: nat): Stats
    requires i <= |ins|
  {
    if i == 0 then last else ins[i - 1].stats
  }

  /** The pad kept moving and none of its counters went back over a run of readings. */
  predicate Walking(last: Stats, ins: seq<TickInput>)
  {
    forall i :: 0 <= i < |ins| ==> ins[i].stats.speed > 0 && NoneWentBack(Before(last, ins, i), ins[i].stats)
  }

  /**
    Over a walk with the pad ready and the session running, the totals grow by
    exactly the pad's own progress between the first and the last reading.
   */
  lemma {:induction false} WalkTelescopes(s: AppState, ins: seq<TickInput>)
    requires s.connState == Ready && s.started && ins != []
    requires Walking(s.status, ins)
    ensures var t := Run(s, ins);
      var final := ins[|ins| - 1].stats;
      && t.connState == Ready && t.started && t.status == final
      && t.timeAccumTotal == s.timeAccumTotal + (final.time - s.status.time)
      && t.stepsAccumTotal == s.stepsAccumTotal + (final.steps - s.status.steps)
      && t.kmAccumTotal == s.kmAccumTotal + (final.walkedKm - s.status.walkedKm)
    decreases |ins|
  {
    var s1 := AfterTick(s, ins[0]);
    assert Before(s.status, ins, 0) == s.status;
    assert NoneWentBack(s.status, ins[0].stats) && ins[0].stats.speed > 0;
    assert s1.connState == Ready && s1.started && s1.status == ins[0].stats;
    assert s1.timeAccumTotal == s.timeAccumTotal + (ins[0].stats.time - s.status.time);
    assert Run(s, ins) == Run(s1, ins[1..]);
    if |ins| == 1 {
      assert ins[1..] == [];
    } else {
      assert Walking(s1.status, ins[1..]) by {
        forall i | 0 <= i < |ins[1..]|
          ensures ins[1..][i].stats.speed > 0 && NoneWentBack(Before(s1.status, ins[1..], i), ins[1..][i].stats)
        {
          assert ins[1..][i] == ins[i + 1];
          assert Before(s1.status, ins[1..], i) == Before(s.status, ins, i + 1);
        }
      }
      WalkTelescopes(s1, ins[1..]);
      assert ins[1..][|ins[1..]| - 1] == ins[|ins| - 1];
    }
  }

  /** An attempt never leaves the app scanning or connecting: it is connected exactly when a candidate was linked. */
  lemma AttemptSettles(o: AttemptOutcome)
    ensures Settled(AttemptResult(o)) && AttemptResult(o) != Ready
    ensures AttemptResult(o) == Connected <==> o == Linked
  {
  }

  /**
    A whole turn keeps the app settled, and a disconnected app that links a
    pad ticks in the same turn.
   */
  lemma IterationSettles(s: AppState, o: AttemptOutcome, tick: TickInput)
    requires Settled(s.connState)
    ensures Settled(AfterIteration(s, o, tick).connState)
    ensures s.connState == Disconnected && o != Linked ==> AfterIteration(s, o, tick) == s
    ensures s.connState == Disconnected && o == Linked ==> AfterIteration(s, o, tick).connState != Disconnected
  {
  }
}
