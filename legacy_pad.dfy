/**
  The legacy pad driver (walkingpad.go at the repository root): the same
  queue, checksum and status handling as the newer Kingsmith driver, but the
  app calls the pad's methods directly, there are no stats updates, the writer
  may stop as soon as the pad is cancelled, and the scan recognises a device
  by a fixed list of service identifiers and marks an address as seen only
  when it is recognised.
 */
module LegacyPad {
  import opened Wrappers
  import opened Protocol
  import opened Queue
  import opened Walkingpad

  // ---------------------------------------------------------------------------
  // Scanning

  /** The outcome of one advertisement in a legacy scan: the seen addresses, what was appended, and whether to stop. */
  datatype Collecting = Collecting(seen: set<Address>, appended: seq<ScanResult>, stop: bool)

  /**
    One advertisement, as the legacy scan callback handles it: a device that
    advertises none of the identifiers is ignored and left unmarked; a
    recognised device already seen is skipped; otherwise it is marked,
    appended, and stops the scan if it is the preferred one.
   */
  function Collect(device: ScanResult, uuids: seq<Uuid>, target: Option<Address>, seen: set<Address>): Collecting
  {
    if !Advertises(device, uuids) || device.address in seen then Collecting(seen, [], false)
    else Collecting(seen + {device.address}, [device], target == Some(device.address))
  }

  /** The candidates a legacy scan collects, given the addresses already seen. */
  function Collected(scan: seq<ScanResult>, uuids: seq<Uuid>, target: Option<Address>, seen: set<Address>): seq<ScanResult>
  {
    if scan == [] then []
    else
      var Collecting(seen', appended, stop) := Collect(scan[0], uuids, target, seen);
      appended + (if stop then [] else Collected(scan[1..], uuids, target, seen'))
  }

  /**
    The scan callback for one advertisement, with its loop over the service
    identifiers as written: the first identifier the device advertises does
    the work and returns; were the loop to go on, the next match would find
    the address marked and return.
   */
  method OnScanResult(device: ScanResult, uuids: seq<Uuid>, target: Option<Address>, seen: set<Address>)
    returns (seen': set<Address>, appended: seq<ScanResult>, stop: bool)
    ensures Collecting(seen', appended, stop) == Collect(device, uuids, target, seen)
  {
    seen', appended, stop := seen, [], false;
    for j := 0 to |uuids|
      invariant seen' == seen && appended == [] && !stop
      invariant forall i :: 0 <= i < j ==> uuids[i] !in device.services
    {
      if uuids[j] in device.services {
        if device.address in seen' {
          return;
        }
        seen' := seen' + {device.address};
        appended := appended + [device];
        if target == Some(device.address) {
          stop := true;
        }
        return;
      }
    }
  }

  /**
    The scan from position k, after the devices already collected, is the
    callback on the k-th advertisement followed by the scan of the rest.
   */
  lemma CollectedStep(scan: seq<ScanResult>, k: nat, uuids: seq<Uuid>, target: Option<Address>, seen: set<Address>, devices: seq<ScanResult>)
    requires k < |scan|
    ensures var x := Collect(scan[k], uuids, target, seen);
      devices + Collected(scan[k..], uuids, target, seen)
      == (devices + x.appended) + (if x.stop then [] else Collected(scan[k + 1..], uuids, target, x.seen))
  {
    assert scan[k..][0] == scan[k] && scan[k..][1..] == scan[k + 1..];
  }

  /** A whole legacy scan: the callback over every advertisement, in order, until the preferred device is appended. */
  method FindWalkingPadCandidates(scan: seq<ScanResult>, uuids: seq<Uuid>, target: Option<Address>)
    returns (devices: seq<ScanResult>)
    ensures devices == Collected(scan, uuids, target, {})
  {
    var seen: set<Address> := {};
    devices := [];
    var scanning := true;
    var k := 0;
    while scanning && k < |scan|
      invariant 0 <= k <= |scan|
      invariant Collected(scan, uuids, target, {})
        == devices + (if scanning then Collected(scan[k..], uuids, target, seen) else [])
    {
      CollectedStep(scan, k, uuids, target, seen, devices);
      var appended, stop;
      seen, appended, stop := OnScanResult(scan[k], uuids, target, seen);
      devices := devices + appended;
      scanning := !stop;
      k := k + 1;
    }
  }

  /** Every candidate advertises one of the identifiers, comes from the scan, and was not seen before. */
  lemma {:induction false} CollectedRecognised(scan: seq<ScanResult>, uuids: seq<Uuid>, target: Option<Address>, seen: set<Address>)
    ensures forall d :: d in Collected(scan, uuids, target, seen) ==> Advertises(d, uuids) && d in scan && d.address !in seen
  {
    if scan != [] {
      var Collecting(seen', appended, stop) := Collect(scan[0], uuids, target, seen);
      if !stop {
        CollectedRecognised(scan[1..], uuids, target, seen');
      }
    }
  }

  /** At most one candidate per address, in scan order. */
  lemma {:induction false} CollectedDistinctInOrder(scan: seq<ScanResult>, uuids: seq<Uuid>, target: Option<Address>, seen: set<Address>)
    ensures DistinctAddresses(Collected(scan, uuids, target, seen))
    ensures Embeds(Collected(scan, uuids, target, seen), scan)
  {
    if scan != [] {
      var Collecting(seen', appended, stop) := Collect(scan[0], uuids, target, seen);
      var rest := if stop then [] else Collected(scan[1..], uuids, target, seen');
      if !stop {
        CollectedDistinctInOrder(scan[1..], uuids, target, seen');
        CollectedRecognised(scan[1..], uuids, target, seen');
      }
      var r := Collected(scan, uuids, target, seen);
      assert r == appended + rest;
      if appended != [] {
        assert r[0] == scan[0] && r[1..] == rest;
        assert scan[0].address in seen';
        forall i, j | 0 <= i < j < |r| ensures r[i].address != r[j].address {
          if i == 0 {
            assert r[j] in rest;
          } else {
            assert r[i] == rest[i - 1] && r[j] == rest[j - 1];
          }
        }
      } else {
        assert r == rest;
      }
    }
  }

  /** Once the preferred device is appended the scan stops: it can only be the last candidate. */
  lemma {:induction false} CollectedStopsAtTarget(scan: seq<ScanResult>, uuids: seq<Uuid>, target: Option<Address>, seen: set<Address>)
    requires target.Some?
    ensures forall i :: 0 <= i < |Collected(scan, uuids, target, seen)| - 1 ==>
      Collected(scan, uuids, target, seen)[i].address != target.value
  {
    if scan != [] {
      var Collecting(seen', appended, stop) := Collect(scan[0], uuids, target, seen);
      var rest := if stop then [] else Collected(scan[1..], uuids, target, seen');
      if !stop {
        CollectedStopsAtTarget(scan[1..], uuids, target, seen');
      }
      assert Collected(scan, uuids, target, seen) == appended + rest;
      TargetOnlyLastCons(appended, rest, target.value);
    }
  }

  /** Putting at most one device before a list keeps the address a only at its end, unless that device has it and the list is not empty. */
  lemma TargetOnlyLastCons(appended: seq<ScanResult>, rest: seq<ScanResult>, a: Address)
    requires |appended| <= 1
    requires forall i :: 0 <= i < |rest| - 1 ==> rest[i].address != a
    requires appended != [] && appended[0].address == a ==> rest == []
    ensures forall i :: 0 <= i < |appended + rest| - 1 ==> (appended + rest)[i].address != a
  {
    if appended != [] {
      var r := appended + rest;
      forall i | 0 <= i < |r| - 1 ensures r[i].address != a {
        if i > 0 {
          assert r[i] == rest[i - 1];
        }
      }
    }
  }

  /**
    Without a preferred device the scan misses nothing: every recognised
    address of the scan that was not seen before has a candidate.
   */
  lemma {:induction false} CollectedComplete(scan: seq<ScanResult>, uuids: seq<Uuid>, seen: set<Address>)
    ensures forall i :: 0 <= i < |scan| && Advertises(scan[i], uuids) && scan[i].address !in seen ==>
      exists d :: d in Collected(scan, uuids, None, seen) && d.address == scan[i].address
  {
    if scan != [] {
      var Collecting(seen', appended, stop) := Collect(scan[0], uuids, None, seen);
      CollectedComplete(scan[1..], uuids, seen');
      var r := Collected(scan, uuids, None, seen);
      assert r == appended + Collected(scan[1..], uuids, None, seen');
      forall i | 0 <= i < |scan| && Advertises(scan[i], uuids) && scan[i].address !in seen
        ensures exists d :: d in r && d.address == scan[i].address
      {
        if i == 0 {
          assert r[0] == scan[0];
        } else if scan[i].address in seen' {
          assert scan[i].address == scan[0].address && appended == [scan[0]];
          assert r[0] == scan[0];
        } else {
          assert scan[i] == scan[1..][i - 1];
        }
      }
    }
  }

  /** Each sighting of an address advertises the same identifiers. */
  predicate ConsistentAdvertising(scan: seq<ScanResult>, uuids: seq<Uuid>)
  {
    forall i, j :: 0 <= i < |scan| && 0 <= j < |scan| && scan[i].address == scan[j].address ==>
      (Advertises(scan[i], uuids) <==> Advertises(scan[j], uuids))
  }

  /**
    The newer scan with a driver registered for the same identifiers finds the
    same devices as the legacy scan, provided every sighting of an address
    advertises alike.
   */
  lemma {:induction false} NewScanAgreesWithLegacy(scan: seq<ScanResult>, uuids: seq<Uuid>, c: Connector, target: Option<Address>, seen: set<Address>)
    requires ConsistentAdvertising(scan, uuids)
    ensures Devices(Discovered(scan, Some(ServiceDiscoverer(uuids, c)), target, seen)) == Collected(scan, uuids, target, seen)
  {
    var d := ServiceDiscoverer(uuids, c);
    if scan != [] {
      var x := Examine(scan[0], Some(d), target, seen);
      var y := Collect(scan[0], uuids, target, seen);
      FirstSightingAgrees(scan[0], uuids, c, target, seen);
      var rest := if x.stop then [] else Discovered(scan[1..], Some(d), target, x.seen);
      if !x.stop {
        ConsistentTail(scan, uuids);
        if x.seen != y.seen {
          // the newer scan marks the address although nothing recognised it; the
          // legacy scan does not, and no later sighting of it is recognised either
          DiscoveredSkipsUnrecognised(scan[1..], uuids, c, target, y.seen, scan[0].address);
        }
        NewScanAgreesWithLegacy(scan[1..], uuids, c, target, y.seen);
      }
      assert Discovered(scan, Some(d), target, seen) == x.appended + rest;
      DevicesAppend(x.appended, rest);
    }
  }

  /** One advertisement: both callbacks append the same device and agree on stopping; they mark alike unless nothing recognised it. */
  lemma FirstSightingAgrees(device: ScanResult, uuids: seq<Uuid>, c: Connector, target: Option<Address>, seen: set<Address>)
    ensures var x := Examine(device, Some(ServiceDiscoverer(uuids, c)), target, seen);
      var y := Collect(device, uuids, target, seen);
      && Devices(x.appended) == y.appended && x.stop == y.stop
      && (x.seen == y.seen || (x.seen == y.seen + {device.address} && !Advertises(device, uuids)))
  {
    var x := Examine(device, Some(ServiceDiscoverer(uuids, c)), target, seen);
    if x.appended != [] {
      assert Devices(x.appended)[0] == device;
    }
  }

  /** The sightings after the first still advertise alike, and alike with the first. */
  lemma ConsistentTail(scan: seq<ScanResult>, uuids: seq<Uuid>)
    requires scan != [] && ConsistentAdvertising(scan, uuids)
    ensures ConsistentAdvertising(scan[1..], uuids)
    ensures forall i :: 0 <= i < |scan[1..]| && scan[1..][i].address == scan[0].address ==>
      (Advertises(scan[1..][i], uuids) <==> Advertises(scan[0], uuids))
  {
    forall i, j | 0 <= i < |scan[1..]| && 0 <= j < |scan[1..]| && scan[1..][i].address == scan[1..][j].address
      ensures Advertises(scan[1..][i], uuids) <==> Advertises(scan[1..][j], uuids)
    {
      assert scan[1..][i] == scan[i + 1] && scan[1..][j] == scan[j + 1];
    }
    forall i | 0 <= i < |scan[1..]| && scan[1..][i].address == scan[0].address
      ensures Advertises(scan[1..][i], uuids) <==> Advertises(scan[0], uuids)
    {
      assert scan[1..][i] == scan[i + 1];
    }
  }

  lemma DevicesAppend(a: seq<Candidate>, b: seq<Candidate>)
    ensures Devices(a + b) == Devices(a) + Devices(b)
  {
  }

  /** Marking an address none of whose sightings is recognised changes nothing in the newer scan. */
  lemma {:induction false} DiscoveredSkipsUnrecognised(scan: seq<ScanResult>, uuids: seq<Uuid>, c: Connector, target: Option<Address>, seen: set<Address>, a: Address)
    requires forall i :: 0 <= i < |scan| && scan[i].address == a ==> !Advertises(scan[i], uuids)
    ensures Discovered(scan, Some(ServiceDiscoverer(uuids, c)), target, seen + {a})
      == Discovered(scan, Some(ServiceDiscoverer(uuids, c)), target, seen)
  {
    var d := ServiceDiscoverer(uuids, c);
    if scan != [] {
      var x := Examine(scan[0], Some(d), target, seen);
      var y := Examine(scan[0], Some(d), target, seen + {a});
      forall i | 0 <= i < |scan[1..]| && scan[1..][i].address == a ensures !Advertises(scan[1..][i], uuids) {
        assert scan[1..][i] == scan[i + 1];
      }
      if scan[0].address == a {
        if a in seen {
          assert seen + {a} == seen;
        } else {
          assert x.appended == [] && !x.stop && x.seen == seen + {a};
          assert y.appended == [] && !y.stop && y.seen == seen + {a};
        }
      } else {
        assert y.seen == x.seen + {a};
        assert y.appended == x.appended && y.stop == x.stop;
        if !x.stop {
          DiscoveredSkipsUnrecognised(scan[1..], uuids, c, target, x.seen, a);
        }
      }
    }
  }

  /**
    The two scans part ways when an address first appears without the
    identifiers and then with them: the legacy scan collects the second
    sighting, the newer scan has already marked the address and skips it.
   */
  lemma InconsistentAdvertisingDiffers(uuids: seq<Uuid>, c: Connector)
    requires |uuids| > 0
    ensures var scan := [ScanResult("pad", {}), ScanResult("pad", {uuids[0]})];
      && Collected(scan, uuids, None, {}) == [scan[1]]
      && Discovered(scan, Some(ServiceDiscoverer(uuids, c)), None, {}) == []
  {
    var scan := [ScanResult("pad", {}), ScanResult("pad", {uuids[0]})];
    var d := ServiceDiscoverer(uuids, c);
    assert !Advertises(scan[0], uuids);
    assert Advertises(scan[1], uuids) by {
      assert uuids[0] in scan[1].services;
    }
    assert scan[1..] == [scan[1]] && scan[1..][1..] == [];
    assert Collected(scan, uuids, None, {}) == Collected([scan[1]], uuids, None, {});
    assert Collected([scan[1]], uuids, None, {}) == [scan[1]] + Collected([], uuids, None, {"pad"});
    assert Examine(scan[0], Some(d), None, {}) == Examined({"pad"}, [], false);
    assert Examine(scan[1], Some(d), None, {"pad"}) == Examined({"pad"}, [], false);
    assert Discovered(scan, Some(d), None, {}) == Discovered([scan[1]], Some(d), None, {"pad"});
    assert Discovered([scan[1]], Some(d), None, {"pad"}) == [] + Discovered([], Some(d), None, {"pad"});
  }

  // ---------------------------------------------------------------------------
  // The pad

  class WalkingPad {
    var queue: seq<Entry>
    var stopped: bool
    var lastStatus: StatusReading
    /** The capture time of lastStatus; 0 stands for the zero time (no status yet). */
    var lastStatusTime: int
    ghost var trace: seq<Event>
    ghost var deviceDisconnects: nat

    /** The device is disconnected exactly once the pad is stopped; every frame queued or written carries a correct checksum. */
    ghost predicate Valid()
      reads this
    {
      && deviceDisconnects == (if stopped then 1 else 0)
      && AllChecksummed(queue)
      && forall f :: f in Written(trace) ==> Checksummed(f)
    }

    constructor ()
      ensures Valid() && !stopped && queue == [] && trace == []
      ensures lastStatus == ZeroStatus && lastStatusTime == 0
    {
      queue, stopped := [], false;
      lastStatus, lastStatusTime := ZeroStatus, 0;
      trace, deviceDisconnects := [], 0;
    }

    /** Teardown, guarded by the stopped flag so that only the first call disconnects the device. */
    method Disconnect()
      requires Valid()
      modifies this`stopped, this`deviceDisconnects
      ensures Valid() && stopped && deviceDisconnects == 1
      ensures old(stopped) ==> deviceDisconnects == old(deviceDisconnects)
    {
      if stopped {
        return;
      }
      stopped := true;
      deviceDisconnects := deviceDisconnects + 1;
    }

    /** Fixes the frame's checksum in place and appends it, with its delay, to the queue. */
    method PushCmd(cmd: Option<seq<Byte>>, timeout: nat)
      requires Valid() && !stopped
      modifies this`queue
      ensures Valid() && queue == old(queue) + [Pushed(cmd, timeout)]
    {
      var buffer: Option<seq<Byte>> := None;
      if cmd.Some? {
        var frame := cmd.value;
        var bytes := new Byte[|frame|](i requires 0 <= i < |frame| => frame[i]);
        assert bytes[..] == frame;
        FixCrc(bytes);
        buffer := Some(bytes[..]);
      }
      queue := queue + [Entry(timeout, buffer)];
    }

    method ChangeMode(mode: Byte)
      requires Valid() && !stopped
      modifies this`queue
      ensures Valid() && queue == old(queue) + [ChangeModeEntry(mode)]
    {
      PushCmd(Some(ChangeModeFrame(mode)), 0);
    }

    method StartBelt()
      requires Valid() && !stopped
      modifies this`queue
      ensures Valid() && queue == old(queue) + [StartBeltEntry()]
    {
      PushCmd(Some(StartBeltFrame()), 0);
    }

    method StopBelt()
      requires Valid() && !stopped
      modifies this`queue
      ensures Valid() && queue == old(queue) + [ChangeSpeedEntry(0)]
    {
      ChangeSpeed(0);
    }

    /** Queues a speed change; a speed outside 0 to 6 km/h is a programming error (the pad panics). */
    method ChangeSpeed(tenths: int)
      requires Valid() && !stopped
      requires 0 <= tenths <= MaxSpeedTenths
      modifies this`queue
      ensures Valid() && queue == old(queue) + [ChangeSpeedEntry(tenths)]
    {
      PushCmd(Some(ChangeSpeedFrame(tenths)), 0);
    }

    method AskStats()
      requires Valid() && !stopped
      modifies this`queue
      ensures Valid() && queue == old(queue) + [AskStatsEntry()]
    {
      PushCmd(Some(AskStatsFrame()), 0);
    }

    method WaitCmd(ms: nat)
      requires Valid() && !stopped
      modifies this`queue
      ensures Valid() && queue == old(queue) + [WaitEntry(ms)]
    {
      PushCmd(None, ms);
    }

    /** The notification callback: a status frame overwrites the last status and its time; anything else is ignored. */
    method OnBufferReceive(buf: seq<Byte>, now: int)
      requires Valid()
      requires IsStatusFrame(buf) ==> |buf| >= 14
      modifies this`lastStatus, this`lastStatusTime
      ensures Valid()
      ensures !IsStatusFrame(buf) ==> lastStatus == old(lastStatus) && lastStatusTime == old(lastStatusTime)
      ensures IsStatusFrame(buf) ==> lastStatus == DecodeStatus(buf[2..]) && lastStatusTime == now
    {
      if |buf| < 2 {
        return;
      }
      if buf[0] == StatusHeader && buf[1] == ProtocolByte {
        lastStatus := DecodeStatus(buf[2..]);
        lastStatusTime := now;
        return;
      }
    }

    /**
      One round of the writer: takes the front entry, waits out its delay,
      writes its frame, if any, and then pauses 700 ms whether or not the
      write succeeded (a failed write is only logged).
     */
    method WriteNext()
      requires Valid() && queue != []
      modifies this`queue, this`trace
      ensures Valid() && queue == old(queue)[1..] && trace == old(trace) + EntryEvents(old(queue)[0])
    {
      var cmd := queue[0];
      AllChecksummedTail(queue);
      queue := queue[1..];
      if cmd.timeout != 0 {
        trace := trace + [Pause(cmd.timeout)];
      }
      if cmd.buffer.Some? {
        trace := trace + [Write(cmd.buffer.value)];
        trace := trace + [Pause(WriteSpacingMs)];
      }
      assert trace == old(trace) + EntryEvents(cmd);
      WriteKeepsChecksums(old(trace), cmd);
    }

    /**
      The writer, run until it is cancelled: it takes the first n entries of
      the queue, front first, and handles each as the newer writer does. It
      may be cancelled with entries still queued, which are then never written.
     */
    method WriteLoop(n: nat)
      requires Valid() && n <= |queue|
      modifies this`queue, this`trace
      ensures Valid() && queue == old(queue)[n..] && trace == old(trace) + Drain(old(queue)[..n])
    {
      ghost var q0 := queue;
      var k := 0;
      while k < n
        invariant 0 <= k <= n && queue == q0[k..]
        invariant trace == old(trace) + Drain(q0[..k])
        invariant Valid()
      {
        ghost var before := trace;
        WriteNext();
        DrainStep(q0, k, old(trace), before, trace);
        k := k + 1;
      }
    }
  }
}
