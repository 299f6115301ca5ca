/**
  The pad-independent vocabulary of the newer driver layout
  (internal/walkingpad.go): the commands the app sends to a pad driver, the
  stats update a driver sends back, and the scan that turns advertisements into
  connectable candidates through a list of registered discoverers.

  Speeds are in tenths of km/h, time in seconds, distance in hundredths of a km.
 */
module Walkingpad {
  import opened Wrappers

  /** What the app asks a pad driver to do. */
  datatype Command = Start(speed: int) | Stop | ChangeSpeed(speed: int)

  /** The stats update a driver publishes (and the app keeps as its last reading). */
  datatype Stats = Stats(speed: int, time: int, walkedKm: int, steps: int)

  const ZeroStats := Stats(0, 0, 0, 0)

  // ---------------------------------------------------------------------------
  // Scanning

  type Address = string
  type Uuid = string

  /** One advertisement seen during a scan: the device address and the service identifiers it advertises. */
  datatype ScanResult = ScanResult(address: Address, services: set<Uuid>)

  /** Identifies the driver that knows how to connect to a candidate. */
  type Connector = nat

  /** A device a discoverer recognised, with the driver that connects to it. */
  datatype Candidate = Candidate(device: ScanResult, connector: Connector)

  /** A registered discoverer: recognises an advertisement, or declines it. */
  type Discoverer = ScanResult -> Option<Connector>

  /** Whether an advertisement lists at least one of the given service identifiers. */
  predicate Advertises(device: ScanResult, uuids: seq<Uuid>)
  {
    exists i :: 0 <= i < |uuids| && uuids[i] in device.services
  }

  /** The discoverer a driver registers: it recognises every device advertising one of its services. */
  function ServiceDiscoverer(uuids: seq<Uuid>, connector: Connector): Discoverer
  {
    device => if Advertises(device, uuids) then Some(connector) else None
  }

  /**
    The driver's discoverer as it runs: it tries the service identifiers in
    order and returns the connector at the first one the device advertises,
    and nothing when none matches.
   */
  method DiscoverByService(device: ScanResult, uuids: seq<Uuid>, connector: Connector) returns (r: Option<Connector>)
    ensures r == ServiceDiscoverer(uuids, connector)(device)
    ensures r.Some? <==> exists i :: 0 <= i < |uuids| && uuids[i] in device.services
  {
    for i := 0 to |uuids|
      invariant forall j :: 0 <= j < i ==> uuids[j] !in device.services
    {
      if uuids[i] in device.services {
        return Some(connector);
      }
    }
    return None;
  }

  /** The first registered discoverer, if any. */
  function First(discoverers: seq<Discoverer>): Option<Discoverer>
  {
    if discoverers == [] then None else Some(discoverers[0])
  }

  /** The outcome of examining one advertisement: the seen addresses, what was appended, and whether to stop. */
  datatype Examined = Examined(seen: set<Address>, appended: seq<Candidate>, stop: bool)

  /**
    One advertisement, as the scan callback handles it: an address already
    seen is skipped; otherwise it is marked seen before the discoverer runs, a
    recognised device is appended, and the scan stops if it is the preferred one.
    With no discoverer registered nothing happens at all.
   */
  function Examine(device: ScanResult, first: Option<Discoverer>, target: Option<Address>, seen: set<Address>): Examined
  {
    match first
    case None => Examined(seen, [], false)
    case Some(discover) =>
      if device.address in seen then Examined(seen, [], false)
      else match discover(device)
        case None => Examined(seen + {device.address}, [], false)
        case Some(c) => Examined(seen + {device.address}, [Candidate(device, c)], target == Some(device.address))
  }

  /** The candidates a scan collects, given the addresses already seen. */
  function Discovered(scan: seq<ScanResult>, first: Option<Discoverer>, target: Option<Address>, seen: set<Address>): seq<Candidate>
  {
    if scan == [] then []
    else
      var x := Examine(scan[0], first, target, seen);
      x.appended + (if x.stop then [] else Discovered(scan[1..], first, target, x.seen))
  }

  /**
    The scan callback for one advertisement. The loop over the discoverers is
    kept as written: the address is marked seen in its first round, so every
    later round returns at once and only the first discoverer is ever consulted.
   */
  method OnScanResult(device: ScanResult, discoverers: seq<Discoverer>, target: Option<Address>, seen: set<Address>)
    returns (seen': set<Address>, appended: seq<Candidate>, stop: bool)
    ensures Examined(seen', appended, stop) == Examine(device, First(discoverers), target, seen)
  {
    seen', appended, stop := seen, [], false;
    var j := 0;
    var done := false;
    while !done && j < |discoverers|
      invariant 0 <= j <= |discoverers|
      invariant j == 0 ==> !done && !stop && seen' == seen && appended == []
      invariant j > 0 ==> Examined(seen', appended, stop) == Examine(device, First(discoverers), target, seen)
      invariant j > 0 && !done ==> device.address in seen'
    {
      if device.address in seen' {
        done := true;
      } else {
        seen' := seen' + {device.address};
        var found := discoverers[j](device);
        if found.Some? {
          appended := appended + [Candidate(device, found.value)];
          if target == Some(device.address) {
            stop := true;
            done := true;
          }
        }
      }
      j := j + 1;
    }
  }

  /** A whole scan: the callback over every advertisement, in order, until the preferred device is appended. */
  method DiscoverCandidates(scan: seq<ScanResult>, discoverers: seq<Discoverer>, target: Option<Address>)
    returns (candidates: seq<Candidate>)
    ensures candidates == Discovered(scan, First(discoverers), target, {})
  {
    var seen: set<Address> := {};
    candidates := [];
    var scanning := true;
    var k := 0;
    while scanning && k < |scan|
      invariant 0 <= k <= |scan|
      invariant Discovered(scan, First(discoverers), target, {})
        == candidates + (if scanning then Discovered(scan[k..], First(discoverers), target, seen) else [])
    {
      DiscoveredStep(scan, k, First(discoverers), target, seen, candidates);
      var appended, stop;
      seen, appended, stop := OnScanResult(scan[k], discoverers, target, seen);
      candidates := candidates + appended;
      scanning := !stop;
      k := k + 1;
    }
  }

  /**
    The scan from position k, after the candidates already found, is the
    callback on the k-th advertisement followed by the scan of the rest.
   */
  lemma DiscoveredStep(scan: seq<ScanResult>, k: nat, first: Option<Discoverer>, target: Option<Address>, seen: set<Address>, found: seq<Candidate>)
    requires k < |scan|
    ensures var x := Examine(scan[k], first, target, seen);
      found + Discovered(scan[k..], first, target, seen)
      == (found + x.appended) + (if x.stop then [] else Discovered(scan[k + 1..], first, target, x.seen))
  {
    assert scan[k..][0] == scan[k] && scan[k..][1..] == scan[k + 1..];
  }

  // ---------------------------------------------------------------------------
  // What a scan collects

  /** The devices of a run of candidates. */
  function Devices(cs: seq<Candidate>): (ds: seq<ScanResult>)
    ensures |ds| == |cs| && forall i :: 0 <= i < |cs| ==> ds[i] == cs[i].device
  {
    seq(|cs|, i requires 0 <= i < |cs| => cs[i].device)
  }

  /** xs is xs taken from ys in order, possibly skipping some. */
  ghost predicate Embeds<T>(xs: seq<T>, ys: seq<T>)
    decreases |ys|
  {
    xs == [] || (ys != [] && ((xs[0] == ys[0] && Embeds(xs[1..], ys[1..])) || Embeds(xs, ys[1..])))
  }

  /** No two entries share an address. */
  predicate DistinctAddresses(ds: seq<ScanResult>)
  {
    forall i, j :: 0 <= i < j < |ds| ==> ds[i].address != ds[j].address
  }

  /** The candidates come from the scan in scan order. */
  lemma {:induction false} DiscoveredInScanOrder(scan: seq<ScanResult>, first: Option<Discoverer>, target: Option<Address>, seen: set<Address>)
    ensures Embeds(Devices(Discovered(scan, first, target, seen)), scan)
  {
    if scan != [] {
      var x := Examine(scan[0], first, target, seen);
      var rest := if x.stop then [] else Discovered(scan[1..], first, target, x.seen);
      if !x.stop {
        DiscoveredInScanOrder(scan[1..], first, target, x.seen);
      }
      assert Embeds(Devices(rest), scan[1..]);
      var r := Discovered(scan, first, target, seen);
      assert r == x.appended + rest;
      if x.appended == [] {
        assert Devices(r) == Devices(rest);
      } else {
        assert Devices(r)[0] == scan[0];
        assert Devices(r)[1..] == Devices(rest);
      }
    }
  }

  /** At most one candidate per address, and none for an address seen before the scan. */
  lemma {:induction false} DiscoveredDistinct(scan: seq<ScanResult>, first: Option<Discoverer>, target: Option<Address>, seen: set<Address>)
    ensures DistinctAddresses(Devices(Discovered(scan, first, target, seen)))
    ensures forall c :: c in Discovered(scan, first, target, seen) ==> c.device.address !in seen
  {
    if scan != [] {
      var x := Examine(scan[0], first, target, seen);
      var rest := if x.stop then [] else Discovered(scan[1..], first, target, x.seen);
      if !x.stop {
        DiscoveredDistinct(scan[1..], first, target, x.seen);
      }
      assert seen <= x.seen;
      assert Discovered(scan, first, target, seen) == x.appended + rest;
      if x.appended != [] {
        assert scan[0].address in x.seen && scan[0].address !in seen;
        assert x.appended == [x.appended[0]] && x.appended[0].device == scan[0];
        DistinctCons(x.appended[0], rest);
      }
    }
  }

  /** A candidate whose address is not among the rest's keeps the addresses distinct. */
  lemma DistinctCons(c: Candidate, rest: seq<Candidate>)
    requires DistinctAddresses(Devices(rest))
    requires forall d :: d in rest ==> d.device.address != c.device.address
    ensures DistinctAddresses(Devices([c] + rest))
  {
    var r := [c] + rest;
    forall i, j | 0 <= i < j < |r| ensures Devices(r)[i].address != Devices(r)[j].address {
      assert r[j] == rest[j - 1];
      if i > 0 {
        assert r[i] == rest[i - 1];
      }
    }
  }

  /** Every candidate is a device the first discoverer recognised, with the connector it gave. */
  lemma {:induction false} DiscoveredRecognised(scan: seq<ScanResult>, first: Option<Discoverer>, target: Option<Address>, seen: set<Address>)
    ensures forall c :: c in Discovered(scan, first, target, seen) ==>
      first.Some? && first.value(c.device) == Some(c.connector) && c.device in scan
  {
    if scan != [] {
      var x := Examine(scan[0], first, target, seen);
      if !x.stop {
        DiscoveredRecognised(scan[1..], first, target, x.seen);
      }
    }
  }

  /** Once the preferred device is appended the scan stops: it can only be the last candidate. */
  lemma {:induction false} DiscoveredStopsAtTarget(scan: seq<ScanResult>, first: Option<Discoverer>, target: Option<Address>, seen: set<Address>)
    requires target.Some?
    ensures forall i :: 0 <= i < |Discovered(scan, first, target, seen)| - 1 ==>
      Discovered(scan, first, target, seen)[i].device.address != target.value
  {
    if scan != [] {
      var x := Examine(scan[0], first, target, seen);
      var rest := if x.stop then [] else Discovered(scan[1..], first, target, x.seen);
      if !x.stop {
        DiscoveredStopsAtTarget(scan[1..], first, target, x.seen);
      }
      var r := Discovered(scan, first, target, seen);
      assert r == x.appended + rest;
      forall i | 0 <= i < |r| - 1 ensures r[i].device.address != target.value {
        if x.appended != [] && i == 0 {
          assert !x.stop;
        } else if x.appended != [] {
          assert r[i] == rest[i - 1];
        }
      }
    }
  }

  /** The advertisements of a scan that are first sightings of their address (not in seen, not earlier in the scan). */
  function FirstSightings(scan: seq<ScanResult>, seen: set<Address>): seq<ScanResult>
  {
    if scan == [] then []
    else if scan[0].address in seen then FirstSightings(scan[1..], seen)
    else [scan[0]] + FirstSightings(scan[1..], seen + {scan[0].address})
  }

  /**
    Repeated sightings of an address are never examined again: when a driver
    is registered, a scan collects the same candidates as the scan of first
    sightings alone, whatever the first discoverer said about the address.
   */
  lemma {:induction false} OnlyFirstSightingsExamined(scan: seq<ScanResult>, discover: Discoverer, target: Option<Address>, seen: set<Address>)
    ensures Discovered(scan, Some(discover), target, seen) == Discovered(FirstSightings(scan, seen), Some(discover), target, seen)
  {
    if scan != [] {
      var a := scan[0].address;
      if a in seen {
        OnlyFirstSightingsExamined(scan[1..], discover, target, seen);
      } else {
        OnlyFirstSightingsExamined(scan[1..], discover, target, seen + {a});
        var fs := FirstSightings(scan, seen);
        assert fs[0] == scan[0] && fs[1..] == FirstSightings(scan[1..], seen + {a});
      }
    }
  }

  /** With no discoverer registered a scan finds nothing. */
  lemma {:induction false} NoDiscovererNoCandidates(scan: seq<ScanResult>, target: Option<Address>, seen: set<Address>)
    ensures Discovered(scan, None, target, seen) == []
  {
    if scan != [] {
      NoDiscovererNoCandidates(scan[1..], target, seen);
    }
  }
}
