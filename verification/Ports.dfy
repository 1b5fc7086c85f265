/** The allocator of local ports (privet/portmanager.go). */
module Ports {

  /** A 16-bit port number. */
  newtype Port = x: int | 0 <= x < 0x1_0000

  /** port++ in 16 bits. */
  function Inc(port: Port): Port { ((port as int + 1) % 0x1_0000) as Port }

  /** What the operating system says to a listen request. */
  datatype Answer = Accepts | InUse | Fails

  datatype Outcome = Listening(listener: Listener) | NoPortsAvailable | Error

  /** The ports from start up to and without end. */
  ghost function Range(start: Port, end: Port): (r: set<Port>)
    ensures forall q :: q in r <==> start <= q < end
    decreases 0x1_0000 - start as int
  {
    if start < end then {start} + Range(start + 1, end) else {}
  }

  class PortManager {
    const low: Port
    const high: Port
    var p: set<Port>              // in use, as far as the manager knows
    ghost var live: set<Listener> // the listeners that are open

    /** Live listeners hold distinct marked ports, and only ports of the interval are marked. */
    ghost predicate Valid()
      reads this, live
    {
      && 1 <= low && high < 65535
      && (forall q :: q in p ==> low <= q <= high)
      && (forall l :: l in live ==> l.pm == this && l.open && l.port in p)
      && (forall l, m :: l in live && m in live && l != m ==> l.port != m.port)
    }

    constructor (low: Port, high: Port)
      requires 1 <= low && high < 65535
      ensures Valid() && this.low == low && this.high == high && p == {} && live == {}
    {
      this.low, this.high, p, live := low, high, {}, {};
    }

    /** nextAvailablePort: the least unmarked port from start on, now marked; or zero. */
    method NextAvailablePort(start: Port) returns (port: Port)
      requires Valid() && low <= start
      modifies this`p
      ensures Valid()
      ensures port == 0 ==> p == old(p) && forall q: Port :: start <= q <= high ==> q in p
      ensures port != 0 ==> port !in old(p) && p == old(p) + {port} && start <= port <= high && Range(start, port) <= old(p)
    {
      port := start;
      while port <= high
        invariant start <= port && p == old(p) && Valid()
        invariant forall q: Port :: start <= q < port ==> q in p
        decreases 65535 - port as int
      {
        if port !in p {
          p := p + {port};
          return;
        }
        port := Inc(port);
      }
      return 0;
    }

    method FreePort(port: Port)
      modifies this`p
      ensures p == old(p) - {port}
    {
      p := p - {port};
    }

    /**
     * listen: the least port that is neither marked nor refused by the operating system as in use. The
     * ports refused stay marked; so does a port that failed for another reason, though nobody holds it.
     */
    method Listen(os: Port -> Answer) returns (r: Outcome)
      requires Valid()
      modifies this
      ensures Valid()
      ensures r.NoPortsAvailable? <==> forall q :: low <= q <= high ==> q in old(p) || os(q) == InUse
      ensures r.NoPortsAvailable? ==> live == old(live) && forall q :: low <= q <= high ==> q in p
      ensures r.Listening? ==>
                && fresh(r.listener) && r.listener.open && r.listener.pm == this && live == old(live) + {r.listener}
                && low <= r.listener.port <= high && r.listener.port !in old(p) && os(r.listener.port) == Accepts
                && (forall q :: low <= q < r.listener.port ==> q in old(p) || os(q) == InUse)
                && p == old(p) + Range(low, r.listener.port) + {r.listener.port}
      ensures r.Error? ==>
                && live == old(live)
                && exists port :: low <= port <= high && IsLeaked(port, old(p), os) && p == old(p) + Range(low, port) + {port}
    {
      hide Range;
      var port := NextAvailablePort(low);
      while port != 0
        invariant Valid() && live == old(live)
        invariant port == 0 ==> forall q :: low <= q <= high ==> q in p
        invariant port != 0 ==> low <= port <= high && port !in old(p) && p == old(p) + Range(low, port) + {port}
        invariant forall q :: low <= q <= high && q in p && q != port ==> q in old(p) || os(q) == InUse
        decreases if port == 0 then 0 else 0x1_0000 - port as int
      {
        var answer := os(port);
        if answer == Accepts {
          var l := new Listener(port, this);
          live := live + {l};
          return Listening(l);
        }
        if answer != InUse {
          assert IsLeaked(port, old(p), os);
          return Error;
        }
        port := NextAvailablePort(port);
      }
      return NoPortsAvailable;
    }

    ghost predicate IsLeaked(port: Port, before: set<Port>, os: Port -> Answer) {
      port !in before && os(port) == Fails && forall q :: low <= q < port ==> q in before || os(q) == InUse
    }
  }

  class Listener {
    const port: Port
    const pm: PortManager
    var open: bool

    constructor (port: Port, pm: PortManager)
      ensures this.port == port && this.pm == pm && open
    {
      this.port, this.pm, open := port, pm, true;
    }

    /** Close: the operating system refuses to close a listener twice, and then the port is left alone. */
    method Close() returns (ok: bool)
      requires pm.Valid() && (open <==> this in pm.live)
      modifies this, pm
      ensures pm.Valid() && !open && this !in pm.live
      ensures ok == old(open)
      ensures ok ==> pm.p == old(pm.p) - {port} && pm.live == old(pm.live) - {this}
      ensures !ok ==> pm.p == old(pm.p) && pm.live == old(pm.live)
    {
      if !open { return false; }
      open := false;
      pm.live := pm.live - {this};
      pm.FreePort(port);
      return true;
    }
  }

  // ---- Why the last port must stay out of the interval ----

  /** r is the first unmarked port not above high that a scan from start comes to. */
  ghost predicate ScanFinds(p: set<Port>, high: Port, start: Port, steps: nat, r: Port)
    decreases steps
  {
    start <= high && if start !in p then r == start else steps > 0 && ScanFinds(p, high, Inc(start), steps - 1, r)
  }

  /** In a valid manager, a scan stays in the interval, and it finds the least unmarked port. */
  lemma {:induction false} ScanIsLeast(p: set<Port>, low: Port, high: Port, start: Port, steps: nat, r: Port)
    requires high < 65535 && low <= start && ScanFinds(p, high, start, steps, r)
    ensures low <= r <= high && r !in p && forall q :: start <= q < r ==> q in p
    decreases steps
  {
    if start in p { ScanIsLeast(p, low, high, Inc(start), steps - 1, r); }
  }

  /** With all ports from low on marked, a scan runs over the top and comes to zero. */
  lemma {:induction false} ScanRunsOver(p: set<Port>, low: Port, start: Port)
    requires 1 <= low <= start && forall q :: q in p <==> low <= q
    ensures ScanFinds(p, 65535, start, 0x1_0000 - start as int, 0)
    decreases 0x1_0000 - start as int
  {
    if start < 65535 {
      ScanRunsOver(p, low, start + 1);
      assert Inc(start) == start + 1;
    } else {
      assert Inc(start) == 0 && ScanFinds(p, 65535, 0, 0, 0);
    }
  }

  ghost predicate ScanLeaves(p: set<Port>, low: Port, high: Port, start: Port, steps: nat, r: Port) {
    ScanFinds(p, high, start, steps, r) && !(low <= r <= high)
  }

  /** A scan can leave the interval if and only if the interval ends with the greatest port. */
  lemma ScanLeavesOnlyAtTheTop(low: Port, high: Port, start: Port)
    requires 1 <= low <= start <= high
    ensures (exists p, steps, r :: ScanLeaves(p, low, high, start, steps, r)) <==> high == 65535
  {
    if high == 65535 {
      var p := Range(low, 65535) + {65535};
      var steps: nat, r: Port := 0x1_0000 - start as int, 0;
      ScanRunsOver(p, low, start);
      assert ScanLeaves(p, low, high, start, steps, r);
    } else {
      forall p, steps, r ensures !ScanLeaves(p, low, high, start, steps, r) {
        if ScanFinds(p, high, start, steps, r) { ScanIsLeast(p, low, high, start, steps, r); }
      }
    }
  }
}
