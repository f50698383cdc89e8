/**
 * The Wolfgang robot's combined hardware interface: it discovers the
 * devices on every serial port, keeps one list of hardware interfaces per
 * port plus one overall servo interface for the controllers, and runs
 * init, read and write over them.
 *
 * The per-port worker threads are modelled as sequential work in port
 * order; what each device interface does is outside this model, so every
 * call into one is recorded as an event in `trace` (and, for init, its
 * result is an input).
 */
module WolfgangHardware {

  import opened Common
  import opened WolfgangDevices

  // ---------------------------------------------------------------------
  // Traces of the per-cycle operations
  // ---------------------------------------------------------------------

  datatype Op = InitOp | ReadOp | WriteOp

  /** A call to one port's interface number `index`, or to the overall servo interface. */
  datatype Event = OnPort(port: nat, index: nat, op: Op) | Aggregate(op: Op)

  /** The calls a port worker makes on the first n interfaces of port p: each once, in list order. */
  function PortTrace(p: nat, n: nat, op: Op): (t: seq<Event>)
    ensures |t| == n
    ensures forall j :: 0 <= j < n ==> t[j] == OnPort(p, j, op)
    decreases n
  {
    if n == 0 then [] else PortTrace(p, n - 1, op) + [OnPort(p, n - 1, op)]
  }

  /** The calls of the workers of the first n ports, port after port. */
  function PortsTrace(lists: seq<seq<Interface>>, n: nat, op: Op): seq<Event>
    requires n <= |lists|
    decreases n
  {
    if n == 0 then [] else PortsTrace(lists, n - 1, op) + PortTrace(n - 1, |lists[n - 1]|, op)
  }

  /** Init: every port's interfaces, then the overall servo interface, once all servo buses exist. */
  function InitTrace(lists: seq<seq<Interface>>): seq<Event> {
    PortsTrace(lists, |lists|, InitOp) + [Aggregate(InitOp)]
  }

  /** Read: every port's interfaces, then the overall servo interface gathers their values. */
  function ReadTrace(lists: seq<seq<Interface>>): seq<Event> {
    PortsTrace(lists, |lists|, ReadOp) + [Aggregate(ReadOp)]
  }

  /** Write: the overall servo interface first, then every port's interfaces. */
  function WriteTrace(lists: seq<seq<Interface>>): seq<Event> {
    [Aggregate(WriteOp)] + PortsTrace(lists, |lists|, WriteOp)
  }

  /** Every event of t is a call with operation op to an interface of one of the first n lists. */
  predicate OnlyListed(t: seq<Event>, lists: seq<seq<Interface>>, n: nat, op: Op)
    requires n <= |lists|
  {
    forall i :: 0 <= i < |t| ==>
      t[i].OnPort? && t[i].op == op && t[i].port < n && t[i].index < |lists[t[i].port]|
  }

  /** Every interface of the first n lists is called with operation op somewhere in t. */
  predicate AllCalled(t: seq<Event>, lists: seq<seq<Interface>>, n: nat, op: Op)
    requires n <= |lists|
  {
    forall k, j :: 0 <= k < n && 0 <= j < |lists[k]| ==> OnPort(k, j, op) in t
  }

  /** Within each port, the calls of t go to increasing interface numbers. */
  predicate InPortOrder(t: seq<Event>) {
    forall a, b :: 0 <= a < b < |t| && t[a].OnPort? && t[b].OnPort? && t[a].port == t[b].port ==>
      t[a].index < t[b].index
  }

  /** The workers of the first n ports call exactly the interfaces of those ports, with the given operation. */
  lemma {:induction false} PortsTraceEvents(lists: seq<seq<Interface>>, n: nat, op: Op)
    requires n <= |lists|
    ensures OnlyListed(PortsTrace(lists, n, op), lists, n, op)
    ensures AllCalled(PortsTrace(lists, n, op), lists, n, op)
    decreases n
  {
    if n > 0 {
      PortsTraceEvents(lists, n - 1, op);
      OnlyListedStep(lists, n, op);
      AllCalledStep(lists, n, op);
    }
  }

  lemma OnlyListedStep(lists: seq<seq<Interface>>, n: nat, op: Op)
    requires 0 < n <= |lists| && OnlyListed(PortsTrace(lists, n - 1, op), lists, n - 1, op)
    ensures OnlyListed(PortsTrace(lists, n, op), lists, n, op)
  {
    var p := n - 1;
    var t := PortsTrace(lists, n, op);
    var head := PortsTrace(lists, p, op);
    var tail := PortTrace(p, |lists[p]|, op);
    forall i | 0 <= i < |t|
      ensures t[i].OnPort? && t[i].op == op && t[i].port < n && t[i].index < |lists[t[i].port]|
    {
      if i < |head| {
        assert t[i] == head[i];
      } else {
        assert t[i] == tail[i - |head|];
      }
    }
  }

  lemma AllCalledStep(lists: seq<seq<Interface>>, n: nat, op: Op)
    requires 0 < n <= |lists| && AllCalled(PortsTrace(lists, n - 1, op), lists, n - 1, op)
    ensures AllCalled(PortsTrace(lists, n, op), lists, n, op)
  {
    var p := n - 1;
    var t := PortsTrace(lists, n, op);
    var head := PortsTrace(lists, p, op);
    var tail := PortTrace(p, |lists[p]|, op);
    forall k, j | 0 <= k < n && 0 <= j < |lists[k]|
      ensures OnPort(k, j, op) in t
    {
      if k < p {
        assert OnPort(k, j, op) in head;
      } else {
        assert t[|head| + j] == tail[j];
      }
    }
  }

  /** The workers of the first n ports call only interfaces on those ports. */
  lemma {:induction false} PortsTracePorts(lists: seq<seq<Interface>>, n: nat, op: Op)
    requires n <= |lists|
    ensures forall i :: 0 <= i < |PortsTrace(lists, n, op)| ==>
      PortsTrace(lists, n, op)[i].OnPort? && PortsTrace(lists, n, op)[i].port < n
    decreases n
  {
    if n > 0 {
      PortsTracePorts(lists, n - 1, op);
    }
  }

  /** Within one port the interfaces are serviced in list order, so each at most once. */
  lemma {:induction false} PortsTraceInOrder(lists: seq<seq<Interface>>, n: nat, op: Op)
    requires n <= |lists|
    ensures InPortOrder(PortsTrace(lists, n, op))
    decreases n
  {
    if n > 0 {
      var t := PortsTrace(lists, n, op);
      var head := PortsTrace(lists, n - 1, op);
      var tail := PortTrace(n - 1, |lists[n - 1]|, op);
      PortsTraceInOrder(lists, n - 1, op);
      PortsTracePorts(lists, n - 1, op);
      forall a, b | 0 <= a < b < |t| && t[a].OnPort? && t[b].OnPort? && t[a].port == t[b].port
        ensures t[a].index < t[b].index
      {
        if b < |head| {
          assert t[a] == head[a] && t[b] == head[b];
        } else {
          assert t[b] == tail[b - |head|];
          assert a >= |head|;
          assert t[a] == tail[a - |head|];
        }
      }
    }
  }

  /**
   * One cycle's order: a write calls the overall servo interface before
   * any port interface; a read calls every port interface before the
   * overall servo interface gathers the values; init calls the overall
   * servo interface last. In between, every port interface is called, and
   * within a port in list order, so exactly once.
   */
  lemma CycleOrder(lists: seq<seq<Interface>>)
    ensures var w := WriteTrace(lists);
      && w[0] == Aggregate(WriteOp)
      && OnlyListed(w[1..], lists, |lists|, WriteOp) && AllCalled(w[1..], lists, |lists|, WriteOp)
      && InPortOrder(w[1..])
    ensures var r := ReadTrace(lists);
      && r[|r| - 1] == Aggregate(ReadOp)
      && OnlyListed(r[..|r| - 1], lists, |lists|, ReadOp) && AllCalled(r[..|r| - 1], lists, |lists|, ReadOp)
      && InPortOrder(r[..|r| - 1])
    ensures var n := InitTrace(lists);
      && n[|n| - 1] == Aggregate(InitOp)
      && OnlyListed(n[..|n| - 1], lists, |lists|, InitOp) && AllCalled(n[..|n| - 1], lists, |lists|, InitOp)
      && InPortOrder(n[..|n| - 1])
  {
    var w, r, n := WriteTrace(lists), ReadTrace(lists), InitTrace(lists);
    PortsTraceEvents(lists, |lists|, WriteOp);
    PortsTraceEvents(lists, |lists|, ReadOp);
    PortsTraceEvents(lists, |lists|, InitOp);
    PortsTraceInOrder(lists, |lists|, WriteOp);
    PortsTraceInOrder(lists, |lists|, ReadOp);
    PortsTraceInOrder(lists, |lists|, InitOp);
    assert w[1..] == PortsTrace(lists, |lists|, WriteOp);
    assert r[..|r| - 1] == PortsTrace(lists, |lists|, ReadOp);
    assert n[..|n| - 1] == PortsTrace(lists, |lists|, InitOp);
  }

  // ---------------------------------------------------------------------
  // Discovery across retries
  // ---------------------------------------------------------------------

  /** An attempt the start-up loop repeats: not every device answered, and no port failed to open. */
  predicate Retried(a: Attempt) {
    a.PowerOff? || a.Incomplete?
  }

  /** The servo buses handed to the overall servo interface by the first n attempts, which it keeps across retries. */
  function AccumulatedBuses(ds: seq<DeviceEntry>, attempts: seq<seq<Port>>, n: nat, modes: Modes): seq<seq<Servo>>
    requires n <= |attempts|
    decreases n
  {
    if n == 0 then [] else AccumulatedBuses(ds, attempts, n - 1, modes) + Discover(ds, attempts[n - 1], modes).buses
  }

  /** Each of the first n attempts ended in a way that makes start-up try again. */
  predicate RetriedBefore(ds: seq<DeviceEntry>, attempts: seq<seq<Port>>, n: nat, modes: Modes)
    requires n <= |attempts|
  {
    forall k :: 0 <= k < n ==> Retried(Verdict(Discover(ds, attempts[k], modes), |ds|))
  }

  /** None of the first n attempts was incomplete, so the first-incomplete flag has not been cleared by them. */
  predicate NoIncompleteBefore(ds: seq<DeviceEntry>, attempts: seq<seq<Port>>, n: nat, modes: Modes)
    requires n <= |attempts|
    decreases n
  {
    n == 0 ||
    (NoIncompleteBefore(ds, attempts, n - 1, modes) && Verdict(Discover(ds, attempts[n - 1], modes), |ds|) != Incomplete)
  }

  /** The flag's meaning: no attempt among the first n was incomplete. */
  lemma {:induction false} NoIncompleteBeforeMeans(ds: seq<DeviceEntry>, attempts: seq<seq<Port>>, n: nat, modes: Modes)
    requires n <= |attempts|
    ensures NoIncompleteBefore(ds, attempts, n, modes) <==>
      forall k :: 0 <= k < n ==> Verdict(Discover(ds, attempts[k], modes), |ds|) != Incomplete
    decreases n
  {
    if n > 0 {
      NoIncompleteBeforeMeans(ds, attempts, n - 1, modes);
    }
  }

  /** What the start-up loop changes in the combined interface: the interface lists, the servo buses and the first-incomplete flag. */
  datatype Snapshot = Snapshot(lists: seq<seq<Interface>>, buses: seq<seq<Servo>>, firstPingError: bool)

  /**
   * The state after the first n attempts, begun in state start with a fresh
   * servo interface: the buses of all n attempts, the interface lists of
   * the last one (or the lists of start when none was made), and the flag
   * cleared exactly when one of them was incomplete.
   */
  predicate AfterAttempts(ds: seq<DeviceEntry>, attempts: seq<seq<Port>>, n: nat, modes: Modes, start: Snapshot, now: Snapshot)
    requires n <= |attempts|
  {
    && now.buses == AccumulatedBuses(ds, attempts, n, modes)
    && now.lists == (if n == 0 then start.lists else Discover(ds, attempts[n - 1], modes).lists)
    && now.firstPingError == (start.firstPingError && NoIncompleteBefore(ds, attempts, n, modes))
  }

  lemma RetriedBeforeStep(ds: seq<DeviceEntry>, attempts: seq<seq<Port>>, k: nat, modes: Modes)
    requires k < |attempts| && RetriedBefore(ds, attempts, k, modes)
    requires Retried(Verdict(Discover(ds, attempts[k], modes), |ds|))
    ensures RetriedBefore(ds, attempts, k + 1, modes)
  {
  }

  lemma SortKeepsLength(s: seq<DeviceEntry>)
    ensures |SortById(s)| == |s|
  {
    SortByIdPermutes(s);
    assert |multiset(SortById(s))| == |multiset(s)|;
  }

  /** The `&=` fold over the recorded per-port flags: true exactly when every flag is. */
  method AllSucceeded(successes: seq<bool>) returns (success: bool)
    ensures success <==> forall k :: 0 <= k < |successes| ==> successes[k]
  {
    success := true;
    for k := 0 to |successes|
      invariant success <==> forall i :: 0 <= i < k ==> successes[i]
    {
      success := success && successes[k];
    }
  }

  /** How start-up ends. */
  datatype StartupOutcome =
    | BothModesSet                                 // only_imu and only_pressure together: the process exits
    | Ready(attempt: nat)                          // this attempt found every declared device
    | PortOpenFailedAt(attempt: nat, port: string) // a port would not open: the process exits
    | Interrupted                                  // shut down before any attempt succeeded

  // ---------------------------------------------------------------------
  // The combined hardware interface
  // ---------------------------------------------------------------------

  class WolfgangHardwareInterface {
    /** The only-IMU and only-pressure start-up modes, read once. */
    const modes: Modes
    /** Whether no incomplete attempt has been seen yet (the first one is not reported). */
    var firstPingError: bool
    /** One list of hardware interfaces per port, from the latest attempt. */
    var interfaces: seq<seq<Interface>>
    /** The servo bus interfaces added to the overall servo interface. */
    var servoBuses: seq<seq<Servo>>
    /** The calls made to the device interfaces and to the overall servo interface. */
    var trace: seq<Event>

    constructor (modes: Modes)
      ensures this.modes == modes && firstPingError
      ensures interfaces == [] && servoBuses == [] && trace == []
    {
      this.modes := modes;
      firstPingError := true;
      interfaces := [];
      servoBuses := [];
      trace := [];
    }

    /**
     * The rest of construction: refuse both modes at once, sort the
     * declared table by id, then retry discovery.
     */
    method Startup(declared: seq<DeviceEntry>, attempts: seq<seq<Port>>) returns (o: StartupOutcome)
      modifies this
      ensures trace == old(trace)
      ensures modes.onlyImu && modes.onlyPressure ==>
        o == BothModesSet && interfaces == old(interfaces) && servoBuses == old(servoBuses) &&
        firstPingError == old(firstPingError)
      ensures !(modes.onlyImu && modes.onlyPressure) ==> !o.BothModesSet?
      ensures var ds := SortById(declared);
        var start := Snapshot(old(interfaces), [], old(firstPingError));
        && (o.Ready? ==>
              && o.attempt < |attempts|
              && Verdict(Discover(ds, attempts[o.attempt], modes), |declared|) == Complete
              && AfterAttempts(ds, attempts, o.attempt + 1, modes, start, Snap())
              && RetriedBefore(ds, attempts, o.attempt, modes))
        && (o.PortOpenFailedAt? ==>
              && o.attempt < |attempts|
              && Verdict(Discover(ds, attempts[o.attempt], modes), |declared|) == PortOpenFailed(o.port)
              && AfterAttempts(ds, attempts, o.attempt + 1, modes, start, Snap())
              && RetriedBefore(ds, attempts, o.attempt, modes))
        && (o.Interrupted? ==>
              && AfterAttempts(ds, attempts, |attempts|, modes, start, Snap())
              && RetriedBefore(ds, attempts, |attempts|, modes))
    {
      if modes.onlyImu && modes.onlyPressure {
        return BothModesSet;
      }
      var devices := SortById(declared);
      SortKeepsLength(declared);
      o := RetryDiscovery(devices, attempts);
    }

    /**
     * Create a fresh overall servo interface, then repeat discovery until
     * an attempt finds every device, a port will not open, or the attempts
     * run out (the node is shut down). Servo buses found by a failed
     * attempt stay in the overall servo interface.
     */
    method RetryDiscovery(devices: seq<DeviceEntry>, attempts: seq<seq<Port>>) returns (o: StartupOutcome)
      modifies this
      ensures trace == old(trace)
      ensures !o.BothModesSet?
      ensures var start := Snapshot(old(interfaces), [], old(firstPingError));
        && (o.Ready? ==>
              && o.attempt < |attempts|
              && Verdict(Discover(devices, attempts[o.attempt], modes), |devices|) == Complete
              && AfterAttempts(devices, attempts, o.attempt + 1, modes, start, Snap())
              && RetriedBefore(devices, attempts, o.attempt, modes))
        && (o.PortOpenFailedAt? ==>
              && o.attempt < |attempts|
              && Verdict(Discover(devices, attempts[o.attempt], modes), |devices|) == PortOpenFailed(o.port)
              && AfterAttempts(devices, attempts, o.attempt + 1, modes, start, Snap())
              && RetriedBefore(devices, attempts, o.attempt, modes))
        && (o.Interrupted? ==>
              && AfterAttempts(devices, attempts, |attempts|, modes, start, Snap())
              && RetriedBefore(devices, attempts, |attempts|, modes))
    {
      ghost var start := Snapshot(interfaces, [], firstPingError);
      servoBuses := [];
      var k := 0;
      while k < |attempts|
        invariant 0 <= k <= |attempts|
        invariant trace == old(trace)
        invariant AfterAttempts(devices, attempts, k, modes, start, Snap())
        invariant RetriedBefore(devices, attempts, k, modes)
      {
        var a := NextAttempt(devices, attempts, k, start);
        if a == Complete {
          return Ready(k);
        }
        if a.PortOpenFailed? {
          return PortOpenFailedAt(k, a.port);
        }
        RetriedBeforeStep(devices, attempts, k, modes);
        k := k + 1;
      }
      return Interrupted;
    }

    /** The part of the state the start-up loop changes. */
    function Snap(): Snapshot
      reads this
    {
      Snapshot(interfaces, servoBuses, firstPingError)
    }

    /** Attempt number k of the start-up loop: it moves the state on by exactly that attempt. */
    method NextAttempt(devices: seq<DeviceEntry>, attempts: seq<seq<Port>>, k: nat, ghost start: Snapshot) returns (a: Attempt)
      requires k < |attempts| && AfterAttempts(devices, attempts, k, modes, start, Snap())
      modifies this
      ensures trace == old(trace)
      ensures AfterAttempts(devices, attempts, k + 1, modes, start, Snap())
      ensures a == Verdict(Discover(devices, attempts[k], modes), |devices|)
    {
      a := CreateInterfaces(devices, attempts[k]);
    }

    /**
     * One discovery attempt: scan every port in order, then judge the
     * attempt by how many declared devices answered.
     */
    method CreateInterfaces(devices: seq<DeviceEntry>, ports: seq<Port>) returns (a: Attempt)
      modifies this
      ensures trace == old(trace)
      ensures var r := Discover(devices, ports, modes);
        && interfaces == r.lists
        && servoBuses == old(servoBuses) + r.buses
        && a == Verdict(r, |devices|)
        && firstPingError == (old(firstPingError) && a != Incomplete)
    {
      var pinged, failed;
      ghost var pings;
      pinged, pings, failed := ScanPorts(devices, ports);
      if failed.Some? {
        return PortOpenFailed(failed.value);
      }
      if |pinged| != |devices| {
        if |pinged| <= 2 {
          a := PowerOff;
        } else {
          if firstPingError {
            firstPingError := false;
          }
          a := Incomplete;
        }
      } else {
        a := Complete;
      }
    }

    /**
     * The port loop of an attempt: reset the interface lists, then scan
     * each port in order; the first port that does not open ends it.
     */
    method ScanPorts(devices: seq<DeviceEntry>, ports: seq<Port>)
      returns (pinged: seq<string>, ghost pings: seq<PingEvent>, failed: Option<string>)
      modifies this`interfaces, this`servoBuses
      ensures var r := Discover(devices, ports, modes);
        && interfaces == r.lists
        && servoBuses == old(servoBuses) + r.buses
        && pinged == r.pinged && failed == r.failedPort
    {
      ghost var initialBuses := servoBuses;
      interfaces := [];
      pinged := [];
      pings := [];
      ghost var added: seq<seq<Servo>> := [];
      var p := 0;
      while p < |ports|
        invariant 0 <= p <= |ports|
        invariant DiscoverPorts(devices, ports, p, modes) == Discovery(interfaces, added, pinged, pings, None)
        invariant servoBuses == initialBuses + added
      {
        if !ports[p].opens {
          PortOpenFailureEnds(devices, ports, p, modes);
          return pinged, pings, Some(ports[p].name);
        }
        pinged, pings, added := ScanOpenPort(devices, ports, p, pinged, pings, added, initialBuses);
        p := p + 1;
      }
      failed := None;
    }

    /**
     * One open port of the port loop: scan it, append its interface list,
     * and hand its servo bus, if any, to the overall servo interface.
     */
    method ScanOpenPort(devices: seq<DeviceEntry>, ports: seq<Port>, p: nat, pinged0: seq<string>,
                        ghost pings0: seq<PingEvent>, ghost added0: seq<seq<Servo>>, ghost initialBuses: seq<seq<Servo>>)
      returns (pinged: seq<string>, ghost pings: seq<PingEvent>, ghost added: seq<seq<Servo>>)
      requires p < |ports| && ports[p].opens
      requires DiscoverPorts(devices, ports, p, modes) == Discovery(interfaces, added0, pinged0, pings0, None)
      requires servoBuses == initialBuses + added0
      modifies this`interfaces, this`servoBuses
      ensures DiscoverPorts(devices, ports, p + 1, modes) == Discovery(interfaces, added, pinged, pings, None)
      ensures servoBuses == initialBuses + added
    {
      var onPort: seq<Interface>, servos: seq<Servo>;
      pinged, pings, onPort, servos := ScanDevices(devices, p, ports[p], pinged0, pings0);
      ghost var scanned := Scan(pinged, pings, onPort, servos);
      DiscoverPortsStep(devices, ports, p, modes);
      var list := onPort;
      added := added0;
      if |servos| > 0 {
        list := list + [ServoBus(servos)];
        AppendAssoc(initialBuses, added0, [servos]);
        servoBuses := servoBuses + [servos];
        added := added0 + [servos];
      }
      assert list == PortList(scanned);
      interfaces := interfaces + [list];
    }

    /**
     * The device loop on one open port: ping every declared device that
     * has not answered on an earlier port, and bind each responder by its
     * configured kind.
     */
    method ScanDevices(devices: seq<DeviceEntry>, p: nat, port: Port, pinged0: seq<string>, ghost pings0: seq<PingEvent>)
      returns (pinged: seq<string>, ghost pings: seq<PingEvent>, onPort: seq<Interface>, servos: seq<Servo>)
      ensures var s := ScanPort(Scan(pinged0, pings0, [], []), p, port, devices, |devices|, modes);
        s.pinged == pinged && s.onPort == onPort && s.servos == servos
      ensures ScanPort(Scan(pinged0, pings0, [], []), p, port, devices, |devices|, modes).pings == pings
    {
      pinged, pings, onPort, servos := pinged0, pings0, [], [];
      for i := 0 to |devices|
        invariant ScanPort(Scan(pinged0, pings0, [], []), p, port, devices, i, modes) == Scan(pinged, pings, onPort, servos)
      {
        var d := devices[i];
        if d.name !in pinged {
          var reply := Reply(port, d.id);
          pings := pings + [PingEvent(p, d.name, Address(d.id), reply)];
          if reply.Some? {
            // a reported model number other than the configured one only warns
            var kind := Classify(d, modes);
            onPort := onPort + Bound(kind, d);
            if kind == ServoMotor {
              servos := servos + [Servo(d.id, d.name)];
            }
            pinged := pinged + [d.name];
          }
        }
      }
    }

    /** One port worker's init: init every interface on the port, even after one has failed. */
    method ThreadedInit(p: nat, results: seq<bool>) returns (success: bool)
      requires p < |interfaces| && |results| == |interfaces[p]|
      modifies this`trace
      ensures success <==> forall j :: 0 <= j < |results| ==> results[j]
      ensures trace == old(trace) + PortTrace(p, |interfaces[p]|, InitOp)
    {
      ghost var before := trace;
      success := true;
      for j := 0 to |interfaces[p]|
        invariant success <==> forall i :: 0 <= i < j ==> results[i]
        invariant trace == before + PortTrace(p, j, InitOp)
      {
        var ok := results[j];
        AppendAssoc(before, PortTrace(p, j, InitOp), [OnPort(p, j, InitOp)]);
        trace := trace + [OnPort(p, j, InitOp)];
        success := success && ok;
      }
    }

    /**
     * The port workers' init, one port after another. As written, the flag
     * recorded for a port is the address of a loop-local variable, which
     * reads as true whatever the worker returned.
     */
    method InitPortsAsWritten(results: seq<seq<bool>>) returns (successes: seq<bool>)
      requires |results| == |interfaces|
      requires forall k :: 0 <= k < |results| ==> |results[k]| == |interfaces[k]|
      modifies this`trace
      ensures |successes| == |interfaces| && forall k :: 0 <= k < |successes| ==> successes[k]
      ensures trace == old(trace) + PortsTrace(interfaces, |interfaces|, InitOp)
    {
      ghost var before := trace;
      successes := [];
      for k := 0 to |interfaces|
        invariant trace == before + PortsTrace(interfaces, k, InitOp)
        invariant |successes| == k && forall j :: 0 <= j < k ==> successes[j]
      {
        AppendAssoc(before, PortsTrace(interfaces, k, InitOp), PortTrace(k, |interfaces[k]|, InitOp));
        var suc := ThreadedInit(k, results[k]);
        // the stored value is a non-null pointer, not `suc`
        successes := successes + [true];
      }
    }

    /** The port workers' init as intended: the flag recorded for a port is what its worker returned. */
    method InitPorts(results: seq<seq<bool>>) returns (successes: seq<bool>)
      requires |results| == |interfaces|
      requires forall k :: 0 <= k < |results| ==> |results[k]| == |interfaces[k]|
      modifies this`trace
      ensures |successes| == |interfaces|
      ensures forall k :: 0 <= k < |successes| ==>
        (successes[k] <==> forall j :: 0 <= j < |results[k]| ==> results[k][j])
      ensures trace == old(trace) + PortsTrace(interfaces, |interfaces|, InitOp)
    {
      ghost var before := trace;
      successes := [];
      for k := 0 to |interfaces|
        invariant trace == before + PortsTrace(interfaces, k, InitOp)
        invariant |successes| == k
        invariant forall i :: 0 <= i < k ==> (successes[i] <==> forall j :: 0 <= j < |results[i]| ==> results[i][j])
      {
        AppendAssoc(before, PortsTrace(interfaces, k, InitOp), PortTrace(k, |interfaces[k]|, InitOp));
        var suc := ThreadedInit(k, results[k]);
        successes := successes + [suc];
      }
    }

    /**
     * Init as written: the verdict is that of the overall servo interface
     * alone, whatever the port workers returned.
     */
    method Init(results: seq<seq<bool>>, servoInitOk: bool) returns (success: bool)
      requires |results| == |interfaces|
      requires forall k :: 0 <= k < |results| ==> |results[k]| == |interfaces[k]|
      modifies this`trace
      ensures success == servoInitOk
      ensures trace == old(trace) + InitTrace(interfaces)
    {
      var successes := InitPortsAsWritten(results);
      success := AllSucceeded(successes);
      success := success && servoInitOk;
      trace := trace + [Aggregate(InitOp)];
    }

    /** Init as intended: it succeeds exactly when every interface on every port and the overall servo interface do. */
    method InitAllPorts(results: seq<seq<bool>>, servoInitOk: bool) returns (success: bool)
      requires |results| == |interfaces|
      requires forall k :: 0 <= k < |results| ==> |results[k]| == |interfaces[k]|
      modifies this`trace
      ensures success <==>
        (forall k, j :: 0 <= k < |results| && 0 <= j < |results[k]| ==> results[k][j]) && servoInitOk
      ensures trace == old(trace) + InitTrace(interfaces)
    {
      var successes := InitPorts(results);
      success := AllSucceeded(successes);
      success := success && servoInitOk;
      trace := trace + [Aggregate(InitOp)];
    }

    /** One port worker's read or write: call every interface on the port in list order. */
    method ServicePort(p: nat, op: Op)
      requires p < |interfaces|
      modifies this`trace
      ensures trace == old(trace) + PortTrace(p, |interfaces[p]|, op)
    {
      ghost var before := trace;
      for j := 0 to |interfaces[p]|
        invariant trace == before + PortTrace(p, j, op)
      {
        AppendAssoc(before, PortTrace(p, j, op), [OnPort(p, j, op)]);
        trace := trace + [OnPort(p, j, op)];
      }
    }

    /** Read every port, then let the overall servo interface gather the servo values. */
    method Read()
      modifies this`trace
      ensures trace == old(trace) + ReadTrace(interfaces)
    {
      ghost var before := trace;
      for k := 0 to |interfaces|
        invariant trace == before + PortsTrace(interfaces, k, ReadOp)
      {
        AppendAssoc(before, PortsTrace(interfaces, k, ReadOp), PortTrace(k, |interfaces[k]|, ReadOp));
        ServicePort(k, ReadOp);
      }
      AppendAssoc(before, PortsTrace(interfaces, |interfaces|, ReadOp), [Aggregate(ReadOp)]);
      trace := trace + [Aggregate(ReadOp)];
    }

    /** Let the overall servo interface write the controller values, then write every port. */
    method Write()
      modifies this`trace
      ensures trace == old(trace) + WriteTrace(interfaces)
    {
      ghost var before := trace;
      trace := trace + [Aggregate(WriteOp)];
      for k := 0 to |interfaces|
        invariant trace == before + [Aggregate(WriteOp)] + PortsTrace(interfaces, k, WriteOp)
      {
        AppendAssoc(before + [Aggregate(WriteOp)], PortsTrace(interfaces, k, WriteOp), PortTrace(k, |interfaces[k]|, WriteOp));
        ServicePort(k, WriteOp);
      }
      AppendAssoc(before, [Aggregate(WriteOp)], PortsTrace(interfaces, |interfaces|, WriteOp));
    }
  }

  /**
   * Init as written reports success although the only interface on the
   * only port failed to initialise; init as intended reports the failure.
   */
  method InitIgnoresPortFailure() {
    var hw := new WolfgangHardwareInterface(Modes(false, false));
    hw.interfaces := [[Core(1)]];
    var results := [[false]];
    var ok := hw.Init(results, true);
    assert ok;
    var intended := hw.InitAllPorts(results, true);
    assert !results[0][0];
    assert !intended;
  }
}
