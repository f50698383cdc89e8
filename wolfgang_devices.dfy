/**
 * Device discovery of the Wolfgang robot's hardware layer, as values.
 *
 * The declared device table is a list of entries (name, bus id, configured
 * model number, configured interface type). Every serial port is scanned
 * in turn: each declared device not yet found on an earlier port is pinged
 * at its bus address, and a device that answers is bound to a hardware
 * interface chosen from its CONFIGURED model number and interface type.
 * All servos answering on one port are collected into one servo bus
 * interface for that port.
 *
 * The serial driver is replaced by an oracle: a port either opens or not,
 * and maps each 8-bit bus address that answers a ping to the model number
 * the device reports.
 *
 * This module holds the specification functions and what is proved about
 * them; module WolfgangHardware holds the object that runs the scan.
 */
module WolfgangDevices {

  import opened Common

  // ---------------------------------------------------------------------
  // Data model
  // ---------------------------------------------------------------------

  /** One entry of the declared device table. */
  datatype DeviceEntry = DeviceEntry(name: string, id: int, modelNumber: int, interfaceType: string)

  /** One serial port as seen by one discovery attempt. */
  datatype Port = Port(name: string, opens: bool, replies: map<int, int>)

  /** The two start-up modes that restrict what is bound. */
  datatype Modes = Modes(onlyImu: bool, onlyPressure: bool)

  datatype Servo = Servo(id: int, name: string)

  /** A hardware interface bound to a port. */
  datatype Interface =
    | Core(id: int)
    | BitFoot(id: int, name: string)
    | Imu(id: int, name: string)
    | Buttons(id: int)
    | Leds(id: int)
    | ServoBus(servos: seq<Servo>)

  /** The category a responding device is put in. */
  datatype Kind = CoreBoard | FootSensor | ImuSensor | ButtonPanel | LedPanel | ServoMotor | Unidentified

  /** One ping sent during discovery: the port, the device, its bus address and the answer. */
  datatype PingEvent = PingEvent(port: nat, name: string, address: int, reply: Option<int>)

  const CoreModel := 0xABBA
  const SensorBoardModel := 0xBAFF
  const FootModel := 0

  predicate IsServoModel(m: int) {
    m == 311 || m == 321 || m == 1100
  }

  // ---------------------------------------------------------------------
  // Sorting the declared table by id
  // ---------------------------------------------------------------------

  predicate SortedById(s: seq<DeviceEntry>) {
    forall i, j :: 0 <= i < j < |s| ==> s[i].id <= s[j].id
  }

  function Insert(d: DeviceEntry, s: seq<DeviceEntry>): seq<DeviceEntry>
    decreases |s|
  {
    if s == [] || d.id <= s[0].id then [d] + s else [s[0]] + Insert(d, s[1..])
  }

  /** The table in ascending id order (the comparison is on ids only). */
  function SortById(s: seq<DeviceEntry>): seq<DeviceEntry>
    decreases |s|
  {
    if s == [] then [] else Insert(s[0], SortById(s[1..]))
  }

  lemma {:induction false} InsertPermutes(d: DeviceEntry, s: seq<DeviceEntry>)
    ensures multiset(Insert(d, s)) == multiset(s) + multiset{d}
    decreases |s|
  {
    if s != [] && s[0].id < d.id {
      InsertPermutes(d, s[1..]);
      assert s == [s[0]] + s[1..];
    }
  }

  lemma {:induction false} InsertSorted(d: DeviceEntry, s: seq<DeviceEntry>)
    requires SortedById(s)
    ensures SortedById(Insert(d, s))
    decreases |s|
  {
    if s != [] && s[0].id < d.id {
      var tail := s[1..];
      InsertSorted(d, tail);
      InsertPermutes(d, tail);
      var t := Insert(d, tail);
      forall k | 0 <= k < |t|
        ensures s[0].id <= t[k].id
      {
        assert t[k] in multiset(t);
        if t[k] != d {
          assert t[k] in multiset(tail);
          var m :| 0 <= m < |tail| && tail[m] == t[k];
          assert s[m + 1] == t[k];
        }
      }
      assert Insert(d, s) == [s[0]] + t;
    }
  }

  /** The sorted table is in ascending id order. */
  lemma {:induction false} SortByIdSorted(s: seq<DeviceEntry>)
    ensures SortedById(SortById(s))
    decreases |s|
  {
    if s != [] {
      SortByIdSorted(s[1..]);
      InsertSorted(s[0], SortById(s[1..]));
    }
  }

  /** The sorted table is a permutation of the declared one. */
  lemma {:induction false} SortByIdPermutes(s: seq<DeviceEntry>)
    ensures multiset(SortById(s)) == multiset(s)
    decreases |s|
  {
    if s != [] {
      var t := s[1..];
      SortByIdPermutes(t);
      InsertPermutes(s[0], SortById(t));
      assert s == [s[0]] + t;
      assert multiset(s) == multiset([s[0]]) + multiset(t);
    }
  }

  // ---------------------------------------------------------------------
  // Classification of a responder
  // ---------------------------------------------------------------------

  /**
   * The category of a device that answered, decided from its configured
   * model number and interface type and the start-up modes only; the model
   * number the device reports plays no part.
   */
  function Classify(d: DeviceEntry, modes: Modes): Kind
  {
    if d.modelNumber == CoreModel && d.interfaceType == "CORE" then CoreBoard
    else if d.modelNumber == FootModel && !modes.onlyImu then FootSensor
    else if d.modelNumber == SensorBoardModel && d.interfaceType == "IMU" && !modes.onlyPressure then ImuSensor
    else if d.modelNumber == SensorBoardModel && d.interfaceType == "Button" && !modes.onlyPressure then ButtonPanel
    else if (d.modelNumber == SensorBoardModel || d.modelNumber == CoreModel) && d.interfaceType == "LED"
            && !modes.onlyPressure then LedPanel
    else if IsServoModel(d.modelNumber) && !modes.onlyPressure && !modes.onlyImu then ServoMotor
    else Unidentified
  }

  /**
   * Each category characterised on its own: the tests of the if-chain are
   * mutually exclusive, so none of them is shadowed by an earlier one.
   */
  lemma ClassifyCategories(d: DeviceEntry, modes: Modes)
    ensures Classify(d, modes) == CoreBoard <==> d.modelNumber == CoreModel && d.interfaceType == "CORE"
    ensures Classify(d, modes) == FootSensor <==> d.modelNumber == FootModel && !modes.onlyImu
    ensures Classify(d, modes) == ImuSensor <==>
      d.modelNumber == SensorBoardModel && d.interfaceType == "IMU" && !modes.onlyPressure
    ensures Classify(d, modes) == ButtonPanel <==>
      d.modelNumber == SensorBoardModel && d.interfaceType == "Button" && !modes.onlyPressure
    ensures Classify(d, modes) == LedPanel <==>
      (d.modelNumber == SensorBoardModel || d.modelNumber == CoreModel) && d.interfaceType == "LED" &&
      !modes.onlyPressure
    ensures Classify(d, modes) == ServoMotor <==> IsServoModel(d.modelNumber) && !modes.onlyPressure && !modes.onlyImu
  {
  }

  /** The interface bound for a responder of a category other than servo (servos are collected per port). */
  function Bound(k: Kind, d: DeviceEntry): seq<Interface> {
    match k
    case CoreBoard => [Core(d.id)]
    case FootSensor => [BitFoot(d.id, d.name)]
    case ImuSensor => [Imu(d.id, d.name)]
    case ButtonPanel => [Buttons(d.id)]
    case LedPanel => [Leds(d.id)]
    case ServoMotor => []
    case Unidentified => []
  }

  /** What each start-up mode allows to be bound: only-IMU mode binds no foot sensor and no servo, only-pressure mode no IMU, button, LED or servo. */
  predicate Permitted(i: Interface, modes: Modes) {
    match i
    case Core(_) => true
    case BitFoot(_, _) => !modes.onlyImu
    case Imu(_, _) => !modes.onlyPressure
    case Buttons(_) => !modes.onlyPressure
    case Leds(_) => !modes.onlyPressure
    case ServoBus(_) => !modes.onlyImu && !modes.onlyPressure
  }

  // ---------------------------------------------------------------------
  // One discovery attempt, as values
  // ---------------------------------------------------------------------

  /** The 8-bit bus address a configured id is pinged at (the id is cast to an unsigned byte). */
  function Address(id: int): int {
    id % 256
  }

  /** The ping oracle: the reported model number, or no answer. */
  function Reply(port: Port, id: int): Option<int> {
    if Address(id) in port.replies then Some(port.replies[Address(id)]) else None
  }

  /** The state of a scan: found names, pings sent, and the current port's interfaces and servos. */
  datatype Scan = Scan(pinged: seq<string>, pings: seq<PingEvent>, onPort: seq<Interface>, servos: seq<Servo>)

  /** Visiting one declared device on port number p. */
  function Visit(s: Scan, p: nat, port: Port, d: DeviceEntry, modes: Modes): Scan {
    if d.name in s.pinged then s
    else
      var reply := Reply(port, d.id);
      var pings := s.pings + [PingEvent(p, d.name, Address(d.id), reply)];
      if reply.None? then s.(pings := pings)
      else
        var k := Classify(d, modes);
        Scan(s.pinged + [d.name], pings, s.onPort + Bound(k, d),
             if k == ServoMotor then s.servos + [Servo(d.id, d.name)] else s.servos)
  }

  /** Visiting the first i devices of ds in order on port number p. */
  function ScanPort(s: Scan, p: nat, port: Port, ds: seq<DeviceEntry>, i: nat, modes: Modes): Scan
    requires i <= |ds|
    decreases i
  {
    if i == 0 then s
    else Visit(ScanPort(s, p, port, ds, i - 1, modes), p, port, ds[i - 1], modes)
  }

  /** The interface list of a scanned port: its interfaces, then one servo bus if any servo answered. */
  function PortList(s: Scan): seq<Interface> {
    s.onPort + if s.servos != [] then [ServoBus(s.servos)] else []
  }

  /** The servo bus a scanned port adds to the overall servo interface, if any. */
  function PortBuses(s: Scan): seq<seq<Servo>> {
    if s.servos != [] then [s.servos] else []
  }

  /**
   * The outcome of one attempt: one interface list per scanned port, the
   * servo buses found, the names that answered and the pings sent; or the
   * name of the first port that would not open, which ends the process.
   */
  datatype Discovery = Discovery(
    lists: seq<seq<Interface>>, buses: seq<seq<Servo>>, pinged: seq<string>, pings: seq<PingEvent>,
    failedPort: Option<string>)

  function DiscoverPorts(ds: seq<DeviceEntry>, ports: seq<Port>, n: nat, modes: Modes): Discovery
    requires n <= |ports|
    decreases n
  {
    if n == 0 then Discovery([], [], [], [], None)
    else
      var r := DiscoverPorts(ds, ports, n - 1, modes);
      if r.failedPort.Some? then r
      else if !ports[n - 1].opens then r.(failedPort := Some(ports[n - 1].name))
      else
        var s := ScanPort(Scan(r.pinged, r.pings, [], []), n - 1, ports[n - 1], ds, |ds|, modes);
        Discovery(r.lists + [PortList(s)], r.buses + PortBuses(s), s.pinged, s.pings, None)
  }

  function Discover(ds: seq<DeviceEntry>, ports: seq<Port>, modes: Modes): Discovery {
    DiscoverPorts(ds, ports, |ports|, modes)
  }

  lemma {:induction false} FailureStays(ds: seq<DeviceEntry>, ports: seq<Port>, n: nat, m: nat, modes: Modes)
    requires n <= m <= |ports| && DiscoverPorts(ds, ports, n, modes).failedPort.Some?
    ensures DiscoverPorts(ds, ports, m, modes) == DiscoverPorts(ds, ports, n, modes)
    decreases m
  {
    if m > n {
      FailureStays(ds, ports, n, m - 1, modes);
    }
  }

  /** A port that does not open ends the attempt: nothing after it is scanned. */
  lemma PortOpenFailureEnds(ds: seq<DeviceEntry>, ports: seq<Port>, p: nat, modes: Modes)
    requires p < |ports| && DiscoverPorts(ds, ports, p, modes).failedPort.None? && !ports[p].opens
    ensures Discover(ds, ports, modes) == DiscoverPorts(ds, ports, p, modes).(failedPort := Some(ports[p].name))
  {
    FailureStays(ds, ports, p + 1, |ports|, modes);
  }

  /** Scanning one more open port appends its list and its servo bus, if any. */
  lemma DiscoverPortsStep(ds: seq<DeviceEntry>, ports: seq<Port>, p: nat, modes: Modes)
    requires p < |ports| && DiscoverPorts(ds, ports, p, modes).failedPort.None? && ports[p].opens
    ensures var r := DiscoverPorts(ds, ports, p, modes);
      var s := ScanPort(Scan(r.pinged, r.pings, [], []), p, ports[p], ds, |ds|, modes);
      DiscoverPorts(ds, ports, p + 1, modes) ==
        Discovery(r.lists + [PortList(s)], r.buses + PortBuses(s), s.pinged, s.pings, None)
  {
  }

  /** How an attempt ends. */
  datatype Attempt =
    | Complete                    // every declared device answered
    | PowerOff                    // at most two devices answered: only the core board is powered
    | Incomplete                  // some, but not all, devices answered
    | PortOpenFailed(port: string) // a port would not open; the process exits

  function Verdict(r: Discovery, declared: nat): Attempt {
    if r.failedPort.Some? then PortOpenFailed(r.failedPort.value)
    else if |r.pinged| == declared then Complete
    else if |r.pinged| <= 2 then PowerOff
    else Incomplete
  }

  // ---------------------------------------------------------------------
  // Bookkeeping invariants of the scan
  // ---------------------------------------------------------------------

  /** The names of the pings that were answered, in order. */
  function Answered(pings: seq<PingEvent>): seq<string>
    decreases |pings|
  {
    if pings == [] then []
    else
      var last := pings[|pings| - 1];
      Answered(pings[..|pings| - 1]) + if last.reply.Some? then [last.name] else []
  }

  predicate Distinct(s: seq<string>) {
    forall i, j :: 0 <= i < j < |s| ==> s[i] != s[j]
  }

  /** Once a device has answered, it is never pinged again. */
  predicate NoPingAfterAnswer(pings: seq<PingEvent>) {
    forall i, j :: 0 <= i < j < |pings| && pings[i].name == pings[j].name ==> pings[i].reply.None?
  }

  function NameList(ds: seq<DeviceEntry>): (r: seq<string>)
    ensures |r| == |ds| && forall i :: 0 <= i < |ds| ==> r[i] == ds[i].name
  {
    seq(|ds|, i requires 0 <= i < |ds| => ds[i].name)
  }

  predicate DistinctNames(ds: seq<DeviceEntry>) {
    Distinct(NameList(ds))
  }

  /** What holds of every scan state: pinged records exactly the answered pings, without repeats, of declared names only. */
  predicate Bookkeeping(s: Scan, names: set<string>) {
    && s.pinged == Answered(s.pings)
    && Distinct(s.pinged)
    && NoPingAfterAnswer(s.pings)
    && (forall n :: n in s.pinged ==> n in names)
  }

  lemma {:induction false} AnsweredContains(pings: seq<PingEvent>, i: int)
    requires 0 <= i < |pings| && pings[i].reply.Some?
    ensures pings[i].name in Answered(pings)
    decreases |pings|
  {
    if i < |pings| - 1 {
      AnsweredContains(pings[..|pings| - 1], i);
    }
  }

  lemma AnsweredSnoc(pings: seq<PingEvent>, e: PingEvent)
    ensures Answered(pings + [e]) == Answered(pings) + if e.reply.Some? then [e.name] else []
  {
    assert (pings + [e])[..|pings|] == pings;
  }

  /** A name that is not among the answered names was never answered. */
  lemma NotAnsweredBefore(pings: seq<PingEvent>, name: string)
    requires name !in Answered(pings)
    ensures forall i :: 0 <= i < |pings| && pings[i].name == name ==> pings[i].reply.None?
  {
    forall i | 0 <= i < |pings| && pings[i].name == name
      ensures pings[i].reply.None?
    {
      if pings[i].reply.Some? {
        AnsweredContains(pings, i);
      }
    }
  }

  lemma VisitKeeps(s: Scan, p: nat, port: Port, d: DeviceEntry, modes: Modes, names: set<string>)
    requires Bookkeeping(s, names) && d.name in names
    ensures Bookkeeping(Visit(s, p, port, d, modes), names)
  {
    if d.name !in s.pinged {
      var e := PingEvent(p, d.name, Address(d.id), Reply(port, d.id));
      var t := Visit(s, p, port, d, modes);
      assert t.pings == s.pings + [e];
      assert t.pinged == s.pinged + if e.reply.Some? then [d.name] else [];
      AnsweredSnoc(s.pings, e);
      NotAnsweredBefore(s.pings, d.name);
    }
  }

  lemma {:induction false} ScanPortKeeps(s: Scan, p: nat, port: Port, ds: seq<DeviceEntry>, i: nat, modes: Modes, names: set<string>)
    requires i <= |ds| && Bookkeeping(s, names)
    requires forall k :: 0 <= k < |ds| ==> ds[k].name in names
    ensures Bookkeeping(ScanPort(s, p, port, ds, i, modes), names)
    decreases i
  {
    if i > 0 {
      ScanPortKeeps(s, p, port, ds, i - 1, modes, names);
      VisitKeeps(ScanPort(s, p, port, ds, i - 1, modes), p, port, ds[i - 1], modes, names);
    }
  }

  /** The bookkeeping invariant of a discovery, over the declared names of ds. */
  predicate Kept(r: Discovery, ds: seq<DeviceEntry>) {
    Bookkeeping(Scan(r.pinged, r.pings, [], []), set k | 0 <= k < |ds| :: ds[k].name)
  }

  lemma {:induction false} DiscoverPortsKeeps(ds: seq<DeviceEntry>, ports: seq<Port>, n: nat, modes: Modes)
    requires n <= |ports|
    ensures Kept(DiscoverPorts(ds, ports, n, modes), ds)
    decreases n
  {
    if n > 0 {
      DiscoverPortsKeeps(ds, ports, n - 1, modes);
      DiscoverPortsKeepsStep(ds, ports, n, modes);
    }
  }

  lemma DiscoverPortsKeepsStep(ds: seq<DeviceEntry>, ports: seq<Port>, n: nat, modes: Modes)
    requires 0 < n <= |ports| && Kept(DiscoverPorts(ds, ports, n - 1, modes), ds)
    ensures Kept(DiscoverPorts(ds, ports, n, modes), ds)
  {
    var r := DiscoverPorts(ds, ports, n - 1, modes);
    if r.failedPort.None? && ports[n - 1].opens {
      var names := set k | 0 <= k < |ds| :: ds[k].name;
      ScanPortKeeps(Scan(r.pinged, r.pings, [], []), n - 1, ports[n - 1], ds, |ds|, modes, names);
    }
  }

  /**
   * Within one attempt, `pinged` lists exactly the devices whose ping was
   * answered, in the order they answered, each at most once, whatever
   * category they fell in (an unidentified responder is recorded too); and
   * a device that has answered on one port is never pinged again, on that
   * port or a later one.
   */
  lemma DiscoverBookkeeping(ds: seq<DeviceEntry>, ports: seq<Port>, modes: Modes)
    ensures var r := Discover(ds, ports, modes);
      && r.pinged == Answered(r.pings)
      && Distinct(r.pinged)
      && NoPingAfterAnswer(r.pings)
      && (forall n :: n in r.pinged ==> exists k :: 0 <= k < |ds| && ds[k].name == n)
  {
    DiscoverPortsKeeps(ds, ports, |ports|, modes);
  }

  // ---------------------------------------------------------------------
  // The success test
  // ---------------------------------------------------------------------

  lemma {:induction false} DistinctCard(s: seq<string>)
    requires Distinct(s)
    ensures |set x | x in s| == |s|
    decreases |s|
  {
    if s != [] {
      var t := s[..|s| - 1];
      DistinctCard(t);
      assert (set x | x in s) == (set x | x in t) + {s[|s| - 1]};
      assert s[|s| - 1] !in (set x | x in t);
    }
  }

  lemma {:induction false} SubsetCard<T>(a: set<T>, b: set<T>)
    requires a <= b
    ensures |a| <= |b|
    ensures |a| == |b| ==> a == b
    decreases b
  {
    if b - a != {} {
      var x :| x in b - a;
      SubsetCard(a, b - {x});
    } else {
      assert a == b;
    }
  }

  /**
   * With the declared names unique, an attempt that opened every port
   * succeeds (answered as many devices as were declared) exactly when every
   * declared device answered.
   */
  lemma CompleteIffAllAnswered(ds: seq<DeviceEntry>, ports: seq<Port>, modes: Modes)
    requires DistinctNames(ds)
    ensures var r := Discover(ds, ports, modes);
      r.failedPort.None? ==>
        (Verdict(r, |ds|) == Complete <==> forall k :: 0 <= k < |ds| ==> ds[k].name in r.pinged)
  {
    var r := Discover(ds, ports, modes);
    DiscoverBookkeeping(ds, ports, modes);
    var found := set x | x in r.pinged;
    var names := set k | 0 <= k < |ds| :: ds[k].name;
    assert names == set x | x in NameList(ds);
    DistinctCard(r.pinged);
    DistinctCard(NameList(ds));
    assert found <= names;
    SubsetCard(found, names);
    if |r.pinged| == |ds| {
      assert found == names;
      forall k | 0 <= k < |ds|
        ensures ds[k].name in r.pinged
      {
        assert ds[k].name in names;
      }
    }
    if forall k :: 0 <= k < |ds| ==> ds[k].name in r.pinged {
      assert names <= found;
      SubsetCard(names, found);
    }
  }

  // ---------------------------------------------------------------------
  // Modes, port lists and servo buses
  // ---------------------------------------------------------------------

  /** The servo bus at the end of a port list, if it ends with one. */
  function TrailingBus(l: seq<Interface>): seq<seq<Servo>> {
    if l != [] && l[|l| - 1].ServoBus? then [l[|l| - 1].servos] else []
  }

  /** The servo buses found by the first n port lists: the trailing servo bus of each list that has one. */
  function TrailingBuses(lists: seq<seq<Interface>>, n: nat): seq<seq<Servo>>
    requires n <= |lists|
    decreases n
  {
    if n == 0 then [] else TrailingBuses(lists, n - 1) + TrailingBus(lists[n - 1])
  }

  /** A port list: permitted interfaces only, and at most one servo bus, at the end and non-empty. */
  predicate WellFormedList(l: seq<Interface>, modes: Modes) {
    && (forall j :: 0 <= j < |l| ==> Permitted(l[j], modes))
    && (forall j :: 0 <= j < |l| && l[j].ServoBus? ==> j == |l| - 1 && l[j].servos != [])
  }

  /** What a port scan started with no interfaces keeps: permitted non-servo interfaces, and servos only when servos are allowed. */
  predicate PortScanShape(s: Scan, modes: Modes) {
    && (forall j :: 0 <= j < |s.onPort| ==> Permitted(s.onPort[j], modes) && !s.onPort[j].ServoBus?)
    && (s.servos != [] ==> !modes.onlyImu && !modes.onlyPressure)
  }

  lemma {:induction false} ScanPortShape(s: Scan, p: nat, port: Port, ds: seq<DeviceEntry>, i: nat, modes: Modes)
    requires i <= |ds| && PortScanShape(s, modes)
    ensures PortScanShape(ScanPort(s, p, port, ds, i, modes), modes)
    decreases i
  {
    if i > 0 {
      ScanPortShape(s, p, port, ds, i - 1, modes);
    }
  }

  lemma {:induction false} DiscoverPortsCount(ds: seq<DeviceEntry>, ports: seq<Port>, n: nat, modes: Modes)
    requires n <= |ports|
    ensures var r := DiscoverPorts(ds, ports, n, modes);
      && (r.failedPort.None? <==> forall k :: 0 <= k < n ==> ports[k].opens)
      && (r.failedPort.None? ==> |r.lists| == n)
      && (r.failedPort.Some? ==>
            exists k :: 0 <= k < n && (forall j :: 0 <= j < k ==> ports[j].opens) && !ports[k].opens &&
              r.failedPort.value == ports[k].name && |r.lists| == k)
    decreases n
  {
    if n > 0 {
      DiscoverPortsCount(ds, ports, n - 1, modes);
    }
  }

  lemma PortListShape(s: Scan, modes: Modes)
    requires PortScanShape(s, modes)
    ensures WellFormedList(PortList(s), modes)
    ensures TrailingBus(PortList(s)) == PortBuses(s)
  {
    var l := PortList(s);
    if s.servos == [] && s.onPort != [] {
      assert l[|l| - 1] == s.onPort[|s.onPort| - 1];
    }
  }

  lemma {:induction false} TrailingBusesSnoc(lists: seq<seq<Interface>>, l: seq<Interface>, n: nat)
    requires n <= |lists|
    ensures TrailingBuses(lists + [l], n) == TrailingBuses(lists, n)
    decreases n
  {
    if n > 0 {
      TrailingBusesSnoc(lists, l, n - 1);
      assert (lists + [l])[n - 1] == lists[n - 1];
    }
  }

  /** Every list of the first n is well formed. */
  predicate AllWellFormed(lists: seq<seq<Interface>>, modes: Modes) {
    forall k :: 0 <= k < |lists| ==> WellFormedList(lists[k], modes)
  }

  /** The lists of a discovery are well formed and its buses are exactly their trailing buses. */
  predicate Shaped(r: Discovery, modes: Modes) {
    AllWellFormed(r.lists, modes) && r.buses == TrailingBuses(r.lists, |r.lists|)
  }

  lemma {:induction false} DiscoverPortsShape(ds: seq<DeviceEntry>, ports: seq<Port>, n: nat, modes: Modes)
    requires n <= |ports|
    ensures Shaped(DiscoverPorts(ds, ports, n, modes), modes)
    decreases n
  {
    if n > 0 {
      DiscoverPortsShape(ds, ports, n - 1, modes);
      DiscoverPortsShapeStep(ds, ports, n, modes);
    }
  }

  lemma DiscoverPortsShapeStep(ds: seq<DeviceEntry>, ports: seq<Port>, n: nat, modes: Modes)
    requires 0 < n <= |ports| && Shaped(DiscoverPorts(ds, ports, n - 1, modes), modes)
    ensures Shaped(DiscoverPorts(ds, ports, n, modes), modes)
  {
    var p := n - 1;
    var r := DiscoverPorts(ds, ports, p, modes);
    if r.failedPort.None? && ports[p].opens {
      var s0 := Scan(r.pinged, r.pings, [], []);
      DiscoverPortsStep(ds, ports, p, modes);
      ScanPortShape(s0, p, ports[p], ds, |ds|, modes);
      ShapeSnoc(r.lists, r.buses, ScanPort(s0, p, ports[p], ds, |ds|, modes), modes);
    }
  }

  /** Appending a scanned port's list and bus keeps the lists well formed and the buses their trailing buses. */
  lemma ShapeSnoc(lists: seq<seq<Interface>>, buses: seq<seq<Servo>>, s: Scan, modes: Modes)
    requires AllWellFormed(lists, modes) && buses == TrailingBuses(lists, |lists|)
    requires PortScanShape(s, modes)
    ensures AllWellFormed(lists + [PortList(s)], modes)
    ensures buses + PortBuses(s) == TrailingBuses(lists + [PortList(s)], |lists| + 1)
  {
    var l := PortList(s);
    PortListShape(s, modes);
    TrailingBusesSnoc(lists, l, |lists|);
    AllWellFormedSnoc(lists, l, modes);
    assert (lists + [l])[|lists|] == l;
  }

  lemma AllWellFormedSnoc(lists: seq<seq<Interface>>, l: seq<Interface>, modes: Modes)
    requires AllWellFormed(lists, modes) && WellFormedList(l, modes)
    ensures AllWellFormed(lists + [l], modes)
  {
    forall k | 0 <= k < |lists| + 1
      ensures WellFormedList((lists + [l])[k], modes)
    {
      if k < |lists| {
        assert (lists + [l])[k] == lists[k];
      }
    }
  }

  /**
   * Each attempt yields one interface list per scanned port, in port order
   * (all of them when every port opened, else those before the first that
   * would not open); each list holds only interfaces the start-up modes
   * permit and ends with its port's single servo bus if it has one; and the
   * servo buses handed to the overall servo interface are exactly those.
   */
  lemma DiscoverLists(ds: seq<DeviceEntry>, ports: seq<Port>, modes: Modes)
    ensures var r := Discover(ds, ports, modes);
      && (r.failedPort.None? <==> forall k :: 0 <= k < |ports| ==> ports[k].opens)
      && (r.failedPort.None? ==> |r.lists| == |ports|)
      && (r.failedPort.Some? ==>
            exists k :: 0 <= k < |ports| && (forall j :: 0 <= j < k ==> ports[j].opens) && !ports[k].opens &&
              r.failedPort.value == ports[k].name && |r.lists| == k)
      && (forall k :: 0 <= k < |r.lists| ==> WellFormedList(r.lists[k], modes))
      && r.buses == TrailingBuses(r.lists, |r.lists|)
  {
    DiscoverPortsCount(ds, ports, |ports|, modes);
    DiscoverPortsShape(ds, ports, |ports|, modes);
  }

  /**
   * The servos of one port, defined independently of the scan: the first i
   * declared devices, in table order, that were not found on an earlier
   * port, answer on this one and are configured as servos.
   */
  function ServosFound(ds: seq<DeviceEntry>, i: nat, earlier: seq<string>, port: Port, modes: Modes): seq<Servo>
    requires i <= |ds|
    decreases i
  {
    if i == 0 then []
    else
      var d := ds[i - 1];
      ServosFound(ds, i - 1, earlier, port, modes) +
        if d.name !in earlier && Reply(port, d.id).Some? && Classify(d, modes) == ServoMotor
        then [Servo(d.id, d.name)] else []
  }

  predicate ServosSortedById(s: seq<Servo>) {
    forall i, j :: 0 <= i < j < |s| ==> s[i].id <= s[j].id
  }

  lemma {:induction false} ScanPortPinged(s: Scan, p: nat, port: Port, ds: seq<DeviceEntry>, i: nat, modes: Modes)
    requires i <= |ds|
    ensures var t := ScanPort(s, p, port, ds, i, modes);
      && (forall n :: n in s.pinged ==> n in t.pinged)
      && (forall n :: n in t.pinged ==> n in s.pinged || exists k :: 0 <= k < i && ds[k].name == n)
    decreases i
  {
    if i > 0 {
      ScanPortPinged(s, p, port, ds, i - 1, modes);
    }
  }

  lemma {:induction false} ScanPortServos(s: Scan, p: nat, port: Port, ds: seq<DeviceEntry>, i: nat, modes: Modes)
    requires i <= |ds| && DistinctNames(ds)
    ensures ScanPort(s, p, port, ds, i, modes).servos == s.servos + ServosFound(ds, i, s.pinged, port, modes)
    decreases i
  {
    if i > 0 {
      ScanPortServos(s, p, port, ds, i - 1, modes);
      ScanPortServosStep(s, p, port, ds, i, modes);
    }
  }

  lemma ScanPortServosStep(s: Scan, p: nat, port: Port, ds: seq<DeviceEntry>, i: nat, modes: Modes)
    requires 0 < i <= |ds| && DistinctNames(ds)
    requires ScanPort(s, p, port, ds, i - 1, modes).servos == s.servos + ServosFound(ds, i - 1, s.pinged, port, modes)
    ensures ScanPort(s, p, port, ds, i, modes).servos == s.servos + ServosFound(ds, i, s.pinged, port, modes)
  {
    var d := ds[i - 1];
    var t := ScanPort(s, p, port, ds, i - 1, modes);
    ScanPortPinged(s, p, port, ds, i - 1, modes);
    forall k | 0 <= k < i - 1
      ensures ds[k].name != d.name
    {
      assert NameList(ds)[k] != NameList(ds)[i - 1];
    }
    assert d.name in t.pinged <==> d.name in s.pinged;
    var extra := if d.name !in s.pinged && Reply(port, d.id).Some? && Classify(d, modes) == ServoMotor
                 then [Servo(d.id, d.name)] else [];
    AppendAssoc(s.servos, ServosFound(ds, i - 1, s.pinged, port, modes), extra);
  }

  lemma {:induction false} ServosFoundSorted(ds: seq<DeviceEntry>, i: nat, earlier: seq<string>, port: Port, modes: Modes)
    requires i <= |ds| && SortedById(ds)
    ensures ServosSortedById(ServosFound(ds, i, earlier, port, modes))
    ensures i > 0 ==> forall j :: 0 <= j < |ServosFound(ds, i, earlier, port, modes)| ==>
      ServosFound(ds, i, earlier, port, modes)[j].id <= ds[i - 1].id
    decreases i
  {
    if i > 0 {
      ServosFoundSorted(ds, i - 1, earlier, port, modes);
      if i > 1 {
        assert ds[i - 2].id <= ds[i - 1].id;
      }
    }
  }

  /** The servo is one of the first i declared devices, with that device's id and name. */
  predicate DeclaredAmong(sv: Servo, ds: seq<DeviceEntry>, i: nat)
    requires i <= |ds|
  {
    exists k :: 0 <= k < i && sv == Servo(ds[k].id, ds[k].name)
  }

  /** Each servo a port yields is one of the first i declared devices, with its declared id and name. */
  lemma {:induction false} ServosFoundDeclared(ds: seq<DeviceEntry>, i: nat, earlier: seq<string>, port: Port, modes: Modes)
    requires i <= |ds|
    ensures forall j :: 0 <= j < |ServosFound(ds, i, earlier, port, modes)| ==>
      DeclaredAmong(ServosFound(ds, i, earlier, port, modes)[j], ds, i)
    decreases i
  {
    if i > 0 {
      ServosFoundDeclared(ds, i - 1, earlier, port, modes);
      var f := ServosFound(ds, i - 1, earlier, port, modes);
      var g := ServosFound(ds, i, earlier, port, modes);
      forall j | 0 <= j < |g|
        ensures DeclaredAmong(g[j], ds, i)
      {
        if j < |f| {
          assert g[j] == f[j] && DeclaredAmong(f[j], ds, i - 1);
          var k :| 0 <= k < i - 1 && f[j] == Servo(ds[k].id, ds[k].name);
          assert 0 <= k < i && g[j] == Servo(ds[k].id, ds[k].name);
        } else {
          assert g[j] == Servo(ds[i - 1].id, ds[i - 1].name);
        }
      }
    }
  }

  /**
   * The interface list of a scanned port ends with one servo bus exactly
   * when some servo of the table answered there (and was not found on an
   * earlier port); that bus holds all of them, in table order, which is
   * ascending id order when the table is sorted; and no other entry of the
   * list is a servo bus.
   */
  lemma PortListServoBus(earlier: seq<string>, pings: seq<PingEvent>, p: nat, port: Port,
                         ds: seq<DeviceEntry>, modes: Modes)
    requires DistinctNames(ds)
    ensures var l := PortList(ScanPort(Scan(earlier, pings, [], []), p, port, ds, |ds|, modes));
      var found := ServosFound(ds, |ds|, earlier, port, modes);
      && (found != [] <==> |l| > 0 && l[|l| - 1].ServoBus?)
      && (found != [] ==> l[|l| - 1] == ServoBus(found))
      && (forall j :: 0 <= j < |l| - 1 ==> !l[j].ServoBus?)
      && (SortedById(ds) ==> ServosSortedById(found))
  {
    var s0 := Scan(earlier, pings, [], []);
    ScanPortServos(s0, p, port, ds, |ds|, modes);
    ScanPortShape(s0, p, port, ds, |ds|, modes);
    if SortedById(ds) {
      ServosFoundSorted(ds, |ds|, earlier, port, modes);
    }
  }

  // ---------------------------------------------------------------------
  // The reported model number does not matter
  // ---------------------------------------------------------------------

  /** Two views of the ports that differ at most in the model numbers the devices report. */
  predicate SameButReports(a: seq<Port>, b: seq<Port>) {
    && |a| == |b|
    && forall k :: 0 <= k < |a| ==>
         a[k].name == b[k].name && a[k].opens == b[k].opens && a[k].replies.Keys == b[k].replies.Keys
  }

  predicate SameScan(s: Scan, t: Scan) {
    s.pinged == t.pinged && s.onPort == t.onPort && s.servos == t.servos
  }

  lemma {:induction false} ScanPortIgnoresReports(s: Scan, t: Scan, p: nat, a: Port, b: Port,
                                                  ds: seq<DeviceEntry>, i: nat, modes: Modes)
    requires i <= |ds| && SameScan(s, t) && a.replies.Keys == b.replies.Keys
    ensures SameScan(ScanPort(s, p, a, ds, i, modes), ScanPort(t, p, b, ds, i, modes))
    decreases i
  {
    if i > 0 {
      ScanPortIgnoresReports(s, t, p, a, b, ds, i - 1, modes);
    }
  }

  /** Two discoveries that agree in everything but the pings sent. */
  predicate SameDiscovery(ra: Discovery, rb: Discovery) {
    ra.lists == rb.lists && ra.buses == rb.buses && ra.pinged == rb.pinged && ra.failedPort == rb.failedPort
  }

  lemma {:induction false} DiscoverPortsIgnoresReports(ds: seq<DeviceEntry>, a: seq<Port>, b: seq<Port>, n: nat, modes: Modes)
    requires SameButReports(a, b) && n <= |a|
    ensures SameDiscovery(DiscoverPorts(ds, a, n, modes), DiscoverPorts(ds, b, n, modes))
    decreases n
  {
    if n > 0 {
      DiscoverPortsIgnoresReports(ds, a, b, n - 1, modes);
      DiscoverPortsIgnoresReportsStep(ds, a, b, n, modes);
    }
  }

  lemma DiscoverPortsIgnoresReportsStep(ds: seq<DeviceEntry>, a: seq<Port>, b: seq<Port>, n: nat, modes: Modes)
    requires SameButReports(a, b) && 0 < n <= |a|
    requires SameDiscovery(DiscoverPorts(ds, a, n - 1, modes), DiscoverPorts(ds, b, n - 1, modes))
    ensures SameDiscovery(DiscoverPorts(ds, a, n, modes), DiscoverPorts(ds, b, n, modes))
  {
    var ra := DiscoverPorts(ds, a, n - 1, modes);
    var rb := DiscoverPorts(ds, b, n - 1, modes);
    if ra.failedPort.None? && a[n - 1].opens {
      ScanPortIgnoresReports(Scan(ra.pinged, ra.pings, [], []), Scan(rb.pinged, rb.pings, [], []),
                             n - 1, a[n - 1], b[n - 1], ds, |ds|, modes);
    }
  }

  /**
   * A device whose reported model number differs from its configured one
   * is bound all the same: the interfaces, servo buses, answered names and
   * verdict of an attempt depend on which addresses answer, not on what
   * they report.
   */
  lemma DiscoverIgnoresReports(ds: seq<DeviceEntry>, a: seq<Port>, b: seq<Port>, modes: Modes)
    requires SameButReports(a, b)
    ensures var ra := Discover(ds, a, modes);
      var rb := Discover(ds, b, modes);
      ra.lists == rb.lists && ra.buses == rb.buses && ra.pinged == rb.pinged &&
      Verdict(ra, |ds|) == Verdict(rb, |ds|)
  {
    DiscoverPortsIgnoresReports(ds, a, b, |a|, modes);
  }
}
