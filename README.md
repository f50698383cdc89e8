# Bit-Bots: hardware discovery, deploy sync filters and two behaviour decisions

This project models four parts of the Hamburg Bit-Bots humanoid soccer software in Dafny and proves properties of them.

**The Wolfgang robot's combined hardware interface**
- Modules: `WolfgangDevices` (`wolfgang_devices.dfy`) and `WolfgangHardware` (`wolfgang_hardware.dfy`).
- At start-up the node refuses the only-IMU and only-pressure modes together. It sorts the declared device table by bus id. It then repeats discovery until one attempt finds every declared device.
- One attempt scans the serial ports in order. On each port it pings every declared device that has not answered on an earlier port. It binds each responder to a hardware interface chosen from the responder's configured model number and interface type, within what the start-up modes allow.
- All servos of a port are grouped into one servo bus interface. That bus is appended to the port's list and also handed to the overall servo interface, which keeps it across retries.
- `init`, `read` and `write` run one worker per port, and each worker calls its port's interfaces in list order. The overall servo interface is written before the ports and read after them.
- The discovery rules are written as specification functions over values in `WolfgangDevices`. The class `WolfgangHardwareInterface` runs the nested port and device loops. Its contracts tie its fields to those functions.

**The deploy tool's rsync filter builder** (`SyncIncludes`, `sync_includes.dfy`)
- It turns the parsed includes file into `--include=` rules: the excluded paths first, then the include entries, and last a catch-all exclude. An optional package filter restricts the include entries.
- The method `GetIncludesFromFile` appends rules inside nested loops, as the source does. It is proved equal to the function `Includes`, and the output shape is proved about that function.

**Two behaviour decision elements** (`BallKickArea`, `GameStateDecider`)
- The kick-foot choice tests two inclusive boxes, right before left.
- The game-state decision maps the game controller's state number to a label.

`common.dfy` holds the `Option` type and one sequence lemma.

## Model

| member | source | states |
|---|---|---|
| WolfgangDevices.SortByIdSorted | bitbots_ros_control/src/wolfgang_hardware_interface.cpp:36-38 | the device table handed to discovery is in non-decreasing id order |
| WolfgangDevices.SortByIdPermutes | bitbots_ros_control/src/wolfgang_hardware_interface.cpp:27-38 | sorting neither drops nor duplicates a declared entry: the sorted table is a permutation of the declared one |
| WolfgangDevices.InsertSorted | bitbots_ros_control/src/wolfgang_hardware_interface.cpp:36-38 | inserting an entry by id into an id-sorted table keeps it sorted |
| WolfgangDevices.InsertPermutes | bitbots_ros_control/src/wolfgang_hardware_interface.cpp:36-38 | insertion adds exactly the one entry |
| WolfgangHardware.SortKeepsLength | bitbots_ros_control/src/wolfgang_hardware_interface.cpp:36-38 | the sorted table has as many entries as were declared, so the success test counts against the declared number |
| WolfgangDevices.ClassifyCategories | bitbots_ros_control/src/wolfgang_hardware_interface.cpp:98-162 | the category of a responder is decided by its configured model number and interface type and the two modes alone; each category is stated as an if-and-only-if, so no test of the chain is shadowed by an earlier one |
| WolfgangDevices.FailureStays | bitbots_ros_control/src/wolfgang_hardware_interface.cpp:57-68 | once a port has failed to open, scanning further ports changes nothing |
| WolfgangDevices.PortOpenFailureEnds | bitbots_ros_control/src/wolfgang_hardware_interface.cpp:63-68 | the first port that does not open ends the attempt with that port's name, keeping what earlier ports found |
| WolfgangDevices.DiscoverPortsStep | bitbots_ros_control/src/wolfgang_hardware_interface.cpp:57-176 | scanning one more open port appends exactly its interface list and its servo bus, if any, and carries the answered names and pings forward |
| WolfgangDevices.DiscoverPortsKeeps | bitbots_ros_control/src/wolfgang_hardware_interface.cpp:76-90 | after any number of ports the bookkeeping invariant holds: the answered names are exactly the answered pings, with no repeats and only declared names, and no device is pinged after it has answered |
| WolfgangDevices.DiscoverPortsKeepsStep | bitbots_ros_control/src/wolfgang_hardware_interface.cpp:76-163 | scanning one more port preserves that bookkeeping invariant |
| WolfgangDevices.ScanPortKeeps | bitbots_ros_control/src/wolfgang_hardware_interface.cpp:76-163 | the device loop of one port preserves the bookkeeping invariant |
| WolfgangDevices.VisitKeeps | bitbots_ros_control/src/wolfgang_hardware_interface.cpp:79-163 | visiting one device preserves it: a device already found is skipped and not pinged again, a silent one adds an unanswered ping to the pings but not its name to `pinged`, and a responder of any category, unidentified included, enters `pinged` once |
| WolfgangDevices.AnsweredContains | bitbots_ros_control/src/wolfgang_hardware_interface.cpp:90-163 | every answered ping's name is among the answered names |
| WolfgangDevices.NotAnsweredBefore | bitbots_ros_control/src/wolfgang_hardware_interface.cpp:79-90 | a name that is not among the answered names was never answered by any earlier ping, so pinging that device again is allowed by the bookkeeping |
| WolfgangDevices.AnsweredSnoc | bitbots_ros_control/src/wolfgang_hardware_interface.cpp:90-163 | one more ping adds its name to the answered names exactly when it was answered |
| WolfgangDevices.DiscoverBookkeeping | bitbots_ros_control/src/wolfgang_hardware_interface.cpp:76-163 | within an attempt a name enters `pinged` at most once and only when its ping is answered, every name in it is declared, and a device found on one port is never pinged again on that port or a later one |
| WolfgangDevices.CompleteIffAllAnswered | bitbots_ros_control/src/wolfgang_hardware_interface.cpp:178-202 | with unique declared names, an attempt in which every port opened succeeds if and only if every declared device answered |
| WolfgangDevices.DistinctCard | bitbots_ros_control/src/wolfgang_hardware_interface.cpp:178 | a list without repeats has as many distinct elements as entries, so the size of `pinged` counts the distinct devices found |
| WolfgangDevices.ScanPortShape | bitbots_ros_control/src/wolfgang_hardware_interface.cpp:98-167 | the device loop binds only interfaces the modes permit, never a servo bus, and only servos the modes permit |
| WolfgangDevices.PortListShape | bitbots_ros_control/src/wolfgang_hardware_interface.cpp:168-175 | a scanned port's list holds only permitted interfaces, a servo bus at most as its last entry, and that bus is the one handed to the overall servo interface |
| WolfgangDevices.DiscoverPortsCount | bitbots_ros_control/src/wolfgang_hardware_interface.cpp:57-176 | after n ports there is one interface list per port scanned: n when all opened; otherwise the failed port is the first of them that would not open, every port before it opened, and there is one list per port before it |
| WolfgangDevices.DiscoverPortsShape | bitbots_ros_control/src/wolfgang_hardware_interface.cpp:57-176 | after any number of ports every list is well formed and the servo buses handed over are exactly the lists' trailing buses, in port order |
| WolfgangDevices.DiscoverPortsShapeStep | bitbots_ros_control/src/wolfgang_hardware_interface.cpp:168-175 | scanning one more port preserves that shape |
| WolfgangDevices.ShapeSnoc | bitbots_ros_control/src/wolfgang_hardware_interface.cpp:168-175 | appending one scanned port's list and its bus preserves that shape |
| WolfgangDevices.AllWellFormedSnoc | bitbots_ros_control/src/wolfgang_hardware_interface.cpp:174-175 | appending a well-formed list keeps all lists well formed |
| WolfgangDevices.TrailingBusesSnoc | bitbots_ros_control/src/wolfgang_hardware_interface.cpp:174-175 | appending a list does not change the trailing buses of the lists before it |
| WolfgangDevices.DiscoverLists | bitbots_ros_control/src/wolfgang_hardware_interface.cpp:21-176 | one interface list per scanned port, in port order; in only-IMU mode no foot sensor or servo is bound, in only-pressure mode no IMU, button, LED or servo; a port's servo bus comes last in its list; the buses given to the overall servo interface are exactly those; a reported failed port is the first that would not open, and only the ports before it have lists |
| WolfgangDevices.ServosFoundDeclared | bitbots_ros_control/src/wolfgang_hardware_interface.cpp:147-157 | each servo collected on a port is one of the declared devices visited, with its declared id and name |
| WolfgangDevices.ScanPortPinged | bitbots_ros_control/src/wolfgang_hardware_interface.cpp:79-163 | the device loop only extends `pinged`, and only with names of the devices it visited |
| WolfgangDevices.ScanPortServos | bitbots_ros_control/src/wolfgang_hardware_interface.cpp:76-167 | the servos the device loop collects are exactly `ServosFound`, an independent definition: the servo-configured devices, in table order, that answer on the port and were not found earlier |
| WolfgangDevices.ScanPortServosStep | bitbots_ros_control/src/wolfgang_hardware_interface.cpp:147-157 | visiting one more device extends the collected servos exactly as `ServosFound` grows |
| WolfgangDevices.ServosFoundSorted | bitbots_ros_control/src/wolfgang_hardware_interface.cpp:147-157 | on a sorted table a port's servos are in ascending id order, and none has an id above that of the last device visited |
| WolfgangDevices.PortListServoBus | bitbots_ros_control/src/wolfgang_hardware_interface.cpp:168-175 | a port's list ends with a servo bus if and only if some servo answered there and was not found earlier; that bus holds all of them in table order, ascending ids when the table is sorted, and no other entry is a servo bus |
| WolfgangDevices.ScanPortIgnoresReports | bitbots_ros_control/src/wolfgang_hardware_interface.cpp:88-98 | the device loop's answered names, interfaces and servos depend on which addresses answer, not on the model numbers they report |
| WolfgangDevices.DiscoverPortsIgnoresReports | bitbots_ros_control/src/wolfgang_hardware_interface.cpp:88-98 | the same over any number of ports |
| WolfgangDevices.DiscoverPortsIgnoresReportsStep | bitbots_ros_control/src/wolfgang_hardware_interface.cpp:88-98 | one more port preserves that agreement |
| WolfgangDevices.DiscoverIgnoresReports | bitbots_ros_control/src/wolfgang_hardware_interface.cpp:88-98 | a reported model number other than the configured one only warns: the lists, buses, answered names and verdict of an attempt are unchanged |
| WolfgangHardware.PortTrace | bitbots_ros_control/src/wolfgang_hardware_interface.cpp:205-267 | a port worker calls each of its interfaces once, in list order |
| WolfgangHardware.PortsTraceEvents | bitbots_ros_control/src/wolfgang_hardware_interface.cpp:214-228 | the port workers call only listed interfaces with the cycle's operation, and call every one of them |
| WolfgangHardware.PortsTracePorts | bitbots_ros_control/src/wolfgang_hardware_interface.cpp:214-228 | the workers of the first n ports call interfaces of those ports only |
| WolfgangHardware.PortsTraceInOrder | bitbots_ros_control/src/wolfgang_hardware_interface.cpp:205-267 | within a port the calls are in list order |
| WolfgangHardware.OnlyListedStep | bitbots_ros_control/src/wolfgang_hardware_interface.cpp:214-228 | one more port's worker calls only its listed interfaces |
| WolfgangHardware.AllCalledStep | bitbots_ros_control/src/wolfgang_hardware_interface.cpp:214-228 | one more port's worker calls all of its interfaces |
| WolfgangHardware.CycleOrder | bitbots_ros_control/src/wolfgang_hardware_interface.cpp:247-282 | a write calls the overall servo interface before any port interface; a read and an init call it after every port interface; every port interface is called once, in list order |
| WolfgangHardware.NoIncompleteBeforeMeans | bitbots_ros_control/src/wolfgang_hardware_interface.cpp:182-186 | the flag kept across attempts holds exactly when none of the attempts so far was incomplete |
| WolfgangHardware.RetriedBeforeStep | bitbots_ros_control/src/wolfgang_hardware_interface.cpp:43-49 | an attempt that ended incomplete or with power off extends the run of attempts that were retried |
| WolfgangHardware.AllSucceeded | bitbots_ros_control/src/wolfgang_hardware_interface.cpp:230-233 | the `&=` fold over the recorded flags is true if and only if every flag is |
| WolfgangHardware.WolfgangHardwareInterface.constructor | bitbots_ros_control/src/wolfgang_hardware_interface.cpp:10-12 | the modes are fixed, no interfaces or servo buses exist yet, and the first incomplete attempt is still to come |
| WolfgangHardware.WolfgangHardwareInterface.Startup | bitbots_ros_control/src/wolfgang_hardware_interface.cpp:16-49 | both modes at once stop start-up before discovery; otherwise discovery runs on the id-sorted table, and start-up is ready after the first complete attempt, stops at the first port that fails to open, or is interrupted, with every earlier attempt one that is retried; the interface lists are those of the last attempt made (unchanged when no attempt is made), the servo buses those of every attempt made, and the first-incomplete flag stays set exactly when it was set and no attempt made was incomplete |
| WolfgangHardware.WolfgangHardwareInterface.RetryDiscovery | bitbots_ros_control/src/wolfgang_hardware_interface.cpp:40-49 | a fresh overall servo interface collects the servo buses of every attempt made, failed ones included, while the interface lists are those of the last attempt (unchanged when there is none) and the first-incomplete flag is cleared exactly when an attempt made was incomplete; the loop stops at the first complete attempt or port failure |
| WolfgangHardware.WolfgangHardwareInterface.NextAttempt | bitbots_ros_control/src/wolfgang_hardware_interface.cpp:43-49 | one pass of the retry loop leaves that attempt's interface lists, adds its servo buses to those of the attempts before it, clears the first-incomplete flag if it was incomplete, and returns its verdict |
| WolfgangHardware.WolfgangHardwareInterface.CreateInterfaces | bitbots_ros_control/src/wolfgang_hardware_interface.cpp:52-203 | one attempt leaves exactly the discovered interface lists, appends the discovered buses to the servo interface, returns the verdict (complete, power off for at most two answers, incomplete, or port failure), and clears the first-incomplete flag on an incomplete attempt |
| WolfgangHardware.WolfgangHardwareInterface.ScanPorts | bitbots_ros_control/src/wolfgang_hardware_interface.cpp:53-176 | the port loop resets the lists and yields exactly the discovery of the specification, stopping at the first port that fails to open |
| WolfgangHardware.WolfgangHardwareInterface.ScanOpenPort | bitbots_ros_control/src/wolfgang_hardware_interface.cpp:69-175 | scanning one open port advances the state by exactly one step of the specification |
| WolfgangHardware.WolfgangHardwareInterface.ScanDevices | bitbots_ros_control/src/wolfgang_hardware_interface.cpp:76-167 | the device loop computes exactly the specification's scan of the port |
| WolfgangHardware.WolfgangHardwareInterface.ThreadedInit | bitbots_ros_control/src/wolfgang_hardware_interface.cpp:205-210 | a port worker's init succeeds if and only if every interface on the port does, and it calls every interface in list order with no short-circuit |
| WolfgangHardware.WolfgangHardwareInterface.InitPortsAsWritten | bitbots_ros_control/src/wolfgang_hardware_interface.cpp:214-228 | every port is initialised in list order, but every recorded flag is true, whatever the workers returned |
| WolfgangHardware.WolfgangHardwareInterface.InitPorts | bitbots_ros_control/src/wolfgang_hardware_interface.cpp:214-228 | as intended: the flag recorded for a port is true if and only if every interface on it initialised |
| WolfgangHardware.WolfgangHardwareInterface.Init | bitbots_ros_control/src/wolfgang_hardware_interface.cpp:212-237 | as written: all ports are initialised, then the overall servo interface, and the result equals the servo interface's result alone |
| WolfgangHardware.WolfgangHardwareInterface.InitAllPorts | bitbots_ros_control/src/wolfgang_hardware_interface.cpp:212-237 | as intended: the same calls, and success if and only if every interface on every port and the overall servo interface initialised |
| WolfgangHardware.WolfgangHardwareInterface.ServicePort | bitbots_ros_control/src/wolfgang_hardware_interface.cpp:239-267 | one port worker's read or write calls each interface of the port once, in list order |
| WolfgangHardware.WolfgangHardwareInterface.Read | bitbots_ros_control/src/wolfgang_hardware_interface.cpp:247-259 | every port is read before the overall servo interface gathers the values |
| WolfgangHardware.WolfgangHardwareInterface.Write | bitbots_ros_control/src/wolfgang_hardware_interface.cpp:269-282 | the overall servo interface writes before any port is written |
| SyncIncludes.GetIncludesFromFile | scripts/deploy/tasks/sync.py:34-66 | the appending loops build exactly the filter list `Includes` |
| SyncIncludes.EntryIncludes | scripts/deploy/tasks/sync.py:49-64 | the loop over one include entry yields exactly that entry's rules |
| SyncIncludes.FolderItemIncludes | scripts/deploy/tasks/sync.py:50-60 | the loop over one folder of a mapping entry yields exactly that folder's rules |
| SyncIncludes.ExcludeRulesSnoc | scripts/deploy/tasks/sync.py:45-47 | one more exclude entry appends its rule |
| SyncIncludes.IncludeRulesStep | scripts/deploy/tasks/sync.py:49-64 | one more include entry appends its rules |
| SyncIncludes.SubfolderRulesSnoc | scripts/deploy/tasks/sync.py:53-55 | one more subfolder appends its pair of rules |
| SyncIncludes.FolderItemsRulesSnoc | scripts/deploy/tasks/sync.py:50-60 | one more folder appends its rules |
| SyncIncludes.IncludeRulesSnoc | scripts/deploy/tasks/sync.py:49-64 | one more include entry appends its rules, for any prefix of entries |
| SyncIncludes.PrefixedIsIncludeRule | scripts/deploy/tasks/sync.py:52-63 | a rule built with the include prefix is an include rule |
| SyncIncludes.SubfolderRulesAreIncludes | scripts/deploy/tasks/sync.py:53-55 | the subfolder rules are all include rules |
| SyncIncludes.FolderItemRulesAreIncludes | scripts/deploy/tasks/sync.py:50-60 | a folder's rules are all include rules |
| SyncIncludes.FolderItemsRulesAreIncludes | scripts/deploy/tasks/sync.py:50-60 | a mapping entry's rules are all include rules |
| SyncIncludes.IncludeRulesAreIncludes | scripts/deploy/tasks/sync.py:49-64 | the entries part of the list holds include rules only |
| SyncIncludes.IncludesShape | scripts/deploy/tasks/sync.py:45-66 | the list starts with one exclude rule per excluded path in order, then holds include rules only, and always ends with the catch-all exclude |
| SyncIncludes.SubfolderRulesAt | scripts/deploy/tasks/sync.py:53-55 | each subfolder, in order, gives the rule for it followed by the rule for everything below it |
| SyncIncludes.UnfilteredFolderRules | scripts/deploy/tasks/sync.py:51-55 | without a package filter a folder gives itself, then the pair for each subfolder in order |
| SyncIncludes.FilteredFolderRules | scripts/deploy/tasks/sync.py:56-60 | with a package filter a folder gives exactly itself, the package subfolder and everything below it when it lists the package, and nothing otherwise |
| SyncIncludes.PathEntryRules | scripts/deploy/tasks/sync.py:61-64 | a path entry gives the path and everything below it exactly when there is no filter or the filter names that path, and nothing otherwise |
| SyncIncludes.IncludesLength | scripts/deploy/tasks/sync.py:42-66 | the length is the number of excludes, plus each entry's count worked out from the entry alone, plus one |
| SyncIncludes.IncludeRulesLength | scripts/deploy/tasks/sync.py:49-64 | the entries part has the counted length |
| SyncIncludes.FolderItemsRulesLength | scripts/deploy/tasks/sync.py:50-60 | a mapping entry gives its counted number of rules |
| BallKickArea.Perform | bitbots_body_behavior/src/bitbots_body_behavior/decisions/ball_kick_area.py:17-26 | RIGHT if and only if the ball is in the right box; LEFT if and only if it is in the left box but not the right one; FAR if and only if it is in neither; never anything else |
| BallKickArea.RightHasPriority | bitbots_body_behavior/src/bitbots_body_behavior/decisions/ball_kick_area.py:19-24 | a ball in both boxes is kicked with the right foot |
| BallKickArea.CornersAreInside | bitbots_body_behavior/src/bitbots_body_behavior/decisions/ball_kick_area.py:19-21 | the bounds are inclusive: each corner of a non-empty right box gives RIGHT |
| BallKickArea.DisjointBoxesOrderIrrelevant | bitbots_body_behavior/src/bitbots_body_behavior/decisions/ball_kick_area.py:19-24 | for boxes that do not overlap, LEFT comes exactly when the ball is in the left box |
| BallKickArea.GetReevaluate | bitbots_body_behavior/src/bitbots_body_behavior/decisions/ball_kick_area.py:28-34 | the decision is always re-evaluated |
| GameStateDecider.Perform | bitbots_body_behavior/src/bitbots_body_behavior/decisions/game_state_decider.py:18-39 | NOT_ALLOWED_TO_MOVE whatever the state when the robot may not move; otherwise an answer exactly for states 0 to 4, and never NOT_ALLOWED_TO_MOVE |
| GameStateDecider.PerformAgreesWithTable | bitbots_body_behavior/src/bitbots_body_behavior/decisions/game_state_decider.py:10-39 | the if/elif chain gives the constructor table's label for each state in it and no answer for any other state |
| GameStateDecider.PerformInjective | bitbots_body_behavior/src/bitbots_body_behavior/decisions/game_state_decider.py:30-39 | different states in 0 to 4 give different labels |
| GameStateDecider.GetReevaluate | bitbots_body_behavior/src/bitbots_body_behavior/decisions/game_state_decider.py:41-45 | the decision is always re-evaluated |

## Left out

- The per-port worker threads of `init`, `read` and `write` are modelled as running one after another in port order. The order between calls on different ports is therefore an artifact of the model. The order within a port, and the order relative to the overall servo interface, are what the source fixes.
- The serial driver (`init`, `setPacketHandler`, `ping`, `setTools`) is replaced by a ping oracle. For each attempt, each port either opens or not, and maps each 8-bit bus address that answers to the model number it reports.
- The power-on write the core board receives when it is bound is a foreign call and is not modelled.
- What the device interfaces and the overall servo interface do inside `init`, `read` and `write` is not part of this model. Their calls are recorded as trace events, and the init results are inputs.
- The retry loop, which repeats while ROS is running, is bounded by the finite list of per-attempt port oracles; running out of that list is the `Interrupted` outcome.
- ROS parameter lookups, logging (including the warning when a device reports a model number other than its configured one), spoken errors, the one-second sleep before exiting on a port that will not open, and `exit` are left out. Exiting on both modes and exiting on a port that will not open appear as outcomes (`BothModesSet`, `PortOpenFailedAt`).
- The log of missing devices after an incomplete attempt is not modelled; only the first-incomplete flag it depends on is.
- `std::sort` is a library call. Sorting the table in place is modelled as the function `SortById` on values (a stable insertion sort compared on ids only), with its result proved sorted and a permutation. When ids repeat, `std::sort` may order equal ids differently.
- Reading the includes file (the YAML load) is left out. Its parsed result is the input, and a YAML value that is neither a mapping nor a string is an `OtherEntry`, which the builder skips. A missing `exclude` or `include` key, and mapping values that are not lists of strings, are not modelled.
- The behaviour elements' configuration, and the blackboard that supplies the ball position and game state, become parameters. The unused `max_kick_distance` setting is left out.
- BallKickArea.Perform: ball coordinates are `real`, where the source compares Python floats. A NaN coordinate fails every comparison, so the source answers FAR for it; the model has no NaN and cannot state that case.

## Findings

| source | as written | input that shows it | evidently intended | confidence | as-written member | corrected member |
|---|---|---|---|---|---|---|
| bitbots_ros_control/src/wolfgang_hardware_interface.cpp:220-235 | each port's entry in `successes` is the address of the loop-local `suc`, which converts to true, so `init` returns only the overall servo interface's result | one port holding one interface whose init fails, with the overall servo interface's init succeeding: `init` returns true | `init` succeeds only when every interface on every port and the overall servo interface initialise | not executed | WolfgangHardware.WolfgangHardwareInterface.Init (counterexample WolfgangHardware.InitIgnoresPortFailure) | WolfgangHardware.WolfgangHardwareInterface.InitAllPorts |
