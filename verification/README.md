# A verified model of the simulator and its generated bindings

The repository is a small simulator-in-the-loop: C++ services that talk over a synchronous in-process bus, a
UDP bridge to a Python test client, and a generator that turns C++ payload structs into Python classes with
`pack_wire` and `unpack_wire`. This project models the parts of it whose correctness is not visible from one
function body, and proves what they promise. `dafny verify dfyconfig.toml` checks all of it.

## The modules

The binding generator, as a compiler:

* `StructFormat`: the `<` mode of Python's `struct` module (Python library reference, `struct`, sections "Byte
  Order, Size, and Alignment" and "Format Characters"): format text, the items it stands for, packing,
  unpacking.
* `Schema`: C++ layouts (fields, offsets, sizes, nesting, arrays), the memory image of a value, and the
  reading of a buffer at the field offsets. This is the reference.
* `Generator`: the emitted programs (format runs, sub-objects, counted loops), an interpreter for them, and
  the generator itself, once as a function and once as the loop over strings that it is.
* `PackProofs`, `UnpackProofs`: the compiler theorems, with the supported layouts stated exactly.
* `Emission`: the driver and its shared `visited` set.
* `Protocol`: the layouts and wire ids of the application's nineteen messages. `Bindings`: the driver on them.
  `Misfits`: layouts and values for which the bindings do not do what they promise.

The bus and its services:

* `Messages`, `Motor`, `Physics`, `Environment`, `Route`: vocabulary and the pure steps of the services.
* `Mesh`: the services on one bus. A publish runs every handler, in the bus's order, before it returns, and
  handlers publish in turn. The handler order is arbitrary: C++ does not fix the order in which the elements
  of the service tuple are constructed, so every theorem holds for every `Wired` bus.
* `MeshTraffic`, `MeshBudget`, `MeshRun`, `MeshRoute`, `MeshCache`, `MeshMotion`, `MeshElapsed`, `MeshHeat` (the
  temperatures), `MeshCommands` (the controller's motor commands) and `MeshAnswers` (what requests, statuses and
  region data lead to): what is published, and what happens, over dispatches and over runs of whole dispatches.
* `Threads`: the same services entered by any number of threads at once. A thread is the list of what it has
  still to do; one step is one critical section, one publish or one push to the log, so dispatches interleave
  and time passes inside them. `ThreadOrder` (lock order, no deadlock), `ThreadProgress` (every dispatch ends),
  `ThreadSafety` (data), `ThreadCoherence` (the cached motor state), `ThreadTraffic` (route reports),
  `ThreadBudget` (how many commands a thread gives), `ThreadRequests` and `ThreadPublishes` (the throttle: when
  requests are decided on, and when they are published), `ThreadCache` (the regions), `ThreadFollows` (the
  environment at node checks), `ThreadEnergy` (the energy a route uses), `ThreadTicks` (ticks that are overtaken),
  `ThreadAlone` (a dispatch that nobody
  disturbs computes `Mesh.Publish`), and `ThreadWitness`, `ThreadDelays` and `ThreadUncovered` (runs that show
  what is not promised, and that the bounds are met). What `MeshRun.RunTraffic`, `MeshRun.RunRequestsSpan`
  and `MeshCache.RunCacheIsLatest` say of runs of whole dispatches, about publish times too, is the
  undisturbed case of the corresponding `Thread` theorems.
* `Services`: the services as classes with the source's fields, updated in place, re-entered while they
  publish, with a cache of shared cells that the controller points into. Every publish on these objects is
  proved to do to them what `Mesh.Publish` does to the value they stand for.

The rest: `Bridge` (the UDP bridge and the framing), `Mailbox` (the client's selective receive), `LogQueue`
(the log service's swap queue and its shutdown), `EndToEnd` (from `send_msg` to the vehicle's position),
`Arrivals` (what the client can send, byte by byte, and what arrives of it), and `WordWrap` (the documentation
generator's word wrapper).

Positions are exact integers in rpm times microseconds (10^8 of them are one metre), times on the steady
clock are integers in nanoseconds, and the other physical quantities are reals. A float on the wire is
identified with its four or eight bytes. History that the services do not keep but that properties speak of
(the samples since a node became current, everything published so far, the records a log accepted) is held in
extra fields and said to be history where it is declared.

## What turned out false, and what is true instead

* `pack_wire` does not write `sizeof(T)` bytes for every layout. It does exactly when the layout is
  `Supported`: format characters exist for its scalars, arrays are of bytes or of structs, and no struct is
  empty (`PackProofs.PackWireIsMemoryImage`). A 4-byte enum gets `"?"` (`Misfits.WideEnumIsShort`).
* The emitted module is not always valid Python: a flushed run that holds only padding assigns to nothing.
  `UnpackProofs.GeneratedModuleParses` says exactly when this happens; two structs with a gap between them
  are enough (`Misfits.SpreadDoesNotParse`).
* `unpack_wire(pack_wire(v))` is `v` exactly when every byte array has its declared length; otherwise it is
  `v` with byte arrays cut or filled (`UnpackProofs.UnpackOfPack`), as for every log record with a short text
  (`Misfits.ShortTextIsFilled`).
* A tick that was read before a preemption and delivered after it can shorten the new sequence. In every run
  it acts if and only if the motor is active and the tick carries the new id
  (`ThreadTicks.StaleTickActsExactly`), which it does not when that id was never used before. The id 0 counts
  as used from the start, because the cache and the motor start with it, and the controller uses 999 for every
  node. `ThreadWitness.FirstZeroIsEnded` and `ThreadWitness.ReusedIdIsEnded` are runs from the start in which
  such a tick ends the new sequence.
* The elapsed time is documented as counted from the start of the current sequence. It is exactly when the id
  of the sequence is not the one that was counted last, or that count stood at zero
  (`MeshElapsed.ElapsedIsTicks`); with an id that is used again it goes on
  (`MeshElapsed.ReusedIdCountsTwoTicks`), and so it does from node to node of a route.
* The ideal displacement, speed times duration, is met by a step exactly when it stands still or lasts a
  positive number of whole ticks, by a sequence with speeds of one sign exactly when all its steps meet it,
  and missed by at most 3 m (`MeshMotion.Displacement`; `MeshMotion.HalfTickMisses`).
* External requests need not be published more than 500 ms apart. The decisions are
  (`ThreadRequests.RunsAreThrottled`), and every decision is published before the next one is taken
  (`ThreadPublishes.RunsAlternate`), so from one publish to the next it takes more than 500 ms less the delay
  between the first decision and its publish, and k publishes span more than 500 (k - 2) ms whatever the delays
  (`ThreadPublishes.RunPublishesSpan`). Two publishes can come arbitrarily close
  (`ThreadDelays.PublishesComeCloseAtFirst`). If no delay exceeds d, a distance of more than g is kept in all
  runs exactly when d + g <= 500 ms; so the 500 ms are guaranteed exactly when there is no delay at all
  (`ThreadDelays.GuaranteedExactly`).
* A tuned route does not always find its position covered by its current environment at the node check, even
  when some cached region covers it: another thread can overwrite the current region between the lookup and the
  check, as in a run from the start (`ThreadUncovered.UncoveredFromStart`). It does unless, since the sample
  began, the lookup found no covering region or another thread stored one (`ThreadFollows.RunsFollow`), and so
  always when nobody disturbs the sample (`MeshRoute.EnvironmentFollows`).

Where the code and its own documentation disagree, the model follows the code: at most 5 motor steps
(messages/simulation_msgs.h:12), not 10 (line 16); node statistics are cumulative from the start of the route
(`Route.StatsOk`), not those of a single node (messages/autonomous_msgs.h:71).

## Model

| member | source | states |
|---|---|---|
| StructFormat.ParseRenderAll | generator/python_code_generator.h:198-203 | a format text that is assembled piece by piece (counts, `x`, `s`, letters) is parsed back into exactly those pieces: no digit or letter of one is absorbed by its neighbour |
| StructFormat.UnpackAppend | generator/python_code_generator.h:134-153 | unpacking two runs one behind the other is unpacking their concatenation |
| StructFormat.PackedByte | generator/python_code_generator.h:128 | `<`: byte i of a packed integer is the digit of weight 256^i of the number, or of the number plus 256^size if it is negative |
| Generator.FlushFormat | generator/python_code_generator.h:134-153 | the closure on strings does to the accumulated programs what the flush on items does, and flushes nothing exactly when the run is empty |
| Generator.PadFormat | generator/python_code_generator.h:198-203 | the inserted `Nx` brings the running offset up to the field's, and nothing is inserted when it is there already |
| Generator.EmitField | generator/python_code_generator.h:155-303 | one field on the mutable strings: padding, then a flush and a nested part, or one more item of the run, as the definition on items says |
| Generator.EmitEnd | generator/python_code_generator.h:307-314 | trailing padding and the last flush, and nothing at all for a struct without fields |
| Generator.EmitClass | generator/python_code_generator.h:118-335 | the loop over the fields, with its mutable strings and offset, emits the class that the field-by-field definition gives, for every layout |
| PackProofs.FormatCharFits | generator/python_code_generator.h:62-81 | a scalar is supported exactly when its format character has its size, and then signedness and kind agree; otherwise the character is `?` and the size differs |
| PackProofs.PrefixOffset | generator/python_code_generator.h:127-319 | `current_offset` is the end of the last field processed, whatever was flushed in between |
| PackProofs.PrefixPack | generator/python_code_generator.h:127-319 | flushed programs followed by the pending run write, after every field, what encoding the fields one at a time writes |
| PackProofs.BatchingIsTransparent | generator/python_code_generator.h:134-147 | the batched `pack_wire` means the same as encoding one field at a time |
| PackProofs.PackWireIsMemoryImage | generator/python_code_generator.h:127-319 | for every layout and value: `pack_wire` yields exactly `sizeof(T)` bytes if and only if the layout is supported, and then they are the C++ memory image |
| UnpackProofs.PackedLittleEndian | generator/python_code_generator.h:155-303 | in what `pack_wire` writes, the byte at an integer field's offset plus i is that field's digit of weight 256^i, least significant first, negative numbers in two's complement |
| Schema.FieldStored | generator/python_code_generator.h:166-168 | in the memory image, the bytes at a field's offset are the image of that field, later fields notwithstanding |
| Schema.IntegerStored | src/udp_bridge.h:60-73 | so is it in the memory image on a little-endian host |
| Schema.ElementStored | generator/python_code_generator.h:205-303 | the elements of an array lie back to back |
| Schema.PaddingIsZero | generator/python_code_generator.h:198-203 | every byte of the image that lies in no field, interior or trailing, is zero |
| UnpackProofs.GeneratedModuleParses | generator/python_code_generator.h:134-147 | the emitted class is valid Python if and only if no flushed run, here or in a nested class, holds only padding |
| UnpackProofs.UnpackWireReadsMemory | generator/python_code_generator.h:205-303 | on a buffer of `sizeof(T)` bytes, `unpack_wire` reads every field at its offset |
| UnpackProofs.UnpackedLittleEndian | generator/python_code_generator.h:205-303 | `unpack_wire` reads an integer field as the number in its range whose digits to base 256 are the bytes at its offset, least significant first |
| UnpackProofs.UnpackedFlag | generator/python_code_generator.h:205-303 | and a bool field as true exactly if its byte is not zero |
| UnpackProofs.UnpackOfPack | generator/python_code_generator.h:127-319 | unpacking what was packed gives the value with byte arrays at their declared length, and the value itself if and only if they have it |
| UnpackProofs.PackOfUnpack | generator/python_code_generator.h:127-319 | packing what was unpacked gives the buffer back, with padding zeroed and bools normalised |
| Misfits.WideEnumIsShort | generator/python_code_generator.h:62-81 | an enum of four bytes is packed as one byte, 0 or 1 |
| Misfits.SpreadDoesNotParse | generator/python_code_generator.h:134-147 | a struct of one byte followed by an aligned one: laid out as C++ does, and the generated class is not valid Python |
| Misfits.ShortTextIsFilled | generator/python_code_generator.h:205-303 | a log record with a short text comes back filled with zeros, never as it was |
| Emission.GenerateStruct | generator/python_code_generator.h:90-116 | for acyclic nesting with distinct names: everything reachable and not yet visited is emitted once, nested classes first, and nothing else |
| Emission.GenerateBindings | generator/generate_bindings.cpp:15-27 | over all roots with one visited set: each reachable class exactly once, nothing unreachable, every class after all classes it uses |
| Bindings.GenerateAll | generator/generate_bindings.cpp:15-27 | for the application's own roots, whose names are proved distinct: 27 classes come out, one for each known struct and for nothing else, once each, every class after the classes it uses |
| Bindings.NamesAreDistinct | generator/python_code_generator.h:90-116 | no two of these structs have the same name, so a visited name means a visited struct |
| Bindings.ReachedIsKnown | generator/generate_bindings.cpp:15-27 | a struct is reachable by value from the roots exactly if it is one of the nineteen payloads or the eight structs they nest |
| Protocol.PayloadsRegular | tests/python/reflect_pytest/generated.py:638-665 | every payload of the application satisfies the conditions of the compiler theorems, except the one that holds a shared pointer |
| Protocol.SubCmdBindings | tests/python/reflect_pytest/generated.py:49-65 | the model generates `"<h2xI"` with the two fields as arguments and targets |
| Protocol.SequenceBindings | tests/python/reflect_pytest/generated.py:144-176 | the model generates `"<IB3x"`, flushed before the array, and a loop of five sub-commands |
| Protocol.ManeuverBindings | tests/python/reflect_pytest/generated.py:444-464 | the model generates the nested point first, then `"<H2x"` with the trailing padding |
| Protocol.KinematicsBindings | tests/python/reflect_pytest/generated.py:217-235 | the model generates `"<IIff"` with the four fields |
| Protocol.StatusBindings | tests/python/reflect_pytest/generated.py:179-196 | the model generates `"<Ih?1x"`, the trailing padding included |
| Protocol.LogBindings | tests/python/reflect_pytest/generated.py:68-85 | the model generates `"<255sB32s"` |
| Bridge.UdpBridge.TryPublishRaw | src/component.h:51-61 | publishes the payload once if an id of the list matches in value and exact size, nothing otherwise, and says which |
| Bridge.UdpBridge.RxLoop | src/udp_bridge.cpp:61-100 | over any sequence of datagrams: the bus gets what each of them injects, in order; the peer is the last sender, short datagrams included |
| Bridge.HeaderBytes | src/udp_bridge.h:66-69 | the first byte of a datagram is the id modulo 256, the second one the rest |
| Arrivals.InjectedExactly | src/udp_bridge.h:34-36 | the bridge publishes a payload object for a datagram if and only if the datagram frames one of the seven messages with exactly that payload, of that message's size; a tick or a motor status never arrives, whatever is sent |
| Arrivals.InjectableIsEntry | src/udp_bridge.h:34-36 | these messages, log records and the clock's tick are what a thread can start with |
| Arrivals.CrossesOneWay | src/udp_bridge.h:31-36 | every message either goes in, or goes out, or stays inside |
| Bridge.SentIsPublished | tests/python/udp_client.py:41-44 | a value sent by the client is published exactly once if the id is one the bridge may publish, and not otherwise; the payload is its memory image and reads back as the value |
| Bridge.ForwardedIsDecoded | tests/python/udp_client.py:71-99 | a payload forwarded by the bridge is decoded by the client to the value of every field |
| Bridge.DecodedExactly | tests/python/udp_client.py:74-99 | the client takes a datagram if and only if its first two bytes, least significant first, are the id, its size is that id's, and the format can be read |
| Arrivals.RequestArrives | tests/python/udp_client.py:41-46 | each of the four requests is three bytes, and arrives once as it was sent |
| Arrivals.RouteArrives | tests/python/test_autonomous.py:24 | a route command sent by the client is 182 bytes that begin with 60, 0, and arrives once as the same command |
| Arrivals.RouteDatagram | tests/python/reflect_pytest/generated.py:467-500 | what lies where in them: name, mode, gain, tuning, number of nodes, and eight nodes |
| Arrivals.RegionArrives | tests/python/udp_client.py:41-46 | region data are 38 bytes that begin with 52, 0, and arrive once as the same region |
| Arrivals.RegionDatagram | tests/python/reflect_pytest/generated.py:394-421 | what lies where in them: the id and eight floats |
| Arrivals.SentRouteDrives | src/services/autonomous_service.cpp:11-33 | a route with nodes, sent by the client, resets the controller and makes it command the motor towards the first node |
| EndToEnd.SequenceArrives | tests/python/udp_client.py:41-44 | a motor sequence sent by the client arrives on the bus as the same sequence, once |
| Arrivals.SequenceDatagram | tests/python/reflect_pytest/generated.py:144-176 | the fifty bytes of a motor sequence: 10, 0, the id, the number of steps, padding, and five steps of speed, padding and duration, all least significant byte first |
| EndToEnd.SentSequenceMoves | src/services/kinematics_service.cpp:9-15 | sent by the client, injected by the bridge, driven by the clock: the vehicle has moved by exactly the sum over the started ticks of the first five received steps |
| Mailbox.UdpClient.FindQueued | tests/python/udp_client.py:51-62 | the search returns the position of the first queued message that is wanted |
| Mailbox.UdpClient.RecvMsg | tests/python/udp_client.py:48-104 | a receive returns the first wanted message of queue and socket together, removes only it, and on a timeout loses nothing |
| Mailbox.UdpClient.Drain | tests/python/udp_client.py:106-117 | nothing is outstanding afterwards |
| Mailbox.ReceiveTakesFirst | tests/python/udp_client.py:51-57 | a receive takes the first outstanding message of its id and leaves the order of every id |
| Mailbox.ReturnedThenOutstanding | tests/python/udp_client.py:48-104 | over every run, for every id: messages returned, then those outstanding, are the valid arrivals in order; nothing is lost or returned twice |
| Mailbox.UntypedIsOldest | tests/python/udp_client.py:58-62 | a receive without an id returns the oldest outstanding message |
| Mailbox.TypedTakesItsId | tests/python/udp_client.py:51-57 | a receive for an id returns the oldest outstanding message of that id, leaves the others of it, and times out only when there is none |
| Mailbox.TypedLeavesOthers | tests/python/udp_client.py:51-57 | and it leaves the messages of every other id |
| LogQueue.LogService.TakeBatch | src/services/log_service.cpp:52-57 | the worker leaves exactly when it is stopped and the queue is empty, and takes the whole queue otherwise |
| LogQueue.LogService.PublishFirst | src/services/log_service.cpp:59-69 | the first record of the batch is published |
| LogQueue.LogService.WorkerLoop | src/services/log_service.cpp:49-71 | once stopped, and without producers, the worker ends and everything accepted has been published in order |
| LogQueue.NextConserves | src/services/log_service.cpp:41-71 | published, in flight, batch and queue are together everything accepted, in order: kept by every step |
| LogQueue.NothingLost | src/services/log_service.cpp:32-71 | for every interleaving of producers, stop and worker; and when the worker has gone, everything accepted before the stop has been published once |
| LogQueue.StoppedWorkerEnds | src/services/log_service.cpp:49-71 | a stopped worker never waits, and every step brings its exit nearer |
| LogQueue.PendingWorks | src/services/log_service.cpp:54 | running or stopped, a worker with a record still to publish is awake, and each of its steps brings that nearer |
| LogQueue.PublishedWithin | src/services/log_service.cpp:50-72 | whatever is logged meanwhile, and stopped or not: n records are published, in order, after at most 2 n + 2 steps of the worker |
| Motor.HandlersKeepValid | src/services/motor_service.cpp:11-58 | step index in range, speeds within 6000 rpm: kept by both handlers; every status published is the truth at that moment, and no status means nothing changed |
| Motor.LimitedExactly | src/services/motor_service.cpp:14-19 | what is kept of a received sequence, field by field: at most five steps, each speed brought into [-6000, 6000], ids, durations and later steps as received; it starts exactly if the received one would |
| Motor.TicksForIsCeiling | src/services/motor_service.cpp:39-43 | a step of duration d takes max(1, ceil(d / dt)) ticks |
| Motor.SequenceRunsToCompletion | src/services/motor_service.cpp:11-58 | a received sequence whose first step lasts is active for exactly the sum of these ticks over its first five steps, publishes one active status per step in order with the received speeds clamped, then one inactive, and nothing else; any other one stops the motor at once |
| Environment.Lookup | src/services/environment_service.cpp:30-39 | the first entry that covers the point, and none exactly if no entry does |
| Environment.CacheRefinesMap | src/services/environment_service.cpp:11-21 | after any receipts: one entry per region, in order of first receipt, holding the last payload of the region |
| Route.ReachedExactly | src/services/autonomous_service.cpp:79-88 | the check fires exactly when the sample is not strictly on the same side of the target as the last position, or is within 0.1 m |
| Route.Enter | src/services/autonomous_service.cpp:35-47 | the pointer is at the entry; its region is among the used ones unless they are four already; used regions stay distinct and the first entries of the telemetry; progress and position are untouched |
| Route.ReachNode | src/services/autonomous_service.cpp:90-109 | the route invariant is kept: active exactly while nodes are left, statistics, status index and current index agree, complete exactly when all nodes are done; the index grows by one, the node's final energy is recorded, other nodes' statistics stay |
| Route.NodeSequenceDrives | src/services/autonomous_service.cpp:135-177 | the command for a node: id 999, one step, a thousand microseconds per millisecond of the timeout, and three quarters, eleven tenths or gain times the speed limit (1000 rpm without a region), halved if tuning is on and the incline is beyond 5 percent, cut towards zero |
| Route.NodeEfficiency | src/services/autonomous_service.cpp:93-101 | a node's record: the energy in millijoules, and an energy per metre that times the metres since the route began is that energy |
| Mesh.Publish | src/message_bus.cpp:7-12 | the route, motor and pointer invariants hold at every publish point, re-entrant ones included, and dispatch terminates |
| Mesh.AutoOnKinematics | src/services/autonomous_service.cpp:61-125 | the invariants are kept through the environment request, the node check and the nested commands |
| MeshTraffic.CausesIsAnOrder | src/message_bus.cpp:7-12 | a rank on messages strictly decreases from a message to whatever its handling can publish |
| MeshTraffic.PublishTraffic | src/services/autonomous_service.cpp:90-133 | everything published while a message is handled is a consequence of it; one report per route ended; reports say complete and are followed at once by the stop; external requests keep their distance |
| MeshTraffic.CompletionTraffic | src/services/autonomous_service.cpp:106-118 | the end of a route publishes one report and the stop right behind it |
| MeshBudget.PublishBudget | src/services/autonomous_service.cpp:61-133 | how many motor commands each message can cause, for every handler order |
| MeshBudget.TickCausesAtMostTwoCommands | src/services/autonomous_service.cpp:127-133 | one tick that no other thread disturbs causes at most two |
| ThreadBudget.RunsWithinBudget | src/services/autonomous_service.cpp:61-133 | in every interleaving: until it is given something else to do, a thread publishes no more motor commands than what it has still to do accounts for, whatever the other threads do |
| ThreadBudget.EntriesWithinBudget | src/services/autonomous_service.cpp:127-133 | so a thread that publishes a tick of the clock publishes at most two commands, and one that publishes a route or a sequence at most one; every entry but these and a request for the kinematics leads to none |
| MeshRun.EventTraffic | src/services/autonomous_service.cpp:90-125 | a route that ends other than by a new command is complete in every node |
| MeshRun.LookupAnswers | src/services/environment_service.cpp:30-50 | one covering entry and no external request, or no entry and at most one request, exactly when the throttle allows it |
| MeshRun.RunKeepsRest | src/services/thermal_service.cpp:11-37 | over any run, between dispatches: both temperatures in [lo, hi + 600], and the cached motor state is the motor's |
| MeshRoute.KinematicsAdvances | src/services/autonomous_service.cpp:61-125 | a sample advances the route by one node exactly when the check fires, and by none otherwise |
| MeshRoute.NoMissedWaypoint | src/services/autonomous_service.cpp:79-124 | while a node is current, all samples are strictly on the side it was approached from and at least 0.1 m away; the next sample advances exactly if it crosses with respect to any of them |
| MeshRoute.TickSamples | src/services/autonomous_service.cpp:127-133 | a tick on an active route takes exactly one sample, of the current position, and advances at most one node |
| MeshRoute.EnvironmentFollows | src/services/autonomous_service.cpp:70-77 | after a sample with tuning on that no other thread disturbs: if any cached region covers (x, 0), the current environment's x-range covers the position |
| ThreadFollows.RunsFollow | src/services/autonomous_service.cpp:70-77 | in every interleaving, at a node check at x of a tuned route: the current environment's x-range covers x, or since this sample began the lookup of (x, 0) found nothing, or another thread stored a region |
| ThreadFollows.ExcuseIs | src/services/autonomous_service.cpp:70-77 | what excuses an uncovered check is a move of the same sample: the thread's own lookup that misses, or a store by another thread |
| ThreadUncovered.SampleEndsUncovered | src/services/environment_service.cpp:11-21 | for every wired bus, tuned route at x that has to ask, and cache with two regions that cover (x, 0): a run of two threads in which the region found is overwritten and the check is made uncovered, with the other region still there |
| ThreadUncovered.UncoveredFromStart | src/services/environment_service.cpp:11-21 | and such a run from the start |
| MeshRoute.LookupPoints | src/services/environment_service.cpp:30-38 | a lookup that hits leaves the controller at the first covering entry |
| MeshCache.PublishKeepsCache | src/services/environment_service.cpp:11-28 | the cache is what the region data published so far amount to, whatever is published |
| MeshMotion.TickMoves | src/services/state_service.cpp:45-64 | a whole tick carries the motor's current speed, moves the position by it, and steps the motor once, in every handler order |
| MeshMotion.TicksMove | src/services/motor_service.cpp:35-58 | after as many ticks as are left, the position has moved by the way left and the motor is inactive |
| MeshMotion.Displacement | src/services/kinematics_service.cpp:9-15 | a received sequence moves exactly the sum, over its first five steps, of max(1, ceil(d / dt)) ticks at the received speed clamped; that is speed times duration if every moving step lasts a positive number of whole ticks, if and only if so when all speeds have one sign, and within 3 m of it always |
| MeshMotion.ThereAndBack | tests/python/test_simulator.py:134-141 | a step forwards and one as long backwards end where they began |
| MeshMotion.StepIsIdeal | src/services/motor_service.cpp:39-43 | a step moves speed times duration exactly if it stands still or lasts a positive number of whole ticks |
| MeshMotion.WayIsIdealExactly | src/services/motor_service.cpp:35-58 | speeds of one sign: the whole sequence never falls short of the ideal, and meets it exactly if every step does |
| MeshMotion.HalfTickMisses | src/services/motor_service.cpp:39-43 | half a tick at 6000 rpm moves 0.6 m instead of 0.3 m |
| MeshMotion.NextTickStops | src/services/kinematics_service.cpp:9-33 | once the motor is inactive, the next tick leaves the position and zeroes the speed, in every handler order |
| MeshElapsed.SequenceStartsCount | src/services/kinematics_service.cpp:24-33 | accepting a sequence restarts the elapsed time exactly if its id is not the one counted last |
| MeshElapsed.ElapsedIsTicks | src/services/kinematics_service.cpp:9-15 | after n ticks the elapsed time is n ticks modulo 2^32 from where it started; it is the time since the sequence began if and only if the id was new or the count stood at zero |
| MeshElapsed.SameIdCountsOn | src/services/kinematics_service.cpp:24-33 | n ticks of one sequence and m of another with the same id are counted as n + m |
| MeshElapsed.ReusedIdCountsTwoTicks | src/services/autonomous_service.cpp:170-174 | from the start, for every handler order: 999 for one tick and again for one tick is reported as two ticks |
| MeshHeat.TickHeats | src/services/thermal_service.cpp:11-27 | the clock's tick reaches the temperatures once, with the motor's speed, whatever else it sets off, on a route or not |
| MeshHeat.HeatingIsExponential | src/services/thermal_service.cpp:11-27 | n ticks at a constant speed of r rpm scale the distances of motor and battery to ambient + abs(r) / 10 by (1 - 0.0005)^n and (1 - 0.0002)^n, in every handler order |
| MeshHeat.SequenceHeats | src/services/thermal_service.cpp:11-27 | so during its first step a received sequence heats at that step's speed clamped |
| MeshHeat.CoolingIsExponential | src/services/thermal_service.cpp:11-27 | at rest, n ticks scale the distances to ambient by these powers |
| MeshCommands.RouteCommands | src/services/autonomous_service.cpp:11-33 | a route command resets the controller; the next message is the only motor command, towards the first node at the default limit; without nodes nothing is published |
| MeshCommands.FoundCommands | src/services/autonomous_service.cpp:35-53 | on an active route, an announced region makes the next message the command to the current node under that region |
| MeshCommands.SampleCommands | src/services/autonomous_service.cpp:61-125 | a sample that reaches a node publishes one command, to the next node under the current region; one that ends the route reports, stops, and leaves the motor inactive; any other one publishes nothing |
| MeshCommands.KinematicsAsks | src/services/autonomous_service.cpp:69-77 | a sample asks for the environment, once and first of all, if and only if tuning is on and the position is outside the current region's x-range, or there is none |
| MeshCommands.RunIsLed | src/services/autonomous_service.cpp:11-53 | over every run of dispatches in which nobody else commands the motor or changes the current region: on an active route the last motor command is always the one to the current node under the current region |
| MeshAnswers.ReadersAnswer | src/services/thermal_service.cpp:39-51 | a request for the temperatures or the state is answered once with the current values, and changes nothing |
| MeshAnswers.PowerAnswers | src/services/power_service.cpp:38-48 | a request for the power is answered once, and the controller adds volts times amperes over ten milliseconds once |
| MeshAnswers.KinematicsAnswers | src/services/kinematics_service.cpp:35-46 | a request for the kinematics is answered once, first of all, with id, elapsed time, position and speed of that moment |
| MeshAnswers.TickAsks | src/services/autonomous_service.cpp:127-133 | on an active route a tick asks for the kinematics first and for the power last |
| MeshAnswers.StatusReaches | src/services/kinematics_service.cpp:24-33 | in every handler order a motor status sets the cached state, restarts the elapsed time for a new id, zeroes speed and current if it says inactive, and changes nothing else |
| MeshAnswers.RegionTeaches | src/services/environment_service.cpp:11-28 | in every handler order region data are stored, acknowledged once with their id, set the ambient temperature, and change nothing else |
| MeshAnswers.LookupFindsFirst | src/services/environment_service.cpp:30-50 | a lookup answers with the first entry whose rectangle, borders included, holds the point; a miss asks outside for that point exactly when the last request is more than 500 ms ago |
| MeshAnswers.TickMovesMetres | src/services/kinematics_service.cpp:9-15 | a tick moves the vehicle by 0.01 m/s per rpm for 0.01 s and takes the supply's voltage; while the motor is active that is the speed reported, and the current is the supply's |
| Threads.DoOk | src/services/autonomous_service.cpp:61-125 | the services' invariants hold after every critical section, for every interleaving |
| ThreadOrder.AllowedClimbs | src/services/environment_service.cpp:30-38 | an acquisition re-enters a recursive lock the thread holds or takes a lock above all it holds; the edge from environment to controller is of the first kind |
| ThreadOrder.DoOrdered | src/services/autonomous_service.cpp:61-133 | every action leaves the rest of its thread in that order |
| ThreadOrder.RunsKeepOrder | src/message_bus.cpp:7-12 | in every reachable state of any number of threads: locks are exclusive and every pending acquisition climbs |
| ThreadOrder.WaitsEnd | src/services/motor_service.cpp:11-58 | from any thread with something to do, the chain of threads that each wait for a lock the next one holds ends in one that can go on |
| ThreadSafety.NoDeadlock | src/message_bus.cpp:7-12 | in every reachable state, the log mutex included: whoever a thread waits for, directly or through others, is in the end a thread that takes a step |
| ThreadProgress.TakeProgresses | src/message_bus.cpp:7-12 | every action of every thread leaves strictly less to be done, for every wired bus |
| ThreadProgress.RunsProgress | src/message_bus.cpp:7-12 | over any interleaving the actions taken are bounded by what was begun, submitted and logged; so no dispatch goes on for ever |
| ThreadProgress.CanFinish | src/message_bus.cpp:7-12 | from every reachable state the threads can finish everything they have begun, without new entries |
| ThreadSafety.HeatStays | src/services/thermal_service.cpp:11-27 | one tick within 6000 rpm keeps both temperatures in [lo, hi + 600] |
| ThreadSafety.RunsAreSafe | src/services/state_service.cpp:45-64 | in every reachable state: ticks within 6000 rpm and of constant length, temperatures bounded, route invariant, a node check only on an active route |
| ThreadCoherence.HolderGoesOn | src/services/motor_service.cpp:26-29 | while the motor's lock is held, the pending status is the current one, or the cache already has it |
| ThreadCoherence.RunsAreCoherent | src/services/state_service.cpp:32-43 | in every reachable state in which nobody holds the motor's lock, cached id, speed and activity are the motor's, and the state is Executing exactly if it is active |
| ThreadTicks.RunsKnow | src/services/state_service.cpp:53-64 | every id in a tick or status under way, and in the cache, is one that was accepted before |
| ThreadTicks.StaleTickActsExactly | src/services/motor_service.cpp:35-43 | in every run: a tick in flight when a sequence is accepted, and taken by the motor later while that sequence is the current one, changes the motor if and only if the motor is active then and the ids are equal; never if the id was not used before |
| ThreadTicks.TickActsExactly | src/services/motor_service.cpp:35-43 | a tick of positive length acts, and changes the motor's state, if and only if the motor is active and the ids are equal |
| ThreadWitness.StaleTickActs | src/services/state_service.cpp:45-64 | for every wired bus and every state at rest without a route: a run of two threads in which a tick read before a sequence of the same id was accepted ends that sequence |
| ThreadWitness.FirstZeroIsEnded | src/services/state_service.cpp:45-64 | from the start, the first sequence with the id 0 is ended so: 0 counts as used |
| ThreadWitness.ReusedIdIsEnded | src/services/autonomous_service.cpp:170-174 | from the start, for every id and first sequence, 999 included: the second use of the id is ended so |
| ThreadTraffic.RunsReport | src/services/autonomous_service.cpp:106-118 | in every state of every interleaving: reports published and about to be published are exactly the node checks that ended a route; all of them say complete |
| ThreadTraffic.EndedIsComplete | src/services/autonomous_service.cpp:90-125 | a node check that ends a route leaves it complete, with statistics for every node |
| ThreadTraffic.StopFollowsReport | src/services/autonomous_service.cpp:106-118 | whatever other threads do: the thread that published a report publishes the stop next |
| ThreadRequests.RunsAreThrottled | src/services/environment_service.cpp:41-49 | in every interleaving: the clock readings that decide on an external request are more than 500 ms apart, and requests published or about to be are exactly as many as the decisions |
| ThreadRequests.RunDecisionsSpan | src/services/environment_service.cpp:41-49 | so any k >= 2 of these readings span more than 500 (k - 1) ms |
| ThreadPublishes.PublishesAreSent | src/services/environment_service.cpp:41-49 | the publish times of a run are those of the external requests in the record of everything published |
| ThreadPublishes.RunsAlternate | src/services/environment_service.cpp:41-49 | in every state of every interleaving: the i-th publish lies between the i-th reading and the next one, and at most the last decision is not published yet |
| ThreadPublishes.RunPublishesSpan | src/services/environment_service.cpp:41-49 | from the i-th to the j-th publish it takes more than 500 (j - i) ms less the delay of the i-th, and, whatever the delays, more than 500 (j - i - 1) ms |
| ThreadPublishes.DelaysCost | src/services/environment_service.cpp:41-49 | if no publish comes more than d after its reading, consecutive publishes are more than 500 ms - d apart |
| ThreadDelays.PublishesComeClose | src/services/environment_service.cpp:41-49 | that bound is met: while a route searches, for every gap up to 500 ms, zero included, some run publishes two requests exactly that far apart, the first one delayed by 500 ms and one nanosecond less the gap, the second one not at all |
| ThreadDelays.PublishesComeCloseAtFirst | src/services/environment_service.cpp:41-49 | and so from the start, once a tuned route has been received |
| ThreadDelays.GuaranteedExactly | src/services/environment_service.cpp:41-49 | from the start, for all d and g: all runs with delays of at most d keep consecutive publishes more than g apart if and only if d + g <= 500 ms; so 500 ms are guaranteed if and only if d = 0 |
| ThreadCache.RunsCacheTheLatest | src/services/environment_service.cpp:11-39 | in every state of every interleaving: the cache is what the regions stored so far, in the order of their critical sections, amount to: unique ids, first-receipt order, last payloads; the controller's pointer is null or shows the last payload of its region |
| ThreadEnergy.RunsConserveEnergy | src/services/autonomous_service.cpp:55-59 | in every interleaving, between route commands: the energy counted and the readings still under way to the controller grow by exactly what the published power readings amount to |
| ThreadEnergy.NodesRecordEnergy | src/services/autonomous_service.cpp:93-101 | so a node check records the energy counted since the route command in millijoules, and that per metre since the position where the route began |
| ThreadAlone.PublishRuns | src/message_bus.cpp:7-12 | critical section by critical section, an undisturbed publish reaches the state Mesh.Publish computes |
| ThreadAlone.UndisturbedRunIsPublish | src/message_bus.cpp:7-12 | such a dispatch is a run of the threads, from idle to idle, and keeps what all runs keep |
| Services.MessageBus.BindSubscriptions | src/component.h:44-47 | exactly the messages of the list, each once |
| Services.MessageBus.BindAll | src/app_components.h:54-68 | constructed in any order, the services give a bus on which every subscriber is called once and nobody else |
| Services.App.constructor | src/app_components.h:58-68 | the constructed application stands for the initial world, on a wired bus |
| Services.App.Publish | src/message_bus.h:36-40 | a publish on the objects, re-entrancy included, does what Mesh.Publish does to their value |
| Services.App.Dispatch | src/message_bus.cpp:7-12 | the loop over the handlers is the delivery in their order |
| Services.App.ClockTick | src/services/state_service.cpp:46-64 | one round of the clock publishes the tick the cache amounts to |
| Services.MotorService.Accept | src/services/motor_service.cpp:14-19 | the clamping loop: at most five steps, each speed brought into [-6000, 6000] in its own step, durations and later steps as received |
| Services.MotorService.OnSequence | src/services/motor_service.cpp:11-33 | the object, and all it reaches by publishing, changes as the model's handler says |
| Services.MotorService.OnTick | src/services/motor_service.cpp:35-44 | likewise for a tick |
| Services.EnvironmentService.StoreRegion | src/services/environment_service.cpp:14-21 | a known region is overwritten in its cell, a new one gets a fresh cell at the end; every pointer stays good |
| Services.EnvironmentService.OnRegion | src/services/environment_service.cpp:11-28 | the store and its acknowledgement, with the controller's pointer still at its cell |
| Services.EnvironmentService.OnLookup | src/services/environment_service.cpp:30-50 | the search with its early return, the shared pointer it publishes, and the throttled request |
| Services.AutonomousService.OnRoute | src/services/autonomous_service.cpp:11-33 | the reset and the first command |
| Services.AutonomousService.OnFound | src/services/autonomous_service.cpp:35-53 | the pointer, the telemetry, and the updated command |
| Services.AutonomousService.OnKinematics | src/services/autonomous_service.cpp:61-125 | the whole handler, re-entered in the middle by its own environment request |
| Services.AutonomousService.RecordNode | src/services/autonomous_service.cpp:93-108 | statistics, indices and completion of a reached node |
| Services.AutonomousService.TargetSpeed | src/services/autonomous_service.cpp:135-168 | the wanted speed: three quarters, eleven tenths or gain times the limit of the region pointed at, or of 1000 rpm, halved on a steep stretch if tuning is on |
| Services.AutonomousService.CommandForNode | src/services/autonomous_service.cpp:168-177 | one step at that speed cut towards zero, for the node's timeout |
| Services.AutonomousService.OnTick | src/services/autonomous_service.cpp:127-133 | the two requests of an active route |
| WordWrap.WrapWords | generator/doc_generator.h:519-548 | the loop over characters gives the greedy wrapping of the words |
| WordWrap.SeparatorAddsNothing | generator/doc_generator.h:540-546 | a blank, line break or tab at the end adds no word, however many there are |
| WordWrap.WordsMore | generator/doc_generator.h:540-546 | a separator and a word add exactly that word |
| WordWrap.WordsAreLetters | generator/doc_generator.h:540-546 | together the words are all characters but the separators, in order |
| WordWrap.WrapLawful | generator/doc_generator.h:523-538 | all words in order, and no line wider than the width unless it is one long word |
| WordWrap.GreedyIsMinimal | generator/doc_generator.h:523-538 | no other way to break the words into such lines has fewer lines |
| WordWrap.WrapIsIdempotent | generator/doc_generator.h:519-548 | wrapping a wrapped text changes nothing |

## Left out

- C++ reflection, annotation texts, and the names of generated classes: a layout is an input, and for other roots than the application's, distinct structs are taken to have distinct names.
- Arrays of more than one dimension, arrays of arrays, and bit-fields; big-endian hosts; enumerators below zero.
- `Generator.EmitClass`: programs are emitted as instructions with format texts, not as lines of Python; converting a tuple or dict to a nested struct while packing is not modelled, an item that is not an object of the class counts as a failure.
- Rounding of floats, and NaN and infinities: exact integers and reals instead, and wire patterns for floats in payloads. `Route.ToInt16` saturates where the C++ conversion is undefined.
- A `num_nodes` above 8: the C++ code indexes past the route array; the payload type here excludes it.
- The numeric model of PowerService: what it computes on a tick is an input (`supply`), its forwarding and its zeroing of the current are modelled.
- Per-node energy differences: the code never re-bases the start of the interval, so none are claimed.
- `MeshMotion.Displacement`: without a preempting command and without an active route; interleavings are the subject of the `Thread` modules.
- Reads of the shared environment object by the controller while another thread overwrites it: each handler's reads are taken as one step.
- `Mailbox.UdpClient.RecvMsg`: datagrams that arrive while it waits count as having arrived before it started to wait; timeouts are results, not durations.
- Datagrams lost or reordered by the network, sockets and `select`, process control, the console output of the log worker, and the other parts of the documentation generator.
- `UdpBridge` is on the bus of `Mesh` as a handler that forwards; what it sends is modelled in `Bridge`, on memory images, and tied to `Mesh` for motor sequences in `EndToEnd` only.
