# Verified models of the gateway's core

The gateway collects points from field devices, processes them at the edge and forwards
them to northbound outputs. This project models the parts of it that keep state over time
and proves what they promise. Each model has the form of the code it stands for: objects
that update their fields are classes, slices and dictionaries are fields that methods
reassign, loops are loops, goroutines that interleave are steps of a state machine, and
code made of expressions is functions. Every method is proved against a specification on
plain values, and the promises are lemmas about those specifications, over all inputs,
all runs and all interleavings.

Time is an integer that never decreases, a section under a mutex is one atomic step, and a
channel is a bounded sequence. Clocks, random identifiers, hash values, expression results,
failing opens, sends, saves and acknowledgements are parameters of the operation they occur in.

1. **Poll scheduler** — `PollKeys`, `HeapOrder`, `PollHeap`, `PollPlan`, `PollScheduler`,
   `PollRate`, `PollLoop`. A binary heap of entries that are marked stale instead of removed,
   against a plain map from device to timer; the sleeping and waking of its goroutine.
2. **Reload and connection pool** — `DeviceJobs`, `DriverCalls`, `ConnPool`, `ReconcileSpec`,
   `ReconcileSteps`, `ReloadProgress`, `Scheduler`, `ReloadTheorems`, `DesiredPlan`. The
   incremental reload of device runtimes, and the reference-counted pool of bus connections
   under it.
3. **Modbus** — `ByteOrder`, `ReadPlan`, `ModbusDevice`, `ModbusPoint`, `ModbusRead`,
   `ModbusWrite`. Merging points into few requests, decoding them by offset, and encoding writes,
   against a device memory as MODBUS Application Protocol Specification V1.1b3 describes it
   (section 4.2, big-endian registers; section 6.1, coil packing, at most 2000; section 6.3,
   at most 125 registers).
4. **Store and forward** — `Backfill`, `Forwarding`, `ForwardingRuns`, `OutputManager`,
   `MqttBatch`. Fan-out to bounded channels, the capped persistent queue, replay, reload, and
   the batching output.
5. **Payload encoder** — `ProtoWire`, `Sparkplug`. The protobuf wire format and the metric
   payload, with a decoder.
6. **Edge processing** — `Filters`, `Windows`, `Processing`, `ProcessingEngine`. Deadband,
   threshold and quality filters, and time-window aggregation, over exact reals.
7. **Alerts** — `AlertRules`, `AlertEngine`. Edge-triggered alerts and their table.
8. **Configuration** — `ChangeSignal`, `PlatformSync`, `PollBlocks`. The coalescing change
   signal, the idempotent platform sync, and the poll blocks it makes.

`Wrappers` holds the option type they share.

## Where the code is narrower than its comments

- An entry with `next + interval == now` fires twice in one wake-up
  (`internal/core/pollsched.go:166-169`), against the claim at lines 17-18. `PollRate.AtMostOncePerWake`
  says exactly when the claim holds.
- A polled device whose parameters change is scheduled anew and then removed by the stop of
  its old runtime (`internal/core/scheduler.go:308-310`, `423-425`): `ReloadTheorems.ChangeLosesSchedule`
  is such a reload.
- A device that moves into a connection group that survives and does not restart is taken over by
  the new group and stopped by the old one (`internal/core/scheduler.go:292-318`): its handle ends up
  closed while in use, or closed twice. `Scheduler.Scheduler.Apply` says that ownership holds after a
  reload exactly without such a device; `ReloadTheorems.MoveLosesHandle` is a failing configuration.
  A polled one is off the schedule as well, unless its interval changes, its parameters do not, and the
  code takes its old group first: `ReloadTheorems.StraySchedule`.
- If such a device was pushed, its points or interval change and its parameters do not, the code
  dereferences a job that is nil (lines 327, 333, 647-651) and the gateway crashes:
  `Scheduler.Scheduler.Apply` says exactly when, `ReloadTheorems.MoveCrashes` is a configuration.
- For all reloads that end, whether or not devices move, `ReloadTheorems.CompleteIff` says exactly when
  the schedule is complete afterwards.
- The end of a merged block is 16 bits wide (`internal/driver/modbus/modbus.go:412`, `419-420`).
  `ReadPlan.CoverageIff` says exactly which blocks still cover their points and `ReadPlan.CoversReady`
  which points the others cover, `ReadPlan.TopRegisterMissed` shows one. A coil that such a block
  misses can read as off, with good quality, whatever it is: `ModbusPoint.TopCoilReadsOff`.
- The test of whether a declared block holds a point is 16 bits wide too (lines 382-384). For the blocks
  the platform sync makes, `PollBlocks.InExactlyOneBlock` says exactly in which the driver finds a point:
  in its own if that ends before register 65535, in none if it does not, and in all of them if the
  point itself reaches register 65535.
- All deadband filters of a point share one baseline (`internal/processing/engine.go:259-274`), so a
  point with two of them never passes a number: `Filters.TwoDeadbandsPassNothing`. With other filters
  after the deadband the distance between passed numbers can be lost: `Filters.DeadbandSpacesIff` says
  exactly with which, `Filters.DeadbandNotLast` is an input.
- The processing and alert engines load before they subscribe (`internal/processing/engine.go:65-74`,
  `internal/alert/engine.go:76-81`) and can miss a change: `ChangeSignal.LateSubscriberIff` and
  `ChangeSignal.LateSubscriberMisses`.
- The alert engine compiles new rules from running state before it takes the mutex
  (`internal/alert/engine.go:248`, `260-264`). `AlertEngine.StaleSwapIff` says exactly when the
  swap keeps rules, table and histories in agreement; in `AlertEngine.ReloadForgetsCooldown` it does not.
- An alert that is pending when the gateway starts is never resolved, since no rule starts out active:
  `AlertRules.PendingIffActive`. `AlertRules.AgreeIffNoneLeft` says exactly when table and rules agree.
- Closing the batching MQTT output while the broker is away forgets what it has buffered
  (`internal/output/mqtt/mqtt.go:216-219`, `304-310`): `MqttBatch.MqttOutput.Close`. Without a queue, or
  when a save fails, points are forgotten silently (lines 258-265): `MqttBatch.MqttOutput.Publish`.
- A batch message that holds one point that cannot be encoded is dropped whole (lines 242-246):
  `MqttBatch.BatchByOutcome` says exactly which points are lost, `MqttBatch.OneBadPoint` is a batch.
  Once a message has failed, the queue takes the rest without the points that cannot be encoded
  (`internal/backfill/backfill.go:76-83`): `MqttBatch.BadPointInTail`. A float register that holds no
  number is such a point, read with good quality (`internal/driver/modbus/modbus.go:548-552`).

## Model

| member | source | states |
|---|---|---|
| PollKeys.LessTotal | internal/core/pollsched.go:219-224 | Ordering by next time and then device ID is a strict total order. |
| PollKeys.SortedUnique | internal/core/pollsched.go:219-224 | A strictly sorted list of ticks is determined by its members, so "sorted with these members" fixes the firing order. |
| HeapOrder.SiftUpStep | internal/core/pollsched.go:226-235 | One swap with the parent keeps "heap but for this position" and moves the position up. |
| HeapOrder.SiftDownStep | internal/core/pollsched.go:237-255 | One swap with the smaller child keeps "heap but for this position" and moves the position down. |
| HeapOrder.RootIsLeast | internal/core/pollsched.go:195-195 | The root of a heap is at most every entry. |
| PollHeap.Up | internal/core/pollsched.go:226-235 | Restores heap order above a position and permutes the entries. |
| PollHeap.Down | internal/core/pollsched.go:237-255 | Restores heap order below a position and permutes the entries. |
| PollHeap.Heap.Push | internal/core/pollsched.go:197-200 | Keeps heap order and adds exactly the entry. |
| PollHeap.Heap.Pop | internal/core/pollsched.go:202-210 | Takes a least entry, keeps heap order and every other entry. |
| PollHeap.Heap.PopAll | internal/core/pollsched.go:202-210 | Any run of pops yields the entries in the order of their ticks. |
| PollHeap.Heap.RootIsLeastTick | internal/core/pollsched.go:195-195 | No entry is scheduled before the root, whichever entries are stale. |
| PollHeap.Heap.Refire | internal/core/pollsched.go:164-170 | Popping, advancing and pushing the root keeps heap order and members; what the advance means for a device's ticks is in PollRate.FixedRate. |
| PollPlan.HashPhase | internal/core/pollsched.go:183-187 | The phase of a device lies within its interval. |
| PollPlan.Scheduled | internal/core/pollsched.go:66-85 | The device gets its job, its interval or 5 s, and a first tick a remainder of its hash from now; no other timer changes. |
| PollPlan.ProgressStep | internal/core/pollsched.go:155-172 | Firing the earliest due timer continues the firing order: all ticks fired so far come before all still to fire. |
| PollPlan.ProgressDone | internal/core/pollsched.go:155-172 | When nothing is due any more, the plan is the woken plan and exactly the ticks it names have fired. |
| PollPlan.StepDecreases | internal/core/pollsched.go:155-172 | Why the catch-up loop ends although it pushes what it pops. |
| PollScheduler.PollScheduler.Schedule | internal/core/pollsched.go:66-85 | Whatever stale entries remain, the live entries are the plan with this device's timer replaced, and the goroutine is nudged; it is the Schedule step of the sleep and wake protocol. |
| PollScheduler.PollScheduler.Remove | internal/core/pollsched.go:88-96 | Lazy deletion removes the device from the plan and nudges only if it was there; it is the Remove step of the protocol. |
| PollScheduler.PollScheduler.DropStale | internal/core/pollsched.go:213-217 | Discards stale roots without changing the plan; afterwards the root is live. |
| PollScheduler.PollScheduler.Measure | internal/core/pollsched.go:124-139 | Reports an empty plan, or the delay to its earliest timer; it is the Measure step of the protocol. |
| PollScheduler.PollScheduler.CatchUp | internal/core/pollsched.go:155-172 | One turn of the loop keeps live entries and plan in agreement and gets closer to the end. |
| PollScheduler.PollScheduler.Wake | internal/core/pollsched.go:151-173 | Fires exactly the ticks the plain map would fire, in strict order, each with its device's job; afterwards every heap entry lies in the future. What the map fires over any wake-ups is fixed by PollRate.FixedRate. It is the Fire step of the protocol. |
| PollRate.WakeTicksAreFires | internal/core/pollsched.go:161-171 | The ticks of one device at a wake-up are those the plan fires. |
| PollRate.AtMostOncePerWake | internal/core/pollsched.go:17-18 | A wake-up fires every device at most once if and only if no timer lies exactly one interval before now. |
| PollRate.TwiceInOneWake | internal/core/pollsched.go:166-169 | The failing case: interval 5, due at 5, woken at 10, fires at 5 and at 10. |
| PollRate.NextAfterWake | internal/core/pollsched.go:166-169 | A fired device is next due in (now, now + interval]. |
| PollRate.FixedRate | internal/core/pollsched.go:164-170 | Over any wake-ups the first tick is the one scheduled, and each tick, the next one included, is one interval after the tick before, unless that was fired more than an interval late, and then one interval after that wake-up. |
| PollRate.OnGrid | internal/core/pollsched.go:164-170 | While no tick is fired more than an interval late, tick i is the first tick plus i intervals: late wake-ups do not shift a device. |
| PollRate.TicksAreSpaced | internal/core/pollsched.go:17-18 | Over any wake-ups a device's ticks are at least an interval apart: no catching up. |
| PollRate.RateBound | internal/core/pollsched.go:17-18 | A device fires at most once per interval since its first tick. |
| PollRate.KeepsUp | internal/core/pollsched.go:166-169 | And it does not fall behind: the next tick is within an interval of the last wake-up. |
| PollLoop.InvRun | internal/core/pollsched.go:113-148 | In every reachable state a wake token is pending, or the timer deadline is that of the earliest timer, up to the pause before arming it, or nothing is planned and the loop sleeps without one. |
| PollLoop.NoMissedWake | internal/core/pollsched.go:113-148 | A sleeping loop with a device to fire can wake up. |
| PollLoop.NoIdleWake | internal/core/pollsched.go:113-148 | When its timer fires without a token, some device is due: the loop does not wake for nothing. |
| PollLoop.DueDeviceFires | internal/core/pollsched.go:141-178 | And then it fires the device and schedules it in the future. |
| ConnPool.Pool.Acquire | internal/driver/modbus/modbus.go:127-146 | Reuses and counts the pooled connection, or builds and pools one from the given configuration; a failed build changes nothing. |
| ConnPool.Pool.Release | internal/driver/modbus/modbus.go:149-158 | Uncounts; the last release closes the connection and takes it out of the pool. |
| ConnPool.Pool.Open | internal/driver/modbus/modbus.go:103-124 | Opening a device keeps every live handle served: an open connection of its own configuration, counted once per handle. |
| ConnPool.Pool.Close | internal/driver/modbus/modbus.go:218-220 | Closing a live handle keeps all others served. |
| ConnPool.Pool.Serve | internal/driver/modbus/modbus.go:103-158 | A pool serves every legal sequence of opens and closes. |
| DriverCalls.LegalIfClosedOnce | internal/driver/modbus/modbus.go:149-158 | A log in which handles are opened once, beside live ones of the same configuration only, and none is closed twice, is one a pool can serve. |
| DesiredPlan.BuildDesired | internal/core/scheduler.go:158-191 | Exactly the enabled devices with points and a readable connection are desired, each under its stored connection's ID, driver and configuration and with its own parameters, interval and points; one connection ID has one configuration. |
| DesiredPlan.SameWantedIff | internal/core/scheduler.go:182-204 | Two configurations ask for a device on the same connection if and only if ID, driver and configuration are equal, and for the same spec if and only if parameters, interval and points are. |
| DesiredPlan.Reconfigure | internal/core/scheduler.go:110-136 | After a reload that ends, every runtime belongs to an enabled stored device and has its parameters, interval and points, on a handle opened with the stored connection's driver and configuration, unless it went astray. |
| Scheduler.Scheduler.constructor | internal/core/scheduler.go:81-86 | A new scheduler owns nothing and is in order. |
| Scheduler.Scheduler.StopDevice | internal/core/scheduler.go:422-433 | Removes a polled device from the schedule and closes its handle. |
| Scheduler.Scheduler.OpenDevice | internal/core/scheduler.go:473-492 | Opens a new handle with the device's connection and parameters, or none. |
| Scheduler.Scheduler.RegisterDevice | internal/core/scheduler.go:385-419 | A polled device gets a new job with its points and a timer whose first tick is a remainder of its hash away; a pushed one neither. |
| Scheduler.Scheduler.UpdatePollDevice | internal/core/scheduler.go:321-335 | Changes points and interval in place under the same job, unless the parameters changed; without a job it crashes exactly when they did not. |
| Scheduler.Scheduler.OpenBatch | internal/core/scheduler.go:338-382 | Every device of the batch that opens and registers gets a runtime; the handle of one that does not register is closed again; no other handle, timer or point changes. |
| Scheduler.Scheduler.GroupRestarts | internal/core/scheduler.go:263-280 | A pushed group restarts exactly when a member is gone or changed. |
| Scheduler.Scheduler.OldKeys | internal/core/scheduler.go:218-224 | Lists the connection keys of the old runtimes, each exactly once, in an order of its own. |
| Scheduler.Scheduler.ReconcileDevice | internal/core/scheduler.go:291-311 | One device of a surviving group is kept, changed in place, reopened or added, wherever its old runtime is and whether or not that was stopped already; a crash means that it is stuck. |
| Scheduler.Scheduler.ReconcileGroup | internal/core/scheduler.go:253-318 | Whatever devices moved in or out, all wanted devices of a surviving group get their runtimes and exactly those that leave it are stopped. |
| Scheduler.Scheduler.ReconcileOld | internal/core/scheduler.go:206-250 | Groups with old members come first, one after the other in any order; afterwards exactly the devices that leave their group are stopped. |
| Scheduler.Scheduler.ReconcileNew | internal/core/scheduler.go:233-239 | Then the groups no old runtime has are opened. |
| Scheduler.Scheduler.Apply | internal/core/scheduler.go:110-136 | For every configuration and any order of the groups: the reload crashes if and only if a device is stuck. Otherwise every desired device is placed as its fate says and no other runtime is left, schedule and points follow the runtimes but for the devices that fate and order take off schedule, and every handle is open exactly when one runtime owns it, and closed at most once, if and only if no device moves into a group that survives without restarting. |
| ReloadProgress.StopMid | internal/core/scheduler.go:240-244 | Stopping an old runtime in the middle of a reload keeps the account of handles, runtimes, schedule and points, also when another group has kept or replaced that runtime before. |
| ReloadProgress.KeepMid | internal/core/scheduler.go:299-306 | Keeping or changing a runtime in place does too, also when its own group has stopped it before. |
| ReloadProgress.BatchMid | internal/core/scheduler.go:372-381 | Adding a batch of newly opened runtimes does too. |
| ReloadProgress.ReopenMid | internal/core/scheduler.go:308-310 | Opening a new handle and then stopping the old runtime does too. |
| ReloadProgress.OwnershipIff | internal/core/scheduler.go:206-318 | After a whole reload the handles are as ownership asks if and only if no device moved into a group that survives and does not restart. |
| ReloadProgress.AllMishandled | internal/core/scheduler.go:292-310 | A device that does so ends with a runtime whose handle is closed, or with its old handle closed twice. |
| ReloadProgress.NobodyStuck | internal/core/scheduler.go:321-335 | A reload that ends had no pushed device that moved so, with changed points or interval and the same parameters. |
| ReloadProgress.End | internal/core/scheduler.go:206-250 | Every reload that ends leaves runtimes, schedule and points in order, and each device placed as its fate says. |
| ReloadProgress.CleanEnd | internal/core/scheduler.go:206-250 | If no device goes astray, the handles are in order too, and everything is ready for the next reload. |
| ReloadTheorems.Ownership | internal/core/scheduler.go:206-433 | After reloads in which no device goes astray every handle ever opened belongs to exactly one runtime and is open, or to none and was closed exactly once. |
| ReloadTheorems.Reloads | internal/core/scheduler.go:88-136 | A gateway that starts and applies any sequence of configurations is so up to the first one in which a device goes astray. |
| ReloadTheorems.DriversAtRest | internal/driver/modbus/modbus.go:127-158 | Each runtime is on an open pooled connection built from its own configuration, and each reference count is the number of runtimes on it. |
| ReloadTheorems.ScheduleAtRest | internal/core/scheduler.go:206-335 | After any reload that ends, the schedule holds exactly the polled devices not lost, each with its runtime's job, interval and points. |
| ReloadTheorems.UnchangedIsKept | internal/core/scheduler.go:299-302 | In any reload that ends, a device whose connection and spec are unchanged keeps the same runtime, unless its pushed group restarts; a polled one is on or off the schedule as before. |
| ReloadTheorems.LostAre | internal/core/scheduler.go:291-318 | The polled devices off schedule after a reload that ends are exactly: those that stay or go astray, change parameters and reopen polled; those that stay and were off it before, unless their interval changes; those that go astray with their parameters, unless their interval changes and their old group comes first. |
| ReloadTheorems.CompleteIff | internal/core/scheduler.go:291-318 | After a reload that ends every polled device is on schedule if and only if there are none of those. A complete schedule stays so, in any order of groups and whichever opens succeed, if no polled device changes parameters or goes astray; if one does and all opens succeed it does not, but where only the interval of a stray device changes it depends on the order. |
| ReloadTheorems.StraySchedule | internal/core/scheduler.go:233-318 | A polled device that goes astray is on the schedule afterwards if and only if its interval changes, its parameters do not, and its old group comes before the new one. |
| ReloadTheorems.RunsAsAsked | internal/core/scheduler.go:206-382 | After any reload that ends, only desired devices run, each with the parameters, interval and points asked for; its handle is one of the connection asked for if and only if it did not go astray with unchanged parameters. |
| ReloadTheorems.WhoRuns | internal/core/scheduler.go:291-382 | A device that opens and registers runs; one that cannot be opened runs only on the handle it had; a polled one on an unchanged connection keeps its handle if and only if its parameters are unchanged. |
| ReloadTheorems.PushedGroup | internal/core/scheduler.go:263-289 | A pushed group with a member gone or changed gives all its members new handles; otherwise those that stay keep their runtimes. |
| ReloadTheorems.MoveIsAstray | internal/core/scheduler.go:292-318 | The failing case: of two devices on two connections the first moves to the connection of the second. |
| ReloadTheorems.MoveLosesHandle | internal/core/scheduler.go:299-302 | With polled devices the reload leaves the first one's handle closed but in use, and the device off the schedule. |
| ReloadTheorems.MoveCrashes | internal/core/scheduler.go:326-333 | With pushed devices, one point changed, the reload crashes. |
| ReloadTheorems.ChangeLosesSchedule | internal/core/scheduler.go:307-310 | One polled device changes its parameters and runs on, off the schedule. |
| ByteOrder.Perm | internal/driver/byteorder/byteorder.go:63-76 | The permutation of each byte order is its own inverse. |
| ByteOrder.PutUint32 | internal/driver/byteorder/byteorder.go:84-91 | What is written under an order reads back under it, and nothing past four bytes is touched. |
| ByteOrder.RegistersAgree | internal/driver/byteorder/byteorder.go:78-108 | Decoding from two registers and from their four wire bytes agree under every order. |
| ByteOrder.SwapsMean | internal/driver/byteorder/byteorder.go:43-61 | The order derived from the two switches swaps bytes in registers and registers as the switches say. |
| ReadPlan.SortByRegister | internal/driver/modbus/modbus.go:408-408 | Sorts the items by register and keeps them all. |
| ReadPlan.Extend | internal/driver/modbus/modbus.go:410-423 | A block takes items while they fit and ends before the first that does not. |
| ReadPlan.PlanBlocks | internal/driver/modbus/modbus.go:407-432 | The blocks partition the items in register order, each begins with an item that did not fit before it. |
| ReadPlan.CoverageIff | internal/driver/modbus/modbus.go:412-428 | A block covers all its items within the limit if and only if the 16-bit ends of its items wrap all or none. |
| ReadPlan.CoversReady | internal/driver/modbus/modbus.go:412-428 | If some item does not reach register 65535, the block is a legal request and covers exactly the items that do not. |
| ReadPlan.CoversWrapped | internal/driver/modbus/modbus.go:412-428 | If all items reach register 65535, the block covers them, and asks for nothing past it if no item does. |
| ReadPlan.TopRegisterMissed | internal/driver/modbus/modbus.go:412-428 | The failing case: registers 65534 and 65535 make a block that asks for one register. |
| ReadPlan.PlanReads | internal/driver/modbus/modbus.go:407-432 | Without wrap the requests of the plan read every item within the limit. |
| ReadPlan.FewestRequests | internal/driver/modbus/modbus.go:405-406 | No requests within the limit that read all items are fewer than the blocks. |
| ModbusDevice.WordAt | internal/driver/modbus/modbus.go:453-469 | Word k of a response is register start + k, big-endian. |
| ModbusDevice.PackedAt | internal/driver/modbus/modbus.go:475-481 | Bit i of a packed response is coil start + i. |
| ModbusDevice.PaddingAt | internal/driver/modbus/modbus.go:475-481 | Bits of a packed response past the request are off. |
| ModbusPoint.DecodeInBlock | internal/driver/modbus/modbus.go:434-489 | Decoding a point from any response that covers it gives what the memory holds for it, for registers and coils, every type and byte order. |
| ModbusPoint.DecodeBeyond | internal/driver/modbus/modbus.go:474-489 | From an answer that begins before a point and does not cover it, a register point has no value; a coil past the end reads as off within the last byte and has no value beyond. |
| ModbusPoint.TopCoilReadsOff | internal/driver/modbus/modbus.go:475-481 | The failing case: coils 65534 and 65535 in one block, and the second reads as off while it is on. |
| ModbusPoint.RegistersInBlock | internal/driver/modbus/modbus.go:483-557 | The registers of a point cut out of a longer response decode to what the memory holds. |
| ModbusPoint.StoredIsGiven | internal/driver/modbus/modbus.go:522-577 | The stored value of a point is what its registers or coil say in its type and byte order, times its factor if it is a number and has one. |
| ModbusPoint.FactorShows | internal/driver/modbus/modbus.go:560-577 | Two points that differ in their factors only have different values exactly if these are numbers. |
| ModbusRead.ReadBlock | internal/driver/modbus/modbus.go:333-341 | An answered request gives every clear point it reads its stored value, and any other the stored value, none, or off for a coil; no other result changes. An unanswered one leaves the clear ones bad. |
| ModbusRead.ReadGroup | internal/driver/modbus/modbus.go:332-342 | A point is clear if it does not reach register 65535, or if all that could share a request with it do. Every clear point of the table gets its stored value, or stays bad because a request that covers it was not answered or, at register 65535, was not legal; no point gets a wrong value but for a coil that reads as off. |
| ModbusRead.PointInBlockIff | internal/driver/modbus/modbus.go:382-384 | For a point that does not wrap, the 16-bit test holds exactly when the block holds it and does not wrap itself. |
| ModbusRead.ReadPollBlocks | internal/driver/modbus/modbus.go:346-359 | A point that does not reach register 65535 gets its stored value if and only if some answered block holds it, and is bad otherwise; any other gets no wrong value but for a coil that reads as off. |
| ModbusRead.Group | internal/driver/modbus/modbus.go:193-207 | Groups the parsable points by table, in input order, each with its own place. |
| ModbusRead.Read | internal/driver/modbus/modbus.go:182-216 | Results keep the places and names of the points. Every point that does not reach register 65535, and in merged requests every one that shares them only with others that do, is right as its table is read, and a table that answers every legal request gives it what a read of it alone gives. Every good result is what the registers say times the point's factor, but for a coil that reaches register 65535 and reads as off. |
| ModbusRead.ResultIsGiven | internal/driver/modbus/modbus.go:434-451 | A good result is what the point's registers or coil say, times the point's own factor, but for a coil that reads as off at register 65535; only a type the driver does not decode leaves a point below it without a value. |
| ModbusRead.AloneIsStored | internal/driver/modbus/modbus.go:474-489 | Reading a point alone gives what the memory holds. |
| ModbusRead.MergedEqualsAlone | internal/driver/modbus/modbus.go:178-181 | From a device that answers every legal request, a merged read equals reading the point alone. |
| ModbusRead.NeverWrong | internal/driver/modbus/modbus.go:335-336 | Whatever goes unanswered, a result is the value of a read alone or bad. |
| ModbusWrite.EncodeWriteValue | internal/driver/modbus/modbus.go:583-612 | Encodes exactly the 16-bit, 32-bit and float types, and decoding gives an in-range integer or the float bits back. |
| ModbusWrite.ReadBack | internal/driver/modbus/modbus.go:306-318 | An encoded value written to holding registers reads back as itself, under every byte order. |
| Backfill.Inserted | internal/backfill/backfill.go:76-87 | New records have increasing, unused ids and are points of the batch. |
| Backfill.SaveSplits | internal/backfill/backfill.go:100-123 | What the cap evicts followed by what it keeps is the old queue followed by the new records: only the oldest go. |
| Backfill.SaveAppends | internal/backfill/backfill.go:57-123 | Points that can be encoded go to the end of the queue in order with the next ids, and of the whole exactly the last records up to the cap stay. |
| Backfill.WithoutTwice | internal/backfill/backfill.go:174-203 | Deleting ids in chunks is deleting them at once. |
| Backfill.Store.constructor | internal/backfill/backfill.go:45-53 | A cap that is not positive becomes the default. |
| Backfill.Store.Save | internal/backfill/backfill.go:57-97 | All or nothing: appends the encodable points with new ids and keeps the newest up to the cap; other queues are untouched. |
| Backfill.Store.EvictOver | internal/backfill/backfill.go:100-123 | Keeps the newest records up to the cap. |
| Backfill.Store.Peek | internal/backfill/backfill.go:146-171 | The oldest records, in id order, as many as asked for. |
| Backfill.Store.Ack | internal/backfill/backfill.go:174-203 | Deletes exactly the acknowledged records of the output, chunk by chunk up to a failing one. |
| Backfill.Store.DropOutput | internal/backfill/backfill.go:206-212 | Empties one queue and no other. |
| Forwarding.SavingKeeps | internal/backfill/backfill.go:57-123 | After a save every point is somewhere: what was queued still is or was evicted, and the new points are queued, evicted, skipped or failed. |
| Forwarding.StepSound | internal/output/manager.go:91-263 | Every step keeps queues ordered and capped, channels bounded, slot counters balanced and a replay in progress true to the queue. |
| ForwardingRuns.StepKeeps | internal/output/manager.go:91-263 | No step makes a point disappear from where it could be found. |
| ForwardingRuns.NothingLostSilently | internal/output/manager.go:135-159 | Over every interleaving with successful saves, each point published to an output with a queue was delivered, is in a channel, is queued, was evicted, was dropped with a removed output's queue, or cannot be encoded. |
| ForwardingRuns.BoundedAndCounted | internal/output/manager.go:355-386 | In every reachable state queues and channels keep their bounds, offered and replayed points are received, waiting, dropped or diverted, and outputs are handed points in the order they came in. |
| ForwardingRuns.OnlyWhenFull | internal/output/manager.go:143-158 | In every run a point offered to a slot with room goes to the end of its channel and leaves all queues alone, and no point is dropped or diverted, nor its save tried, but while the channel holds its 1024 points. |
| ForwardingRuns.ReplayInOrder | internal/output/manager.go:239-262 | While acknowledgements succeed, the ids replayed to an output strictly increase: queue order, and no record twice. |
| ForwardingRuns.FailedAckRepeats | internal/output/manager.go:258-261 | A failed acknowledgement makes the next round replay the same record. |
| OutputManager.Manager.Send | internal/output/manager.go:143-158 | A non-blocking send: with room the point goes to the end of the channel, and the queue and counters stay as they are; a full channel stays as it is, and the point goes to the queue if the output has one, or is dropped and counted. |
| OutputManager.Manager.Publish | internal/output/manager.go:137-159 | Every current slot takes the point so and no other changes, and the queue of an output whose slots all have room is untouched. |
| OutputManager.Manager.Deliver | internal/output/manager.go:367-373 | The publishing goroutine takes the oldest point of the channel, counts it and hands it to the output, which sends it or saves it. |
| OutputManager.Manager.ReplaySlot | internal/output/manager.go:222-261 | As many of the oldest records, at most 256, as fit go to the end of the channel in order, and exactly those leave the queue; nothing else changes. |
| OutputManager.Manager.ReplayOnce | internal/output/manager.go:212-263 | Every current slot has its turn in order, the healthy ones a full round each and the others none; a round is a sequence of the steps of the model, and with successful acknowledgements it keeps replay order. |
| OutputManager.Manager.Reload | internal/output/manager.go:91-133 | New slots are current and empty, old ones stopped with what is in their channels, queues are dropped for removed outputs only; a failed build changes nothing. |
| OutputManager.PushAll | internal/output/manager.go:245-256 | Pushes records of the batch until it ends or the channel is full, and notes their ids. |
| MqttBatch.BatchAccounts | internal/output/mqtt/mqtt.go:236-254 | Every point of a batch is in exactly one message, dropped because it or its message cannot be encoded, taken by the queue, or forgotten. |
| MqttBatch.BatchByOutcome | internal/output/mqtt/mqtt.go:236-254 | Point for point: once its message or an earlier one has failed to send, a point is forgotten without a queue that takes it, otherwise saved if it can be encoded and lost if not; before that it is lost if and only if its message holds a point that cannot be encoded, and sent otherwise. |
| MqttBatch.QueueTakes | internal/backfill/backfill.go:76-87 | The points counted as saved are exactly those for which the queue makes records, in order. |
| MqttBatch.OneBadPoint | internal/output/mqtt/mqtt.go:242-246 | The failing case: an encodable point is neither sent nor saved although the broker is there. |
| MqttBatch.BadPointInTail | internal/backfill/backfill.go:76-83 | The failing case behind a failed message: the queue takes the first point and drops the second. |
| MqttBatch.BatchInOrder | internal/output/mqtt/mqtt.go:236-254 | With encodable points, the messages followed by what is to be saved are the batch in its order, in pieces within the limit. |
| MqttBatch.GroupedMore | internal/output/mqtt/mqtt.go:156-157 | The buffer holds, per device, the arrived points in arrival order. |
| MqttBatch.MqttOutput.Publish | internal/output/mqtt/mqtt.go:146-179 | A point is buffered, sent, saved, lost or forgotten. It must be saved exactly when the buffer is full or its send failed; then it is forgotten without a queue or when the save fails, and otherwise saved if it can be encoded and lost if not; sent alone it is lost if it cannot be encoded. |
| MqttBatch.MqttOutput.SaveBackfill | internal/output/mqtt/mqtt.go:258-265 | With a queue and a save that commits, the points that can be encoded are with the queue and the others lost; otherwise all are forgotten. |
| MqttBatch.MqttOutput.PublishBatch | internal/output/mqtt/mqtt.go:236-254 | Sends chunk by chunk and saves from the first failure on, each point as its outcome says, the unencodable ones of the saved tail lost. |
| MqttBatch.MqttOutput.FlushOnce | internal/output/mqtt/mqtt.go:216-231 | Without connection nothing; otherwise the buffered points of every device are one batch, whose points get their fates as BatchByOutcome says, and nothing that cannot be encoded is sent or saved; with encodable points, per device what is sent and then what is to be saved is what arrived, in order; none is forgotten if there is a queue and every save commits. |
| MqttBatch.MqttOutput.Close | internal/output/mqtt/mqtt.go:304-312 | Is a last flush if the output batches and the broker is connected, and nothing otherwise; nothing stays buffered if and only if the broker is connected or nothing was buffered. |
| ProtoWire.AppendVarint | internal/output/sparkplugb/proto.go:260-266 | The loop appends the base-128 form. |
| ProtoWire.VarintRead | internal/output/sparkplugb/proto.go:260-266 | A varint followed by anything reads back as its value and its own length. |
| ProtoWire.VarintMinimal | internal/output/sparkplugb/proto.go:260-266 | No byte string that reads as a value is shorter than its varint. |
| ProtoWire.VarintTen | internal/output/sparkplugb/proto.go:260-266 | A 64-bit value takes at most ten bytes. |
| ProtoWire.LittleRead | internal/output/sparkplugb/proto.go:269-280 | Fixed-width values read back. |
| ProtoWire.LowFirst | internal/output/sparkplugb/proto.go:260-280 | Low groups and low bytes come first: the bytes of two known numbers. |
| ProtoWire.FieldsRead | internal/output/sparkplugb/proto.go:246-280 | Any sequence of fields reads back from its bytes. |
| Sparkplug.EncodeMetric | internal/output/sparkplugb/proto.go:72-127 | The buffer holds the fields of the metric. |
| Sparkplug.EncodePayload | internal/output/sparkplugb/proto.go:54-69 | The buffer holds time, sequence number and one field per non-empty metric. |
| Sparkplug.MetricRoundTrip | internal/output/sparkplugb/proto.go:72-127 | An encoded metric decodes to its name, alias, time, datatype, null flag and the value its datatype selects. |
| Sparkplug.EmptyIff | internal/output/sparkplugb/proto.go:61-63 | The encoding is empty exactly for the metric that says nothing. |
| Sparkplug.PayloadRoundTrip | internal/output/sparkplugb/proto.go:54-69 | For every sequence number, time and metrics, decoding gives them back, empty metrics left out. |
| Sparkplug.MetricVarints | internal/output/sparkplugb/proto.go:255-266 | Tags take one byte and every varint of a metric at most ten. |
| Sparkplug.MetricBytes | internal/output/sparkplugb/proto.go:72-127 | The encoding of every metric byte for byte: tags by field number, the value by datatype number. |
| Sparkplug.PayloadBytes | internal/output/sparkplugb/proto.go:54-69 | A payload is time and sequence number behind their tags, and each metric that is not empty adds itself behind its tag and length. |
| Filters.PassFilters | internal/processing/engine.go:237-255 | Applies the filters in order until one rejects. |
| Filters.OneFilter | internal/processing/engine.go:237-301 | What each filter alone does to a number, another value, the quality and the baseline. |
| Filters.OppositesSplit | internal/processing/engine.go:277-301 | Of two opposite thresholds every number passes exactly one. |
| Filters.DeadbandSpaces | internal/processing/engine.go:257-274 | Over any inputs, with one deadband placed last, passed numbers differ by at least delta and the baseline is the last of them. |
| Filters.DeadbandSpacesIff | internal/processing/engine.go:237-274 | With other filters around one deadband, passed numbers differ by at least delta for all inputs and baselines if and only if no number that the later filters reject can become the baseline after one that they pass. |
| Filters.DeadbandBound | internal/processing/engine.go:257-274 | Every number that reaches the deadband is within delta of the baseline afterwards. |
| Filters.TwoDeadbandsPassNothing | internal/processing/engine.go:259-274 | A rule with two deadbands never passes a number. |
| Filters.DeadbandNotLast | internal/processing/engine.go:237-255 | The failing case: a threshold after the deadband, and the same number passes twice running. |
| Windows.AddFolds | internal/processing/engine.go:349-362 | Adding a number folds it into count, sum, least, greatest and last. |
| Windows.FoldsMeans | internal/processing/engine.go:386-405 | The value of a window is the aggregate of its numbers. |
| Windows.TwoNumbers | internal/processing/engine.go:349-405 | The value of a window of two numbers, for every kind of aggregate. |
| Windows.FlushValid | internal/processing/engine.go:367-377 | Flushing a due window emits its aggregate at least its length after every earlier emission, and starts anew. |
| Windows.AcceptValid | internal/processing/engine.go:349-362 | A number goes into the open window and nowhere else. |
| Processing.ProcessValid | internal/processing/engine.go:89-118 | Any point keeps the windows of its key in order and its aggregator on the current rule. |
| Processing.KeptValid | internal/processing/engine.go:166-180 | A reload keeps an aggregator of an unchanged aggregate as it is, and resets or drops another so that it matches the new rule, and counts what was open as discarded. |
| Processing.Outcomes | internal/processing/engine.go:89-118 | A point without rule goes on, a rejected one disappears, one without aggregate goes on; with an aggregate a number joins the open window, after that was emitted under its name if it has run its length, or opens one, and anything else disappears. |
| Processing.RuleIsLast | internal/processing/engine.go:144-222 | A key's rule is the last one of an enabled device with deadbands not negative, ranges not empty and a positive window, if there is one. |
| ProcessingEngine.Engine.Process | internal/processing/engine.go:89-118 | One point changes only its own key, with the outputs, baseline, aggregator and counters of its case; every point in is passed, filtered or taken. |
| ProcessingEngine.Engine.AggregateAdd | internal/processing/engine.go:335-364 | A due window is emitted before the number opens the next. |
| ProcessingEngine.Engine.Flush | internal/processing/engine.go:415-429 | Emits and resets every due window and nothing else; afterwards no window that has run its length is open. |
| ProcessingEngine.FlushEmits | internal/processing/engine.go:415-429 | Every window that has run its length is emitted with the aggregate of its numbers under its name. |
| ProcessingEngine.Engine.Reload | internal/processing/engine.go:139-183 | Loads the valid rules of enabled devices and fits baselines and aggregators to them. |
| ProcessingEngine.Engine.LoadRules | internal/processing/engine.go:144-159 | The rules are those of the configuration, a later one of the same key winning. |
| ProcessingEngine.WindowsOf | internal/processing/engine.go:24-32 | Over all interleavings every accepted number is in exactly one window, every emitted value is the aggregate of its window, emissions are a window apart, and aggregators match current rules. |
| AlertRules.ActionsJustified | internal/alert/engine.go:128-173 | An alert is raised only on fresh points, a true expression and an expired cooldown, and resolved only on fresh points and a false expression. |
| AlertRules.ActsIff | internal/alert/engine.go:128-173 | A rule without an alert fires if and only if all its points are fresh, its expression is true, and its cooldown is not positive, over, or never began; one with an alert resolves it if and only if all points are fresh and the expression is false. |
| AlertRules.EvaluateValid | internal/alert/engine.go:128-162 | An evaluation with its table action keeps rules, table and histories in agreement. |
| AlertRules.SettledAgain | internal/alert/engine.go:130-134 | A rule that lists a point twice is affected once. |
| AlertRules.PendingIffActive | internal/alert/engine.go:40-48 | From any table: the pending alerts are the active alerts of loaded rules and, apart from these, those left over from an earlier run, which stay pending. |
| AlertRules.AgreeIffNoneLeft | internal/alert/engine.go:40-48 | Pending alerts are exactly the active alerts of loaded rules if and only if none was left over. |
| AlertRules.HistoryKept | internal/alert/engine.go:128-162 | Fires and resolves of a rule alternate, a re-fire keeps the cooldown while the rule stays loaded, across reloads, and the table records each with its time. |
| AlertRules.FiresAlternate | internal/alert/engine.go:146-159 | Between two fires of a rule the first alert is resolved. |
| AlertRules.StaleFitsIff | internal/alert/engine.go:248-264 | The alert state a rule had earlier still fits its history if and only if it neither fired nor resolved since, or was resolved at both ends at the same instant. |
| AlertEngine.Engine.constructor | internal/alert/engine.go:65-73 | A new engine agrees with any table; what is pending there is left over. |
| AlertEngine.Engine.Process | internal/alert/engine.go:96-117 | Exactly the rules that refer to the point are updated: each fires and resolves if and only if freshness, expression and cooldown say so. Agreement with the table is kept, rows are only added or resolved, histories only grow, and new alerts have new IDs. |
| AlertEngine.Engine.EvaluateRules | internal/alert/engine.go:128-162 | The collected actions bring the table into agreement with the updated rules. |
| AlertEngine.Engine.DoActions | internal/alert/engine.go:109-115 | Writes a new alert for a fire and a new status for a resolve, in order. |
| AlertEngine.Engine.Reload | internal/alert/engine.go:237-272 | Exactly the listed rules that are enabled and compile are loaded, with the alert state they had when they were compiled, the others' alerts resolved, whatever values were processed before the swap; rules, table and histories agree afterwards if and only if every rule that stays was quiet in between. |
| AlertEngine.Engine.Swap | internal/alert/engine.go:260-270 | The swap alone, for rules compiled at any earlier moment. |
| AlertEngine.Engine.Load | internal/alert/engine.go:242-259 | Builds rules and a reverse index that names, for each point, exactly the rules that refer to it. |
| AlertEngine.StaleSwapIff | internal/alert/engine.go:248-264 | For any values processed between compilation and swap, and any rules added or removed: the state is valid after the swap if and only if no rule that stays fired or resolved in between, except back to the same instant, which cannot be when time has passed. |
| AlertEngine.ReloadForgetsCooldown | internal/alert/engine.go:248-264 | The failing case: an alert raised and resolved in between, and the rule's cooldown is lost. |
| ChangeSignal.Feed.OnChange | internal/store/sqlite.go:178-191 | A new subscriber with an empty channel, and nothing else changes. |
| ChangeSignal.Feed.Cancel | internal/store/sqlite.go:186-190 | The subscriber is gone, and nothing else changes. |
| ChangeSignal.Feed.Notify | internal/store/sqlite.go:193-206 | Is a snapshot of the subscribers, one send to each, and the end of a writer's turn, in the steps of the model; every subscriber has a token afterwards, a full channel stays full. |
| ChangeSignal.StaysSignalled | internal/store/sqlite.go:193-206 | Only a consumer's own wake-up takes its signal away. |
| ChangeSignal.SignalNeverLost | internal/core/scheduler.go:88-107 | A consumer that subscribes before it loads and is behind the store has a token or a writer that will send it one, whatever other consumers do. |
| ChangeSignal.UpToDateAtRest | internal/core/scheduler.go:88-107 | When no writer is busy and none of its tokens is left it has read the latest version. |
| ChangeSignal.LateSubscriberIff | internal/processing/engine.go:65-74 | In every run, a consumer that loads before it subscribes is safe then if and only if nothing was committed since its load, or a writer has yet to look up subscribers. |
| ChangeSignal.LateSubscriberStaysSafe | internal/processing/engine.go:65-74 | One that is safe then never misses a change afterwards. |
| ChangeSignal.LateSubscriberMisses | internal/alert/engine.go:76-81 | The failing case: it waits on an old version with no signal under way. |
| PlatformSync.PlatformOutput.SyncToGateway | internal/output/smardaten/sync.go:151-214 | The tables become what the configuration asks for; with unique IDs nothing is left to do, and when nothing is to do nothing is written. |
| PlatformSync.PlatformOutput.SyncControllers | internal/output/smardaten/sync.go:157-180 | Upserts the convertible enabled controllers, with one write for each whose row differs and none for the others. |
| PlatformSync.PlatformOutput.SyncDevices | internal/output/smardaten/sync.go:183-209 | Upserts the convertible devices of synced controllers, with one write for each whose row says something else and none for the others. |
| PlatformSync.PlatformOutput.DeleteOrphans | internal/output/smardaten/sync.go:224-273 | Deletes managed devices, then managed connections, that the configuration does not name, except connections still referred to. |
| PlatformSync.SyncedInPlace | internal/output/smardaten/sync.go:145-150 | A sync leaves nothing for the next one to do. |
| PlatformSync.SyncedConns | internal/output/smardaten/sync.go:157-180 | Every controller that is enabled and can be converted has exactly its row afterwards; the row of any other in the configuration is as it was. |
| PlatformSync.SyncedDevs | internal/output/smardaten/sync.go:183-209 | A device that can be converted with its synced controller has its row afterwards, with the processing rules it had if nothing else changed; the row of any other in the configuration is as it was. |
| PlatformSync.OthersUnchanged | internal/output/smardaten/sync.go:216-223 | Rows of other managers that the configuration does not name are unchanged. |
| PlatformSync.OrphansGone | internal/output/smardaten/sync.go:216-223 | Every managed device is in the configuration, and a managed connection that is not survives if and only if a device refers to it. |
| PlatformSync.Store.DeleteConnection | internal/store/sqlite.go:275-288 | Refused exactly while a device refers to the connection. |
| PollBlocks.Merge | internal/output/smardaten/sync.go:711-723 | Merged ranges lie more than 16 registers apart, contain every range, begin and end with one, and have no larger gap inside. |
| PollBlocks.RangeOf | internal/output/smardaten/sync.go:746-758 | A point reserves two registers for 32-bit numbers, four for 64-bit ones and one for all else, from its register on. |
| PollBlocks.BuildPollBlocks | internal/output/smardaten/sync.go:684-735 | The blocks of a point list are far apart, cover its ranges, reach nothing beyond them, and merge nothing further apart than the gap. |
| PollBlocks.InExactlyOneBlock | internal/output/smardaten/sync.go:684-758 | For every point with a register, of any points whose blocks the driver's parameters can hold: exactly one block spans it; the driver finds it in that block alone if the block ends before register 65535 and in none otherwise, and in every block if the point itself reaches register 65535. |
| PollBlocks.FittingParse | internal/output/smardaten/sync.go:725-732 | The parameters can hold the blocks of points whose registers reach no further than 65534. |

## Left out

- ReloadTheorems.Ownership: no concurrent write, probe or browse opens handles of its own.
- Scheduler.Scheduler.Apply: runtimes are values in a map, and the points of a job are in a table by job, so sharing of a runtime between old and new maps shows as an equal value; the clock is read once per reload; nothing is claimed of the state after a crash.
- PollHeap.Up: the slice is a sequence that is returned, not an array changed in place; entries are shared objects.
- PollScheduler.PollScheduler.Wake: firing is the list of due entries; the non-blocking hand-over to the worker pool, which may skip, is not modelled. The FNV hash is a parameter.
- ModbusRead.Read: a device's memory does not change during a read, a result carries no device ID or timestamp, and addresses are parsed already. Of a point that reaches register 65535 and shares requests with ones that do not, it is said which values it may get, not which of them.
- ModbusWrite.EncodeWriteValue: the value is given after unscaling, as an integer part and float bits; converting an integer out of its type's range is platform-defined and nothing is claimed of it.
- OutputManager.Manager.Reload: slots are values in a table of all slots ever started, their number standing for the reference; alerts' own channels are not modelled.
- ForwardingRuns.NothingLostSilently: a point is delivered when its output has taken it; what the batching output does then is in MqttBatch.
- Backfill.Store.Peek: a payload in the queue that can no longer be decoded, which the code skips, is not modelled.
- MqttBatch.MqttOutput.FlushOnce: is one step; in the code points may arrive while the messages are being sent, which only puts them into the next buffer.
- Sparkplug.PayloadRoundTrip: claims the wire format with the code's field numbers, not the published schema; a value enters as the results of its conversions.
- Filters.DeadbandSpaces: floating-point rounding, NaN and infinities are not modelled.
- ProcessingEngine.Engine.Process: aggregators are values in the engine's map; the order in which outputs of different goroutines reach the next stage is not modelled.
- AlertEngine.Engine.Reload: all listed rules are compiled at one moment; in the code values may also be processed between two of them.
- AlertEngine.Engine.Process: compiled rules are values in the engine's map, and a rule's active flag and alert ID are one optional ID; an evaluation and its table writes are one step and store writes succeed; the messages to outputs are not modelled.
- ChangeSignal.SignalNeverLost: a load reads one version of the store and does not fail; after a failed load the code waits for the next change.
- PlatformSync.PlatformOutput.SyncToGateway: store operations succeed; JSON contents are compared as whole values; conversions of controllers and devices are functions from outside.
- REST handlers, authentication, sessions, field encryption, the web UI, configuration loading, logging, metrics and the scale benchmark: each handles one request or value at a time and keeps no state whose history matters, so its properties would repeat its code.
- OPC UA, ThingsBoard, TDengine, the Sparkplug session lifecycle and the rest of the smardaten plug-in: mostly input and output around small buffers.
- JSON marshalling, string formatting, address parsing and the expression library: values are taken as parsed.
- `bool` points on holding registers: modelled as the polling driver decodes them; agreement with the listening driver is not claimed.
- A size limit on poll blocks made by the sync: the code has none.
