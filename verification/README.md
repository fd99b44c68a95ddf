# Verified model of the scull drivers and the event semaphore

A Dafny model of four parts of the repository that keep state under concurrency, with proofs of what
they promise.

- **The scull pipe** (`实验7/scull/pipe.c`). `RingBuffer` gives the circular buffer its meaning as a
  bounded FIFO. `Pipe` is the device as a class, run one call at a time. `PipeProtocol` is the same
  device under interleaving: any number of processes, each with a program counter that stops between
  taking the semaphore, testing, releasing it, queueing, retesting, sleeping and waking.
  `PipeSafety` has the inductive invariant, step by step; `PipeTheorems` and `PipeLiveness` have the
  results about whole runs, `PipeCalls` what calls return in them, and `PipeAlone` what a call does
  when nobody else moves.
- **The scull block store** (`实验7/scull/main.c`). `Geometry` is the arithmetic of offsets,
  `StoreSpec` the sparse byte map, `BlockStore` the linked list of quantum sets on the heap with an
  allocator that may fail and that knows what is allocated, `Driver` and `DriverSpec` several devices
  under one configured geometry, `Parameters` what the ioctls leave configured,
  `Determinacy` what a read can be relied on to return, `UsableGeometry` the geometries under which
  anything can be stored, `StaleGeometry` the geometry that a call reads before it waits for the
  semaphore, and `RoundTrip` the loops of a caller that stores and fetches.
- **Access-controlled opens** (`实验7/scull/access.c`). `OpenPolicy` is the uid device, `SingleOpen`
  the atomic counter, `BlockingOpen` the waiting device as an interleaved protocol, `BlockingCalls`
  what its calls return, and `ClonedDevices` the list of private devices.
- **The event semaphore** (`实验6/others/exp6.c`, lines 1229-1373). `Permits` is one event as a counting
  semaphore; `EventSpec` and `EventTable` are the table of events, as a sequence and as the list with
  its head and tail pointers.

`dafny verify dfyconfig.toml` checks everything. `Common` has the option and result types.

## Where the code does not do what it promises

- Every open of the pipe empties the queue (`pipe.c` line 81) and wakes nobody. A writer that sleeps
  because the buffer was full then sleeps over an empty one: `PipeLiveness.OpenLosesWakeup` is such a
  run, and `PipeTheorems.NoLostWriterIff` says exactly which runs are free of it. Readers are always
  safe.
- A second open takes over the configured size of the pipe without allocating (lines 71-80).
  `Pipe.ScullPipe.Open` and, over interleaved runs, `PipeTheorems.InBoundsIff` say exactly when the
  pipe then takes its buffer for larger than it is, as in `Pipe.ReopenLarger`; until it does, nothing
  outside is touched (`PipeTheorems.NothingTouchedOutside`), and in `PipeLiveness.OpenOverrunsBuffer`
  a write does reach past the end.
- `scull_ioctl` accepts every geometry from the administrator, and the next trim takes it over.
  `UsableGeometry.StoresIff` says exactly under which geometries anything can be stored at all, and
  `UsableGeometry.WorksThroughoutIff` which runs keep a device to these. Where the product of a
  positive quantum and qset is not an `int`, the driver divides by zero or finds only the offsets below
  the wrapped item size; `Geometry.FindsPlaceIff` gives the exact condition.
- `scull_read` and `scull_write` read the geometry before they take the semaphore. A trim in between
  lets a write put its byte where nobody looks for it (`StaleGeometry.StaleWrite`);
  `StaleGeometry.TrimMisplacesIff` and `StaleGeometry.NeverMisplacesIff` say exactly which trims do.
- A read can return bytes that nobody wrote, since new quanta are not cleared (`main.c` line 365) and a
  copy that faults may leave anything in the rest of its range (line 373), also over bytes that had
  been written (`Determinacy.FaultLosesByte`). `Determinacy.ReadIsDeterminedIff` says exactly when.
- The comment at line 1368 of `exp6.c` says that closing an event wakes who is blocked on it. The
  event has been unlinked by then, so the signal does not find it and wakes nobody; only for the tail
  event does it find one, because that event is not unlinked at all, and then it wakes one waiter.
  `EventSpec.CloseWakesAllIff` is the exact condition, `EventSpec.CloseStrandsWaiter` a run that
  strands a waiter for good (`EventSpec.StrandedForever`), and `EventSpec.NobodyStrandedIff` the
  condition over whole runs. After closing the tail no list is left (`EventTable.EventList.Close`).
- The comment at lines 1260-1264 says that an open creates an event with the number passed. The first
  event gets the number 2 instead (`EventSpec.OpenGivesNumberIff`), and for number 0 the result is a
  variable that was never set.

## Model

| member | source | states |
|---|---|---|
| RingBuffer.SpaceIsCapacityMinusQueue | 实验7/scull/pipe.c:182-187 | `spacefree`, with its wrap-around remainder, plus the number of queued bytes is the buffer size less one, in every wrapped and unwrapped position; it is 0 exactly when the write pointer is right behind the read pointer, and equal pointers mean an empty queue |
| RingBuffer.ReadTakesAllItCan | 实验7/scull/pipe.c:138-142 | a read takes no more than it is asked for, and less only when nothing more is queued or the end of the buffer is reached |
| RingBuffer.WriteAcceptsAllItCan | 实验7/scull/pipe.c:203-208 | a write accepts no more than it is offered, and less only when the buffer is full then or its end is reached |
| RingBuffer.ReadTakesPrefix | 实验7/scull/pipe.c:138-149 | the bytes a read copies are a prefix of the queue, and the moved and wrapped read pointer leaves exactly the rest; it takes nothing only when asked for nothing or when the queue is empty |
| RingBuffer.CopyKeepsQueue | 实验7/scull/pipe.c:210-213 | copying into the free slots, also the partial copy of a fault, changes neither the queue nor the free space |
| RingBuffer.AdvanceAppends | 实验7/scull/pipe.c:214-216 | moving the write pointer, with its wrap, over copied bytes appends exactly these to the queue |
| RingBuffer.WriteAppends | 实验7/scull/pipe.c:203-216 | a write appends a prefix of what it is offered, accepts nothing only when offered nothing or when the buffer is full, and never makes a non-empty queue look empty |
| RingBuffer.TwoReadsDrain | 实验7/scull/pipe.c:138-149 | from every pointer position two unlimited reads return the whole queue in order and leave it empty |
| RingBuffer.TwoWritesFill | 实验7/scull/pipe.c:203-216 | from every pointer position two unlimited writes fill the buffer to one less than its size with an unbroken prefix of what is offered |
| Pipe.ScullPipe.Open | 实验7/scull/pipe.c:62-91 | every open empties the queue and counts the modes of the file; a failed allocation changes nothing; a buffer already there is kept, so the pipe is sound afterwards if and only if the size configured now does not exceed it |
| Pipe.ScullPipe.Release | 实验7/scull/pipe.c:95-112 | the counters go down, the buffer goes with the last open file, and until then contents are untouched |
| Pipe.ScullPipe.SpaceFree | 实验7/scull/pipe.c:182-187 | is buffer size less one less the queue length, never negative |
| Pipe.ScullPipe.Read | 实验7/scull/pipe.c:119-156 | with O_NONBLOCK: -EAGAIN exactly on an empty queue, -EFAULT on a failed copy, both without effect; otherwise the oldest bytes leave the queue in order and are what the caller gets, never more than asked for, and fewer only when no more are queued or the end of the buffer is reached |
| Pipe.ScullPipe.GetWriteSpace | 实验7/scull/pipe.c:160-179 | with O_NONBLOCK: 0 unless the queue holds buffer size less one bytes, then -EAGAIN |
| Pipe.ScullPipe.AcceptCount | 实验7/scull/pipe.c:204-208 | the branches of the driver compute the largest piece that is free and in one run of memory |
| Pipe.ScullPipe.Write | 实验7/scull/pipe.c:189-227 | with O_NONBLOCK: -EAGAIN exactly on a full queue, -EFAULT with the queue unchanged, otherwise the accepted prefix is appended, shorter than what is offered only when the buffer is full then or its end is reached, and nothing queued is lost |
| Pipe.ScullPipe.Poll | 实验7/scull/pipe.c:229-248 | readable if and only if bytes are queued, writable if and only if there is room, and always one of the two |
| Pipe.ReopenLarger | 实验7/scull/pipe.c:71-81 | a concrete sequence, for every larger size: open with size 2, then open with the larger one, and the pipe takes its buffer for larger than it is |
| Pipe.ScullPipe.ReadTwice | 实验7/scull/pipe.c:138-149 | two reads of unlimited size, run alone, return the whole queue |
| PipeSafety.EventKeepsInv | 实验7/scull/pipe.c:62-227 | every step of every process inside open, release, read and write, signals and wake-ups included, keeps the whole invariant |
| PipeSafety.RunKeepsInv | 实验7/scull/pipe.c:62-227 | the invariant holds along every run of any number of processes |
| PipeTheorems.MutualExclusion | 实验7/scull/pipe.c:119-217 | in every reachable state at most one process is inside the critical section, and a process outside every call does not have the semaphore |
| PipeTheorems.EveryReturnReleases | 实验7/scull/pipe.c:119-227 | whichever way a call returns (success, signal, O_NONBLOCK, failed allocation or copy), the semaphore is free if the caller had it and untouched otherwise |
| PipeTheorems.WriteSpaceIsHeld | 实验7/scull/pipe.c:158-204 | a writer leaves `scull_getwritespace` towards the copy exactly when it tested, with the semaphore, that there is room, and there is still room when it copies |
| PipeCalls.ReadReturns | 实验7/scull/pipe.c:119-156 | over every run: a read returns -EAGAIN exactly when its file is non-blocking and it holds the semaphore over an empty queue, -ERESTARTSYS only on a signal that came, -EFAULT only over bytes, no error after taking any, and otherwise the number of bytes that its own steps took from the pipe, at most what it was asked for |
| PipeCalls.WriteReturns | 实验7/scull/pipe.c:160-227 | over every run: a write returns -EAGAIN exactly when its file is non-blocking and it holds the semaphore over a full buffer, -ERESTARTSYS only on a signal that came, -EFAULT only where there is room, no error after any byte was accepted, and otherwise the length of the prefix of its bytes that its own steps added |
| PipeCalls.OpenReturns | 实验7/scull/pipe.c:62-91 | over every run: an open returns 0 exactly when it has opened one file, in the mode asked for; -ERESTARTSYS only on a signal, -ENOMEM only without a buffer, and neither with a file opened |
| PipeCalls.NonblockNeverWaits | 实验7/scull/pipe.c:129-177 | in every reachable state only calls on blocking files wait |
| PipeCalls.WaitEnds | 实验7/scull/pipe.c:132-177 | over every run: a writer that stops waiting goes on to the semaphore exactly when no signal is pending and gives up otherwise, and a reader gives up only on a signal |
| PipeCalls.CallsMoveAllTheyCan | 实验7/scull/pipe.c:138-216 | over every run: bytes are returned only by reads and accepted only by writes, inside, the oldest first, and as many as are asked for unless the queue is then empty, or full, or the end of the buffer is reached |
| PipeCalls.OthersAreOnlyWoken | 实验7/scull/pipe.c:153-220 | over every run: a sleeper is woken by the last step of a call in the other direction that moved bytes, which wakes all of its queue and nobody else, and by nothing else that others do |
| PipeAlone.ReadAlone | 实验7/scull/pipe.c:119-156 | a read when nobody else moves does what the sequential read does, to the last step: the bytes, the error, or sleep on `inq` |
| PipeAlone.WokenReader | 实验7/scull/pipe.c:132-136 | a sleeping reader that is woken starts over when there are bytes, goes back to sleep when there are none, and gives up on a signal |
| PipeAlone.WriteAlone | 实验7/scull/pipe.c:189-227 | a write when nobody else moves does what the sequential write does, to the last step: the bytes, the error, or sleep on `outq` |
| PipeAlone.WokenWriter | 实验7/scull/pipe.c:171-177 | a sleeping writer that is woken starts over, and gives up on a signal |
| PipeAlone.OpenAlone | 实验7/scull/pipe.c:62-91 | an open when nobody else moves counts its file, empties the queue, and fails only without effect |
| PipeAlone.ReleaseAlone | 实验7/scull/pipe.c:95-112 | a release when nobody else moves takes its file back, and the buffer with the last |
| PipeTheorems.BufferOutlivesItsUsers | 实验7/scull/pipe.c:69-110 | over every run the counters are the numbers of open files with each mode, the buffer is there exactly while one is open, and no process inside read or write, asleep or not, meets a freed buffer |
| PipeTheorems.PipeIsFifo | 实验7/scull/pipe.c:79-216 | in every reachable state the bytes accepted since the last open are those returned since then followed by the queue; what all reads ever returned is the concatenation, epoch by epoch, of prefixes of what was written |
| PipeTheorems.NoLostReader | 实验7/scull/pipe.c:127-137 | in every reachable state, opens and releases included, a reader committed to sleep implies an empty queue or a writer that moved `wp` and has still to wake `inq` |
| PipeTheorems.OpenKeepsWritersIff | 实验7/scull/pipe.c:79-81 | an open, which empties the queue and wakes nobody, keeps the writers from losing a wake-up if and only if no writer sleeps at that moment or a reader is about to wake them |
| PipeTheorems.OthersKeepWriters | 实验7/scull/pipe.c:147-187 | no other event loses a wake-up of a writer |
| PipeTheorems.NoLostWriterIff | 实验7/scull/pipe.c:147-187 | over whole runs: no wake-up of a writer is lost anywhere if and only if every open along the run empties the queue when that is harmless |
| PipeLiveness.OpenLosesWakeup | 实验7/scull/pipe.c:79-81 | a concrete run in which an open by a second process leaves a writer asleep over an empty buffer with nobody to wake it |
| PipeTheorems.InBoundsIff | 实验7/scull/pipe.c:71-81 | over every run, the configured size changing at any time: the pipe never takes its buffer for larger than what was allocated if and only if every open finds no buffer or one at least as large as the size then configured |
| PipeTheorems.NothingTouchedOutside | 实验7/scull/pipe.c:138-216 | over every run in which every open fits in that sense, no copy of a read or a write reaches past what was allocated |
| PipeLiveness.OpenOverrunsBuffer | 实验7/scull/pipe.c:71-81 | a concrete run, for every size of at least 4: a pipe of size 2 is open, the larger size is configured, the next open takes it over, and the next write is about to copy past the end of the buffer |
| PipeLiveness.CanGoOnUnlessAsleep | 实验7/scull/pipe.c:119-227 | a process inside a call that finds the semaphore free, or has it, can always take a step unless it is asleep |
| PipeLiveness.QuiescentReaders | 实验7/scull/pipe.c:127-137 | when nothing can move any more, nobody is inside, everybody in a call is asleep, and readers sleep only over an empty queue |
| PipeLiveness.QuiescentWriters | 实验7/scull/pipe.c:160-187 | if moreover no open has lost a wake-up, writers sleep only over a full buffer, and readers and writers are never stuck together |
| Geometry.FindsPlaceIff | 实验7/scull/main.c:341-352 | the computation in C's `int`s, for every positive geometry and every offset: it divides by zero exactly when the item size wraps to 0, and, as long as quotients are `int`s or the item size has not wrapped, it finds the place of the offset if and only if the item number is an `int` under an unwrapped item size, or the offset lies below the magnitude of a wrapped one |
| Geometry.TwoWrapsCancel | 实验7/scull/main.c:341-352 | outside that range two wraps can cancel: a concrete geometry and offset that do not fit and are found all the same |
| Geometry.PlacesAreOffsets | 实验7/scull/main.c:309-312 | list item, table position and quantum position are in one-to-one correspondence with offsets |
| Geometry.DriverFindsPlace | 实验7/scull/main.c:350-352 | the two divisions and remainders of the driver find the place of the offset |
| Geometry.Locate | 实验7/scull/main.c:349-352 | the place the driver computes, wherever geometry and offset fit, wrapped item sizes included |
| Geometry.SameQuantum | 实验7/scull/main.c:369-371 | two offsets share a quantum exactly when item and table position agree, and a run inside one quantum is a run of quantum positions |
| Geometry.ItemInList | 实验7/scull/main.c:309-315 | an offset is covered by the list exactly when its item number is below the list length |
| StoreSpec.CellIs | 实验7/scull/main.c:309-324 | a byte is stored at an offset exactly when the quantum of its place is there, and it is the byte at its position in it |
| StoreSpec.MemoryStored | 实验7/scull/main.c:364-378 | writing into one quantum of memory sets exactly the offsets written, adds the rest of a new quantum, and changes no other byte of any quantum |
| StoreSpec.CellsAreWhole | 实验7/scull/main.c:364-368 | only whole quanta are stored, and all of them inside the list |
| BlockStore.ScullDev.StoresWholeQuanta | 实验7/scull/main.c:354-382 | every sound state has size at most list length times quantum times qset, zero-length writes past the end included; under a geometry that is not positive, where no write is modelled, the list is empty |
| BlockStore.ScullDev.Follow | 实验7/scull/main.c:262-286 | returns the item with that number; items and tables already there are kept; the list grows up to the item only when it is too short; a failed allocation leaves a sound shorter list, and an item already in the list is found without any change |
| BlockStore.ScullDev.EnsureTable | 实验7/scull/main.c:358-363 | the item gets a table of null pointers if it has none |
| BlockStore.ScullDev.EnsureQuantum | 实验7/scull/main.c:364-368 | the table gets a quantum, whose bytes may be anything, where it has none |
| BlockStore.ScullDev.AttachQuantum | 实验7/scull/main.c:365-367 | a quantum hung into a table leaves a sound device with just that block more |
| BlockStore.ScullDev.Put | 实验7/scull/main.c:354-376 | either the quantum cannot be had and no stored byte changes, or the bytes are stored at their offsets |
| BlockStore.ScullDev.Extend | 实验7/scull/main.c:380-382 | the size becomes the end of the data if that is larger, and the list covers it |
| BlockStore.ScullDev.Write | 实验7/scull/main.c:336-387 | -ENOMEM with every stored byte and the size kept; -EFAULT with the copied bytes stored, anything at most in the rest of the range the copy was to fill, and the size kept; or min(count, quantum - p % quantum) bytes stored at exactly their offsets, position and size moved, all other bytes unchanged; blocks gained are exactly the blocks allocated |
| BlockStore.ScullDev.Lookup | 实验7/scull/main.c:315-318 | the quantum of a place inside the list is found without allocating or changing anything |
| BlockStore.ScullDev.Read | 实验7/scull/main.c:292-334 | returns the stored bytes from the position up to the end of the data or of the quantum, 0 in a hole or past the end, -EFAULT on a failed copy; device, list and allocator are unchanged in every case |
| BlockStore.Shape.BeforeQuantum | 实验7/scull/main.c:70-72 | a quantum that trim reaches has not been freed before |
| BlockStore.Shape.BeforeItem | 实验7/scull/main.c:73-77 | nor has a table or a list item, and after the last item everything has been freed |
| BlockStore.ScullDev.FreeQuanta | 实验7/scull/main.c:70-72 | frees exactly the quanta of one table, each once |
| BlockStore.ScullDev.Trim | 实验7/scull/main.c:63-84 | frees every block of the device exactly once and none else, and leaves an empty device under the configured geometry, whatever that is |
| Driver.ScullDriver.Read | 实验7/scull/main.c:292-334 | a read on one of several devices changes none of them |
| Driver.ScullDriver.Write | 实验7/scull/main.c:336-387 | a write on one device keeps every other device, and all blocks allocated and not freed are those reachable from the devices |
| Driver.ScullDriver.Open | 实验7/scull/main.c:238-253 | a write-only open empties its device under the configured geometry, usable or not, and keeps the others; any other open changes nothing |
| Driver.ScullDriver.Ioctl | 实验7/scull/main.c:393-515 | changes or returns the configured parameters as the command says, with -EPERM for commands reserved to the administrator and -EFAULT for unreadable arguments, and touches no device |
| Driver.ScullDriver.Run | 实验7/scull/main.c:238-515 | a sequence of calls on any number of devices, up to the first at a place the driver cannot find: at its end the devices are sound, no block is shared, the allocated blocks are exactly the reachable ones, and the calls were a run of the specification |
| DriverSpec.WriteKeepsMap | 实验7/scull/main.c:373-378 | a write, complete or cut short by a fault, is an overlay of what it stored on the byte map |
| DriverSpec.StoreRefinesMap | 实验7/scull/main.c:336-387 | over every run each device holds all bytes of the sparse byte map that the accepted writes since its last trim define, whatever is done to other devices and to the configured geometry |
| DriverSpec.ReadAgrees | 实验7/scull/main.c:292-334 | every byte a read returns agrees with the map wherever the map has one |
| DriverSpec.SizeIsFurthest | 实验7/scull/main.c:380-382 | over every run the size of a device is the end of the furthest write since it was last emptied, zero-length ones included |
| DriverSpec.GeometryLasts | 实验7/scull/main.c:79-82 | a device keeps, through all calls and ioctls, the geometry that was configured when it was last emptied |
| Parameters.ParameterIsLastSet | 实验7/scull/main.c:421-507 | over every run quantum, qset and pipe size are each what the last command that sets it gave, whoever called and whatever else was done |
| Parameters.CommandsAnswer | 实验7/scull/main.c:421-507 | over every run a query and a get answer with what the parameter was last set to, a shift and an exchange with the value before their own; -EPERM for who is not the administrator, -EFAULT where user memory fails |
| Determinacy.KnownIff | 实验7/scull/main.c:336-387 | a byte of a device is known if and only if some write has copied it there, the device has not been emptied since, and no later write faulted on its way to that offset |
| Determinacy.KnownIsStored | 实验7/scull/main.c:336-387 | in every run the device holds what is known at its offset |
| Determinacy.UnknownIsAnything | 实验7/scull/main.c:364-376 | a byte that is not known may as well be any other: for each value there is a run of the same calls with the same answers in which it has that value |
| Determinacy.ReadIsDeterminedIff | 实验7/scull/main.c:364-376 | new quanta are not cleared, and a copy that faults may leave anything in the rest of its range: the calls and their answers determine a byte that a read returns if and only if some write has copied it, the device has not been emptied since, and no later write faulted on its way to that offset |
| Determinacy.FaultLosesByte | 实验7/scull/main.c:373-376 | a concrete run, for every value: two bytes are stored, a write over them faults at once, and a read returns the value in place of the first |
| UsableGeometry.StoresIff | 实验7/scull/main.c:341-368 | in a device just emptied under any geometry of two `int`s, memory lasting, some offset can be written if and only if quantum and qset are positive and their product does not wrap to 0 |
| UsableGeometry.NothingIsStored | 实验7/scull/main.c:341-368 | under every other geometry a write divides by zero, or asks for a table or a quantum of an impossible size, or looks outside its table, at every offset |
| UsableGeometry.WorksThroughoutIff | 实验7/scull/main.c:79-82 | over every run, with any ioctls by anybody: something can be stored in a device in every state if and only if every write-only open of it finds such a geometry configured |
| UsableGeometry.OnlyAdminsSpoilGeometry | 实验7/scull/main.c:421-494 | over every run without commands of the administrator the configured geometry is the first or the default one, and something can be stored in every device |
| UsableGeometry.AdminSpoilsGeometry | 实验7/scull/main.c:432-471 | from every state, a tell by the administrator of any value that is not positive, for either parameter, and a write-only open leave a device in which no offset can be written |
| StaleGeometry.HarmlessTrimsLoseNothing | 实验7/scull/main.c:297-382 | over every run of any number of processes, with the geometry read before the semaphore is taken: while every trim comes when nobody is in between, or when what has been read does not change, every byte is where a later call looks for its offset |
| StaleGeometry.TrimMisplacesIff | 实验7/scull/main.c:341-382 | after a trim some call can go on, without another trim, to write a byte where no later call looks for it, if and only if the trim was not harmless in that sense |
| StaleGeometry.NeverMisplacesIff | 实验7/scull/main.c:341-382 | the same over whole runs |
| StaleGeometry.SamePlacesIff | 实验7/scull/main.c:310-312 | two geometries put every offset at the same place if and only if they are the same |
| StaleGeometry.StaleWrite | 实验7/scull/main.c:341-382 | a concrete run of two processes in which a write goes on with a stale geometry and puts its byte into another item than the one in which it will be looked for |
| RoundTrip.WriteAll | 实验7/scull/main.c:336-387 | short writes repeated until all is stored terminate, store every byte across quantum and item boundaries, change no other stored byte, and take one call for each quantum touched |
| RoundTrip.ReadAll | 实验7/scull/main.c:292-334 | short reads repeated terminate with exactly the stored bytes, one call for each quantum touched |
| RoundTrip.StoreAndFetch | 实验7/scull/main.c:292-387 | any bytes of any length written at any offsets that fit are read back unchanged |
| RoundTrip.OneMoreTouched | 实验7/scull/main.c:369-371 | a call that stops at the end of a quantum touches one quantum more than its predecessors |
| OpenPolicy.HoldersShareAUser | 实验7/scull/access.c:101-118 | two holders of the device that are not root act for the same user |
| OpenPolicy.AdmittedIff | 实验7/scull/access.c:105-169 | over every history of opens and releases the test lets a caller in exactly when nobody has the device open, the caller is root, or the real user id of who opened it first since it was last free is one of the caller's two |
| OpenPolicy.UidDevice.Open | 实验7/scull/access.c:101-126 | lets in exactly those whom the history of the device should let in, -EBUSY otherwise without effect; an open that is let in is counted, and the first one owns the device |
| OpenPolicy.UidDevice.Release | 实验7/scull/access.c:128-134 | one open file less, the owner is left as it is |
| SingleOpen.EventKeepsInv | 实验7/scull/access.c:53-73 | with decrement-and-test and compensating increment as separate steps, `available = 1 - holders - openers about to undo`, and at most one holder, is kept by every step |
| SingleOpen.SingleHolder | 实验7/scull/access.c:53-73 | over every run at most one process holds the device, and an attempt succeeds if and only if nobody holds it and nobody is about to undo |
| SingleOpen.RefusedWithoutHolder | 实验7/scull/access.c:57-60 | a concrete run in which an open gets -EBUSY although nobody has the device |
| BlockingOpen.EventKeepsInv | 实验7/scull/access.c:163-208 | every step of every opener and releaser keeps the invariant of the blocking device |
| BlockingOpen.NoLostOpener | 实验7/scull/access.c:176-208 | in every interleaving a process committed to sleep still fails `scull_w_available`, or a releaser that took the count to 0 has still to wake the queue, even when others grab the device in between |
| BlockingOpen.HoldersAreAuthorised | 实验7/scull/access.c:163-187 | over every run the count is the number of open files, and whoever has one is the owner by one of its user ids, or root |
| BlockingOpen.QuiescentOpeners | 实验7/scull/access.c:176-208 | when nothing can move any more the lock is free, and whoever still waits does so because another owner has files open |
| BlockingCalls.OpenReturns | 实验7/scull/access.c:172-194 | over every run: an open returns -EAGAIN exactly when it was asked not to block and holds the lock while the device is not available to its caller, -ERESTARTSYS only on a signal that came, and 0 only with the file open under the name of its caller, which no failed open leaves behind |
| BlockingCalls.NonblockNeverWaits | 实验7/scull/access.c:179-180 | in every reachable state only opens that were asked to block wait |
| BlockingCalls.LetInIff | 实验7/scull/access.c:163-187 | in every reachable state the device lets in exactly those whom its history should let in |
| BlockingCalls.OthersAreOnlyWoken | 实验7/scull/access.c:196-208 | over every run: who sleeps is woken by the last step of a release that leaves nobody in, which wakes the whole queue, and by nothing else that others do |
| BlockingCalls.OpenAlone | 实验7/scull/access.c:172-194 | an open when nobody else moves lets its caller in when the device is available; otherwise it returns -EAGAIN if it does not block, gives up on a signal, and sleeps without one |
| BlockingCalls.WokenOpen | 实验7/scull/access.c:180-183 | a sleeping open that is woken starts over when the device is available, and otherwise goes back to sleep or gives up on a signal |
| BlockingCalls.ReleaseAlone | 实验7/scull/access.c:196-208 | a release when nobody else moves takes its file back, keeps the owner, and wakes the queue exactly when it was the last |
| ClonedDevices.DeviceList.LookFor | 实验7/scull/access.c:247-271 | returns the device of the terminal, new at the head of the list if it has none; no terminal ever has two, and every other terminal keeps its own |
| Permits.EventConserves | 实验6/others/exp6.c:1306-1352 | each wait and each signal, by anyone, keeps permits conserved |
| Permits.PermitsConservedIff | 实验6/others/exp6.c:1285-1352 | permits are conserved over all runs if and only if the initial count is not negative |
| Permits.PermitsConserved | 实验6/others/exp6.c:1306-1352 | over every run `init_count - count` is outstanding grants plus queued waiters, outstanding grants stay within 0 and `init_count`, and there are waiters exactly while the count is negative, as many as it says |
| Permits.WaitersCameLast | 实验6/others/exp6.c:1310-1348 | over every run those who still wait are the last who came, in their order: first come, first served |
| Permits.FirstAreLetIn | 实验6/others/exp6.c:1285-1328 | of the callers of a new event with count c the first c are let in at once, and the others wait in order |
| Permits.MutualExclusion | 实验6/others/exp6.c:1306-1352 | when callers signal only what they were granted, at most `init_count` of them are between wait and signal, and nobody waits while there are fewer |
| EventSpec.NumbersAfterCall | 实验6/others/exp6.c:1267-1367 | opens append and closes delete on a sequence of pairwise distinct event numbers, the first entry into an empty list always being 2; waits and signals leave the numbers alone |
| EventSpec.OpenGivesNumberIff | 实验6/others/exp6.c:1275-1298 | after an open the number asked for is in the list if and only if the list was not empty or the number is 2 |
| EventSpec.NeverEmptyAgain | 实验6/others/exp6.c:1288-1297 | as long as no call closes the tail, a list that has an event keeps one, so that only the very first event is ever renumbered |
| EventSpec.OpenedEntry | 实验6/others/exp6.c:1280-1297 | an open of a new number leaves every other event alone and adds one with all its permits, nobody waiting and nothing handed out |
| EventSpec.OpenGivesPermits | 实验6/others/exp6.c:1275-1329 | after an open of a new number with count c the first c waits meant for it are granted and the later ones queue in order, whatever is done with other events in between |
| EventSpec.EventsAreIndependent | 实验6/others/exp6.c:1244-1372 | until it is closed, an event goes through exactly the run that the waits and signals meant for it make on their own, whatever is done with other events in between |
| EventSpec.CallsKeepGood | 实验6/others/exp6.c:1261-1372 | over every run of opens with counts that are not negative, waits, signals and closes, the numbers stay distinct and permits are conserved in every event |
| EventSpec.CloseWakesAllIff | 实验6/others/exp6.c:1360-1369 | a close wakes everybody who waits for the event if and only if nobody does, or the event is the tail and just one does; otherwise it wakes the first waiter of the tail, or nobody |
| EventSpec.CloseStrandsWaiter | 实验6/others/exp6.c:1360-1369 | a concrete run of two opens, a wait and a close that strands a waiter |
| EventSpec.StrandedForever | 实验6/others/exp6.c:1333-1369 | a closed event stays as its close left it: who is stranded there is woken by no later call |
| EventSpec.NobodyStrandedIff | 实验6/others/exp6.c:1244-1372 | over every run in which no close hits the tail, nobody is stranded if and only if every close finds nobody waiting |
| EventTable.EventList.Find | 实验6/others/exp6.c:1244-1256 | `scheventNum` returns the only event with that number and the one before it, or nothing exactly when there is none |
| EventTable.EventList.Open | 实验6/others/exp6.c:1259-1301 | 0 without effect for a number in the list; otherwise a new event with the given count at the end of the list; for number 0 no effect and an undefined result |
| EventTable.EventList.Wait | 实验6/others/exp6.c:1305-1329 | takes a permit of the event, or queues the caller, and touches no other event |
| EventTable.EventList.Signal | 实验6/others/exp6.c:1333-1351 | raises the count to at most its initial value and wakes the first waiter, and returns the number exactly when the count is then not positive |
| EventTable.EventList.OneChain | 实验6/others/exp6.c:1244-1256 | the links determine the list: two sequences that fit them are the same |
| EventTable.EventList.Close | 实验6/others/exp6.c:1354-1372 | an event other than the last leaves the list and none of its waiters is woken; closing the last one wakes at most one and frees it while the links still lead to it; a sound list is left if and only if the event is not the last; the closed event is left as the specification says |
| EventTable.EventList.Serve | 实验6/others/exp6.c:1244-1372 | any run of calls that closes no tail keeps the list sound and does to the list, and to the closed events, what the specification on sequences says |

## Left out

- Geometry.Fits: the block calls are stated where the driver's computation of a place is right (`Geometry.FindsPlaceIff`) and where file positions stay within a `long`, as the kernel's own checks in front of the driver ensure. What a call does at a wrong place, or after a division by zero, is not modelled, and products are taken to wrap as two's complement.
- BlockStore.ScullDev.Write: one atomic step under the geometry the device has; a stale geometry is the subject of `StaleGeometry`, which says when there is none. A signal while waiting for the semaphore is not modelled.
- BlockStore.ScullDev.Read: one atomic step, in the same way. A failed copy to the user is modelled as -EFAULT; which bytes of the user's memory it has overwritten is not.
- Driver.ScullDriver.Ioctl: the decoding of command numbers and `access_ok` (lines 404-417) are left out, and a faulting `__get_user` is taken to leave its target unchanged, that macro being no part of this model.
- Driver.ScullDriver.Open: a signal while waiting for the semaphore is left out.
- StaleGeometry.Exec: a write is the byte it puts at one place; the damage that a stale write does to the lists and tables of the device, the bytes of a longer write and geometries that are not positive are not modelled there.
- UsableGeometry.FateOf: the list is taken to be long enough; with a negative item number the walk of `scull_follow` would first add about four thousand million items.
- PipeProtocol.OpenBody: the configured size is read twice (lines 73 and 79) in one step, is at least 2, and every open file has read or write mode.
- PipeTheorems.PipeIsFifo: once an open has overrun the buffer (`PipeTheorems.InBoundsIff`), it assumes that nobody else writes to the memory behind it.
- PipeProtocol.StepRead: a pointer update with its wrap is one step, since it runs under the semaphore, and so are the unlocked tests of both pointers at lines 132 and 170, which the C code reads one after the other.
- Pipe.ScullPipe.Read: one call, run alone, on a file with O_NONBLOCK; blocking reads are the subject of `PipeProtocol`. The same holds for `Pipe.ScullPipe.Write` and `Pipe.ScullPipe.GetWriteSpace`.
- Pipe.ScullPipe.Poll: modelled as a call run alone; its registration on the wait queues is not part of the protocol.
- RoundTrip.StoreAndFetch: assumes that no allocation and no copy fails; `BlockStore.ScullDev.Write` says what happens otherwise.
- BlockingOpen.StepOpen: the unlocked test of count and owner at line 180 is one step, and credentials change only between calls.
- Permits.EventConserves: each wait and each signal is one atomic step. The code tests the count after dropping the lock (lines 1315 and 1346), so the law holds of the intended design and not of every interleaving; signals that interrupt a waiter are left out too.
- EventTable.EventList.Open: `kmalloc` is taken to succeed, as the code does not check it; counts and event numbers are unbounded integers, and so are the open counters of the devices.
- EventTable.EventList.Serve: runs that close the tail event are excluded, because no list is left after that (`EventTable.EventList.Close`).
- ClonedDevices.DeviceList.LookFor: the kernel list is a sequence of items, so its links are not modelled; the device inside an item and the controlling-terminal check of `scull_c_open` are left out.
- fasync and SIGIO, `scull_llseek`, `/proc` output, device registration, module set-up and clean-up: they would add only easy members or describe the kernel's interfaces.
- `scull_trim` as called without the device semaphore by the opens of `access.c`: the open policies do not model data.
- User memory and capabilities are parameters: how many bytes can be copied before a fault, and whether the caller has the capability.
- Lines 1-1226 of `exp6.c` (the page-fault handler) and experiments 1 to 5.
