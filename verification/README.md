# Verification of NBA's core algorithms

NBA is a packet-processing framework: elements that look up routes, check and rewrite IP headers and
encrypt packets, run on an event loop. This project models the algorithms at its core in Dafny and
proves what they promise, each in the form the program has: classes with fields updated in place,
loops over arrays, linked lists, and pure functions where the program computes values. Each method is
proved against a function of its inputs, and the properties are proved about those functions.

| module | part of the program |
|---|---|
| `Wakeup` | the wake-up protocol between threads of the vendored libev, as a state machine over single memory accesses |
| `Heap4`, `Pending`, `EvLoop` | libev's timer heap and pending queues, expiry and invocation |
| `PollBackend`, `FdReify` | libev's I/O watchers, the deferred change list and the poll backend |
| `Address128`, `PrefixSearch`, `PrefixBuild`, `PrefixRun`, `PrefixExamples`, `HashLayout`, `HashTable`, `RoutingTableV6` | the IPv6 routing table: binary search over prefix lengths, its markers, over chained hash tables |
| `DirectFib` | the IPv4 forwarding table (DIR-24-8) |
| `Fips197`, `Aes` | the standard's cipher, and AES-128 over tables with the round keys computed on the fly in both directions |
| `Checksum` | the IPv4 header checksum, its test and its update with the TTL |
| `Esp` | ESP encapsulation, encryption and authentication on the packet buffer |
| `LinearPaths`, `GraphAnalyzer` | the division of the element graph into linear groups |
| `PacketBatch` | compaction of a packet batch |
| `Words`, `Bitmap` | the word-packed bitmap |
| `Arith`, `Collections` | powers of two, quotients and truncation, and vocabulary used by the others |

The specifications are independent of the algorithms: longest-prefix match by descending over lengths,
reachability by layers, sums of 16-bit words, sets of bits, the cipher of FIPS 197, HMAC, a heap
order, histories of events, the set of events of the active watchers. `hide` statements in proofs
only keep definitions from the solver that a step does not need.

Where the code does not do what its comments or names say, the code is followed:

- `build_direct_fib` takes bit 15 of a next hop for its own tag, while `load_rib_from_file` draws
  next hops up to 65532: `DirectFib.BuildDirectFib` tells which addresses are answered rightly all the same,
  `DirectFib.TaggedDefaultIsLost` is an example of those that are not.
- Inserting a key of a hash table again cuts off the keys chained behind it:
  `HashLayout.OthersSurvive` tells exactly when nothing is lost, `HashLayout.SecondKeyIsLost` is an
  example, and `RoutingTableV6.RoutingTable.RoomWhenSpread` gives the routes and hash functions for
  which `build` does not suffer from it.
- The value of an IPv6 marker is what a lookup of its bits, extended with zeros, finds in the half-built
  tables. Where no shorter route covers it the value is 0 and reads as a miss
  (`PrefixExamples.UncoveredRouteIsMissed`); where a longer route continues it with zeros, the lookup may
  find that one, whose hop then overwrites the marker or the route stored there
  (`PrefixExamples.LongerHidesShorter`). Addresses that depend on no such marker are answered
  rightly all the same (`PrefixBuild.ReliableIsAnswered`). `RoutingTableV6.RoutingTable.Build` gives a
  condition on the routes under which all addresses are answered rightly, necessary for all routes whose
  markers decide it (`PrefixBuild.BuildableIsNecessary`); for others the order of the hash tables decides
  (`PrefixExamples.OrderMatters`).
- `IPsecAES` lets the cipher advance the vector inside the packet: a receiver that takes the vector from
  there does not get the datagram back in general (`Esp.ReceivedWith`, `Esp.PacketVectorFails`).
- `collect_excluded_packets` clears the flag of a packet it swaps in from the tail:
  `PacketBatch.SweepDropsAll` tells exactly when every excluded packet is dropped.
- A node that is pushed twice is recorded twice in its linear group: `GraphAnalyzer.Analyze` tells
  that only the first node of a path can be, and only if it has not exactly one way in.
- The padding of an ESP packet is zero, where section 2.4 of RFC 4303 has 1, 2, 3 and so on.

`dafny verify dfyconfig.toml` verifies the project.

## Model

| member | source | states |
|---|---|---|
| `Wakeup.NoLostWakeup` | 3rdparty/libev/ev.c:2427-2472 | In every interleaving of any number of senders with the loop, whenever the loop waits in the backend poll and a watcher is marked as sent to, the pipe is readable or some sender inside `evpipe_write` will still write it. |
| `Wakeup.WaitingIsSafe` | 3rdparty/libev/ev.c:3602-3665 | The same for every state that satisfies the protocol invariant, not only for reached ones. |
| `Wakeup.WillWriteWrites` | 3rdparty/libev/ev.c:2439-2472 | The sender that is still on its way, left to itself, makes the pipe readable within six of its own steps, and the loop is still waiting then. |
| `Wakeup.CompletedSendsWake` | 3rdparty/libev/ev.c:4904-4908 | When all senders have returned, a loop that waits while a send is not yet answered has a readable pipe: no completed send is slept through. |
| `Wakeup.EverySendIsFed` | 3rdparty/libev/ev.c:2427-2539 | In every endless interleaving, wherever the senders are in `evpipe_write` and whatever is sent meanwhile, a watcher that was sent to is fed by a later step of the loop, provided that a sender inside `evpipe_write` goes on at some time and the loop keeps running and is not interrupted in each of its polls for ever. |
| `Wakeup.SecuredRunDelivers` | 3rdparty/libev/ev.c:2477-2539 | Once the loop has the watcher in hand, or its flag is up and the pipe is readable, every finite run without an interrupted poll and with more loop steps than an explicit number feeds it, with any steps of any senders in between. |
| `Wakeup.SecuredKept` | 3rdparty/libev/ev.c:3602-3665 | No step of a sender or of the loop, a new send or an early return of a poll included, takes a watcher out of that situation, except the step that feeds it. |
| `Wakeup.SecuredStepCloser` | 3rdparty/libev/ev.c:3602-3665 | Without an interrupted poll no step leads away from the feed and each step of the loop leads closer. |
| `Wakeup.WaitingIsWoken` | 3rdparty/libev/ev.c:2439-2466 | A loop that waits with nothing to read although `pipe_write_skipped` is set has a sender about to test `pipe_write_wanted` or to clear the mark, who will wake it. |
| `Wakeup.LoopStepDelivers` | 3rdparty/libev/ev.c:3602-3665 | When no sender is inside `evpipe_write` and a send is owed, a step of the loop is possible and either feeds it or lowers a rank. |
| `Wakeup.Deliver` | 3rdparty/libev/ev.c:2523-2538 | So the loop alone, from any such state that satisfies the invariant, feeds the watcher within an explicit number of its steps. |
| `Wakeup.NoSpuriousFeed` | 3rdparty/libev/ev.c:2530-2536 | In every interleaving a watcher is fed at most as often as it was sent to; sends may coalesce, none is invented. |
| `Wakeup.RunKeepsInv` | 3rdparty/libev/ev.c:2427-2539 | The protocol invariant (marks announced by flags, flags by a skipped or written wake-up) holds along every run. |
| `Wakeup.StepKeepsInv` | 3rdparty/libev/ev.c:3602-3665 | Every single step of a sender or of the loop, including polls that return early or are interrupted, keeps the invariant. |
| `Wakeup.SenderStepKeepsInv` | 3rdparty/libev/ev.c:2427-2472 | A step inside `evpipe_write` keeps it. |
| `Wakeup.LoopStepKeepsInv` | 3rdparty/libev/ev.c:2477-2539 | A step of `ev_run` or `pipecb` keeps it. |
| `Wakeup.SendKeepsInv` | 3rdparty/libev/ev.c:2544-2557 | The write that marks a watcher before `evpipe_write` is called keeps it. |
| `Wakeup.RunKeepsFeedsPaidFor` | 3rdparty/libev/ev.c:2569-2592 | Along every run, feeds plus outstanding marks never exceed sends. |
| `EvLoop.Loop.FeedEvent` | 3rdparty/libev/ev.c:1985-2002 | Feeding a pending watcher leaves it with exactly the bits it had and the bits fed, any other one gets one slot of its priority, to which its `pending` then points; every other watcher keeps its events; the queues and the `pending` fields stay inverse; the feed enters the history. |
| `EvLoop.Loop.ClearPending` | 3rdparty/libev/ev.c:3776-3801 | Clearing returns the collected events, leaves the slot to the dummy watcher and touches no other slot or watcher. |
| `EvLoop.Loop.TakePending` | 3rdparty/libev/ev.c:3283-3288 | The event taken is the last of the highest nonempty priority, and carries what its watcher was fed. |
| `EvLoop.Loop.InvokePending` | 3rdparty/libev/ev.c:3275-3292 | With callbacks that feed, clear and recursively invoke as an arbitrary script says, the feeds, clears and calls that enter the history, their order, the queues and what is left of the script are exactly those of the run on values; every event was possible when it happened, every event bit ever fed was afterwards passed to its callback or cleared, all queues are empty on return; without a script the calls are exactly the drain order. |
| `EvLoop.Loop.RunOps` | 3rdparty/libev/ev.c:3275-3292 | What one callback does, recursive invocation included, enters the history in the order of its operations, and exactly so. |
| `EvLoop.Loop.RunOp` | 3rdparty/libev/ev.c:3275-3292 | The same for one operation. |
| `Pending.DrivenIsPossible` | 3rdparty/libev/ev.c:3275-3292 | Every run on values is a possible history for every script: each call has the highest nonempty priority at that moment and carries what was collected, and replaying the events gives the queues left. |
| `Pending.DrivenByNothing` | 3rdparty/libev/ev.c:3275-3292 | With callbacks that do nothing the run is the drain order. |
| `Pending.DrivenLeavesNothing` | 3rdparty/libev/ev.c:3275-3292 | A run leaves nothing pending, whatever the callbacks do. |
| `Pending.DrivenFollows` | 3rdparty/libev/ev.c:3275-3292 | In every run each callback, recursive ones included, is invoked with its part of the script and followed by what that part asks for, in its order, up to the first nested run; and every feed and clear happens exactly as often as the parts used up ask for it. |
| `Pending.DrainedStep` | 3rdparty/libev/ev.c:3281-3288 | The drain order begins with the last slot of the highest nonempty priority and continues with the drain order of the rest. |
| `Pending.DrainedAt` | 3rdparty/libev/ev.c:3275-3292 | Slot `i` of priority `p` runs after all slots of higher priorities and all later slots of its own: its place in the order is exact. |
| `Pending.CallCarries` | 3rdparty/libev/ev.c:3283-3288 | In every possible history a callback is invoked with exactly the events fed since its watcher was last called or cleared, and only if there were any: a bit is in the call if and only if one of these feeds, or the slot at first, has it. |
| `Pending.FedIsSettled` | 3rdparty/libev/ev.c:3275-3292 | In every possible history that ends with an empty queue, each feed is followed by a call of its watcher, or a clear, that carries every bit of it. |
| `Pending.WaitingIsSettled` | 3rdparty/libev/ev.c:3275-3292 | The same for what was pending at first. |
| `Pending.LaterSlotFirst` | 3rdparty/libev/ev.c:3283-3288 | In every possible history, of two watchers that wait in one queue the one in the earlier slot is not called before the other was called or cleared, unless it was itself cleared in between. |
| `Pending.QueueTells` | 3rdparty/libev/ev.c:1985-2002 | In every possible history a watcher waits in its queue with exactly the events collected for it, or not at all. |
| `EvLoop.UpHeap` | 3rdparty/libev/ev.c:2321-2339 | In place, `upheap` computes exactly the rising of the entry, rearranges the entries in use and leaves every watcher's `active` equal to its index. |
| `EvLoop.DownHeap` | 3rdparty/libev/ev.c:2241-2281 | The same for `downheap`, on its fast and its slow path. |
| `EvLoop.SmallestChild` | 3rdparty/libev/ev.c:2250-2268 | Both paths find the first smallest child; the fourth comparison of the slow path can never apply. |
| `EvLoop.AdjustHeap` | 3rdparty/libev/ev.c:2343-2349 | `adjustheap` moves a changed entry up or down as the heap order demands, with all back pointers right. |
| `EvLoop.Reheap` | 3rdparty/libev/ev.c:2353-2361 | `reheap` turns any order of the entries into a heap of the same entries with right back pointers. |
| `EvLoop.Loop.TimerStart` | 3rdparty/libev/ev.c:3875-3896 | Starting adds exactly this timer to the active ones, due `at` after now; heap order, cached times and back pointers hold; starting an active timer changes nothing. |
| `EvLoop.Loop.TimerStop` | 3rdparty/libev/ev.c:3899-3926 | Stopping removes exactly this timer, takes back its offset and its pending event, and keeps everything else. |
| `EvLoop.Loop.LeaveHeap` | 3rdparty/libev/ev.c:3907-3919 | The array part of a stop: the last entry takes the freed place and is adjusted. |
| `EvLoop.Loop.TimerAgain` | 3rdparty/libev/ev.c:3929-3953 | A repeating timer is active afterwards and due `repeat` from now, another one is stopped; nothing is pending. |
| `EvLoop.Loop.TimersReschedule` | 3rdparty/libev/ev.c:3450-3461 | A uniform shift of all active timers keeps the heap and moves no other timer. |
| `EvLoop.Loop.TimersRestored` | 3rdparty/libev/ev.c:3103-3115 | The three conditions of `verify_heap` (index, order, cached time) hold again after the array was rearranged, for the same active timers. |
| `EvLoop.Loop.RootIsEarliest` | 3rdparty/libev/ev.c:3329 | The timer at the root is active and no active timer is earlier. |
| `EvLoop.Loop.ExpireRoot` | 3rdparty/libev/ev.c:3327-3350 | One round takes an earliest due timer. A repeating one is active, due one interval after the time it was due, or now if that is in the past, and as pending as before; another one is inactive, keeps its distance from now and is not pending. All other timers are as before. |
| `EvLoop.Loop.Repeat` | 3rdparty/libev/ev.c:3331-3343 | The rescheduling of a repeating timer: one interval after its old time, or now if that has passed; heap, index and cached time follow. |
| `EvLoop.NoDrift` | 3rdparty/libev/ev.c:3334-3338 | A repeating timer does not drift: as long as no round is a whole interval late, after `n` rounds it is due exactly `n` intervals after the first time, whenever the rounds took place. |
| `EvLoop.Loop.CollectDue` | 3rdparty/libev/ev.c:3327-3351 | The loop terminates, takes every due timer exactly once and in the order of their times, and leaves no active timer due; a repeating timer cannot come up again. |
| `EvLoop.Loop.FeedReverseDone` | 3rdparty/libev/ev.c:2012-2017 | Feeding the collected watchers last to first leaves each pending once, an earlier one behind all later ones of its priority. |
| `EvLoop.Loop.TimersReify` | 3rdparty/libev/ev.c:3321-3355 | The whole of `timers_reify`, in the fields: the due timers are those active with a time before now; a repeating one is due one interval after its old time, or now if that has passed, another one is inactive; each is pending with the timer event and exactly the bits it keeps; all other timers are as before; the due ones come in the order of their times, and of two of one priority the earlier lies in the later slot unless it repeats and was pending already. |
| `EvLoop.Loop.InvokeWaiting` | 3rdparty/libev/ev.c:3275-3292 | Whatever the callbacks do, every watcher pending at first is called, or cleared, with its events, and of two of one priority the one in the later slot comes first. |
| `EvLoop.Loop.ReifyAndInvoke` | 3rdparty/libev/ev.c:3321-3355 | Because both steps reverse, timers due, of one priority and not pending before, run in nondecreasing order of their times, for every script of what callbacks do, as far as they are not cleared in between; each due timer is called, or cleared, with the timer event. |
| `Heap4.Parent` | 3rdparty/libev/ev.c:2236 | `HPARENT` with C's division: the root is its own parent, every other parent is smaller. |
| `Heap4.UpOrders` | 3rdparty/libev/ev.c:2321-2339 | Raising the one entry that may be out of order gives a heap. |
| `Heap4.DownOrders` | 3rdparty/libev/ev.c:2241-2281 | Sinking the one entry that may be out of order gives a heap. |
| `Heap4.AdjustOrders` | 3rdparty/libev/ev.c:2343-2349 | Replacing any entry of a heap by any other and adjusting gives a heap. |
| `Heap4.UpRearranges` | 3rdparty/libev/ev.c:2321-2339 | Raising loses and doubles no entry and leaves the unused part alone. |
| `Heap4.DownRearranges` | 3rdparty/libev/ev.c:2241-2281 | Nor does sinking. |
| `Heap4.RootIsLeast` | 3rdparty/libev/ev.c:3325 | The root of a heap is a least entry. |
| `PollBackend.Backend.Modify` | 3rdparty/libev/ev_poll.c:52-86 | Whatever was asked for before, afterwards the requests are the old ones with `nev` for this descriptor, or without it for no events; the new request has POLLIN if and only if `nev` reads, POLLOUT if and only if it writes, and nothing else; `pollidxs` stays the exact inverse of the entries in use, -1 elsewhere, through growth and swap-removal. |
| `PollBackend.EntriesAreAsked` | 3rdparty/libev/ev_poll.c:63-86 | The entries in use hold each request once and nothing else. |
| `PollBackend.EntryRemoved` | 3rdparty/libev/ev_poll.c:76-85 | Moving the last entry into the gap removes this request only and keeps the inverse index. |
| `FdReify.Loop.IoStart` | 3rdparty/libev/ev.c:3830-3853 | A start adds exactly this watcher, registers its descriptor as changed, once, and clears the one-shot bit; an active watcher is left alone. |
| `FdReify.Loop.IoStop` | 3rdparty/libev/ev.c:3856-3872 | A stop removes exactly this watcher and registers its descriptor; an inactive one is left alone. |
| `FdReify.Loop.FdChange` | 3rdparty/libev/ev.c:2126-2137 | A descriptor enters the change list exactly when it is not marked yet: the list stays the set of marked descriptors without duplicates. |
| `FdReify.Loop.ListAdd` | 3rdparty/libev/ev.c:3754-3758 | The linked lists hold exactly the active watchers, each in the list of its descriptor, after an addition at the head. |
| `FdReify.Loop.ListDel` | 3rdparty/libev/ev.c:3761-3773 | The same after a removal from anywhere in a list. |
| `FdReify.Loop.Reify` | 3rdparty/libev/ev.c:2095-2119 | One round records the events of all active watchers of the descriptor and tells the backend; all other descriptors stay as they were. |
| `FdReify.Loop.FdReify` | 3rdparty/libev/ev.c:2066-2122 | Afterwards nothing is left to change, and for every descriptor the backend asks for POLLIN if and only if some active watcher of it reads, for POLLOUT if and only if one writes, for nothing else, and not at all if and only if none waits. |
| `FdReify.Loop.Current` | 3rdparty/libev/ev.c:2107-2118 | That equivalence, in the kernel's bits, from the state in which every recorded mask is the OR of its watchers. |
| `FdReify.MaskBit` | 3rdparty/libev/ev.c:2110-2111 | The collected mask has a bit if and only if some watcher of the list has it. |
| `Address128.MaskIsTruncation` | elements/ipv6/util_routing_v6.hh:10-26 | `mask` on the two words is truncation of the 128-bit number to its first bits, for every length from 0 to 128. |
| `Address128.MaskMask` | elements/ipv6/util_routing_v6.hh:10-26 | Masking twice is masking to the shorter length. |
| `PrefixSearch.LpmIsLongest` | elements/ipv6/util_routing_v6.cc:84-108 | The specification picks the next hop of the matching route above which none matches. |
| `PrefixSearch.SearchIsLpm` | elements/ipv6/util_routing_v6.cc:84-108 | For any tables in which routes are marked where their search turns right and entries on the way hold the match of their own bits, the `do … while` search ends with the longest match. |
| `PrefixSearch.SearchIsEnd` | elements/ipv6/util_routing_v6.cc:84-108 | The search returns what is stored at the last level where it found something. |
| `PrefixSearch.EndDeeper` | elements/ipv6/util_routing_v6.cc:97-105 | The more levels hold something, the deeper the search ends. |
| `PrefixSearch.EndReaches` | elements/ipv6/util_routing_v6.cc:97-105 | It ends no earlier than a level that holds something, if every level at which the search for that one turns right does. |
| `PrefixBuild.LookupIsLpm` | elements/ipv6/util_routing_v6.cc:84-108 | A lookup is right as soon as the routes that match the address have their markers and the entries on its way hold the match of their own bits, even in unfinished tables. |
| `PrefixBuild.MarkerValue` | elements/ipv6/util_routing_v6.cc:63-64 | If the markers on the way of its bits, extended with zeros, and on the ways of those markers' bits are covered and quiet, longer routes under the marker included, the value `build` looks up for a marker in the half-built tables is the longest match of the marker's own bits among the levels up to its own, and not 0, whatever other markers are. |
| `PrefixBuild.EndsBetween` | elements/ipv6/util_routing_v6.cc:62-67 | Whatever the order of the enumeration, the search for a marker about to be written ends between two levels that the routes determine: what is surely stored on its way, and what at most can be. |
| `PrefixBuild.MarkerKeeps` | elements/ipv6/util_routing_v6.cc:65-67 | Placing any marker, covered or not, keeps every entry on the way of every address whose own markers are in order the longest match of its key. |
| `PrefixBuild.MarkerKeepsWeak` | elements/ipv6/util_routing_v6.cc:63-67 | Where no longer route matches the marker's bits extended with zeros, the marker is stored as nonzero only if a shorter-or-equal route covers it. |
| `PrefixBuild.UncoveredIsWrong` | elements/ipv6/util_routing_v6.cc:63-104 | A marker that no route covers makes the finished tables answer some address wrongly, whether it is stored as 0, which hides its route, or not, which answers where nothing matches. |
| `PrefixBuild.LoudIsWrong` | elements/ipv6/util_routing_v6.cc:63-104 | A marker for which the search must end at a longer route, with no longer route of the right hop to be found, makes them answer wrongly every address under the marker that sees nothing longer, in every order of the enumeration. |
| `PrefixBuild.OneLongerIsWrong` | elements/ipv6/util_routing_v6.cc:63-104 | So it is wherever a routed key continued with zeros is the only longer route under it, has another next hop, and turns right nowhere beyond the key's level: every address of the key outside the longer route is answered wrongly. |
| `PrefixBuild.BuildableIsNecessary` | elements/ipv6/util_routing_v6.cc:48-108 | For masked keys and nonzero next hops, with every stored key seen by some address: if each marker is quiet or loud, the finished tables answer every address rightly if and only if all markers are covered and quiet. No assumption is made on longer routes under a marker. |
| `PrefixBuild.ClearIsDecided` | elements/ipv6/util_routing_v6.cc:48-82 | If no longer route matches a marker extended with zeros, all markers are quiet: then covering alone decides, and markers need not be seen by an address of their own. |
| `PrefixBuild.MarkerStep` | elements/ipv6/util_routing_v6.cc:62-76 | A round of the inner loop of `build` keeps all that is known of the tables, marks its right turn and keeps those before. |
| `PrefixBuild.PlainIsBuildable` | elements/ipv6/util_routing_v6.cc:48-82 | Both one-bit prefixes routed, nonzero next hops and longer routes ending in a 1 bit suffice for what `build` needs. |
| `PrefixBuild.FinishedTablesAnswer` | elements/ipv6/util_routing_v6.cc:48-108 | When all routes were processed, the search is longest-prefix match on every address. |
| `PrefixBuild.ReliableIsAnswered` | elements/ipv6/util_routing_v6.cc:48-108 | Address by address: the finished tables answer an address with its longest match if the markers on its way, and on the ways of their bits extended with zeros, are covered and quiet, whatever the other routes and markers are. |
| `PrefixBuild.FinishedTablesHold` | elements/ipv6/util_routing_v6.cc:58-69 | The finished tables hold the routes and the markers of longer routes and nothing else, and the longest match of the key itself wherever its markers are in order. |
| `PrefixRun.RouteRuns` | elements/ipv6/util_routing_v6.cc:58-77 | Writing the markers of one route in the order of the halving keeps all that is known of the tables and leaves the route marked. |
| `PrefixRun.LevelsRun` | elements/ipv6/util_routing_v6.cc:55-79 | So does writing the markers of all routes, level by level, each level in any order. |
| `PrefixRun.LosslessServes` | elements/ipv6/util_routing_v6.cc:48-82 | A run that cuts nothing off makes tables with exactly the routes and their markers, right entries and answers wherever the markers needed are in order, and right answers everywhere if and only if the routes are buildable, as far as they decide that. |
| `PrefixRun.LossesElsewhere` | elements/ipv6/util_routing_v6.cc:63-69 | What a run that cuts keys off chains leaves on the way of an address is the same as without losses, if no key on its way, or on the way of the bits of a marker there, was ever cut off. |
| `PrefixRun.SparedIsAnswered` | elements/ipv6/util_routing_v6.cc:48-108 | So such an address, with its markers in order, is answered by its longest match whatever else was lost. |
| `PrefixExamples.UncoveredRouteIsMissed` | elements/ipv6/util_routing_v6.cc:99-101 | Where no shorter route covers a marker it is stored as 0 and reads as a miss: a table with a single 96-bit route never finds it. |
| `PrefixExamples.LongerHidesShorter` | elements/ipv6/util_routing_v6.cc:63-67 | A /32 route and the /48 that continues it with zeros, as 2001:db8::/32 and 2001:db8::/48: all addresses of the /32 outside the /48 are answered with the hop of the /48. |
| `PrefixExamples.DeeperTurnIsHarmless` | elements/ipv6/util_routing_v6.cc:62-76 | A /56 in place of the /48 does no harm: all addresses are answered rightly. |
| `PrefixExamples.DeeperTurnIsBuildable` | elements/ipv6/util_routing_v6.cc:62-76 | The condition on the routes tells that, although a longer route matches the marker. |
| `PrefixExamples.UncoveredElsewhere` | elements/ipv6/util_routing_v6.cc:58-76 | A /48 that no route covers does no harm elsewhere: the addresses under a /32 with a /56 below it depend on markers in order only, so they are answered rightly. |
| `PrefixExamples.OrderMatters` | elements/ipv6/util_routing_v6.cc:58-76 | With a second /56 under the /32 it depends on which of the two the hash table lists first: no condition on the routes alone can be exact for all route sets. |
| `HashLayout.InsertedOk` | elements/ipv6/util_hash_table.cc:42-66 | The exact effect of an insertion, for any hash function: the key gets the value and the joined states, exactly the keys chained behind it are lost, and chains stay acyclic and within the memory. |
| `HashLayout.OthersSurvive` | elements/ipv6/util_hash_table.cc:60-63 | All other keys survive if and only if the key is new or the last of its chain. |
| `HashLayout.JoinHas` | elements/ipv6/util_hash_table.cc:62 | The joined state has the flags of both states and no other. |
| `HashLayout.HoldingInserted` | elements/ipv6/util_hash_table.cc:42-66 | The memory of the example below is what inserting the two keys into an empty table gives. |
| `HashLayout.SecondKeyIsLost` | elements/ipv6/util_hash_table.cc:60-63 | Two keys in one bucket, then the first again: the table holds the first only. |
| `HashLayout.RoomWhenCrowdFits` | elements/ipv6/util_hash_table.cc:48-53 | As long as the keys that share a bucket with another do not outnumber the buckets, a new key finds room for chaining. |
| `HashLayout.ChainsDisjoint` | elements/ipv6/util_hash_table.cc:48-58 | No item belongs to two places of chains. |
| `HashLayout.CopyStandsForSame` | elements/ipv6/util_hash_table.cc:93-99 | The items copied by `clone_from` stand for the same map. |
| `HashTable.HashTable128.Insert` | elements/ipv6/util_hash_table.cc:42-66 | In place: the abstract map changes exactly so; a flag is set for the key afterwards if and only if it was set or is added; where the source's assertion on the chaining space fails, nothing changes. |
| `HashTable.HashTable128.Walk` | elements/ipv6/util_hash_table.cc:48-58 | The walk ends at the item of the key, or links the one free item for it at the end of the chain. |
| `HashTable.HashTable128.Find` | elements/ipv6/util_hash_table.cc:68-91 | `find` returns the value and state the map has for the key, and 0 for a missing key. |
| `HashTable.HashTable128.Next` | elements/ipv6/util_hash_table.hh:72-88 | The iterator moves to the very next item it may stop at and stays within the items in use. |
| `HashTable.HashTable128.Begin` | elements/ipv6/util_hash_table.hh:66-71 | It begins at the first bucket that holds a prefix. |
| `HashTable.HashTable128.CloneFrom` | elements/ipv6/util_hash_table.cc:93-99 | A copy has the same map, if the assertion on the sizes holds. |
| `RoutingTableV6.RoutingTable.constructor` | elements/ipv6/util_routing_v6.hh:31 | A new table satisfies everything the other operations require and holds no route. |
| `RoutingTableV6.RoutingTable.Add` | elements/ipv6/util_routing_v6.cc:30-34 | A route is stored under its masked address exactly if the hash table of its length has room, exactly the keys chained behind it are lost there, and no other level changes. |
| `RoutingTableV6.RoutingTable.Lookup` | elements/ipv6/util_routing_v6.cc:84-108 | The loop over the hash tables computes the search of the abstract tables. |
| `RoutingTableV6.RoutingTable.PlaceRoute` | elements/ipv6/util_routing_v6.cc:58-77 | The inner loop writes exactly the markers of the route, in the order of the halving, each with what a lookup finds at that moment, or all before the first that finds no room; what each insertion cuts off is recorded. |
| `RoutingTableV6.RoutingTable.PlaceItem` | elements/ipv6/util_routing_v6.cc:58-76 | One item of the enumeration: the markers of its route, then the iterator moves to the next route of the list. |
| `RoutingTableV6.RoutingTable.PlaceTable` | elements/ipv6/util_routing_v6.cc:58-77 | Enumerating the hash table writes the markers of every route of its length, in the order of the items, whatever the layout. |
| `RoutingTableV6.RoutingTable.Build` | elements/ipv6/util_routing_v6.cc:48-82 | The tables afterwards are exactly what writing the markers of all routes makes of them, in the order in which the hash tables list the routes, each with what a lookup finds at that moment, up to the first that finds no room. If nothing was cut off a chain, which the counts of losses tell exactly and which is so for spread tables, they hold the routes and markers and nothing else, answer each address rightly whose own markers are covered and quiet, and all addresses if and only if all markers are so, for routes seen by some address with every marker quiet or surely not. If something was cut off, each such address is answered rightly that depends on no key cut off. |
| `PrefixBuild.TracedNew` | elements/ipv6/util_routing_v6.cc:58-69 | Whatever the order of the enumeration, `build` writes a marker over an existing key only if two routes share the marker or a route lies under it. |
| `RoutingTableV6.RoutingTable.RoomWhenSpread` | elements/ipv6/util_hash_table.cc:47-63 | Under that condition each insertion of `build` has room and cuts nothing. |
| `RoutingTableV6.RoutingTable.ListedAll` | elements/ipv6/util_hash_table.hh:66-88 | A hash table that holds routes only lists each of them exactly once. |
| `DirectFib.BuildDirectFib` | elements/ip/ip_route_core.cc:56-105 | For canonical routes and at most 32768 spilled slots: all writes are in bounds, and the tables are exactly what placing the longer routes, in some order with shorter ones first, makes of the answers of the short routes. Each entry of the first table names the block of its slot or is the slot's answer by the routes of at most 24 bits. An address is answered with its longest match if that answer does not use bit 15 and its slot has no block that the routes of a slot so answered are written to; so every address of an untagged slot, if no tagged slot holds a longer route. When no longer route uses that bit, right answers everywhere imply that longer routes cover each tagged slot completely, so untagged slots everywhere are also necessary unless they do. |
| `DirectFib.DirectLookup` | elements/ip/ip_route_core.cc:107-118 | The lookup reads the two tables as the specification of the tables says. |
| `DirectFib.PlaceLongRoute` | elements/ip/ip_route_core.cc:77-102 | One longer route: its slot gets a block of its own, or its range of the block its entry names is overwritten; all other slots and blocks answer as before, the write one entry beyond the block included; what it makes of the two tables is exact, also for a slot whose answer is taken for a block number. |
| `DirectFib.PlaceShort` | elements/ip/ip_route_core.cc:65-74 | The routes of one length, in any order, leave every slot with its match among the lengths so far. |
| `DirectFib.SpillAdds` | elements/ip/ip_route_core.cc:81-94 | A first longer route in a slot: the new block holds the old answer of the slot outside the route's range. |
| `DirectFib.OverlayAdds` | elements/ip/ip_route_core.cc:95-101 | A further longer route changes exactly the addresses it covers; a route of a slot whose answer is taken for a block number harms that block only. |
| `DirectFib.ShortRouteCovers` | elements/ip/ip_route_core.cc:69-72 | The slots written for a short route are exactly those whose addresses it matches. |
| `DirectFib.LongRouteCovers` | elements/ip/ip_route_core.cc:82-90 | The entries written for a longer route are exactly the addresses it matches, within one block. |
| `DirectFib.FinishedTablesAnswer` | elements/ip/ip_route_core.cc:56-118 | The finished tables answer an address with its longest-prefix match unless its slot is answered with bit 15 or shares its block with such a slot. |
| `DirectFib.TaggedSlotIsLost` | elements/ip/ip_route_core.cc:112-116 | A next hop with bit 15 is read as a block number: a slot with such an answer that longer routes do not cover has an address that is answered wrongly, although `load_rib_from_file` draws such next hops. |
| `DirectFib.RightTablesHideTags` | elements/ip/ip_route_core.cc:112-116 | Tables with small second-table entries answer everything rightly only if every slot with such an answer is covered by longer routes. |
| `DirectFib.TaggedDefaultIsLegal` | elements/ip/ip_route_core.cc:56-61 | A default route to next hop 0x8000 alone meets everything else the builder needs, and every slot shows its tagged answer. |
| `DirectFib.TaggedDefaultIsLost` | elements/ip/ip_route_core.cc:112-116 | For it no tables whose second-table entries are below 0x8000, as those the builder writes for it are, give the right answer for any address. |
| `DirectFib.SmallHopsUntagged` | elements/ip/ip_route_core.cc:65-74 | It suffices that no route of at most 24 bits has such a next hop. |
| `DirectFib.BlockNumbersFit` | elements/ip/ip_route_core.cc:92 | A block number survives the tag if and only if it has 15 bits; block 32768 would alias block 0. |
| `DirectFib.TagIsTopBit` | elements/ip/ip_route_core.cc:80-97 | On 16-bit entries the tests and masks of the tag are those of the source, 0x8000 and 0x7fff. |
| `DirectFib.LpmIsLongest` | elements/ip/ip_route_core.cc:107-118 | The specification picks the next hop of the longest matching route. |
| `DirectFib.AddedRoute` | elements/ip/ip_route_core.cc:15-20 | After `add_route` exactly the addresses whose longest match is the new route change their answer. |
| `DirectFib.DeletedRoute` | elements/ip/ip_route_core.cc:22-27 | After `delete_route` exactly the addresses whose longest match was the route fall back to their longest shorter match. |
| `DirectFib.AddRoute` | elements/ip/ip_route_core.cc:15-20 | The route enters the map of its length in place, and longest-prefix match changes to its next hop exactly where it is now the longest match. |
| `DirectFib.DeleteRoute` | elements/ip/ip_route_core.cc:22-27 | The route leaves the map of its length in place, and exactly the addresses it answered fall back to their longest shorter match. |
| `Aes.DecryptInvertsEncrypt` | elements/ipsec/IPsecAES_CBC_kernel_core.hh:759-1184 | For every block and key, decrypting from the tenth round key gives back the plaintext, and the key buffer ends as the original key. |
| `Aes.KeyStepsInverse` | elements/ipsec/IPsecAES_CBC_kernel_core.hh:716-755 | The two key steps undo each other in both directions, for any tables and round constant. |
| `Aes.KeysRunBack` | elements/ipsec/IPsecAES_CBC_kernel_core.hh:738-755 | After `n` steps back from the tenth round key the buffer holds round key `10 - n`. |
| `Aes.StatesRunBack` | elements/ipsec/IPsecAES_CBC_kernel_core.hh:885-1184 | After `n` rounds of decryption the state is the shifted and substituted state of the encryption after `9 - n` rounds. |
| `Aes.DecRoundUndoes` | elements/ipsec/IPsecAES_CBC_kernel_core.hh:915-941 | A decryption round with the table-mixed key takes back one encryption round (the equivalent inverse cipher of section 5.3.5 of FIPS 197). |
| `Aes.InvMixOfMix` | elements/ipsec/IPsecAES_CBC_kernel_core.hh:915-941 | InvMixColumns undoes MixColumns: the product of the two matrices over GF(2^8) is the identity. |
| `Aes.TablesOfOk` | elements/ipsec/IPsecAES_CBC_kernel_core.hh:759-766 | Tables with the relations assumed exist for every invertible substitution box. |
| `Aes.EncryptedIsCipher` | elements/ipsec/IPsecAES_CBC_kernel_core.hh:759-882 | With the source's round constants the ten rounds over the tables are the cipher of FIPS 197 (sections 5.1 and 5.2): SubBytes, ShiftRows, MixColumns, AddRoundKey and the key expansion, on every block and key. |
| `Aes.RoundsAreFips` | elements/ipsec/IPsecAES_CBC_kernel_core.hh:789-847 | After each of the nine full rounds the four words are the columns of the standard's state. |
| `Aes.KeysAreFips` | elements/ipsec/IPsecAES_CBC_kernel_core.hh:716-735 | The keys computed on the fly are the words of the standard's key expansion. |
| `Fips197.KeyBytes` | elements/ipsec/IPsecAES_CBC_kernel_core.hh:716-735 | The expanded key byte by byte: every fourth word takes the substituted bytes of the word before it, each from one place further, and the power of x in its first byte, the other words the bytes of the word before them as they are. |
| `Fips197.ShiftedRows` | elements/ipsec/IPsecAES_CBC_kernel_core.hh:789-847 | The sixteen bytes after ShiftRows, by their positions. |
| `Aes.DecryptedCipher` | elements/ipsec/IPsecAES_CBC_kernel_core.hh:885-1184 | The decryption gives back every block from that cipher. |
| `Aes.EncryptBlock` | elements/ipsec/IPsecAES_CBC_kernel_core.hh:759-882 | The ten rounds in place write the FIPS 197 cipher of the block under the key, and no byte behind the block. |
| `Aes.DecryptBlock` | elements/ipsec/IPsecAES_CBC_kernel_core.hh:885-1184 | The ten rounds in place compute the specified decryption, run the key buffer back, and write no byte behind the block. |
| `Aes.NextRk` | elements/ipsec/IPsecAES_CBC_kernel_core.hh:716-735 | In place, the next round key. |
| `Aes.PrevRk` | elements/ipsec/IPsecAES_CBC_kernel_core.hh:738-755 | In place, the previous round key. |
| `Aes.PutWord` | elements/ipsec/IPsecAES_CBC_kernel_core.hh:708-714 | A stored word is read back as it was, other bytes stay. |
| `Aes.SwapLoads` | elements/ipsec/IPsecAES_CBC_kernel_core.hh:699-706 | The shifts of `GETU32` on a little-endian load give the big-endian word. |
| `Aes.ReadQuadInjective` | elements/ipsec/IPsecAES_CBC_kernel_core.hh:699-706 | The four words determine the sixteen bytes: equal words mean equal blocks. |
| `GraphAnalyzer.GraphAnalyzer.Analyze` | src/lib/graphanalysis.cc:39-82 | For roots without in-edges the search terminates although nodes are pushed twice, visits exactly what a root reaches, and divides it: each number stands for a maximal path of only-edges, exactly the nodes with one way out, and those linked from one, have a number, and a list holds its path in order, then at most repetitions of its first node. |
| `GraphAnalyzer.GraphAnalyzer.Visit` | src/lib/graphanalysis.cc:54-80 | A round keeps the invariant and either visits a new node or shrinks the stack. |
| `GraphAnalyzer.GraphAnalyzer.Number` | src/lib/graphanalysis.cc:63-80 | The counts of edges lead to the number of the linked parent, a new number or none. |
| `GraphAnalyzer.GraphMetaData.LinkTo` | src/lib/graphanalysis.cc:28-32 | Linking adds one edge, on both sides, and keeps the graph well-formed. |
| `LinearPaths.StepKeepsInv` | src/lib/graphanalysis.cc:54-80 | Every round keeps: unvisited children lie above their visited parent on the stack, a node with one way in is on it once, and paths, numbers and lists agree. |
| `LinearPaths.AgainPushesNothing` | src/lib/graphanalysis.cc:58-61 | A node visited before finds all its children visited: this is why the search ends. |
| `LinearPaths.StackStep` | src/lib/graphanalysis.cc:54-61 | The stack part of the invariant. |
| `LinearPaths.StepLinked` | src/lib/graphanalysis.cc:63-70 | A node linked from its parent continues the parent's path, which is recorded without a gap. |
| `LinearPaths.StepStart` | src/lib/graphanalysis.cc:72-80 | A node not linked starts a path if it has one way out. |
| `LinearPaths.StepAgain` | src/lib/graphanalysis.cc:79-80 | A node visited again is the first of its path and only recorded once more. |
| `LinearPaths.Finished` | src/lib/graphanalysis.cc:46-82 | With an empty stack the paths found are maximal and the numbers divide the visited nodes. |
| `LinearPaths.MaximalPathsAgree` | src/lib/graphanalysis.cc:46-82 | The division depends on the graph only, not on the order of roots or children: two maximal paths with a common node are equal. |
| `Checksum.FastCsum` | include/nba/core/checksum.hh:8-36 | With at least five words the result completes the ones' complement sum to zero, and is 0xFFFF only for an all-zero header; no carry is lost at the last `adcl`. With fewer words it is the low half of the first word, as the early exit leaves it. |
| `Checksum.SumsAgree` | include/nba/core/checksum.hh:12-18 | Summing 32-bit words in machine order and 16-bit words in network order gives zero modulo 0xFFFF for the same headers. |
| `Checksum.AdcStands` | include/nba/core/checksum.hh:15-22 | Each `adcl` keeps the sum modulo 0xFFFFFFFF and leaves room for its carry. |
| `Checksum.FoldCompletes` | include/nba/core/checksum.hh:23-28 | The fold and complement turn that sum into the 16-bit checksum. |
| `Checksum.CheckIPHeader` | elements/ip/CheckIPHeader.cc:25-59 | A packet passes if and only if it is IPv4, has version 4, at least five header words, no more than the total length, and a header sum of zero as section 3.1 of RFC 791 has it. |
| `Checksum.DecIPTTL` | elements/ip/DecIPTTL.cc:19-36 | A packet with TTL above 1 leaves with TTL one less and only the checksum changed, others are dropped unchanged; if the frame holds its header, it passes `CheckIPHeader` if and only if it did before, and then carries exactly the checksum a computation from scratch gives. |
| `Checksum.StaysAcceptable` | elements/ip/DecIPTTL.cc:31-33 | The incremental update keeps the header sum at zero, with one fold and in the cases of ones' complement zero (section 3 of RFC 1624). |
| `Checksum.NextCheck` | elements/ip/DecIPTTL.cc:32-33 | The new checksum is 0x100 more modulo 0xFFFF and never 0xFFFF. |
| `Checksum.RightIsUnique` | elements/ip/CheckIPHeader.cc:52 | There is only one checksum, other than 0xFFFF, that a header accepts. |
| `PacketBatch.PacketBatch.CollectExcludedPackets` | src/lib/packetbatch.cc:15-33 | Packets are permuted, `count` plus `dropCount` is conserved, dropped packets lie directly behind the live ones, no live slot is flagged, only killed packets are dropped; and when `m` are flagged, all of them are dropped if and only if the last `m - 1` slots hold none. |
| `PacketBatch.SweepDropsAll` | src/lib/packetbatch.cc:18-30 | That equivalence for the loop from any slot on. |
| `PacketBatch.ExcludedSurvives` | src/lib/packetbatch.cc:19-28 | Two flagged packets are enough for one to survive, unflagged. |
| `PacketBatch.SweepDropsExcluded` | src/lib/packetbatch.cc:19-28 | Every dropped packet was flagged. |
| `PacketBatch.SweepKeepsResults` | src/lib/packetbatch.cc:26-27 | Each live packet keeps the result that belonged to it. |
| `PacketBatch.SweepFlags` | src/lib/packetbatch.cc:24-27 | No live slot is flagged at the end, every slot swapped out is, with result -1. |
| `PacketBatch.SweepKeepsSound` | src/lib/packetbatch.cc:15-33 | A collection keeps this: no packet is lost or doubled, and none is dropped that was not killed. |
| `PacketBatch.PacketBatch.CleanDrops` | src/lib/packetbatch.cc:35-43 | The dropped packets, and only they, are offered to the drop queue. |
| `PacketBatch.PacketBatch.Kill` | src/lib/packet.cc:30-37 | A killed packet is flagged and its result set; no other slot changes. |
| `Esp.RoundTrip` | elements/ipsec/IPsecESPencap.cc:103-157 | What was encapsulated, encrypted and authenticated carries the HMAC of its contents, and a receiver that decrypts it with the vector the cipher started with, reads pad length and protocol off the last two bytes and strips them gets the datagram back byte for byte. |
| `Esp.ReceivedWith` | elements/ipsec/IPsecAES.cc:156-192 | The packet carries the vector that the cipher left, not the one it started with; a receiver that decrypts with any vector gets the datagram back if and only if the two key streams agree over the datagram and over the last two bytes of the payload. |
| `Esp.PacketVectorFails` | elements/ipsec/IPsecAES.cc:183 | A key stream for which a receiver that takes the vector from the packet does not get the datagram back. |
| `Esp.Packet.Encapsulate` | elements/ipsec/IPsecESPencap.cc:70-160 | IPv4 packets with an association get exactly the tunnel header, ESP header, unchanged datagram and trailer, in place, and grow by what that takes; others are dropped unchanged; the new header's sum is zero. |
| `Esp.Packet.WritePayload` | elements/ipsec/IPsecESPencap.cc:112-151 | The overlapping moves and stores, in their order, put the payload together; the latency option overwrites the initial vector only. |
| `Esp.Packet.WriteOuter` | elements/ipsec/IPsecESPencap.cc:153-157 | The outer header and its checksum. |
| `Esp.PadLen` | elements/ipsec/IPsecESPencap.cc:103-110 | The padding makes whole blocks. |
| `Esp.ShortIsHarmless` | elements/ipsec/IPsecESPencap.cc:106-109 | The cast to `short` may make the length negative, yet packet growth and length field are right modulo 0x10000; the field is right if and only if the datagram has at most 65453 bytes. |
| `Esp.EncapsulatedParts` | elements/ipsec/IPsecESPencap.cc:131-157 | Where the parts of the new packet are and what its header says. |
| `Esp.EncapsulatedBytes` | elements/ipsec/IPsecESPencap.cc:112-157 | The new packet byte by byte from the addresses on: index and replay counter of the association, vector, datagram, zeros, length of the padding, protocol 4; what lies before and behind is unchanged. |
| `Esp.TunnelBytes` | elements/ipsec/IPsecESPencap.cc:83-86 | The association is looked up by the address the datagram comes from and the one it goes to, in this order. |
| `Esp.XorBits` | elements/ipsec/IPsecAES.cc:183 | The key stream is added bit by bit. |
| `Esp.EncapsulatedIsAcceptable` | elements/ipsec/IPsecESPencap.cc:153-157 | The packet that leaves passes `CheckIPHeader` if and only if the one that came said version 4. |
| `Esp.CheckCompletes` | elements/ipsec/IPsecESPencap.cc:156-157 | Storing the checksum over a cleared field makes the header sum zero. |
| `Esp.ExtraBlockInDigest` | elements/ipsec/IPsecAES.cc:164-167 | The sixteen bytes that `IPsecAES` encrypts beyond the payload lie inside the twenty bytes of the digest. |
| `Esp.Packet.Encrypt` | elements/ipsec/IPsecAES.cc:156-192 | The key stream is added to the payload and the extra block, nothing else but the initial vector's field changes. |
| `Esp.Packet.Authenticate` | elements/ipsec/IPsecAuthHMACSHA1.cc:149-187 | The digest is written over the last twenty bytes of the datagram, nothing else changes. |
| `Esp.KeyedDigest` | elements/ipsec/IPsecAuthHMACSHA1.cc:162-179 | The two hash runs over the buffer compute HMAC as section 2 of RFC 2104 defines it. |
| `Esp.FillPad` | elements/ipsec/IPsecAuthHMACSHA1.cc:171-172 | The loop over eight words pads the key and leaves the rest of the buffer. |
| `Esp.SignedParts` | elements/ipsec/IPsecAuthHMACSHA1.cc:158-179 | What is written can be verified, and what it covers is unchanged. |
| `Bitmap.Bitmap.SetRange` | src/core/bitmap.cc:149-190 | Exactly the bits from `start` to below `end` take the value, for any crossing of words, and also when the end lies behind the last word. |
| `Bitmap.SameBucket` | src/core/bitmap.cc:156-165 | A range within one word. |
| `Bitmap.OtherBucket` | src/core/bitmap.cc:168-188 | A range across words: its first, last and inner words. |
| `Bitmap.Bitmap.SetBit` | src/core/bitmap.cc:142-148 | Exactly this bit takes the value. |
| `Bitmap.Bitmap.GetBit` | src/core/bitmap.cc:138-141 | The bit is told. |
| `Bitmap.Bitmap.GetFirstBit` | src/core/bitmap.cc:192-209 | The least member of a nonempty set, 0 for the empty one. |
| `Bitmap.Bitmap.GetLastBit` | src/core/bitmap.cc:210-237 | The greatest member of a nonempty set, 0 for the empty one. |
| `Bitmap.Bitmap.IsCollide` | src/core/bitmap.cc:118-124 | True if and only if the sets meet. |
| `Bitmap.Bitmap.Merge` | src/core/bitmap.cc:125-130 | The union. |
| `Bitmap.Bitmap.Intersect` | src/core/bitmap.cc:131-136 | The intersection, for bitmaps of the same number of words. |
| `Words.FillLowAt` | src/core/bitmap.cc:29-32 | The mask of low bits, for every count from 0 to the word's width. |
| `Words.FillHighAt` | src/core/bitmap.cc:34-37 | The mask of high bits, likewise. |
| `Words.MarkBitAt` | src/core/bitmap.cc:24-27 | The mask of one bit. |
| `Words.AndMeets` | src/core/bitmap.cc:121 | A conjunction of words is not zero if and only if they share a bit. |

## Left out

- DirectFib.BuildDirectFib: that no slot is answered with bit 15 is not proved necessary when next hops of longer routes use that bit as well, since a next hop read as a block number may then find the right answer in that block by chance, nor for slots that longer routes cover completely, since their own answer is then not seen. What is answered for such a slot, and in a block that its routes are written to, depends on the order of the maps and is stated as the result of placing the routes in their order only.
- RoutingTableV6.RoutingTable.Build: where a covered marker is neither quiet nor loud, the addresses that depend on it are answered as the order of the hash table has it, which is stated as the result of the run only. The condition on all routes is not proved necessary where no address sees a stored key, since a wrong entry does no harm when all its addresses have longer matches. The routes must have been added by insertions that cut nothing off a chain. Of the keys an insertion of `build` cuts off it is stated that they share the bucket of a key written before; which of them lie behind it in the chain is stated for each insertion (`HashTable.HashTable128.Insert`). The condition on shared buckets under which no insertion fails or cuts is sufficient, not necessary.
- Wakeup.Deliver: only for states in which no sender is inside `evpipe_write`, where it gives a bound on the loop's own steps; what holds with senders under way is `Wakeup.EverySendIsFed` and, with a bound, `Wakeup.SecuredRunDelivers`.
- Wakeup.LoopStepDelivers: likewise.
- FdReify.Loop.IoStop: does not clear the watcher's pending event, since these watchers do not share the queues of `EvLoop`; what that clearing does is `EvLoop.Loop.ClearPending`.
- Esp.Packet.Encrypt: the key stream is an arbitrary function of association, initial vector and position, and the vector the cipher leaves in the packet is arbitrary; the counter mode of the library is not modelled.
- Esp.Packet.Authenticate: SHA-1 is an arbitrary function with a 20-byte result. The payload must fit the source's 2048-byte buffer.
- Esp.Packet.Encapsulate: the tailroom must suffice; the source ignores that an append may fail.
- Bitmap.Bitmap.Intersect: the source walks the other bitmap's words, which its assertion does not keep within this one's; equal numbers of words are required.
- EvLoop.Loop.InvokePending: callbacks are scripts of feeding, clearing and recursive invocation; they do not start or stop timers in between.
- EvLoop.Loop.TimersReify: times are real numbers; rounding of floating-point times is not modelled.
- Weak memory: the accesses of the wake-up protocol are sequentially consistent, as the fences intend; starting and stopping watchers during a run, and the time the loop sleeps before polling are not modelled.
- Watchers must have a priority in range; the clamping of priorities at start is not modelled, nor are idle, prepare, check, periodic, child and signal watchers beyond their pending flags.
- The I/O watchers of `FdReify` do not share the pending queues of `EvLoop`: what `ev_io_stop` clears and `fd_event` feeds there, `poll_poll` itself, and error recovery (`fd_kill`) are left out.
- The backends of libev other than poll, fork handling and `ev_once`.
- Integer widths: counts and array indices are unbounded; where a value is cut, shifted or cast in the source this is written out.
- The concrete AES tables and the chaining of blocks in the kernels: tables are functions of a byte, with the relations of their rows as a hypothesis, and the substitution box is any invertible one.
- RoutingTableV6's `clone`, `copy_to`, the lock, and the routines that print that they are not implemented. In `build`, the lookup whose result is not used, for lengths above the route's, is not repeated.
- The concrete hash function: every function is allowed.
- The drop queue: whether it accepts the packets offered is not modelled; the source does not look. The annotations of packets other than the flow.
- The loop in `analyze` that is compiled out, and the regions of interest it would compare; the parser that supplies the roots.
- Copying and clearing a bitmap, and printing it.
- GPU and Knapp offloading, datablocks, load balancing, L2 forwarding, the ARP table, node-local storage, thread and NIC set-up: plumbing over libraries that are not part of this model.
