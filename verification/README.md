# Babel, BFD and BGP add-path in FRR

A Dafny model of three parts of FRR, and proofs about them:

- **babeld**, the Babel routing protocol (RFC 8966): the route, source and redistributed-route tables, the
  feasibility condition, the wire format of updates, the send buffer, and a whole network of such routers;
- **bfdd**, Bidirectional Forwarding Detection (RFC 5880): the session state machine with its timers and poll
  sequences, two sessions facing each other, and the sequence window of keyed SHA1 authentication;
- **bgpd**'s identifiers for additional paths (RFC 7911).

The main results:

- *Loop freedom.* In every state of every run of any number of Babel routers, over a medium that loses, repeats,
  delays and reorders updates, installed routes towards one source never form a loop (`BabelNetwork.LoopFreedom`).
  The theorem assumes that source entries for that source are not stale, that its live sequence numbers span less
  than half the circle, and that a metric change the kernel refuses is harmless: the metric kept is no better than the
  one announced, and still feasible. The first and the last assumption are needed:
  `BabelSystem.StaleEntriesLoop` and `BabelSystem.RefusedChangeLoops` are runs with a loop that lack only that one.
- *The tables are the protocol.* The class `BabelTable.Babel` works on the sorted slots, the counted sources and the
  array of redistributed routes as the C code does; what the kernel answers is an input of each operation. Each
  operation is proved to be a sequence of the protocol's atomic steps, refusals included, and any such sequence in a
  state of a network's run prolongs that run (`BabelSystem.NodeRunIsNetworkRun`), so that forwarding stays free of
  loops (`BabelSystem.OperationKeepsLoopFree`, `BabelSystem.HearInNetwork`). It is also proved what is lost and kept:
  no route disappears that was not flushed, no source entry that a route refers to is freed, and a destination that
  loses its route gets a feasible one if there is one and the kernel takes it.
- *Switching settles.* At one instant no destination returns to a route it has left, so it switches fewer times than
  it has routes; over any time its metric never rises and a route is returned to only among routes of equal metric;
  without smoothing, never (`BabelSwitching`). With smoothing it can come back, and `BabelSwitching.SwitchComesBack`
  does.
- *Updates arrive.* Whatever sequence of updates, retractions and other messages goes into the send buffer, every
  packet sent is accepted and decodes to exactly those updates, with next hops, router identifiers and omitted prefix
  bytes reconstructed (`UpdateCodec.PacketRoundTrip`, `SendBuffer.Interface`). The number of packets is bounded by the
  token bucket the buffer really consults (`SendBuffer.PacketsAreLimited`).
- *Failure detection.* A BFD session that is Init or Up has its detection timer armed exactly when its peer is bound
  to send, in every state of every run in which packets reach it only while it has its socket
  (`BfdRuns.DetectionNeverLapses`). Which openings of a socket keep that is given by an if-and-only-if
  (`BfdRuns.EnableWatches`), with runs that break it (`BfdRuns.UnwatchedSession`, `BfdAgreement.UnwatchedRun`).
- *Two BFD ends.* Up at either end means each end has accepted a packet of the other, over any unreliable channel.
  While both are Up and keep their settings, for every interleaving, loss, repetition and reordering of packets sent
  since, each end's detection time is the other's multiplier times its real interval once each end's poll has been
  answered, and stays so (`BfdAgreement.AgreementAfterBothPolls`, and `BfdAgreement.Agreement` when only one end
  polls). An answer from before need not bring agreement: `BfdAgreement.LateFinalRun` is a run in which it makes one
  end give the other up, and `BfdAgreement.LateFinalExact` says exactly when it does no harm.
- *Identifiers.* The BGP allocator's books balance: what it marks used is what is reserved plus what paths and pools
  hold, each exactly once. They survive the last peer's leaving exactly if no path that has been unlinked but not yet
  freed still holds an identifier (`Addpath.Tx.TypeChanged`); `Addpath.IdLeftBehind` reaches the other case.

## Reading order

`Bytes`, `Seqno`, `BabelNode`, `BabelRuns`, `BabelNetwork` are the protocol and its theorem; `Slots`, `Smoothing`,
`BabelTable` the tables; `BabelSystem` joins the two; `BabelSwitching` follows one destination through many decisions;
`Tlv`, `UpdateCodec`, `Moderation`, `SendBuffer` are the wire. `BfdSession` is one session, in closed form and as an
object; `BfdPacket`, `BfdRuns`, `BfdPair`, `BfdAgreement`, `BfdAuth`, `BfdDiscriminators` build on it. `Addpath` stands
alone. Clocks, random draws, the kernel's answers, the link cost of a neighbour and the filters are parameters.
`hide` statements only limit what the solver looks at.

## Where the code and its promises differ

- A wildcard retraction as babeld writes it is dropped by babeld's own parser: the update carries the router-id flag
  with an all-zero prefix, which sets an all-zero router identifier (`UpdateCodec.WildcardIsIgnored`).
- The comment in `flushupdates` says that a repeated update is skipped. Announcements are; a retraction goes out as
  often as it was buffered (`Moderation.SendsOnce`).
- A BFD session that is shut down and then loses its interface goes to Down and can come Up again while its shutdown
  flag is set; lifting the shutdown then has no effect (`BfdRuns.ShutdownHolds`, `BfdRuns.ShutdownIsForgotten`).
- With a half-life of two seconds, the product in the second smoothing step can exceed 32 bits exactly for metrics that
  are more than 63287 apart (`Smoothing.SecondStepSafeGaps`).
- When the kernel refuses a metric change, the route is left with the new sequence number and the old metric, which
  can break loop freedom (`BabelSystem.RefusedChangeLoops`).
- A path that is freed after the last peer has left its strategy leaves an identifier in a pool that no allocator knows
  of (`Addpath.IdLeftBehind`).

## Model

| member | source | states |
|---|---|---|
| Bytes.MemCmpAntisymmetric | babeld/route.c:38-53 | byte-wise comparison is antisymmetric and zero exactly on equal strings |
| Bytes.MemCmpTransitive | babeld/route.c:38-53 | and transitive, so prefixes can be searched in order |
| Seqno.CompareIsIntegerOrder | babeld/util.h:64-70 | the 16-bit comparison agrees with the integers exactly while two numbers are at most half a circle apart; at half a circle both directions say "newer" |
| Seqno.CompareInWindow | babeld/util.h:64-70 | inside any half circle the comparison is a strict total order |
| Seqno.RankOrders | babeld/route.c:533-548 | the feasibility order on (seqno, metric) is the order of one integer rank inside a half circle |
| BabelNode.StepKeepsGood | babeld/route.c:339-435 | every atomic step keeps each list to one destination, foreign router identifiers, distinct next hops and only the front installed, and no destination both installed and redistributed |
| BabelNode.HearKeepsGood | babeld/route.c:715-846 | the same for the table part of hearing an update, in each of its branches |
| BabelRuns.EvolvesKeepsGood | babeld/route.c:339-435 | the same over any sequence of steps |
| BabelRuns.FlagsKeepBodies | babeld/route.c:341-435 | selecting and uninstalling change no route but for its installed flag |
| BabelRuns.RemovedBodies | babeld/route.c:174-222 | removing a route removes exactly that one |
| BabelRuns.CountExchange | babeld/source.c:64-75 | moving a route between sources moves one reference between their counts |
| BabelNetwork.DistanceImproves | babeld/source.c:96-111 | no step makes a fresh feasibility distance worse |
| BabelNetwork.RoutesAreOldOrHeard | babeld/route.c:715-846 | every finite claim in a table was there before or is the update just heard |
| BabelNetwork.UseIsOldOrStrict | babeld/route.c:873-911 | after any step the installed route is the old one or strictly feasible |
| BabelNetwork.UseStaysBounded | babeld/route.c:533-548 | an installed route is never worse than the router's own feasibility distance |
| BabelNetwork.AnnouncementVouched | babeld/message.c:1546-1584 | what a router announces, its feasibility distance afterwards covers |
| BabelNetwork.StepKeepsInv | babeld/route.c:533-548 | each step of the network keeps every claim vouched for and the network free of loops |
| BabelNetwork.LoopIsNowhereStrict | babeld/route.c:533-548 | on a loop nobody could be using a strictly feasible route |
| BabelNetwork.LoopFreedom | babeld/route.c:533-548 | along every run with fresh entries, sequence numbers within half the circle and harmless refusals, no packet forwarded for a source visits a router twice |
| BabelSystem.NodeRunIsNetworkRun | babeld/route.c:715-846 | whatever one router does by itself prolongs a run of the network by its events, and exactly its announcements are added to what is in the air |
| BabelSystem.OperationKeepsLoopFree | babeld/route.c:715-846 | after any operation of a router in a state of a run, the run goes on and no forwarding path for the source repeats a router, under the theorem's assumptions |
| BabelSystem.HearInNetwork | babeld/route.c:715-846 | in particular after the tables have taken an update that was in the air |
| BabelSystem.NoForwardingLoop | babeld/route.c:339-435 | when a destination has one origin no packet for it loops, whatever sources the routes name |
| BabelSystem.StaleEntriesLoop | babeld/route.c:537-539 | with a source entry older than its lifetime, three routers with the same clock and unexpired routes reach a forwarding loop, though sequence numbers are in the window and nothing was refused |
| BabelSystem.RefusedChangeLoops | babeld/route.c:447-457 | after a refused metric change three routers reach a forwarding loop, though all entries are fresh and sequence numbers in the window |
| Slots.PrefixCompareTotal | babeld/route.c:38-53 | the order of slots is antisymmetric, and zero only for equal destinations |
| Slots.PrefixCompareTransitive | babeld/route.c:38-53 | and transitive |
| Slots.InsertSlot | babeld/route.c:142-172 | opening a slot where the search says keeps order and all other lists |
| Slots.DropSlot | babeld/route.c:174-222 | closing an emptied slot keeps order and all other lists |
| Smoothing.SmoothedMetric | babeld/route.c:579-613 | the loops do what the decay of the smoothed metric is defined to be, step by step; the result lies between the old value and the metric, and is final for that time |
| Smoothing.SmoothsFacts | babeld/route.c:579-613 | any value the decay can reach lies between the old value and the metric |
| Smoothing.HalfStep | babeld/route.c:593-597 | one half-life's step stays between the old value and the metric, whatever the random draw |
| Smoothing.SecondStep | babeld/route.c:598-603 | so does one second's step |
| Smoothing.TwoToTheOneOver | babeld/route.c:550-577 | the table and its approximation stay between 1 and 2 in 16.16 fixed point |
| Smoothing.Roughly | babeld/util.c:31-39 | a random value of the same sign, at most a quarter above in size, zero only for zero |
| Smoothing.SecondStepProductFits | babeld/route.c:598-603 | the 32-bit product does not overflow, but for half-life two with metrics far apart |
| Smoothing.SecondStepProductOverflows | babeld/route.c:598-603 | at every larger gap, of either sign, there is a draw for which it does overflow |
| Smoothing.SecondStepSafeGaps | babeld/route.c:598-603 | at half-life two the product fits whatever is drawn if and only if the metrics are at most 63287 apart |
| BabelTable.SmoothEntry | babeld/route.c:579-613 | bringing one entry up to date changes nothing else and is final for that time |
| BabelTable.BestOf | babeld/route.c:631-656 | picks an acceptable route with the least smoothed metric, or says there is none |
| BabelTable.Challenge | babeld/route.c:889-902 | the hysteresis rule: a challenger wins on metric and on smoothed metric, or when the installed route is unreachable |
| BabelTable.ConsideredFacts | babeld/route.c:868-911 | a switch needs the kernel, a feasible and unexpired route and a win; no switch with all of these means the installed route was not beaten; the route left becomes the second |
| BabelSwitching.NoReturnAtOneInstant | babeld/route.c:868-911 | in any sequence of decisions at one instant, a route that has been left is never installed again |
| BabelSwitching.SwitchesAtOneInstant | babeld/route.c:868-911 | so a destination switches fewer times than it has routes |
| BabelSwitching.MetricNeverRises | babeld/route.c:889-902 | in decisions at any times, while metrics stand still, the installed metric never rises |
| BabelSwitching.ReturnOnlyAmongEquals | babeld/route.c:889-902 | a route left and installed again had the metric of every route installed in between |
| BabelSwitching.NoReturnWithoutSmoothing | babeld/route.c:585-588 | with a half-life of zero no route is ever returned to, at any times |
| BabelSwitching.SwitchComesBack | babeld/route.c:579-613 | with smoothing, two routes of equal metric can be installed in turn |
| BabelTable.NewMetric | babeld/route.c:437-469 | the change goes through exactly if the kernel agrees, the route is not installed or its metric stays; then everything changes together and the smoothed metric decays, else nothing changes |
| BabelTable.WalkSources | babeld/source.c:113-130 | exactly the stale, unreferenced entries go, and times in the future are clamped |
| BabelTable.SwapRemoved | babeld/xroute.c:124-149 | filling the gap with the last element removes exactly one redistributed route |
| BabelTable.Babel.constructor | babeld/route.c:24-36 | empty, well-formed tables |
| BabelTable.Babel.FindRouteSlot | babeld/route.c:55-83 | binary search finds the slot, or the one place where it may be opened |
| BabelTable.Babel.FindRoute | babeld/route.c:85-103 | finds the route through a neighbour and next hop if it exists |
| BabelTable.Babel.FindInstalledRoute | babeld/route.c:105-113 | looking at the front is enough: it finds an installed route exactly when there is one |
| BabelTable.Babel.FindXroute | babeld/xroute.c:114-122 | finds the redistributed route of a destination exactly when there is one |
| BabelTable.Babel.MoveInstalledRoute | babeld/route.c:341-354 | the selected route moves to the front, the previous one loses its flag, nothing else moves |
| BabelTable.Babel.UninstallRoute | babeld/route.c:388-402 | one flag falls |
| BabelTable.Babel.FindBestRoute | babeld/route.c:615-656 | the best acceptable route by smoothed metric; tables unchanged but for smoothing |
| BabelTable.Babel.Decide | babeld/route.c:873-904 | says yes only for a feasible route to a destination not redistributed that beats the installed one, and no only for one of these reasons |
| BabelTable.Babel.ConsiderRoute | babeld/route.c:873-911 | switches exactly then, if the kernel agrees; the slot afterwards is determined |
| BabelTable.Babel.GiveWay | babeld/route.c:991-998 | an installed route gives way only to the best acceptable route, if that has a lower metric, wins and the kernel agrees; something stays installed |
| BabelTable.Babel.NoWayBack | babeld/route.c:1004-1006 | the route that has just given way does not win against the one it gave way to |
| BabelTable.Babel.Reconsider | babeld/route.c:1004-1006 | so reconsidering it at once changes nothing |
| BabelTable.Babel.GiveWayForGood | babeld/route.c:989-1007 | the two together: one switch at most, to the best acceptable route |
| BabelTable.Babel.RouteChanged | babeld/route.c:989-1007 | a changed installed route gives way or stays, another is considered; a destination with an installed route keeps one, and a usable changed route leaves its destination with one if the kernel agrees |
| BabelTable.Babel.RouteLost | babeld/route.c:1010-1016 | if the kernel agrees, a destination that lost its route gets one whenever a feasible, unexpired one exists; nothing else changes |
| BabelTable.Babel.FindSource | babeld/source.c:25-62 | finds or creates the entry, known by sequence number only |
| BabelTable.Babel.RetainSource | babeld/source.c:64-69 | one more reference |
| BabelTable.Babel.ReleaseSource | babeld/source.c:71-75 | one less |
| BabelTable.Babel.Refresh | babeld/route.c:782-794 | an update rewrites source, sequence number, metric, cost, time and hold time; exactly when the kernel refuses a changed metric of an installed route the old metric stays under the new number |
| BabelTable.Babel.TakeUpdate | babeld/route.c:762-794 | an unfeasible update from another source takes the installed route down first |
| BabelTable.Babel.UpdateExisting | babeld/route.c:745-802 | as the protocol's hearing step, or its half when refused, followed only by selections; reference counts exact; an installed route that becomes unfeasible is replaced if it can be |
| BabelTable.Babel.InsertRoute | babeld/route.c:142-172 | the new route is last in its list; a list or slot is opened if need be |
| BabelTable.Babel.UpdateNew | babeld/route.c:803-845 | a new route is inserted and considered; reference counts exact |
| BabelTable.Babel.UpdateRoute | babeld/route.c:715-846 | hearing an update is the protocol's step, or its half exactly when the kernel refuses a contested metric, followed by selections only: the same routes and sources are held, and after a usable update the destination has an installed route if the kernel agrees |
| BabelTable.EvolvesFromHeard | babeld/route.c:715-846 | the whole is one run of the router that hears that update |
| BabelTable.Babel.UpdateRouteMetric | babeld/route.c:658-680 | an expired route is retracted under the next sequence number, or keeps its metric under it when refused, another takes the new cost; then selections only |
| BabelTable.Babel.Remeasure | babeld/route.c:658-680 | the part before reconsidering is one protocol step, and says whether the metric changed |
| BabelTable.Babel.Expire | babeld/route.c:663-666 | the retraction is the protocol's expiry step, or its half when an installed route's change is refused |
| BabelTable.Babel.Recost | babeld/route.c:670-675 | the change is the protocol's re-costing step, or nothing when refused |
| BabelTable.Babel.Unlink | babeld/route.c:183-213 | exactly one route leaves, and its slot if it was the last |
| BabelTable.Babel.FlushRoute | babeld/route.c:174-222 | exactly one route leaves, one reference is given back, no other source entry changes, and if the kernel agrees every destination that was served still is |
| BabelTable.RemovedServes | babeld/route.c:174-222 | removing a route that is not installed takes no destination's service away |
| BabelTable.Babel.FlushMatching | babeld/route.c:243-281 | the restarting loops end, exactly the matching routes are gone, sources are untouched but for their counts, and if the kernel always agrees every destination that was served still is |
| BabelTable.Babel.FlushNeighbourRoutes | babeld/route.c:243-261 | exactly the neighbour's routes are gone |
| BabelTable.Babel.FlushInterfaceRoutes | babeld/route.c:263-281 | exactly the interface's routes are gone, or only those with an IPv4 next hop |
| BabelTable.Babel.FlushFront | babeld/route.c:224-241 | one flush makes progress |
| BabelTable.Babel.FlushAllRoutes | babeld/route.c:224-241 | no route and no reference is left |
| BabelTable.Babel.AddXroute | babeld/xroute.c:151-187 | one entry per destination; nothing changes exactly if one with no higher metric is there, and other destinations keep theirs |
| BabelTable.Babel.XrouteAddNewRoute | babeld/xroute.c:223-243 | redistributing a destination takes its installed route down first, keeping the two exclusive; refused exactly for a martian prefix, an infinite metric or an entry as good |
| BabelTable.Babel.FlushXroute | babeld/xroute.c:124-149 | removes exactly one redistributed route |
| BabelTable.Babel.FlushXroutesByType | babeld/xroute.c:83-112 | exactly the redistributed routes of that kind are gone, although the array is compacted under the loop |
| BabelTable.Babel.ExpireSources | babeld/source.c:113-130 | an entry goes exactly when it is old and unreferenced, the others keep everything but a time in the future; every route still has its source |
| BabelTable.Babel.UpdateSource | babeld/source.c:96-111 | announcing improves the feasibility distance as the protocol's step does |
| BabelTable.Babel.FlushUpdate | babeld/message.c:1536-1584 | a redistributed destination is announced as our own with its metric, an installed one with its distance recorded first, any other retracted; split horizon keeps silent, and the filter denies or adds; what is said is what the protocol's step announces |
| Tlv.Examine | babeld/message.c:441-481 | accepts exactly the packets with the right header whose body divides into whole messages |
| Tlv.ParsePacket | babeld/message.c:483-974 | the loop over an accepted packet acts on its messages in order, each in the state left by those before; a refused packet does nothing |
| Tlv.ParseConcat | babeld/message.c:483-974 | parsing two bodies one after the other is parsing their concatenation |
| UpdateCodec.NhIsHeard | babeld/message.c:1385-1394 | a next-hop message sets the IPv4 next hop |
| UpdateCodec.IdIsHeard | babeld/message.c:1409-1420 | a router-id message sets the router identifier |
| UpdateCodec.ChannelsAreHeard | babeld/message.c:137-195 | the diversity sub-TLV gives back the channels written |
| UpdateCodec.PrefixRebuilt | babeld/message.c:72-135 | kept and sent bytes, masked, are the prefix |
| UpdateCodec.V4PrefixParsed | babeld/message.c:72-135 | an IPv4 prefix is parsed back from its bytes |
| UpdateCodec.V6PrefixParsed | babeld/message.c:72-135 | an IPv6 prefix is parsed back although leading bytes were omitted |
| UpdateCodec.EncodeIsHeard | babeld/message.c:1345-1445 | one update is heard exactly, and sender's and receiver's notion of last prefix, next hop and identifier still agree |
| UpdateCodec.WildcardIsIgnored | babeld/message.c:1717-1744 | a wildcard retraction retracts nothing at this receiver, and leaves it with an all-zero router identifier |
| UpdateCodec.AllIsHeard | babeld/message.c:1345-1445 | the same for any sequence of updates, wildcard retractions and other messages |
| UpdateCodec.PacketRoundTrip | babeld/message.c:483-974 | a packet decodes to exactly the updates encoded into it |
| SendBuffer.SentIsReceived | babeld/message.c:1063-1101 | what flushbuf sends is accepted, and decodes to what was buffered |
| SendBuffer.EncodeFits | babeld/message.c:1377-1378 | the space asked for covers an update with all that may precede it |
| SendBuffer.Interface.constructor | babeld/babel_interface.c:581-592 | an empty buffer and a full bucket |
| SendBuffer.Interface.Accumulate | babeld/message.c:1161-1186 | bytes are appended and the buffer is not overrun |
| SendBuffer.Interface.FlushBuf | babeld/message.c:1063-1101 | everything pending and buffered leaves in order, exactly if the token bucket admits it, and the next packet starts without remembered identifier, next hop or prefix |
| SendBuffer.Interface.SendPacket | babeld/message.c:1073-1101 | one packet with the bytes buffered, exactly if there are any and the bucket admits it |
| SendBuffer.Interface.CheckBucket | babeld/message.c:1018-1038 | answers and draws as the bucket's law says |
| SendBuffer.PacketsAreAdmitted | babeld/message.c:1063-1101 | the packets sent in a whole history are those the bucket admits among the flushes of a non-empty buffer |
| SendBuffer.PacketsAreLimited | babeld/message.c:1014-1038 | so at most 200 packets plus 40 a second since the start |
| SendBuffer.Interface.FlushUpdates | babeld/message.c:1480-1598 | router identifiers are filled in, the list is sorted, and every pending prefix is resolved and written in that order, repeated announcements skipped, even though writing may flush |
| SendBuffer.Interface.SendSorted | babeld/message.c:1525-1591 | the loop over the sorted list writes exactly the items of the specification |
| SendBuffer.Interface.SendUnlessLast | babeld/message.c:1530-1591 | one prefix is written unless it is the last announced one or split horizon applies |
| SendBuffer.Interface.EnsureSpace | babeld/message.c:1135-1141 | afterwards there is room; nothing is lost |
| SendBuffer.Interface.ReallySendUpdate | babeld/message.c:1345-1445 | an update and all it depends on land in one packet |
| SendBuffer.Interface.WriteUpdate | babeld/message.c:1345-1445 | the bytes written are the encoding of the update |
| SendBuffer.Interface.CountOmitted | babeld/message.c:1399-1402 | the loop counts the bytes shared with the previous prefix |
| SendBuffer.Interface.WriteV6 | babeld/message.c:1398-1445 | the bytes for an IPv6 update, and what is remembered |
| SendBuffer.Interface.WriteV4 | babeld/message.c:1382-1445 | the bytes for an IPv4 update, and what is remembered |
| SendBuffer.Interface.WriteUpdateTlv | babeld/message.c:1422-1439 | the update message byte by byte |
| SendBuffer.Interface.WriteNh | babeld/message.c:1385-1394 | the next-hop message, remembered |
| SendBuffer.Interface.WriteId | babeld/message.c:1409-1420 | the router-id message, remembered |
| SendBuffer.Interface.SendMessage | babeld/message.c:1143-1186 | any other message is appended whole |
| SendBuffer.Interface.SendWildcardRetraction | babeld/message.c:1717-1744 | the wildcard retraction is appended, and the remembered identifier forgotten |
| SendBuffer.Interface.BufferUpdate | babeld/message.c:1612-1646 | the prefix is added to the list, which is flushed first when full; nothing buffered is lost |
| Moderation.CompareAntisymmetric | babeld/message.c:1447-1478 | the order of buffered updates is antisymmetric, and zero only on equal ones |
| Moderation.CompareTransitive | babeld/message.c:1447-1478 | and transitive, as sorting needs |
| Moderation.RepeatsAreAdjacent | babeld/message.c:1506-1521 | after sorting, repetitions of a prefix are neighbours |
| Moderation.SortBuffer | babeld/message.c:1523 | the buffer is sorted by the comparison and nothing is lost or gained |
| Moderation.SortedIsUnique | babeld/message.c:1447-1478 | there is only one sorted order, so which sort is used does not matter |
| Moderation.FillAndSort | babeld/message.c:1512-1523 | identifiers are filled in before sorting |
| Moderation.EmitCounts | babeld/message.c:1525-1591 | after any part of the loop, each prefix has gone out as often as is due for that part |
| Moderation.SendsOnce | babeld/message.c:1512-1591 | for any list of prefixes in any order, an announcement goes out once however often it was buffered, split-horizon prefixes never, retractions as often as buffered |
| Moderation.Limiter.constructor | babeld/babel_interface.c:1300-1301 | a full bucket |
| Moderation.Limiter.Check | babeld/message.c:1018-1038 | refills an empty bucket by the seconds passed, and admits while a token is left |
| Moderation.RateSinceStart | babeld/message.c:1014-1038 | from the start, at most 200 packets plus 40 a second |
| Moderation.RateInAnyWindow | babeld/message.c:1014-1038 | in any stretch of time, at most 400 packets plus 40 a second |
| BfdSession.HeardKeeps | bfdd/bfd_packet.c:1454-1503 | a packet moves the state as the diagram of RFC 5880 says and leaves every setting alone |
| BfdSession.Session.constructor | bfdd/bfd.c:1141-1177 | Down, slow timers, no socket |
| BfdSession.Session.RecvTimerUpdate | bfdd/event.c:26-40 | armed exactly with a socket and without shutdown |
| BfdSession.Session.XmtTimerUpdate | bfdd/event.c:129-149 | likewise |
| BfdSession.Session.SetSlowTimers | bfdd/bfd.c:1785-1799 | one second, and three of them to detect |
| BfdSession.Session.FinalHandler | bfdd/bfd.c:1738-1783 | the negotiated interval is taken, but an increase waits for our own poll |
| BfdSession.Session.Send | bfdd/bfd_packet.c:435-493 | the packet of the current state, or none from a passive session that has not heard its peer |
| BfdSession.Session.SetPolling | bfdd/bfd.c:1410-1437 | polling, with detection on in demand mode |
| BfdSession.Session.SessUp | bfdd/bfd.c:783-811 | Up, polling, announced at once |
| BfdSession.Session.SessDown | bfdd/bfd.c:823-895 | Down, peer forgotten, announced at once, slow; a passive session stops both timers |
| BfdSession.Session.XmtTimeout | bfdd/bfd.c:705-728 | sends unless the peer demands silence, and always runs on |
| BfdSession.Session.DownHandler | bfdd/bfd.c:1454-1501 | the Down row of the diagram, a passive session answering at once |
| BfdSession.Session.InitHandler | bfdd/bfd.c:1527-1555 | the Init row |
| BfdSession.Session.UpHandler | bfdd/bfd.c:1557-1584 | the Up row |
| BfdSession.Session.StateHandler | bfdd/bfd.c:1609-1631 | the whole diagram; AdminDown has no row |
| BfdSession.Session.EndPoll | bfdd/bfd_packet.c:1498-1505 | F ends a poll and takes the new timers |
| BfdSession.Session.Watch | bfdd/bfd_packet.c:1507-1531 | the detection time of RFC 5880, and the timer restarted unless demand mode silences the peer |
| BfdSession.Session.Receive | bfdd/bfd_packet.c:1454-1549 | state, timers and answers after a packet, in closed form |
| BfdSession.Session.RecvTimeout | bfdd/bfd.c:1063-1085 | Init and Up go Down, Down forgets the discriminator |
| BfdSession.Session.SetDemand | bfdd/bfd.c:1914-1955 | a change while both are Up starts a poll, and leaving demand mode restores detection at once |
| BfdSession.Session.SetPassive | bfdd/bfd.c:1957-1980 | timers follow only while Down |
| BfdSession.Session.SetShutdown | bfdd/bfd.c:1841-1912 | AdminDown, announced, timers off; and back |
| BfdSession.Session.Apply | bfdd/bfd.c:179-294 | the modes in their order, then a poll if an interval changed while Up; one packet is sent exactly if this shuts the session down |
| BfdSession.Session.Enable | bfdd/bfd.c:370-500 | a socket; only an active session starts its timers |
| BfdSession.Session.Disable | bfdd/bfd.c:508-547 | no socket, no timers, Down, nothing sent |
| BfdPacket.FlagsFit | bfdd/bfd.h:195-231 | state and flag bits can be read back from the byte they are packed into |
| BfdPacket.WireRoundTrip | bfdd/bfd_packet.c:1305-1391 | every header survives encoding, and passes all checks exactly when multiplier and discriminators are in order |
| BfdRuns.DetectionFits | bfdd/bfd_timer.h:13-19 | the detection time fits 64 bits with room to spare |
| BfdRuns.RunIsSound | bfdd/bfd_packet.c:1212-1549 | in every state of every run: Init or Up knows the peer's discriminator, no timer runs without a socket or under shutdown, times fit |
| BfdRuns.EnableWatches | bfdd/bfd.c:479-493 | opening a socket leaves detection right exactly when the session is not talking, is shut down, or is passive just when demand mode has silenced its peer |
| BfdRuns.StepWatches | bfdd/bfd_packet.c:1517-1531 | every other event keeps detection right |
| BfdRuns.RunWatches | bfdd/bfd_packet.c:1517-1531 | so it is right in every state of every run whose openings are of that kind |
| BfdRuns.HearsOpenEnablesWell | bfdd/bfd.c:370-500 | all openings are, if packets arrive only through an open socket |
| BfdRuns.DetectionNeverLapses | bfdd/bfd.c:1063-1085 | a live session has its detection timer armed exactly unless demand mode has silenced its peer |
| BfdRuns.UnwatchedSession | bfdd/bfd.c:479-493 | a passive session spoken to while its socket was closed is in Init, and opening the socket leaves it with neither timer |
| BfdRuns.EveryPacketIsAccepted | bfdd/bfd_packet.c:435-493 | whatever a session sends in any run passes all its peer's checks and reads back unchanged; P and F never together, D only while Up |
| BfdRuns.ShutdownHolds | bfdd/bfd.c:508-547 | shutdown means AdminDown through every event except losing the socket, and never through that |
| BfdRuns.AdminDownIgnoresPeer | bfdd/bfd.c:1444-1452 | no packet takes a session out of AdminDown |
| BfdRuns.ShutdownIsForgotten | bfdd/bfd.c:1841-1912 | a shut-down session comes Up after an interface flap, and lifting the shutdown changes nothing |
| BfdRuns.AppliedIsRun | bfdd/bfd.c:179-294 | applying a configuration is a run of single changes, so all the above holds of it |
| BfdPair.StepKeepsHandshake | bfdd/bfd.c:1454-1584 | claims in flight stay backed by packets really accepted |
| BfdPair.UpMeansBothHeard | bfdd/bfd.c:1454-1584 | Up at either end means each has accepted a packet of the other, and names it by its discriminator |
| BfdPair.HeardUp | bfdd/bfd_packet.c:1495-1549 | what a packet does to timers and polls while both are Up |
| BfdPair.PollExchange | bfdd/bfd.c:1738-1783 | after a poll is answered, the poller's detection time covers the peer's interval, with equality exactly unless the peer withholds an increase |
| BfdPair.JitterStays | bfdd/bfd.c:565-595 | between 75 and 100 per cent, at most 90 when one loss is fatal, no overflow |
| BfdPair.PeerStaysAlive | bfdd/bfd.c:565-595 | a multiplier's worth of jittered intervals never exceeds the other end's detection time |
| BfdAgreement.FinalSettles | bfdd/bfd_packet.c:1498-1531 | an answer that ends a poll and carries the peer's settings leaves the poller with the right interval and detection time |
| BfdAgreement.PollTunes | bfdd/bfd_packet.c:1533-1549 | a poll gives its receiver the right interval exactly unless that withholds an increase until its own poll is answered |
| BfdAgreement.PacketSettles | bfdd/bfd_packet.c:1507-1531 | any packet then gives it the right detection time too, and leaves a settled end settled |
| BfdAgreement.SentIsCurrent | bfdd/bfd_packet.c:435-493 | what an end sends while it stays Up carries its settings, and F only answers a P just taken |
| BfdAgreement.RestLasts | bfdd/bfd_packet.c:1495-1549 | a settled end stays settled through every event of either end |
| BfdAgreement.Agreement | bfdd/bfd_packet.c:1495-1549 | for every interleaving: once each end has had its poll answered, or heard a poll and one more packet, each detection time is the other's multiplier times its interval, in every later state |
| BfdAgreement.AgreementAfterBothPolls | bfdd/bfd_packet.c:1495-1549 | in particular when both polls, crossing or not, are answered by packets sent since settings last changed |
| BfdAgreement.AgreementInRun | bfdd/bfd_packet.c:1495-1549 | the same from any state of any run on |
| BfdAgreement.FinalFollowsPoll | bfdd/bfd_packet.c:1533-1549 | an answer among such packets was sent when the peer took a poll with the present settings |
| BfdAgreement.PollsCross | bfdd/bfd_packet.c:1495-1549 | two polls that cross end in agreement whichever of poll and answer arrives first |
| BfdAgreement.CleanStart | bfdd/bfd.c:783-811 | without losses three packets bring both Up and both polls end in agreement, for all settings and both orders |
| BfdAgreement.LateFinalExact | bfdd/bfd_packet.c:1498-1505 | a poll ended by an answer to an earlier one leaves the two in agreement if and only if what the peer last heard of the poller leads to the same intervals as its present settings |
| BfdAgreement.LateFinalRun | bfdd/bfd_packet.c:1498-1505 | a run in which it does not: the answer arrives again after the interval was lengthened, and the peer will time out before the next packet whatever the jitter |
| BfdAgreement.UnwatchedRun | bfdd/bfd.c:479-493 | a run in which a delayed packet brings a passive session Up while its socket is closed, and opening the socket leaves it Up with neither timer |
| BfdDiscriminators.Generate | bfdd/bfd.c:549-563 | the first non-zero candidate that no session has, or none among the draws |
| BfdDiscriminators.EveryCandidateIsPossible | bfdd/bfd.c:558-560 | the two draws reach every identifier |
| BfdDiscriminators.Registry.constructor | bfdd/bfd.c:2461-2470 | no sessions |
| BfdDiscriminators.Registry.Find | bfdd/bfd.c:1018-1020 | a discriminator names at most one session |
| BfdDiscriminators.Registry.Register | bfdd/bfd.c:1359-1383 | a new session's discriminator is non-zero and new |
| BfdDiscriminators.Registry.Delete | bfdd/bfd.c:1254-1280 | exactly one session's discriminator is given up and all others are kept |
| BfdAuth.Auth.Check | bfdd/bfd_packet.c:1114-1197 | accepts inside the window with a good digest, and only then moves it |
| BfdAuth.WindowIsTrue | bfdd/bfd_packet.c:1129-1165 | in terms of true counts the wrapping window accepts exactly the next three multipliers' worth |
| BfdAuth.OldestIsTaken | bfdd/bfd_packet.c:1129-1165 | and the bound on delay is exact |
| BfdAuth.TakenMovesOn | bfdd/bfd_packet.c:1129-1197 | along a whole exchange, a packet is accepted exactly when it is genuine and within the window of the last accepted one |
| BfdAuth.AcceptedInOrder | bfdd/bfd_packet.c:1190-1197 | accepted packets are accepted in the order sent, with meticulous keys each only once |
| BfdAuth.SteadyIsAccepted | bfdd/bfd_packet.c:542-545 | a sender that never loses three multipliers' worth in a row is always accepted, across wrap-around |
| Addpath.IdsAreUnique | bgpd/bgp_addpath.c:484-526 | no two paths of any prefixes share an identifier, and none has a reserved one |
| Addpath.Allocate | lib/id_alloc.c:214-251 | a free identifier, or the invalid one when all are used |
| Addpath.Drain | lib/id_alloc.c:364-378 | every identifier of a pool goes back, and was in use |
| Addpath.Release | bgpd/bgp_addpath.c:502-511 | paths no longer sent give their identifiers to the pool; none is lost |
| Addpath.Assign | bgpd/bgp_addpath.c:513-521 | paths to be sent get identifiers, the pool's first; holders keep theirs |
| Addpath.Round | bgpd/bgp_addpath.c:484-526 | afterwards exactly the paths to be sent hold identifiers, unlinked paths keep theirs, no new one is drawn while one is given back, and a settled prefix is left as it is |
| Addpath.SettledStays | bgpd/bgp_addpath.c:484-526 | no round can change a settled prefix |
| Addpath.FreePaths | bgpd/bgp_addpath.c:225-236 | every identifier freed was in use |
| Addpath.PopulateAll | bgpd/bgp_addpath.c:297-346 | the first peer: every path to be sent gets its identifier; pools and unlinked paths are not looked at |
| Addpath.FlushAll | bgpd/bgp_addpath.c:246-275 | the last peer: no path on a list and no pool holds an identifier any more, and the books still balance |
| Addpath.FlushedHoldsNothing | bgpd/bgp_addpath.c:246-275 | then nothing at all is held if and only if no unlinked path has an identifier |
| Addpath.Tx.constructor | bgpd/bgp_addpath.c:72-85 | no peers, no allocator |
| Addpath.Tx.UpdateIds | bgpd/bgp_addpath.c:484-526 | one prefix is brought up to date, all others untouched, the books balanced; a second time changes nothing |
| Addpath.Tx.Populate | bgpd/bgp_addpath.c:297-346 | a new allocator with its reserved identifier, and every eligible path served; the books balance if and only if nothing was left in pools or unlinked paths |
| Addpath.Tx.Flush | bgpd/bgp_addpath.c:246-275 | no allocator; nothing is held if and only if no unlinked path has an identifier |
| Addpath.Tx.TypeChanged | bgpd/bgp_addpath.c:353-401 | an allocator exists exactly while peers use the strategy, and the exact conditions under which the books survive the change |
| Addpath.Tx.AddPath | bgpd/bgp_addpath.c:122-132 | a new path holds nothing |
| Addpath.Tx.Unlink | bgpd/bgp_route.c:738-764 | a path leaves its list and keeps its identifier while an advertisement refers to it |
| Addpath.Tx.Free | bgpd/bgp_route.c:538-572 | a freed path's identifier waits in the pool; what is held in all is unchanged |
| Addpath.Tx.Select | bgpd/bgp_addpath.c:192-212 | selection alone moves no identifier |
| Addpath.Tx.RemoveDest | bgpd/bgp_addpath.c:168-178 | a freed prefix's pool goes back |
| Addpath.IdLeftBehind | bgpd/bgp_addpath.c:246-275 | a path unlinked before and freed after the last peer leaves puts an identifier into a pool without an allocator |

## Left out

- BabelTable.Babel.UpdateExisting: requires, with `UpdateNew` and `UpdateRoute`, that a source's reference count is below 65535, which the code asserts.
- BabelNetwork.LoopFreedom: assumes fresh source entries, live sequence numbers of the source within half the circle in any two successive states, harmless refusals and no router that restarts with an empty source table; that these are also necessary is shown by runs for the first and the third.
- Moderation.Limiter.Check: the 32-bit product of idle seconds and rate is not modelled; it overflows after some 620 days without a packet.
- SendBuffer.Interface.Advance: what a prefix resolves to when its update is flushed is an arbitrary function that may change between operations; what it should be is `BabelTable.Babel.FlushUpdate`, and the two classes are not joined.
- SendBuffer.Interface.FlushUpdates: the interface is up; when it is down the code discards the buffered updates.
- Addpath.Tx.RemoveDest: requires balanced books; after an identifier was left behind out of use, the code would drain its pool into an allocator that does not exist.
- Addpath.Allocate: which free identifier is taken is left open; the bit-mask pages of the allocator are not modelled.
- BfdSession.Session.Enable: failures to find the interface or to open a socket leave the session as it is, and are not separate outcomes.
- babeld: `expire_routes`, `update_neighbour_metric`, `update_interface_metric` and `retract_neighbour_routes` as loops; their per-route steps are `UpdateRouteMetric` and `FlushRoute`.
- babeld: the requests and triggered updates sent when routes change, the resend list, hello and IHU handling and neighbour cost, timestamps and round-trip times, HMAC, unicast buffers, and the diversity channels kept in the route table.
- bfdd: echo mode, seamless BFD, the distributed data plane, the SHA1 digest itself and key selection, session lookup by address, TTL checks, the C bit and notifications.
- bgpd: everything but the identifiers for additional paths; the three strategies are three instances of one model, and the two-level tables of VPN and EVPN are one list of prefixes.
