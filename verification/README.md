# Verified model of the delayed-binding TCP proxy

The proxy answers a client's TCP handshake itself, holds back the first payload packet, lets a callback choose a
server, opens a second connection to that server and then splices the two connections into one by rewriting addresses,
sequence numbers and acknowledgement numbers. This project models one pipeline (one core) of it and proves what the
pipeline keeps over every run, for arbitrary packets, duplicates and flags unless a hypothesis is stated.

## How the model is built

| files | content |
|---|---|
| `Tcp.dfy` | 32-bit words with wrap-around, TCP states and their order, packets, statistics |
| `Connection.dfy`, `Splice.dfy`, `Machine.dfy` | the connection record, the packet rewrites, and one step of the joint client/server state machine as a table of branch arms; `Life` is the sequence of packets one allocation of a connection sees |
| `PortMask.dfy`, `PortTable.dfy`, `Manager.dfy` | ownership of ports under the receive-flow mask, the connection table and timer wheel as values, and the manager and wheel classes that change in place |
| `PipelineState.dfy`, `Closure.dfy` | the whole pipeline as a value, and the packet closure as imperative code over the captured objects, proved equal to one `Step` of that value |
| `StateHistory.dfy` | the server-side state history as the fixed array it is kept in |
| `JointStates.dfy`, `CloseSafety.dfy`, `WordDiscipline.dfy`, `CloseProgress.dfy`, `SpliceRuns.dfy`, `EarlyClose.dfy`, `History.dfy` | results about every life of a connection |
| `Wire.dfy`, `Conduct.dfy`, `Destinations.dfy`, `Limits.dfy` | what each packet does, where it goes and what is in it, told from the packet, the pair of states and the numbers seen on the wire, without the branch arms |
| `Runs.dfy`, `Events.dfy`, `Routing.dfy`, `PortQueue.dfy`, `RecordStore.dfy`, `Counters.dfy`, `Statistics.dfy`, `CloseStatistics.dfy` | results about every run of a pipeline |
| `Scenarios.dfy` | runs and lives that exist, so that the results are about something |

The imperative classes keep the source's shape: `ProxyConnection` and `ConnectionManager` are objects with the
source's fields, the vector of connections is an array, and the closure is a chain of `if`s that updates them. Their
contracts tie the new state to functions on values, and the theorems are about those functions. The functions are
organised differently from the code, by branch arm: which arm a packet takes, the pair of states it leads to, what
it does to the words, to the packet, to the history and to the statistics. The manager's own assertions
(`src/cmanager.rs:551`, `560`, `596`, `600`, `607`) appear as `assert`s in the methods.

The arms are not the last word on the behaviour: `Wire.NumbersAt` computes, from the packets alone, the numbers an observer
of the two wires knows; `Wire.WordsAreOnTheWire` proves that the words of a connection are these numbers; and `Conduct`
and `Destinations` state the step by flags, states and these numbers only.

`Runs.PacketsOf` collects, from the events of a run, the packets that were given to a connection since its port was
handed out. `Runs.RunLives` and `Runs.PacketInLife` say that these packets are a life and that the pipeline treats them
as the life does. So what holds at every point of every life holds for every connection of every run; for close safety
and close progress, `Routing.RunCloseIsMutual` and `Routing.RunCloseProgress` state it together with the port and the
socket. The history records are kept twice: as a value inside each connection, and as slots of a store that all
connections write to through a handle; `RecordStore` proves that both agree.

The union that shares one word between the forward sequence number and the acknowledgement awaited for a FIN is one
32-bit field with a tag that only specifications see. Counters are multisets of statistics.

## Assumptions about code that is not part of this model

* State order: Listen < SynReceived < SynSent < Established < CloseWait < LastAck < FinWait1 < Closing < FinWait2 <
  Closed. The comparisons at `src/nftcp.rs:598`, `673`, `693-694`, `766-778` and the histories at
  `tests/client_syn_fin.rs:279-297` fix the parts that matter.
* Timer wheel: scheduling appends a port to some slot and returns its cell, replacing overwrites a cell and returns
  the old value, a tick drains one due slot and says whether more are due. Which slot a timer gets and which slots
  are due are inputs.
* `make_reply_packet(p, 1)` swaps the endpoints, acknowledges `seq + 1` and sets the ACK flag (`src/nftcp.rs:554`
  calls the result a SYN-ACK). `shuffle_ports` returns a permutation, a history slot handed out is fresh.
* Client addresses are not 0 (`src/cmanager.rs:254-261` treats 0 as absent), and the selection callback picks a
  configured server.
* Callbacks change neither the table nor the TCP state; a payload callback keeps the length of later packets.
* The mask leaves the manager at least one port besides port 0; otherwise `max_tcp_port - 1` underflows.

## Claims that fail, with their exact conditions

* The server's acknowledgement of a client FIN is recognised if and only if the FIN carried no payload, whether the
  client closes first (`Limits.FinAckRecognisedIff`) or answers the server's FIN (`Limits.PassiveFinAckRecognisedIff`).
* A fresh client segment is taken for a re-sent one if and only if its number wrapped past the acknowledged one
  (`Limits.FreshSegmentRefusedIff`).
* The proxy follows a close if and only if no client packet below the acknowledged number brings the client's FIN or the
  first acknowledgement of the server's FIN (`CloseProgress.AgreesIffHeard`).
* The server history does not stay within its seven slots for every server. With at most s server FINs and c client
  FINs it always does if and only if s <= 1, or s = 2 and c <= 1 (`History.SlotsSufficeIff`); a server that repeats its
  FIN overruns any number of slots (`History.RepeatedFinsOverrun`).
* A SYN is answered to its client if and only if the connection is new; the answer to a SYN that re-opens a half-closed
  connection is sent on to the server (`Limits.SynAckReachesClientIff`).
* One event keeps the wheel free of stale entries if and only if it is not a SYN from a known socket whose connection has
  a closed client side (`PortQueue.ExactIffNoReopen`).
* A mask test is a range test if and only if the mask's set bits are the high ones (`PortMask.OwnershipIsRangeIff`).

## Model

| member | source | states |
|---|---|---|
| Connection.ProxyConnection.Initialize | src/cmanager.rs:194-223 | every field gets its start value, whatever an earlier use of the slot left in it |
| Connection.FreshIsBlank | src/cmanager.rs:194-223 | a slot handed out is blank: both sides unopened, no packet held, all numbers 0, empty histories without causes |
| Connection.ProxyConnection.Release | src/cmanager.rs:236-241 | only the port and the record handle are given up, the rest keeps its last value |
| Connection.ProxyConnection.CPushState | src/cmanager.rs:280-285 | the client state and the end of its history change together, nothing else does |
| Connection.ProxyConnection.SPushState | src/cmanager.rs:288-293 | the server state and the end of its history change together, nothing else does |
| StateHistory.Extension.PushState | src/cmanager.rs:49-54 | the history in the array grows by the state, as long as one of the seven slots is left, and stays the one of the value record |
| StateHistory.Extension.Init | src/cmanager.rs:66-69 | the history starts anew, in the array and in the value record alike |
| StateHistory.Extension.LastState | src/cmanager.rs:72-78 | the last pushed state, or Listen for an empty history |
| StateHistory.Extension.States | src/cmanager.rs:40-46 | the reported history is Listen followed by the pushed states |
| Splice.ClientSynReceived | src/nftcp.rs:225-235 | in place: the SYN becomes the proxy's SYN-ACK, and only the initial number and the expected client number change |
| Splice.ClientToServer | src/nftcp.rs:237-274 | in place: the packet is readdressed and shifted for the server, the last acknowledgement and a FIN's number are kept |
| Splice.ServerToClient | src/nftcp.rs:276-313 | in place: the packet is readdressed and shifted for the client, a FIN sets the shared word to its end |
| Splice.SelectServer | src/nftcp.rs:317-371 | in place: the payload packet is held with its rewritten payload and its growth noted, the packet becomes the SYN |
| Splice.ServerSynAckReceived | src/nftcp.rs:374-418 | in place: the initial number becomes the delta, the last handshake ACK and the held payload are queued |
| Manager.TimerWheel.Tick | src/cmanager.rs:618-637 | one due slot is drained and emptied, and the answer says whether more are due |
| Manager.ConnectionManager.constructor | src/cmanager.rs:462-499 | a consistent table without connections, all usable ports queued once, the last port last |
| Manager.ConnectionManager.GetMutByPort | src/cmanager.rs:522-534 | a connection is returned exactly for owned ports in use, and the index never runs out of the vector |
| Manager.ConnectionManager.GetMutBySock | src/cmanager.rs:536-543 | the connection in use for a known socket, none otherwise |
| Manager.ConnectionManager.GetMutOrInsert | src/cmanager.rs:545-589 | a known socket keeps its connection, a new one gets the first free port and a cleared slot, both assertions hold |
| Manager.ConnectionManager.ReleasePort | src/cmanager.rs:591-613 | a connection in use gives back port, socket entry and wheel cell, once, and the three assertions hold |
| Manager.ConnectionManager.TimeOut | src/cmanager.rs:642-668 | a port in use is released, any other port is ignored, and the table stays consistent |
| Manager.ConnectionManager.TimeOutDrained | src/cmanager.rs:620-627 | every drained entry but the zeros is timed out, and the table is consistent after each |
| Manager.ConnectionManager.ReleaseTimeouts | src/cmanager.rs:616-639 | the loop ends, drains all due slots in order and leaves table and wheel in agreement |
| Closure.Pipeline.ClientChain | src/nftcp.rs:547-686 | the client branch chain takes the classified arm: its states, words, packet, statistics and timer |
| Closure.Pipeline.OnClientPacket | src/nftcp.rs:542-700 | a client packet has the effect of one client step, with release test and forwarding by the old states |
| Closure.Pipeline.ServerChain | src/nftcp.rs:715-791 | the server branch chain takes the classified arm |
| Closure.Pipeline.OnServerPacket | src/nftcp.rs:709-819 | a server packet has the effect of one server step |
| Closure.Pipeline.Serve | src/nftcp.rs:538-834 | the packet's connection makes its step and is released if the packet ended it, with table and wheel in agreement |
| Closure.Pipeline.OnPacket | src/nftcp.rs:441-836 | the closure on a packet is one step of the pipeline and gives that step's answer |
| Closure.Pipeline.OnTimer | src/nftcp.rs:473-508 | the closure on a tick is one step of the pipeline: timeouts every so many ticks |
| PortMask.NoOverflow | src/cmanager.rs:465-466 | base + !mask fits 16 bits for every mask the base respects |
| PortMask.OwnsIffInRange | src/cmanager.rs:507-509 | for a mask of high bits a port carries the base exactly if it lies between base and base + !mask |
| PortMask.OwnershipIsRangeIff | src/cmanager.rs:502-509 | the mask test is the range test if and only if the mask's set bits are the high ones |
| PortMask.DisjointRanges | src/cmanager.rs:463-466 | managers with different bases own disjoint ranges |
| PortTable.UnusedOk | src/cmanager.rs:475-487 | the initial queue holds every usable port once and never port 0 |
| PortTable.InsertKeeps | src/cmanager.rs:545-589 | insertion keeps the table, returns a usable port for the socket, and fails exactly for a new socket without free ports |
| PortTable.GiveKeeps | src/cmanager.rs:591-613 | giving a port back keeps map, queue and connections in agreement |
| PortTable.TimeOutAllKeeps | src/cmanager.rs:620-627 | the table is consistent after draining any list of entries |
| PortTable.TimeOutAllAt | src/cmanager.rs:620-668 | draining zeros, duplicates, stale and foreign ports ends exactly the connections in use that are named and leaves the others as they were |
| PortTable.FreedIff | src/cmanager.rs:642-667 | the ports freed by a drain are exactly the named ones in use |
| PortTable.FreedOnce | src/cmanager.rs:662-663 | each of them is queued once, behind what was free before |
| PortTable.ReleaseKeeps | src/cmanager.rs:591-613 | a release leaves every other connection its own wheel cell |
| PortTable.DrainKeepsAll | src/cmanager.rs:616-639 | no connection survives the drain of its slot, the others keep their cells, and no stale entry appears |
| PipelineState.StepKeeps | src/nftcp.rs:521-834 | every event keeps the table, the wheel and their agreement |
| PipelineState.ServeReady | src/nftcp.rs:526-562 | after the lookup only a connection this packet created has no timer, and this packet arms it |
| JointStates.OnlyListed | src/nftcp.rs:547-807 | between two packets a connection in use is in one of 26 pairs of states, for arbitrary packets |
| JointStates.EachOccurs | src/nftcp.rs:547-807 | each of the 26 pairs is reached by some packets |
| JointStates.ReachableIffListed | src/nftcp.rs:547-807 | exactly the listed pairs are reachable |
| CloseSafety.JustifiedStep | src/nftcp.rs:573-658 | one packet keeps what each pair of states proves about FINs and acknowledgements in the past |
| CloseSafety.CloseIsMutual | src/nftcp.rs:573-795 | a connection released without client RST had both FINs acknowledged by the other side, or the proxy's own FIN after an early close |
| CloseSafety.CloseOccurs | src/nftcp.rs:647-658 | lives that packets close do exist, from the first SYN to the final acknowledgement |
| WordDiscipline.AlwaysDisciplined | src/nftcp.rs:270-310 | the two FIN words equal the latest FINs that went out, in every run with timely server FINs |
| WordDiscipline.ComparisonsSeeTheFin | src/cmanager.rs:132-137 | whenever a comparison with the shared word can change a state, the word is the end of the latest FIN sent to the client, never a leftover |
| WordDiscipline.CloseIsMutualOnWire | src/nftcp.rs:573-795 | close safety by the packets on the wire alone: each side acknowledged the FIN that was sent to it |
| CloseProgress.AgreesStep | src/nftcp.rs:573-658 | in an orderly close the pair of states records exactly what an outside observer has seen |
| CloseProgress.AgreesIffHeard | src/nftcp.rs:548-551 | a packet breaks this agreement if and only if it is below the acknowledgement the client got last and brings the client's FIN or the first acknowledgement of the server's FIN |
| CloseProgress.ReleaseIffBothAcked | src/nftcp.rs:573-834 | from the established state on, active, passive and simultaneous closes, with new and re-sent data in between, release the connection with exactly the first packet after which both FINs are delivered and acknowledged |
| SpliceRuns.AlwaysFits | src/nftcp.rs:231-413 | delta, growth, held packet and server of a connection follow from its setup packets at every later point |
| SpliceRuns.ClientToServerTransparent | src/nftcp.rs:251-271 | every later client byte and acknowledgement reaches the selected server at its own place, modulo 2^32 and with the growth of the first payload of either sign |
| SpliceRuns.ServerToClientTransparent | src/nftcp.rs:283-309 | server bytes follow the proxy's initial number, and server acknowledgements lose the growth again |
| SpliceRuns.DirectionsInvert | src/nftcp.rs:258-308 | what one direction does to sequence numbers the other undoes on acknowledgements |
| SpliceRuns.PayloadFollowsHandshake | src/nftcp.rs:381-416 | handshake ACK and then held payload are queued with the accepting SYN-ACK and never else, both from the connection's own port, one number after the SYN that went out, and acknowledging the server's SYN |
| SpliceRuns.PayloadAtClientIsn | src/nftcp.rs:362-416 | if the first payload follows a handshake with client number Sc, both queued packets carry Sc + 1, Sc being the number of the connection's first SYN |
| SpliceRuns.ServerOpensOnce | src/nftcp.rs:659-723 | one allocation sends at most one SYN to a server and accepts at most one SYN-ACK |
| Wire.WordsAreOnTheWire | src/cmanager.rs:132-158 | at every point the words of a connection are the acknowledgements last sent to client and server, the last FIN sent to the server, and in the shared word the end of the last FIN to the client or the proxy's own number towards the server |
| Wire.EndOfFin | src/nftcp.rs:310 | the end of a FIN counts its payload and itself, modulo 2^32 |
| Conduct.ClientConduct | src/nftcp.rs:547-690 | a client packet's effect on states, statistics, histories, release causes, release and timer, by its flags, the states before it and the numbers on the wire |
| Conduct.ServerConduct | src/nftcp.rs:715-795 | the same for a server packet |
| Conduct.ClosePackets | src/nftcp.rs:573-787 | which packets are FINs, resets and acknowledgements of FINs to the proxy |
| Destinations.SetupPackets | src/nftcp.rs:552-723 | which packets open a connection, select the server and accept its SYN-ACK |
| Destinations.NewClientIsAnswered | src/nftcp.rs:225-235 | a new client's SYN comes back as SYN-ACK with the proxy's number, one above the client's |
| Destinations.HandshakeCompletesIff | src/nftcp.rs:548-570 | the next client packet establishes the connection if and only if it is an acknowledgement, and no SYN, at or after the number the SYN-ACK asked for |
| Destinations.ClientGoes | src/nftcp.rs:547-686 | before the two connections are joined: SYN and early FIN are answered, the first payload becomes a bare SYN to the selected server one number before it, packets out of place go to the kernel, the rest is dropped |
| Destinations.ClientIsForwarded | src/nftcp.rs:692-700 | once the server has accepted, every client packet goes to the selected server from the connection's own port until the server side is closed, and after that nothing but FINs goes to the wire |
| Destinations.ServerGoes | src/nftcp.rs:797-819 | server packets go to the client, from the proxy's socket, exactly while the client side is open and the server side is up; others go to the kernel if out of place and are dropped if not |
| EarlyClose.ProxyAnswers | src/nftcp.rs:598-612 | a FIN before the server side is up is answered by FIN-ACK at the proxy's next number, and nothing goes to a server |
| EarlyClose.EarlyCloseCompletes | src/nftcp.rs:647-690 | of the plain packets after it exactly an acknowledgement of that FIN is final, with the histories and causes tests/client_syn_fin.rs expects |
| History.CopyMatchesRecord | src/cmanager.rs:280-293 | the states kept for speed are always the last ones of the record |
| History.HistoryLength | src/cmanager.rs:49-54 | the server history has at most 2 + 2 (server FINs) + (client FINs) entries, in every run |
| History.OneFinWithin | src/cmanager.rs:32-54 | with at most one server FIN no push runs past the seven slots, however often the client sends its FIN |
| History.SlotsSufficeIff | src/cmanager.rs:32-54 | seven slots are enough for all lives with at most s server and c client FINs if and only if s <= 1, or s = 2 and c <= 1 |
| History.RepeatedFinsOverrun | src/nftcp.rs:752-765 | a server repeating its FIN overruns every number of slots |
| Limits.FinAckRecognisedIff | src/nftcp.rs:270 | the acknowledgement of a client FIN is recognised if and only if the FIN has no payload |
| Limits.PassiveFinAckRecognisedIff | src/nftcp.rs:270 | the same for the client's FIN that answers the server's: its acknowledgement closes the connection if and only if it has no payload |
| Limits.FreshSegmentRefusedIff | src/nftcp.rs:548-551 | a segment ahead of the acknowledgement the client got last counts as re-sent, and changes nothing, if and only if its number wrapped |
| Limits.SynAckReachesClientIff | src/nftcp.rs:552-562 | a SYN is answered to its client if and only if the connection is new, otherwise the answer goes to the server |
| Runs.RunKeeps | src/cmanager.rs:522-668 | in every run map, queue, connections and wheel agree after every event, so no assertion of the manager fails |
| Runs.RunLives | src/nftcp.rs:524-705 | in every run a connection is exactly what the packets of the run that were given to it since its allocation made of it |
| Runs.RunPairsListed | src/nftcp.rs:547-807 | no connection of any run is in a pair that is not listed |
| Runs.PacketInLife | src/nftcp.rs:538-834 | what the pipeline does with a packet is what the life of its connection says |
| Events.PacketIsGiven | src/nftcp.rs:441-541 | whose packet it is, by addresses, ports and the tables, and what happens to a packet that is nobody's |
| Events.PacketAsGiven | src/nftcp.rs:522-545 | the connection sees the packet as a client's or a server's by its destination port, with all inputs it came with |
| Events.TickEnds | src/nftcp.rs:473-508 | a tick counts, and at multiples of the reduction factor exactly the connections with a port in a slot that is due end |
| Routing.RunAnswersSyn | src/nftcp.rs:521-562 | in every run a SYN from a new socket that finds a free port is answered with a SYN-ACK, and that port serves the socket |
| Routing.RoutingNeverCrosses | src/nftcp.rs:251-293 | while a connection is in use its forwarded client packets leave with its port, later client packets from the same socket are given to it, forwarded server packets to that port reach exactly its client, and no other port serves that client |
| Routing.EndFreesPort | src/nftcp.rs:831-834 | a connection ended by a packet gives its port back once and its socket is forgotten |
| Routing.RunCloseIsMutual | src/nftcp.rs:688-834 | close safety for every connection of every run |
| Routing.RunCloseProgress | src/nftcp.rs:573-834 | close progress for every connection of every run: the port is queued once and the socket forgotten with exactly the packet that completes the close |
| PortQueue.Census | src/cmanager.rs:444-450 | free ports and ports in use make up the usable ports, and the socket map has one entry per port in use |
| PortQueue.PoolIsConserved | src/cmanager.rs:545-668 | the pool of ports is conserved over every run |
| PortQueue.QueueLaw | src/cmanager.rs:556-663 | over any stretch of a run, handed out plus still free is, in order, free at first plus given back |
| PortQueue.Quarantine | src/cmanager.rs:475-663 | a port with k ports before it is next handed out after exactly those k ports, whatever happens in between |
| PortQueue.DrainEndsOwn | src/cmanager.rs:616-668 | without stale entries a drain ends exactly the connections whose own timer is in the slot |
| PortQueue.ReopensIffArms | src/nftcp.rs:552-562 | the packets that arm a second timer for a connection in use are exactly the SYNs from a known socket whose connection has a closed client side |
| PortQueue.ExactIffNoReopen | src/nftcp.rs:552-562 | one event keeps the wheel without stale entries if and only if it is no such SYN |
| PortQueue.WheelIsExact | src/cmanager.rs:591-639 | without re-opening SYNs the non-zero wheel entries are exactly the ports in use, each in the cell its connection names |
| Statistics.PacketBalance | src/nftcp.rs:556-722 | what a packet adds to the setup statistics balances what it does to its connection |
| Statistics.SetupIsConserved | src/nftcp.rs:556-722 | what entered a setup stage is what passed it, waits in it now, or was taken out by FIN, RST, timeout or a handshake ACK that finds the server closing |
| Statistics.SetupCountersOrdered | tests/test_tcp_proxy.rs:402-404 | accepted SYN-ACKs, sent SYNs, handshake ACKs and received SYNs are ordered in every run |
| Statistics.StatisticsPaired | src/nftcp.rs:556-787 | what one side received and the other sent is counted alike, up to the FINs the proxy answered itself |
| CloseStatistics.FinLedger | src/nftcp.rs:573-787 | in every run of orderly closes the FIN statistics of both sides are, at every moment, the completed closes and what the connections in use have contributed |
| CloseStatistics.FinStatistics | tests/test_tcp_proxy.rs:405-417 | once no close is under way, both sides received and sent one FIN for each completed close, and at least as many acknowledgements |
| RecordStore.RunRecords | src/cmanager.rs:162-164 | in every run exactly the connections in use hold a slot of the store, the record in it shows last the states kept for speed, and every record given up shows how its connection ended |
| RecordStore.NeverShared | src/cmanager.rs:352-364 | two connections in use never share a record |
| RecordStore.OthersKeepRecords | src/cmanager.rs:377-419 | a packet writes no record but that of its own connection |
| RecordStore.TimeOutShowsEnd | src/cmanager.rs:648-649 | the record of a connection that times out gains the closed client state and the cause |
| RecordStore.PastRecordsStay | src/cmanager.rs:421-426 | a record given up is never written and never handed out again |
| Scenarios.EachOccursInRun | src/nftcp.rs:521-834 | every pipeline that can serve a client has, for each of the 26 pairs, a run with a connection in it |
| Scenarios.RunReachableIffListed | src/nftcp.rs:521-834 | exactly the listed pairs are reachable by connections of runs |
| Scenarios.CloseOccursInRun | src/nftcp.rs:647-834 | runs with a connection that packets close do exist |
| Scenarios.OrderlyCloseOccurs | src/nftcp.rs:573-834 | an orderly close that completes does exist |

## Left out

- The network plumbing: schedulers, queues, batches, the kernel interface, packet buffers, checksums, padding, TCP options and MAC addresses. A packet is a record of endpoints, flags, numbers and payload.
- Configuration, start-up, channels, printing and profiling, including the clamp of the configured timeout, so nothing is said about which slot a delay falls into.
- Fetching the record store (`fetch_c_records`): with live detailed records it clears ports without returning them, and the table does not survive that.
- The internals of the timer wheel, the packet library and the record store, beyond the assumptions above; time stamps and random initial numbers are inputs.
- The capacity of the record store and its time stamps: slots are handed out without end, and the pushes of one packet are one write to its record.
- Connection.ProxyConnection.SPushState: keeps the history as an unbounded sequence where the code keeps it in seven slots, because an eighth push stops the program; the array itself is `StateHistory.Extension`, and `History.SlotsSufficeIff` says exactly when its bound is respected.
- Re-transmission of the first payload after its length changed, and server acknowledgements that end inside it: the fixed shift does not map these positions.
- CloseProgress.ReleaseIffBothAcked: assumes that the client's FIN has no payload, that each side sends its FIN once, that no SYN and no client RST comes, and that a client packet below the acknowledged number, which the proxy ignores, carries neither the client's FIN nor the first acknowledgement of the server's FIN; `Limits` and `CloseProgress.AgreesIffHeard` show what happens otherwise.
- CloseStatistics.FinStatistics: assumes the same of every connection, and that connections time out only before their first FIN; each early close adds one FIN that the proxy answers itself, as `Statistics.StatisticsPaired` states.
- WordDiscipline.ComparisonsSeeTheFin: assumes that server FINs come only once the server side is established; the part about the server's acknowledgements also assumes no early client close.
- Forwarding before a server handshake: the code also forwards packets while it pretends a closed server after an early client close, so no claim is made that forwarding needs a server connection.
- Timeouts of single states, and reset of timed-out connections, which the code leaves open as well.
