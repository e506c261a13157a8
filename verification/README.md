# Drouter verification model

Drouter keeps a picture of a plant of audio and GPIO matrices in a database, answers routing clients from it, and
runs as a pair of servers of which one is active. This project models the parts of it where a mistake would be hard
to see, and proves what they promise, over every input and every run.

* **Failover pair** (`Tether.dfy`, `TetherPair.dfy`, `TetherSafety.dfy`, `TetherTakeover.dfy`, `WriteGate.dfy`). Two
  instances query each other with single bytes over two media. The pair is a transition system whose channels deliver
  in any order. Over lossless media exactly one instance is active after the first expired window; from any state at
  all the pair heals with the first window that opens and expires after the media return; an instance that hears
  nothing takes over within 12 seconds and no sooner bound holds; and never do both servers act on requests. Exclusion
  holds exactly when neither medium loses anything.
* **Routing database** (`EndPointMaps.dfy`, `RoutingTables.dfy`, `RoutingDatabase.dfy`, `DRouter.dfy`). The router
  indexes (the `SA_` tables) are the joins of the live tables with the router maps after every run of connects,
  disconnects and changes, with nothing missing, nothing doubled and nothing else. The class `DRouter` does what the
  slots do, loop by loop, and is proved equal to the relational specification.
* **Routing service** (`RouteStat.dfy`, `RouteService.dfy`, `PlantRuns.dfy`, `SharedStreams.dfy`, `ProtocolSa.dfy`,
  `Snapshots.dfy`, `Requests.dfy`). In every reachable plant the rows of each connected host are what its matrix
  reports, so that activation, the matrix's echo, the listing and the event log form a closed loop: what was activated
  is what is reported, unless it carries no stream, and the event is finalised as done, which it is exactly if the
  route is there. The cursor of the full listing is right exactly when no repeated output comes before a connected
  one, which index agreement and distinct streams ensure. Snapshots are last-write-wins, output by output, and never
  touch what they do not name.
* **Protocol D replication** (`Text.dfy`, `Lines.dfy`, `Ipc.dfy`, `Replication.dfy`, `ProtocolD.dfy`,
  `ProtocolDText.dfy`, `ServerRuns.dfy`, `Following.dfy`, `Deliverability.dfy`, `DParser.dfy`,
  `DParserReplication.dfy`, `StateEngine.dfy`, `StateEngineReplication.dfy`, `Comebacks.dfy`, `LateNotices.dfy`,
  `Recollection.dfy`, `TableByTable.dfy`, `Housing.dfy`, `MatrixToClient.dfy`). Core and handler are two processes:
  the core works an event into locked tables and leaves notices, the handler reads them one by one at any later time,
  each select on the tables as they are then, with commands of its client in between. One invariant covers both
  clients, the C++ one with its null entries and ignored additions and the Python one with its lookup errors, its
  handshake and its callbacks: every difference from the tables is owed to a select that still waits or to a node that
  departed. It holds as long as no host comes up early, that is, while a select about it still waits, and both clients
  are safe exactly under that condition. What departed hosts leave behind is counted table by table from its
  subscription on, and is never anything but rows they had. It is carried through the actual text, whatever the reads;
  the Python client and the server are also one transition system in which messages may be delayed for any time.
* **Grass Valley framing** (`Gvg7000.dfy`). Frames arrive in order whatever surrounds them, acceptance is exactly a
  zero sum, and one wrong byte is always noticed and harms no other frame.
* **Maps** (`MapStorage.dfy`, `MapRoundTrip.dfy`, `MapSets.dfy`, `Dmap.dfy`). A saved map loads back; a set of maps is
  accepted exactly when it should be, and then satisfies what the database relies on; a generated map numbers the
  slots of the sorted hosts, the bubble sort ending because every exchange removes one inversion.
* **Mail bodies** (`Base64.dfy`, `SendMail.dfy`). Both repair loops as written, and the base64 lines.

What a member computes is a function on values (`Handled`, `Step`, `OnBytes`, `Saved` and so on); the classes and
loops are proved against those functions, and the promises are lemmas about them.

## What the proofs found

Where the code falls short of its purpose, the condition under which it does is proved.

* A destination reported with its raw "no stream" address is announced as changed although nothing changed
  (`RoutingDatabase.CrosspointNoticeExact`): the stored, normalised address is compared with the raw one.
* An output that joins several sources stops the full RouteStat listing: it is right exactly when no such output comes
  before one that is on (`RouteStat.FullListingExact`), and a matrix with two sources on one stream makes it wrong
  (`SharedStreams.FullListingIsWrong`).
* Names beyond 7 bits do not survive: text is written as UTF-8 and read byte by byte (`Lines.ReadBackIffAscii`).
* Departed nodes are never withdrawn. The tables stay locked from before a removal is announced until the rows are gone
  (`src/drouterd/drouter.cpp:491-533`), so its handler looks for a node that is not there and writes nothing
  (`ProtocolD.RemovalComesTooLate`, with the exact condition under which that does no harm). Both clients keep the node
  and its slots (`Following.NothingIsForgotten`, `LateNotices.DepartedNodeStays`); when it returns, the C++ client
  ignores the additions and keeps what it had (`DParserReplication.NodeEntriesStay`), while the Python client takes them.
* Removals are written exactly when the host is back by the time they are handled (`ProtocolD.RemovalWrittenIff`). A
  client with every slot of the old node is then made right (`Comebacks.ReturnReplacesHost`), but one that was not told
  of them removes what it does not know: the C++ client gets a null entry, the Python client ends in a lookup error.
  Both are safe exactly if no host may come up while a select about it waits (`Comebacks.ReplicaNeedsTimelyHosts`,
  `Comebacks.EngineNeedsTimelyHosts`).
* A subscription answered between a connect and the handling of its notice lists slots whose node the Python client does
  not have. The node is then asked for, or has departed (`StateEngineReplication.SlotsAwaitTheirNodes`); if it departs
  before it is asked for, the slots stay without it for good (`LateNotices.SlotWithoutNode`). Without early returns this
  befalls only slots listed while the select for their node waits (`Housing.LateSlotsWereListed`), and none exactly if
  no host may be listed so (`Housing.SlotsNeedTimelyListings`).
* The event log and the listing disagree about an audio input without a stream: the event is finalised as done, since
  the join does not look at the address (`src/drouterd/drouter.cpp:1561-1574`), and the output is listed as off, since
  that one does (`src/drouterd/protocol_sa.cpp:693-697`); `PlantRuns.ClosedLoop` has both.
* An unfinished line is not dropped when the connection is, so the first line after a reconnect is spoiled
  (`Lines.ArrivesIffFresh`).
* Exclusion needs both media: it holds exactly when neither loses anything (`TetherSafety.ExclusionNeedsBothMedia`).
  With one medium dead an active instance can swallow the only query of its peer, and both become active
  (`TetherSafety.BothActiveWithOneDead`).
* The Grass Valley receiver keeps its bytes after a footer. A later footer is harmless exactly when those bytes and
  what came since do not sum to zero (`Gvg7000.SecondFooterExact`); directly after a frame it always repeats the
  command (`Gvg7000.StrayFooterRepeats`).
* Routes of snapshots count from one, but `loadSet` wants their numbers below the quantities. Of the maps whose routes
  all name existing entries, exactly those are refused that name a last output or a last input, and on a router
  without inputs even OFF is refused (`MapSets.RangeLeavesOutLast`, `MapSets.RefusedForLastOnly`).
* The loop meant to complete naked carriage returns looks for a slash and an `r`: no carriage return is ever completed
  (`SendMail.ReturnsAreLeftAlone`, `SendMail.NakedReturnStays`), and exactly the bodies that contain `/r` are altered
  (`SendMail.MangledIffSlashR`).

## Model

| member | source | states |
|---|---|---|
| TetherInstance.GetInterval | src/drouterd/tether.cpp:217-224 | the delay before the next query is the random number scaled to 0 to 10000 ms, both ends included, and rounded down |
| TetherInstance.Tether.constructor | src/drouterd/tether.cpp:31-58 | an instance is created inactive, with neither timer running and nothing sent |
| TetherInstance.Tether.Start | src/drouterd/tether.cpp:73-95 | with tethering activated exactly the interval timer runs afterwards; without it the instance is told to be active at once and no timer runs |
| TetherInstance.Tether.UdpReadyRead | src/drouterd/tether.cpp:108-142 | bytes from the configured peer only, in order: a query in an open window closes it unanswered, otherwise it is answered with the current flag; a reply is recorded only in an open window |
| TetherInstance.Tether.TtyReadyRead | src/drouterd/tether.cpp:145-170 | the same on the serial line, where every byte counts |
| TetherInstance.Tether.IntervalTimeout | src/drouterd/tether.cpp:173-186 | what was heard is forgotten, one query goes out on each medium and the window opens |
| TetherInstance.Tether.WindowTimeout | src/drouterd/tether.cpp:189-207 | active afterwards exactly when no peer claimed to be; the shared address and the state signal are touched exactly once per change and never otherwise |
| TetherInstance.Tether.Backoff | src/drouterd/tether.cpp:210-214 | exactly the interval timer runs afterwards |
| TetherPair.SwallowKeepsInv | src/drouterd/tether.cpp:114-122 | a query swallowed by an open window costs only one of the two copies: the invariant of the pair survives |
| TetherPair.AnswerKeepsInv | src/drouterd/tether.cpp:124-132 | a query that is answered puts a true reply in flight |
| TetherPair.QuietWindow | src/drouterd/tether.cpp:108-207 | with nothing in flight, an open window is the only one, has heard a reply, and knows whether the peer is active |
| TetherPair.StepKeepsInv | src/drouterd/tether.cpp:108-214 | every lossless step of either side keeps the invariant of the pair |
| TetherSafety.Exclusion | src/drouterd/tether.cpp:108-214 | from any two flags: after any expired window exactly one instance is active in every state, and before it an active instance is never lost |
| TetherSafety.NeverBothActive | src/drouterd/tether.cpp:108-214 | starting with both inactive, no reachable state has both active |
| TetherSafety.WindowsAreTrue | src/drouterd/tether.cpp:114-168 | in every reachable state every travelling reply, and on each medium the reply recorded in an open window, equals its sender's current flag; once nothing is in flight an open window is alone, has heard a reply and knows whether the peer is active |
| TetherSafety.Healing | src/drouterd/tether.cpp:108-214 | from any flags, windows and recorded replies: the first window that opens and expires leaves exactly one active instance for ever |
| TetherSafety.BothActiveWithOneDead | src/drouterd/tether.cpp:119-154 | for either medium, a run that loses bytes on it only and leaves both instances active |
| TetherSafety.ExclusionNeedsBothMedia | src/drouterd/tether.cpp:108-214 | a pair at rest with one active instance keeps exactly one in all runs exactly when neither medium loses anything |
| TetherTakeover.Takeover | src/drouterd/tether.cpp:173-224 | an instance that hears nothing is active at every moment from 12000 ms on, whatever its timers and replies were |
| TetherTakeover.TakeoverBoundIsExact | src/drouterd/tether.cpp:173-224 | one millisecond less would be false |
| WriteGate.ClusterFollowsPair | src/drouterd/drouterd.cpp:152-153 | in every run each gate equals its instance's flag, and address operations and signals strictly alternate |
| WriteGate.PairWideWriteSafety | src/drouterd/drouter.cpp:956-1030 | in no reachable state would both servers forward a request, whatever the requests and the matrices |
| WriteGate.Drouterd.WindowTimeout | src/drouterd/drouterd.cpp:145-153 | one process: when its tether's window expires, the gate of its core, the address and the signals change as the pair's runs assume |
| Text.SplitJoin | src/common/dparser.cpp:211-214 | splitting a joined record gives its fields back |
| Text.ParsePrintInt | src/drouterd/protocol.cpp:121-172 | every 32-bit number survives printing and parsing |
| Text.ParsePrintAddress | src/drouterd/protocol.cpp:121-172 | every IPv4 address, and the null address, survives printing and parsing |
| Lines.CutsDoNotMatter | src/common/dparser.cpp:109-131 | the received lines do not depend on how the bytes are cut into reads |
| Lines.SentArrives | src/common/dparser.cpp:109-131 | lines free of line ends arrive as they were sent, with nothing left over |
| Lines.ArrivesIffFresh | src/common/dparser.cpp:180-208 | with an unfinished line in the accumulator they do so only if nothing is sent |
| Lines.ReadBackIffAscii | src/drouterd/protocol_d.cpp:168-215 | a text written as UTF-8 and read one character per byte survives exactly when it is 7-bit |
| Lines.Utf8CharIsShortest | src/drouterd/protocol_d.cpp:882-1023 | the bytes of a character are its UTF-8 form as RFC 3629 has it: lead byte, continuation bytes, shortest form |
| Lines.AccentIsMangled | src/drouterd/protocol_d.cpp:1007-1023 | for instance, one accented letter arrives as two other characters |
| Ipc.CommandReadsBack | src/drouterd/protocol.cpp:121-172 | each request a protocol handler prints is read by the core as that request |
| Ipc.RequestOnTheWire | src/drouterd/protocol.cpp:121-172 | each printed request, split at its blanks, is its keyword, address, slot and the rest in the order the core expects |
| Ipc.NoticeReadsBack | src/drouterd/protocol.cpp:310-387 | each notification the core prints is read by the handlers as that notification |
| Ipc.NoticeOnTheWire | src/drouterd/protocol.cpp:310-387 | each printed notification, split at its colons, is its keyword, address and slot or counts in the order the handlers expect |
| EndPointMaps.FirstAt | src/common/endpointmap.cpp:199-208 | the number of the first entry for a host and slot, or -1 exactly when there is none |
| EndPointMaps.EndPointMap.constructor | src/common/endpointmap.cpp:75-80 | a new map is the empty audio router "Livewire", number 0 |
| EndPointMaps.EndPointMap.Insert | src/common/endpointmap.cpp:217-224 | inserting keeps the four parallel lists aligned: one entry more, the others unmoved in order, the other side untouched |
| EndPointMaps.EndPointMap.FindEndPoint | src/common/endpointmap.cpp:199-208 | the search loop returns the number of the first entry |
| RoutingTables.SlotAddedAgrees | src/drouterd/drouter.cpp:326-358 | entering a slot and visiting all maps keeps the index equal to the join |
| RoutingTables.HostAddedAgrees | src/drouterd/drouter.cpp:325-452 | so does entering all slots of a host; the host then has exactly those slots, and other hosts are unchanged |
| RoutingTables.HostRemovedAgrees | src/drouterd/drouter.cpp:506-532 | deleting a host from index and table keeps agreement and leaves no trace of it |
| RoutingTables.DataChangedAgrees | src/drouterd/drouter.cpp:606-635 | changing unindexed columns keeps agreement |
| RoutingTables.LinkChangedAgrees | src/drouterd/drouter.cpp:582-596 | changing the link in table and index keeps agreement |
| RoutingDatabase.ConnectedKeepsSound | src/drouterd/drouter.cpp:264-482 | a connect keeps all four indexes, the slot counts and the normalised streams |
| RoutingDatabase.DisconnectedKeepsSound | src/drouterd/drouter.cpp:483-535 | so does a disconnect |
| RoutingDatabase.SourceChangedKeepsSound | src/drouterd/drouter.cpp:538-562 | so does a source change |
| RoutingDatabase.DestinationChangedKeepsSound | src/drouterd/drouter.cpp:565-603 | so does a destination change |
| RoutingDatabase.GpiChangedKeepsSound | src/drouterd/drouter.cpp:606-635 | so does a GPI change |
| RoutingDatabase.GpoChangedKeepsSound | src/drouterd/drouter.cpp:638-685 | so does a GPO change |
| RoutingDatabase.IndexesAlwaysAgree | src/drouterd/drouter.cpp:264-673 | after every run of events each index is the join: one row per live row and map that lists it, with the map's number, the row's identifier and link, and nothing else |
| RoutingDatabase.CrosspointNoticeExact | src/drouterd/drouter.cpp:572-600 | every change of a destination's stream is announced, and exactly when an announcement is made without one |
| RoutingDatabase.GpiNoticesExact | src/drouterd/drouter.cpp:606-635 | a GPI change sends a code notice exactly if the row gets another code, up to case, then always the notice of the row, and nothing else |
| RoutingDatabase.GpoNoticesExact | src/drouterd/drouter.cpp:638-685 | a GPO change sends a crosspoint notice exactly if the GPI followed is another, a code notice exactly if the code is, up to case, and always the notice of the row |
| Core.InsertRows | src/drouterd/drouter.cpp:325-358 | the nested loops over slots and maps build exactly the specified table and index |
| Core.DRouter.constructor | src/drouterd/drouter.cpp:45-68 | a core starts with empty tables and a closed gate |
| Core.DRouter.NodeConnected | src/drouterd/drouter.cpp:264-535 | connects and disconnects change the database as specified and send exactly the specified notices |
| Core.DRouter.ChangeSource | src/drouterd/drouter.cpp:538-562 | the database after the event, and its notices |
| Core.DRouter.ChangeDestination | src/drouterd/drouter.cpp:565-603 | the same, with a crosspoint notice when the raw address differs from the stored one |
| Core.DRouter.ChangeGpi | src/drouterd/drouter.cpp:606-635 | the same, with a code notice when the code differs in more than case |
| Core.DRouter.ChangeGpo | src/drouterd/drouter.cpp:638-685 | the same, with crosspoint and code notices |
| Core.DRouter.SetWriteable | src/drouterd/drouter.cpp:232-261 | the gate takes the announced state; repeated announcements change nothing and notify nobody |
| Core.DRouter.ProcessIpcCommand | src/drouterd/drouter.cpp:918-1031 | a closed gate forwards nothing; an open one makes of every request a handler can print exactly the calls for the slots that exist (`Requests.RequestIsOneReport` says what comes of each) |
| Core.DRouter.IpcReadyRead | src/drouterd/drouter.cpp:783-807 | all requests completed by the bytes read are processed in order, the rest is kept |
| RouteStat.OneLinePerOutput | src/drouterd/protocol_sa.cpp:709-719 | the full listing has one line for each output, in order, whatever the query returns |
| RouteStat.StuckCursor | src/drouterd/protocol_sa.cpp:710-718 | a cursor left behind never moves again: every later output is listed as off |
| RouteStat.FullListingExact | src/drouterd/protocol_sa.cpp:709-731 | the full listing equals the single listings exactly when no output with several rows comes before an output that is on |
| RouteStat.OneRowPerOutput | src/drouterd/protocol_sa.cpp:736-758 | with the indexes in agreement and distinct streams the query has at most one row per output |
| RouteStat.FullListingIsSingles | src/drouterd/protocol_sa.cpp:677-771 | hence, whatever order the database answers in, each line of the full listing is the single listing's |
| RouteStat.SharedStreamHidesLater | src/drouterd/protocol_sa.cpp:709-731 | where two inputs feed one output, every later output that is on is off in the full listing |
| SharedStreams.FullListingIsWrong | src/drouterd/protocol_sa.cpp:709-731 | such tables are reachable: a matrix with two sources on one stream connects, the query has an answer, and the two listings of the second output differ for every answer |
| RouteService.CallSetsLink | src/drouterd/drouter.cpp:956-994 | the request of a ready route makes the output follow the input, and no other output changes |
| RouteService.ConnectedIsReported | src/drouterd/protocol_sa.cpp:677-771 | the line of a connected output carries router, output and its input, 0 for OFF and for an audio input without a stream |
| RouteService.AudioIsFinalized | src/drouterd/drouter.cpp:1537-1576 | a logged audio event is finalised as done exactly if its output has the stream of the input then, or the null address for OFF |
| RouteService.GpioIsFinalized | src/drouterd/drouter.cpp:1579-1613 | a logged GPIO event is finalised as done exactly if its output follows the slot of the input then, or a negative one for OFF |
| RouteService.ActivationConnects | src/drouterd/protocol_sa.cpp:253-302 | an echoed activation of a ready route connects the output, keeps the database sound and leaves every other output alone |
| PlantRuns.StepKeepsFaith | src/drouterd/drouter.cpp:264-673 | matrices found, connecting, reporting, carrying out requests and disconnecting keep every connected host's rows equal to its image |
| PlantRuns.TablesHoldWhatIsReported | src/drouterd/drouter.cpp:264-673 | in every reachable plant each connected host has its row and one row per slot of its matrix, column by column as the matrix reports them: names (a GPO without one is called by its number at first), numbers, flags, the normalised stream, the GPI followed, and codes up to case |
| PlantRuns.ClosedLoop | src/drouterd/protocol_sa.cpp:253-302 | in every reachable plant, for a route between slots of connected nodes: the event is finalised as done, and the listing shows exactly the activated input, or OFF if it is an audio input without a stream |
| PlantRuns.LogTellsTheTruth | src/drouterd/drouter.cpp:1537-1613 | in every reachable plant, whatever was asked for, an event about connected slots is finalised as done exactly if the output then has what stands for the input |
| Requests.RequestIsOneReport | src/drouterd/drouter.cpp:918-1031 | each of the six requests, printed, parsed and carried out, comes down to one report of the slot it names, and to nothing if that slot or the one to be followed is not there |
| Requests.GpiStateIsSet | src/drouterd/drouter.cpp:1012-1019 | a GPI state request sets the code of that GPI's row, in lower case, and changes no other row of any table; without the slot it does nothing |
| Requests.GpoStateIsSet | src/drouterd/drouter.cpp:1021-1028 | in every reachable plant a GPO state request sets the code of that GPO's row, in lower case, leaves its crosspoint and changes no other row of any table; without the slot it does nothing |
| ProtocolSa.ProtocolSa.ActivateRoute | src/drouterd/protocol_sa.cpp:253-302 | the requests of the route are printed and the attempt is logged, before and without regard to what comes of it (`PlantRuns.ClosedLoop` and `Snapshots.RouteTouchesOne` say what does) |
| ProtocolSa.ProtocolSa.ActivateSnapshot | src/drouterd/protocol_sa.cpp:394-414 | the first snapshot of that name is carried out route by route and logged; an unknown one has no effect |
| ProtocolSa.ProtocolSa.SendRouteInfo | src/drouterd/protocol_sa.cpp:677-733 | all outputs, one output, nothing beyond the last, or an error for an unknown router |
| ProtocolSa.SnapshotNamedIsFirst | src/common/endpointmap.cpp:256-264 | the snapshot found is the first of that name, and none is found only if there is none |
| ProtocolSa.EachRouteIsLogged | src/drouterd/protocol_sa.cpp:394-414 | a snapshot logs each of its routes once and in order, with the numbers of that route |
| Snapshots.RouteTouchesOne | src/drouterd/protocol_sa.cpp:253-302 | whether or not a route can be carried out, no link but its own output's changes and no slot comes or goes |
| Snapshots.LoadedSlotsAreInts | src/common/endpointmap.cpp:300-301 | every loaded map has 32-bit slots, which is all the two rows above and below ask of a map |
| Snapshots.UnnamedKeepLinks | src/drouterd/protocol_sa.cpp:394-414 | after any snapshot, online or not, every output it does not name keeps its link |
| Snapshots.LastTakesEffect | src/drouterd/protocol_sa.cpp:394-414 | an output is connected to the last input listed for it if that one route is ready, whatever the others are |
| Snapshots.LastWriteWins | src/drouterd/protocol_sa.cpp:394-414 | in every reachable plant it is then reported so, if that one route is between slots of connected nodes and no other output named has the same slot |
| Replication.TakenAppend | src/common/dparser.cpp:211-401 | taking two streams one after the other is taking their concatenation, and meets nothing unknown exactly when both parts do |
| Replication.TakeAdds | src/common/dparser.cpp:211-401 | additions read from a table, repeated or not, add exactly their keys; they renew what is known exactly in a client that renews |
| Replication.TakeRemovals | src/common/dparser.cpp:211-401 | removals of distinct known keys leave exactly the rest |
| Replication.AtRest | src/common/dparser.cpp:211-401 | with nothing left to ask, being in step is having every row, right unless its host departed, and nothing else but rows of departed hosts; if none departed, it is equality |
| Replication.WholeAsked | src/drouterd/protocol_d.cpp:156-215 | asking late for all rows of a host keeps a copy in step and changes nothing unknown |
| Replication.SingleAsked | src/drouterd/protocol_d.cpp:279-352 | so does asking late for one row, which is known by then |
| Replication.HostComes | src/drouterd/drouter.cpp:314-480 | a host that nothing was waiting to be asked about may come up before it is asked for |
| Replication.HostGoes | src/drouterd/drouter.cpp:491-533 | a host that goes leaves a copy in step only as departed |
| ProtocolD.HostIsAnswered | src/drouterd/protocol_d.cpp:156-215 | the select for a new host answers with exactly the rows of that host that subscribers see |
| ProtocolD.RemovalWrittenIff | src/drouterd/protocol_d.cpp:218-258 | a removal is written exactly if the host is an LWRP node in the tables when the notice is handled and something of it is subscribed |
| ProtocolD.RemovalComesTooLate | src/drouterd/drouter.cpp:491-533 | handled after the deletion, as the lock has it, a removal writes nothing; what subscribers see is right all the same exactly if they saw nothing of the host |
| ProtocolD.SubscriptionFills | src/drouterd/protocol_d.cpp:429-548 | a subscription's listing, in any order, makes an empty copy the whole table and says nothing of the others |
| ServerRuns.NoticesAsk | src/drouterd/protocol.cpp:310-387 | an event makes the handler ask, in the end, for all of a new host twice over, for one changed row once, and for the removal of a host that was there |
| ServerRuns.WaitingAfter | src/drouterd/protocol.cpp:175-197 | what waits to be asked after each step: an event adds its selects at the end, a select takes the first, nothing else changes it |
| Following.StepFollows | src/drouterd/protocol_d.cpp:156-548 | every step of core or handler keeps a client of either kind in step and never changes or removes what it does not know, unless a host comes up early |
| Following.StepStaysTimely | src/drouterd/protocol_d.cpp:218-258 | without early returns no removal is ever written, and nodes are only added |
| Following.RunFollows | src/drouterd/protocol_d.cpp:156-548 | hence a client is in step after every run without early returns |
| Following.RestIsAccurate | src/drouterd/protocol_d.cpp:156-548 | in step with nothing left to ask, it holds every row of the tables subscribed and otherwise only what departed nodes left; if none departed, it equals the tables |
| Following.NothingIsForgotten | src/drouterd/protocol_d.cpp:218-258 | a client loses no entry in any such run, whatever goes down |
| Recollection.EntriesWereRows | src/drouterd/protocol_d.cpp:156-548 | in every run, early returns or not, a client of either kind holds nothing but rows of the same key that the tables showed at some point |
| TableByTable.RestShowsTables | src/drouterd/protocol_d.cpp:156-548 | with nothing left to ask, each table is accurate up to the hosts that departed after it was subscribed; if none did, all equal the tables |
| Following.CatchesUp | src/drouterd/protocol.cpp:175-197 | from every state the handler comes to rest by itself, with the tables and subscriptions as they were |
| ProtocolDText.MessageReadsBack | src/drouterd/protocol_d.cpp:882-1023 | every printed record is one 7-bit line that reads back as the record |
| ProtocolDText.NodeOnTheWire | src/drouterd/protocol_d.cpp:973-987 | a printed node record has exactly the columns of the node, in the order of the source |
| ProtocolDText.SourceOnTheWire | src/drouterd/protocol_d.cpp:1007-1023 | so has a source record |
| ProtocolDText.DestinationOnTheWire | src/drouterd/protocol_d.cpp:882-896 | so has a destination record |
| ProtocolDText.GpiOnTheWire | src/drouterd/protocol_d.cpp:911-923 | so has a GPI record |
| ProtocolDText.GpoOnTheWire | src/drouterd/protocol_d.cpp:941-956 | so has a GPO record |
| ProtocolDText.StreamArrives | src/drouterd/protocol_d.cpp:882-1023 | a stream of records written as UTF-8 arrives as those records however it is cut |
| Deliverability.HandledFits | src/drouterd/drouter.cpp:264-673 | events within the limits of the wire format keep the tables within them |
| Deliverability.TranscriptIsSendable | src/drouterd/protocol_d.cpp:882-1023 | hence every record of every run can be printed and read back |
| DParserClient.IndexReadsBack | src/common/dparser.cpp:424-439 | address and slot are read back from every index, for every address and every non-negative 32-bit slot |
| DParserClient.IndexIsItsParts | src/common/dparser.cpp:424-439 | every index whose slot half is not negative comes from its own address and slot |
| DParserClient.DParser.constructor | src/common/dparser.cpp:25-38 | a client starts unconnected with three empty maps |
| DParserClient.DParser.ProcessCommand | src/common/dparser.cpp:211-401 | additions of known entries are ignored, and changing or removing an unknown entry leaves a null one behind |
| DParserClient.DParser.ReadyRead | src/common/dparser.cpp:109-131 | all lines completed by the bytes read are processed in order, the rest is kept |
| DParserClient.DParser.WatchdogTimeout | src/common/dparser.cpp:180-208 | a silent connection is dropped with everything learned from it |
| DParserClient.MirrorReplay | src/common/dparser.cpp:211-401 | a replay that fits keeps the client's map an exact image, without null entries |
| DParserReplication.RunCopies | src/common/dparser.cpp:211-401 | after any run without early returns the replica is an exact image of what a client that ignores known additions should hold, without null entries |
| DParserReplication.ReplicaPicturesTables | src/common/dparser.cpp:211-401 | with nothing left to ask it has a right entry for every row subscribed, unless the host departed after that table was subscribed, and under indexes of real slots nothing else but what such hosts left; if none departed, it equals the tables |
| DParserReplication.ReplicaRecallsRows | src/common/dparser.cpp:211-401 | at every point of such a run each entry, also of a departed host, shows a row of its own key as the tables had it then or before |
| DParserReplication.TextMakesReplica | src/common/dparser.cpp:109-131 | the text of any run, cut into reads in any manner, is read as exactly the records written |
| DParserReplication.NodeEntriesStay | src/common/dparser.cpp:211-401 | a node entry, once made, never changes: a node that returns under other names is kept under the first |
| Comebacks.ReplicaNeedsTimelyHosts | src/common/dparser.cpp:211-401 | no null entry arises in any run in which only the hosts of a set come up early exactly if that set is empty |
| StateEngineClient.StateEngine.constructor | python/api/StateEngine.py:34-57 | an engine starts with empty dictionaries, no flag set and the first subscription requested |
| StateEngineClient.StateEngine.Call | python/api/StateEngine.py:403-409 | before ready no callback is made, afterwards exactly the given ones (`StateEngineClient.CallbackTellsTheChange` says which) |
| StateEngineClient.StateEngine.ProcessMessage | python/api/StateEngine.py:403-553 | one message: dictionary, callback or handshake, and the end of the engine on an unknown key |
| StateEngineClient.StateEngine.Acknowledge | python/api/StateEngine.py:512-553 | each acknowledgement raises the number of acknowledged subscriptions by one up to eight and keeps flags, request and readiness in step with it |
| StateEngineClient.OkKeepsOrder | python/api/StateEngine.py:512-553 | the same of the specification |
| StateEngineClient.StateEngine.Receive | python/api/StateEngine.py:387-398 | all messages completed by the characters received are processed in order |
| StateEngineClient.CallbackTellsTheChange | python/api/StateEngine.py:403-510 | a change callback is made exactly when the dictionary differs afterwards; additions and removals always make theirs |
| StateEngineClient.MessageTellsItsTable | python/api/StateEngine.py:403-510 | a message touches only the dictionary of its table and makes only callbacks of that kind: one for each addition and removal, one for a change exactly if the dictionary differs, and none before ready |
| StateEngineClient.UnknownEndsEngine | python/api/StateEngine.py:403-510 | exactly changes and removals of what is not there end the engine, and they do nothing else |
| StateEngineClient.StepStaysOrderly | python/api/StateEngine.py:403-553 | whatever message comes, the acknowledged subscriptions stay a prefix of the fixed order with the next one requested, and nothing is called before ready, which comes first and once |
| StateEngineClient.RanThroughout | python/api/StateEngine.py:403-510 | an engine that runs after a stream has met no lookup error at any point of it |
| StateEngineReplication.WrittenGoes | python/api/StateEngine.py:403-510 | records that change or remove only what is known are taken without a lookup error, table by table |
| StateEngineReplication.RunsStayConsistent | python/api/StateEngine.py:403-553 | events, handling, answers and arrivals keep client and server consistent, whatever is on its way, as long as no host comes up early |
| StateEngineReplication.EngineIsAlwaysOrderly | python/api/StateEngine.py:403-553 | in every reachable state of any run at all the engine is in order |
| StateEngineReplication.EngineNeverFails | python/api/StateEngine.py:403-510 | no lookup fails in any run without early returns |
| StateEngineReplication.EngineShowsTables | python/api/StateEngine.py:403-510 | when nothing is on its way and nothing is left to ask, every row subscribed is in its dictionary as it is, and the rest belongs to nodes that departed after that table was subscribed; if none did, the dictionaries equal the tables |
| StateEngineReplication.EngineRecallsRows | python/api/StateEngine.py:403-510 | once all has arrived, every entry is a row of its own key as the tables had it at some point of the run |
| StateEngineReplication.EngineForgetsNothing | python/api/StateEngine.py:411-417 | no dictionary entry ever goes in such runs |
| StateEngineReplication.SlotsAwaitTheirNodes | python/api/StateEngine.py:403-510 | an entry whose node is missing belongs to a node that will be asked for or has departed |
| StateEngineReplication.ReadyShowsAllTables | python/api/StateEngine.py:512-553 | the engine becomes ready with the last message of the last answer and no earlier, in step with all five tables as they were when the server answered |
| StateEngineReplication.TextBringsTables | python/api/StateEngine.py:387-398 | receiving the text of what is on its way, cut into reads in any manner, is receiving the messages |
| Comebacks.EngineNeedsTimelyHosts | python/api/StateEngine.py:411-417 | no lookup fails in any run in which only the hosts of a set come up early exactly if that set is empty |
| Comebacks.RemovalIsComplete | src/drouterd/protocol_d.cpp:218-258 | written in time, the removals by slot count would take exactly the host away |
| Comebacks.ReturnReplacesHost | src/drouterd/protocol_d.cpp:218-258 | a node that is down and up again before either notice is handled is replaced exactly, in a client of either kind that was accurate |
| LateNotices.ComesToRest | src/drouterd/protocol.cpp:175-197 | from every state of client and server, handling and arrivals alone lead to rest, and nothing more is written if no LWRP node is left |
| LateNotices.DepartedNodeStays | src/drouterd/drouter.cpp:491-533 | for every LWRP node: it comes up, goes down, everything is handled and has arrived, and the client still has it |
| LateNotices.SlotWithoutNode | src/drouterd/protocol_d.cpp:429-548 | for every host there is a run that ends at rest with a source of it in the client and not its node, no other host having been listed early |
| Housing.LateSlotsWereListed | src/drouterd/protocol_d.cpp:156-548 | in every run without early returns, whatever is on its way, a slot without its node is of a host that a subscription listed while the select for its node waited |
| Housing.SlotsNeedTimelyListings | src/drouterd/protocol_d.cpp:429-548 | every slot has its node in all runs in which only the hosts of a set are listed early exactly if that set is empty, and so it is of the runs that end at rest |
| MatrixToClient.ReplicaShowsMatrix | src/common/dparser.cpp:211-401 | with nothing left to ask, the C++ client's entries show every connected LWRP matrix that has not departed since the subscription, column by column |
| MatrixToClient.EngineShowsMatrix | python/api/StateEngine.py:403-510 | with nothing left to ask and all arrived, the Python client's dictionaries show every connected LWRP matrix, departed before or not, column by column |
| MatrixToClient.ReplicaHidesOthers | src/drouterd/protocol_d.cpp:156-548 | of a host that is not an LWRP node in the tables, the C++ client has at most what it left behind |
| MatrixToClient.EngineHidesOthers | src/drouterd/protocol_d.cpp:156-548 | nor has the Python client more |
| Gvg7000.GvgChecksum | src/drouterd/matrix_gvg7000.cpp:428-438 | the byte that brings the message to zero modulo 256 |
| Gvg7000.AcceptedIffSumIsZero | src/drouterd/matrix_gvg7000.cpp:420-425 | a message is accepted exactly when its last two bytes are upper-case hexadecimal digits whose value brings the rest to zero |
| Gvg7000.SubstitutionIsRejected | src/drouterd/matrix_gvg7000.cpp:420-438 | no accepted message differs from another in a single byte |
| Gvg7000.MatrixGvg7000.constructor | src/drouterd/matrix_gvg7000.h:89-90 | a receiver starts with nothing accumulated |
| Gvg7000.MatrixGvg7000.ReadyRead | src/drouterd/matrix_gvg7000.cpp:229-248 | the receiver's state after any bytes: header clears, footer dispatches and keeps, anything else accumulates |
| Gvg7000.MatrixGvg7000.DispatchGvgCommand | src/drouterd/matrix_gvg7000.cpp:275-295 | exactly the payload of an accepted message of protocol N is processed |
| Gvg7000.MatrixGvg7000.GvgVerifyChecksum | src/drouterd/matrix_gvg7000.cpp:420-425 | acceptance is the comparison of the two digits with the checksum of the rest |
| Gvg7000.FrameCommand | src/drouterd/matrix_gvg7000.cpp:398-417 | every frame is accepted and carries the command with its commas as tabs |
| Gvg7000.CommandIsTheRest | src/drouterd/matrix_gvg7000.cpp:275-295 | an accepted message of protocol N is two header bytes, its command and two digits, and nothing else |
| Gvg7000.FramesArrive | src/drouterd/matrix_gvg7000.cpp:229-248 | whatever the receiver held, with any plain bytes around the frames and any cuts, exactly the commands are processed, in order |
| Gvg7000.DamageIsContained | src/drouterd/matrix_gvg7000.cpp:275-295 | a frame with one wrong byte is dropped and the next one is unharmed |
| Gvg7000.SecondFooterExact | src/drouterd/matrix_gvg7000.cpp:229-248 | after a frame and any plain bytes, a second footer leaves it at the one command exactly when the frame's bytes and those do not sum to zero; otherwise it processes their payload too |
| Gvg7000.StrayFooterRepeats | src/drouterd/matrix_gvg7000.cpp:239-241 | directly after a frame it always makes the command be processed again |
| Gvg7000.FieldsArrive | src/drouterd/matrix_gvg7000.cpp:398-403 | the receiver splits a command into the fields it was put together from, and an empty last one |
| MapStorage.LoadEnds | src/common/endpointmap.cpp:296-308 | end points are read by number until one has no address, and the loop ends on every file |
| MapStorage.LoadRoutes | src/common/endpointmap.cpp:326-334 | routes are read by number until one has no output |
| MapStorage.LoadSnapshots | src/common/endpointmap.cpp:314-339 | snapshots are read by number until one has no name |
| MapStorage.Load | src/common/endpointmap.cpp:267-346 | a new map takes exactly what the file says, with the defaults for what it does not |
| MapStorage.SaveEnd | src/common/endpointmap.cpp:379-397 | the section of one end point, numbers from one, no address as 0.0.0.0, the name as a comment when it is not included |
| MapStorage.SaveEnds | src/common/endpointmap.cpp:378-398 | the lines of one side's end points |
| MapStorage.SaveRoutes | src/common/endpointmap.cpp:407-410 | the lines of the routes of a snapshot |
| MapStorage.SaveSnapshots | src/common/endpointmap.cpp:404-411 | the lines of the snapshots and their routes |
| MapStorage.Save | src/common/endpointmap.cpp:368-412 | the whole file |
| MapRoundTrip.FileLookup | src/common/endpointmap.cpp:368-412 | with one section of a name, looking up in the file is looking up in that section |
| MapRoundTrip.SavedLoadsBack | src/common/endpointmap.cpp:267-412 | loading what was saved gives type, name, number, every end point in order (no address becomes 0.0.0.0) and every snapshot with its routes back; names only if they were included |
| MapRoundTrip.SavedTwiceIsSame | src/common/endpointmap.cpp:267-412 | saving what was loaded writes the same file again |
| MapSets.SnapshotsGood | src/common/endpointmap.cpp:437-463 | the nested loops accept exactly distinct snapshot names and routes with numbers below the quantities |
| MapSets.NewNumberAndName | src/common/endpointmap.cpp:464-479 | a map is let in exactly when no map so far has its number or its name |
| MapSets.LoadSet | src/common/endpointmap.cpp:415-487 | the set is accepted exactly when every readable file is good and all numbers and names differ; it then holds exactly those maps, and always is what the database relies on |
| MapSets.RangeLeavesOutLast | src/common/endpointmap.cpp:447-462 | a map whose routes all name existing entries is refused for its routes exactly when one names the last output or the last input; on a router without inputs, OFF is the last input |
| MapSets.SavedMapAccepted | src/common/endpointmap.cpp:415-487 | a saved map by itself is accepted exactly when its snapshots have distinct names and routes in range |
| MapSets.RefusedForLastOnly | src/common/endpointmap.cpp:447-462 | two saved maps, one naming its only output and one switching an output off, are refused and accepted once that snapshot is gone |
| Dmap.SelectHosts | src/dmap/dmap.cpp:165-179 | the hosts asked for, or all known ones, without the skipped ones, in order |
| Dmap.SelectedHosts | src/dmap/dmap.cpp:165-179 | a host is selected exactly when it is listed and not skipped |
| Dmap.SwapRemovesInversion | src/dmap/dmap.cpp:188-193 | exchanging neighbours out of order removes exactly one inversion |
| Dmap.Pass | src/dmap/dmap.cpp:186-194 | a pass permutes; it removes inversions, or changes nothing and the list ascends |
| Dmap.SortHosts | src/dmap/dmap.cpp:184-195 | the loop ends, with the hosts in ascending order and none lost or added |
| Dmap.AddEnds | src/dmap/dmap.cpp:197-248 | the slots of all hosts are appended in order |
| Dmap.Generate | src/dmap/dmap.cpp:158-248 | the map generated for the sorted selection, both sides |
| Dmap.NumberOfSlot | src/common/endpointmap.cpp:199-208 | a slot of the generated map is numbered by the slots of all smaller hosts before it; what no host has is not found |
| Dmap.GeneratedNumbers | src/dmap/dmap.cpp:197-248 | the number depends only on which hosts were selected, not on their order, and looking it up gives host and slot back |
| Dmap.GeneratedSides | src/dmap/dmap.cpp:188-248 | an audio map's inputs are exactly the sources and its outputs exactly the destinations of the selected hosts, under their names; a GPIO map's are the GPIs and the GPOs, named by number; each is numbered by its slot after all slots of its sort of the smaller hosts |
| Dmap.EveryNumberEffective | src/dmap/dmap.cpp:197-248 | every entry of the generated map is the one found for its host and slot |
| Base64.EncodedReadsBack | src/common/sendmail.cpp:93-95 | decoding undoes encoding |
| Base64.EncodeAppend | src/common/sendmail.cpp:93-95 | whole groups of three bytes can be encoded on their own |
| SendMail.IsAscii | src/common/sendmail.cpp:28-38 | true exactly for 7-bit text |
| SendMail.RepairReturns | src/common/sendmail.cpp:62-68 | the in-place loop ends and turns every `/r` into `//nr` |
| SendMail.MangledIffSlashR | src/common/sendmail.cpp:62-68 | which leaves a body alone exactly when it has no `/r` |
| SendMail.RepairLineFeeds | src/common/sendmail.cpp:72-83 | the in-place loop ends and gives every line feed without one a carriage return |
| SendMail.EveryLineFeedIsPaired | src/common/sendmail.cpp:72-83 | every line feed has a carriage return before it, the line-feed half of section 2.3 of RFC 5322 |
| SendMail.PairedIffUnchanged | src/common/sendmail.cpp:72-83 | a body is unchanged exactly when that held already |
| SendMail.InsertionsUndone | src/common/sendmail.cpp:72-83 | only carriage returns before line feeds were inserted, and without them the input is back |
| SendMail.ReturnsAreLeftAlone | src/common/sendmail.cpp:59-84 | every carriage return of the sent body is followed by a line feed exactly when that was so in the text |
| SendMail.NakedReturnStays | src/common/sendmail.cpp:59-68 | a text with a carriage return on its own is sent as it is |
| SendMail.EncodeChunks | src/common/sendmail.cpp:93-95 | the loop over 48-byte chunks writes their base64 lines |
| SendMail.ChunksMakeTheWhole | src/common/sendmail.cpp:93-95 | the lines together are the base64 of the whole, each of at most 64 symbols, within the 76 of section 6.8 of RFC 2045 |
| SendMail.EncodeBody | src/common/sendmail.cpp:41-97 | 7-bit bodies are repaired and left unlabelled, all others are sent as base64 lines and labelled so |
| SendMail.EncodedBodyReadsBack | src/common/sendmail.cpp:87-97 | received line by line, put together and decoded, an encoded body gives the text's bytes back |

## Left out

- TetherSafety.Exclusion: assumes, as the 1000 ms window intends, that a window expires only once nothing is in flight; slower media are not covered.
- TetherInstance.Tether.UdpReadyRead: a datagram is one byte with its sender; sockets and the serial device are not part of this model, nor is the command that moves the shared address, nor the failure to open either medium in `Start`.
- Core.DRouter.NodeConnected: requires what the matrices do, namely to announce a connection only when their rows are gone; what the database does with a second row of the same key is not modelled, nor are alarms, meters and the log.
- RoutingTables.HostAddedAgrees: names are not repeated in the indexes of this model; the `SA_` name columns and `setName` are left out.
- PlantRuns.ClosedLoop: the matrix is taken to echo what it was told before the listing is asked for; an input that shares its stream with another is not covered by it, nor is a map entry that repeats another's slot.
- ProtocolSa.ProtocolSa.ActivateRoute: outputs count from 0 here after the protocol's conversion, and lower bounds, which the code does not check, are in the types and in `requires`.
- PlantRuns.TablesHoldWhatIsReported: the code of a GPO row is the GPO's own or the one that the GPI bundle of the same number had on connecting, with which it starts; which of the two is said for the state request only (`Requests.GpoStateIsSet`).
- Requests.GpiStateIsSet: a matrix is taken to carry out what it is told and to report the code it was told.
- ServerRuns.NoticesAsk: clip and silence alarms and the tether record pass through unchanged and are left out, in both clients as well.
- Following.StepFollows: each select is taken to see the tables between two events, as the locks and single statements of the core have it, and the core to have accepted the handler's connection before the handler answers its client; a second subscription to the same table, which neither client makes, is left out. Its condition that no host comes up early is not the code's but needed (`Comebacks.EngineNeedsTimelyHosts`).
- DParserReplication.ReplicaPicturesTables: does not say which of its old rows an entry of a departed host shows, only that it is one of them (`DParserReplication.ReplicaRecallsRows`), since that depends on when the handler read them.
- StateEngineClient.StateEngine.ProcessMessage: alarm and tether messages are left out; malformed records, on which the code raises, are ignored (the server writes none, `ProtocolDText.MessageReadsBack`); all callbacks are taken to be set, and of their arguments only the kind is kept; dictionary keys are pairs of host and slot instead of their text; what follows an uncaught lookup error is that nothing follows.
- ProtocolDText.MessageReadsBack: holds for names of 7-bit characters without tabs and line ends and for numbers that fit 32 bits; `Lines.ReadBackIffAscii` and `Lines.AccentIsMangled` show what happens to others.
- DParserClient.DParser.WatchdogTimeout: the removal signals and the new connection are left out; the unfinished line is kept as in the code, so that the claims about reconnecting hold for an empty one only (`Lines.ArrivesIffFresh`).
- Gvg7000.MatrixGvg7000.ProcessGvgCommand: what a received command does to the matrix is not modelled; that it is processed is.
- MapStorage.Load: requires a map that was not used before; loading into a used one, and `erase`, misalign the parallel lists. The profile reader is a foreign library and is taken to look up the first match of section and key, and an unreadable number to read as absent.
- MapStorage.SaveEnds: the loop's third kind of end point, named "Unknown", has no entries and is left out; values are taken to survive the file as they are, which for names needs that they have no line ends.
- MapSets.LoadSet: the messages are left out, and the set of maps starts empty, as both servers call it; which lines of a file are unused is for the profile reader to say.
- Dmap.Generate: requires that the server knows every selected host, without which the program fails.
- SendMail.EncodeBody: requires a body of at least one character, since the code reads its first byte; headers and addresses are left out.
- ProtocolSa.ProtocolSa.ActivateSnapshot: requires routes with outputs from 1 and inputs from 0; others index the map's lists at negative places, which the library forbids.
- DParserClient.DParser.ProcessCommand: the signals emitted to the program around it are left out, and records with negative slots or keywords in other capitals, which the server does not write, are not understood.
- SQL text, the schema and its migrations: operations on tables take their place; the order of rows is arbitrary where no order is asked for. Table locks are there only as the order they impose on events and selects.
- The clients' graphical panels, `SaParser`, the script engine, the configuration and the value classes: they only display or carry what is modelled.
- Addresses in other than dotted-quad form, numbers with white space or a plus sign, and keywords in unusual capitals: the program does not write them.
- The requests QUIT and those passing sockets: process control.
- Timers, reconnection and polling, except those of the failover pair.
