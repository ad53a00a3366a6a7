# Karabiner-DriverKit-VirtualHIDDevice: a verified model

The model follows a report and a lifecycle request from the client library, through the daemon, to the driver
and back, and proves what each layer keeps over whole runs.

- **The client library** (`ServiceClient`, `Wire`) builds requests, remembers what the daemon says about the devices, and leaves out
  initialize requests that it takes to be redundant. `Suppression` proves that leaving them out changes nothing while nothing is
  terminated, and says exactly when it does otherwise.
- **The daemon's server** (`Wire`) reads any bytes; **its manager** (`Daemon`) has an entry for each connected
  peer, and all of them share the dispatcher's one queue.
- **A daemon entry** (`Reconciler`, as an object `ClientEntry`) turns requests into client instances and recreates those that do not get
  ready. `ReconcilerInvariant`, `Lifecycle`, `LifecycleLaws`, `RetryChain`, `InstanceHistory`, `RequestFlow` and `StatusPush` prove what
  every run keeps. Its queue is the part of the shared one that is its own: `DispatcherQueue` and `EntryTasks` have the facts from which
  `Daemon` proves this, with any other tasks and peers around it.
- **What is said to the client library**, pushes and responses, is put in order in `Conversation`, and for every peer of the daemon in
  `PeerConversation`; `HarmfulResponse` follows, with the steps of `OnePeer`, the run in which a response leaves it wrong. `Activation`
  adds the kernel's registry. `ReadyOrigin` follows the answers to ready questions across connections.
- **A connection to the driver** (`IoService`, as an object `IoServiceClient`) opens and closes handles. `ConnectionAudit` has an auditor
  read the log of kernel calls; `ConnectionLaws` says what an accepted log means.
- **The driver** (`UserClient`, `VirtualKeyboard`) creates devices once, echoes LED states and posts reports.
- **Reports** (`Keys`, `Flags`, `Bits`) are read by a host through the report descriptors (`HidDescriptor`, `DescriptorTables`,
  `ReportLayout`), following USB HID 1.11, sections 5.4 to 5.8 and 6.2.2.
- `OneShot` is the rendezvous of the manager application. `EndToEnd` composes the layers.

Objects that the program updates in place are classes here. Each of their methods is proved to have exactly the effect of a function
on values, and the statements over runs are about these functions. A run is a sequence of atomic steps: each dispatcher
task is one, and the answers of the kernel and the driver are inputs that may be anything.

## Reading the results

- The daemon stores a ready value in a later task than the one that asked for it, so a stored value may outlive its connection; the model
  has both tasks. Values are shown only while connected to the right driver (`ConnectionLaws.GateOverRuns`), but then also a late answer of
  the connection before: `ReadyOrigin.ShownReadyOrigin` says exactly when, `ReadyOrigin.ShowsStaleValue` has a run.
- A response to a request carries a status but does not count as a push. Agreement of client and daemon holds for the pushes
  (`EndToEnd.ClientAgrees`); with responses it holds exactly as `PeerConversation.PeerAgreesIff` says, and
  `HarmfulResponse.ResponseMisleads` shows it fail in a run of the daemon: terminate, then reset, around the moment the keyboard gets ready.
- `driver_activated` is looked up each time, so it may change before anyone is told. `Activation.WholeStatusIsTold` has the full status
  right once the status client's monitor has reported something after the change; `StatusPush.WholeStatusIff` says what holds before.
- `exists(0)` on the key array holds exactly while there is room.
- The LED collections of the keyboard's descriptor set no logical range; the one in force is 0 to 255, carried over from the collection
  before. Reading is stated with the range in force.
- The LED state is remembered before the echo is made, so an echo that failed is not made up for when the state is sent again
  (`VirtualKeyboard.EchoesAreChanges`, `VirtualKeyboard.EchoIsLost`).
- A termination followed at once by the same initialization loses the initialization (`Suppression.InitializeAfterTerminateIsLost`).

## Model

| member | source | states |
|---|---|---|
| `ConnectionAudit.RunsAreAccepted` | src/Daemon/include/io_service_client.hpp:123-152 | over every run of matched and terminated services with any kernel answers, an auditor that only reads the log of kernel calls and signals accepts it: one handle open at a time, each closed before the next is opened, `opened`/`closed` alternating, calls only through an open connection that reported the built-in version, and no service tried again after its version query failed; registry ids stay unique, and connection, opened flag and version agree |
| `ConnectionAudit.TerminatedFaithful` | src/Daemon/include/io_service_client.hpp:137-152 | termination closes the connection of that service only, forgets that it failed, and reconnects, within the auditor's rules |
| `ConnectionLaws.RunBalance` | src/Daemon/include/io_service_client.hpp:424-500 | during a run, the handles opened and not closed are exactly the present connection, and `opened` leads `closed` by one exactly while connected |
| `ConnectionLaws.ShutdownCloses` | src/Daemon/include/io_service_client.hpp:43-51 | the destructor closes the connection if there is one and does nothing else |
| `ConnectionLaws.HandlesConserved` | src/Daemon/include/io_service_client.hpp:43-51 | over the whole life of a client, destructor included, every handle is closed exactly as often as it was opened |
| `ConnectionLaws.GateOverRuns` | src/Daemon/include/io_service_client.hpp:546-613 | in every run a driver call is issued if and only if the open connection itself reported the built-in version, and ready values are shown only then |
| `ReadyOrigin.ShownReadyOrigin` | src/Daemon/include/io_service_client.hpp:186-193 | in every run, with questions and answers in tasks of their own: the handle that answered a shown ready value is the one open now, and from the same opening, if and only if no handle was closed between the question and the storing of its answer |
| `ReadyOrigin.ShowsStaleValue` | src/Daemon/include/io_service_client.hpp:186-193 | the other case does happen: two services are matched, the first is asked and terminated, the second is opened, and the value that the first gave is shown |
| `ConnectionLaws.EarlyReturnUnreachable` | src/Daemon/include/io_service_client.hpp:484-488 | in every run, a listed service marked as opened implies a connection, so the early return is never taken |
| `ConnectionLaws.OpenConnectionChooses` | src/Daemon/include/io_service_client.hpp:424-474 | the connection goes to the first service in arrival order that is not invalidated, opens and reports a version; exactly the earlier ones that open without reporting are invalidated, and all others are unchanged |
| `IoServiceClient.Client.SetDriverVersion` | src/Daemon/include/io_service_client.hpp:364-385 | the version is replaced, and a change is announced only if it is one |
| `IoServiceClient.Client.SetDeviceReady` | src/Daemon/include/io_service_client.hpp:388-421 | the same for the two ready values |
| `IoServiceClient.Client.InsertService` | src/Daemon/include/io_service_client.hpp:312-322 | a service whose id is listed is not added again; others go to the end |
| `IoServiceClient.Client.EraseService` | src/Daemon/include/io_service_client.hpp:324-329 | exactly the services with that id leave the list, the others keep their order and identity |
| `IoServiceClient.Client.Find` | src/Daemon/include/io_service_client.hpp:335-345 | the first service with the id |
| `IoServiceClient.Client.TryAll` | src/Daemon/include/io_service_client.hpp:433-473 | the loop over the service objects does, in place, what the recursive specification does on values, effect by effect |
| `IoServiceClient.Client.OpenConnection` | src/Daemon/include/io_service_client.hpp:424-474 | the whole new state and the exact sequence of kernel calls and signals |
| `IoServiceClient.Client.CloseConnection` | src/Daemon/include/io_service_client.hpp:477-500 | the whole new state and the exact sequence of kernel calls and signals |
| `IoServiceClient.Client.ServiceMatched` | src/Daemon/include/io_service_client.hpp:123-135 | insert, connect, announce: the state and effects of the specification whose runs are audited |
| `IoServiceClient.Client.ServiceTerminated` | src/Daemon/include/io_service_client.hpp:137-152 | close, erase, connect again, announce: the state and effects of the specification |
| `IoServiceClient.Client.Invoke` | src/Daemon/include/io_service_client.hpp:528-613 | the call is issued through the connection if and only if the gate is passed |
| `IoServiceClient.Client.GetDeviceReady` | src/Daemon/include/io_service_client.hpp:90-114 | a stored value is shown only while connected to a driver of the built-in version |
| `IoServiceClient.Client.Destroy` | src/Daemon/include/io_service_client.hpp:43-51 | what the destructor leaves and does |
| `ReconcilerInvariant.RunKeeps` | src/Daemon/include/virtual_hid_device_service_clients_manager.hpp:364-477 | after every task of every run: a device has a client if and only if it is enabled; a live client was created in the current generation; pending checks of a device have distinct generations not above the current one, and the current one, if pending, is armed for the live instance; queued jobs belong to live objects |
| `LifecycleLaws.LastRequestWins` | src/Daemon/include/virtual_hid_device_service_clients_manager.hpp:282-333 | after every task the enabled flags and the parameters are those that the requests applied so far ask for; once none is queued, those received so far |
| `Lifecycle.StepRefines` | src/Daemon/include/virtual_hid_device_service_clients_manager.hpp:282-407 | each step of the entry is one step of a simple form with three fields per device, in which a request or a failed check is all that can change anything |
| `Lifecycle.RunRefines` | src/Daemon/include/virtual_hid_device_service_clients_manager.hpp:282-477 | so is every run |
| `LifecycleLaws.CheckHitsItsOwn` | src/Daemon/include/virtual_hid_device_service_clients_manager.hpp:456-476 | in every run, a delayed check that replaces a client replaces the very instance whose creation armed it |
| `LifecycleLaws.CheckOutcome` | src/Daemon/include/virtual_hid_device_service_clients_manager.hpp:456-476 | a check either leaves the entry alone or destroys the instance and creates a new one, one generation on, with its own check 5000 ms later |
| `LifecycleLaws.RequestsAreIndependent` | src/Daemon/include/virtual_hid_device_service_clients_manager.hpp:364-390 | a request for one device leaves the other's enabled flag, client, generation, pending checks and queued jobs as they were, although both pass through the shared setup |
| `LifecycleLaws.ChecksAreIndependent` | src/Daemon/include/virtual_hid_device_service_clients_manager.hpp:463-474 | so does a check |
| `RetryChain.RetriedOnTheBeat` | src/Daemon/include/virtual_hid_device_service_clients_manager.hpp:428-477 | while a device stays wanted, checks run when due and find it not ready, the n-th replacement happens exactly 5000 n ms after it was armed, the generation has then risen by n, and one current check is pending |
| `RetryChain.InitializeArms` | src/Daemon/include/virtual_hid_device_service_clients_manager.hpp:364-390 | a first initialization starts such a chain |
| `RetryChain.ReadyCheckSettles` | src/Daemon/include/virtual_hid_device_service_clients_manager.hpp:463-474 | a current check that finds the device ready leaves no pending check that could hit the instance |
| `RetryChain.SettledStays` | src/Daemon/include/virtual_hid_device_service_clients_manager.hpp:456-477 | from then on the instance is never replaced until a termination or, for the keyboard, other parameters are asked for |
| `RetryChain.RedundantRequest` | src/Daemon/include/virtual_hid_device_service_clients_manager.hpp:364-390 | asking for what is there changes nothing at all |
| `InstanceHistory.InstancesPerformRuns` | src/Daemon/include/virtual_hid_device_service_clients_manager.hpp:438-454 | every client instance, dead or alive, has performed a run of `io_service_client` from its initial state: the trace of the daemon is made of such runs |
| `InstanceHistory.NoConnectionLeaks` | src/Daemon/include/virtual_hid_device_service_clients_manager.hpp:262-268 | so, over the whole daemon entry, a replaced instance has closed every handle it opened, and a live one all but its own connection |
| `InstanceHistory.OneTuplePerInstance` | src/Daemon/include/virtual_hid_device_service_clients_manager.hpp:392-407 | all keyboard initializations that one instance issues, over any reconnections and repeated `opened` signals, carry the parameters it was created with |
| `RequestFlow.RequestsAppliedOnce` | src/Daemon/include/virtual_hid_device_service_clients_manager.hpp:282-333 | in every run the requests applied, followed by those still queued, are exactly the requests received, in order |
| `RequestFlow.PostedInOrder` | src/Daemon/include/virtual_hid_device_service_clients_manager.hpp:540-572 | in every run the reports and resets that the driver is asked for are an in-order selection of those received, none altered, repeated or overtaken, however often clients are replaced |
| `RequestFlow.PostEffects` | src/Daemon/include/io_service_client.hpp:595-613 | a report or reset reaches the driver exactly when the gate is passed, and unchanged |
| `StatusPush.PushesAreSamplesOnce` | src/Daemon/include/virtual_hid_device_service_clients_manager.hpp:511-518 | in every run the pushed statuses are the sampled ones with consecutive repetitions removed |
| `StatusPush.PushesDiffer` | src/Daemon/include/virtual_hid_device_service_clients_manager.hpp:511-518 | the peer is never told the same status twice running |
| `StatusPush.NoChangeIsMissed` | src/Daemon/include/virtual_hid_device_service_clients_manager.hpp:511-518 | whenever no status check is queued, the last push says what the daemon would answer now about the connection, the versions and both devices |
| `StatusPush.WholeStatusIff` | src/Daemon/include/virtual_hid_device_service_clients_manager.hpp:511-518 | then the last push is the whole status that the daemon would answer now if and only if it has the activated driver right |
| `Activation.WholeStatusIsTold` | src/Daemon/include/io_service_client.hpp:123-152 | with the registry as part of the world, changing by itself and looked up for each status: once the monitor of the status client has reported anything after the last change of the registry and no status check is queued, the last push is the whole status |
| `Daemon.PeersAreIndependent` | src/Daemon/include/virtual_hid_device_service_clients_manager.hpp:32-132 | all peers share one queue sorted by due time, with the server's own tasks and everything else that the process puts there; each peer's entry, with its part of that queue, is what a run of its own events alone makes it |
| `Daemon.RunProper` | vendor/vendor/include/pqrs/dispatcher/dispatcher.hpp:348-360 | in every run the queue is sorted, its tasks belong to connected peers, and each peer's part of it keeps the invariant |
| `Daemon.PeerReportsEndToEnd` | src/Daemon/include/virtual_hid_device_service_clients_manager.hpp:540-572 | whatever other peers do, what the driver is asked for on behalf of a peer is an in-order selection of the reports and resets that its client library sent |
| `DispatcherQueue.InsertAllProjects` | vendor/vendor/include/pqrs/dispatcher/dispatcher.hpp:348-360 | whatever is queued with whatever due times, the entries of a kind stay in the order in which they were inserted as long as each is due no earlier than those of its kind before it |
| `DispatcherQueue.FilterProjects` | vendor/vendor/include/pqrs/dispatcher/dispatcher.hpp:180-195 | taking tasks out of the queue takes exactly what they stand for out of every part of it |
| `EntryTasks.RunJobJoined` | src/Daemon/include/virtual_hid_device_service_clients_manager.hpp:282-518 | a task of an entry does the same whatever else is queued for it: it only drops the jobs of destroyed objects and adds its own behind |
| `EntryTasks.StepJoined` | src/Daemon/include/virtual_hid_device_service_clients_manager.hpp:540-572 | so does whatever comes from outside the queue |
| `ClientEntry.Dispatcher.Detach` | vendor/vendor/include/pqrs/dispatcher/dispatcher.hpp:180-195 | exactly the jobs of the object leave the queue |
| `ClientEntry.Entry.constructor` | src/Daemon/include/virtual_hid_device_service_clients_manager.hpp:217-260 | the initial state of every run |
| `ClientEntry.Entry.BuildResponse` | src/Daemon/include/virtual_hid_device_service_clients_manager.hpp:341-360 | the five values of the status |
| `ClientEntry.Entry.CheckStatusChange` | src/Daemon/include/virtual_hid_device_service_clients_manager.hpp:511-518 | the status is remembered and pushed if and only if it differs from the last one pushed |
| `ClientEntry.Entry.ResetClient` | src/Daemon/include/virtual_hid_device_service_clients_manager.hpp:304-305 | the slot is emptied, the client's jobs leave the queue and its connection is closed |
| `ClientEntry.Entry.CreateClient` | src/Daemon/include/virtual_hid_device_service_clients_manager.hpp:428-477 | a new instance in the next generation, its start, and its check |
| `ClientEntry.Entry.SetupVirtualHidDevices` | src/Daemon/include/virtual_hid_device_service_clients_manager.hpp:364-390 | both devices are brought in line with their enabled flags |
| `ClientEntry.Entry.InitializeKeyboard` | src/Daemon/include/virtual_hid_device_service_clients_manager.hpp:282-298 | the state of the specification: a client with other parameters is replaced, an absent one created |
| `ClientEntry.Entry.TerminateDevice` | src/Daemon/include/virtual_hid_device_service_clients_manager.hpp:300-333 | disabled, one generation on, no client |
| `ClientEntry.Entry.RunRequest` | src/Daemon/include/virtual_hid_device_service_clients_manager.hpp:282-333 | the whole task of a request, with the status check at its end |
| `ClientEntry.Entry.RunCheck` | src/Daemon/include/virtual_hid_device_service_clients_manager.hpp:463-475 | the delayed check acts only in its own generation, on an enabled device that is not ready |
| `Wire.MakeRequestBuffer` | include/pqrs/karabiner/driverkit/virtual_hid_device_service/client.hpp:275-302 | the bytes appended to the growing buffer are the encoding of the request |
| `Wire.RequestBuffer.AppendData` | include/pqrs/karabiner/driverkit/virtual_hid_device_service/client.hpp:293-302 | the buffer is what it was, followed by the data |
| `Wire.DecodeIff` | src/Daemon/include/virtual_hid_device_service_server.hpp:169-350 | for arbitrary bytes: the server acts on a request if and only if the bytes are what the client library sends for it, with anything behind it for the requests without payload |
| `Wire.RoundTrip` | include/pqrs/karabiner/driverkit/virtual_hid_device_service/client.hpp:275-302 | what the client library sends is what the server acts on |
| `Wire.ParametersRoundTrip` | src/Daemon/include/virtual_hid_device_service_server.hpp:233-236 | the parameters survive the 24 bytes |
| `Wire.PayloadRoundTrip` | src/Daemon/include/virtual_hid_device_service_server.hpp:233-236 | and any 24 bytes are the encoding of the parameters read from them |
| `Wire.RequestReader.ReadData` | src/Daemon/include/virtual_hid_device_service_server.hpp:53-68 | the next bytes if there are enough, the offset advanced by exactly these, and nothing otherwise |
| `Wire.RequestReceived` | src/Daemon/include/virtual_hid_device_service_server.hpp:169-350 | the handler makes of the buffer what `Decode` says and answers exactly once, with the status for a lifecycle or reset request and with nothing otherwise |
| `ServiceClient.HearRemembersLast` | include/pqrs/karabiner/driverkit/virtual_hid_device_service/client.hpp:208-254 | for arbitrary bytes: an odd message changes nothing, any other leaves the value of its last keyboard-ready and last pointing-ready pair |
| `ServiceClient.HearStatus` | include/pqrs/karabiner/driverkit/virtual_hid_device_service/client.hpp:208-254 | a status message gives exactly the five signals with its values |
| `ServiceClient.LastStatusRemembered` | include/pqrs/karabiner/driverkit/virtual_hid_device_service/client.hpp:208-254 | after any status messages the cached flags are those of the last one |
| `ServiceClient.Client.HandleMessage` | include/pqrs/karabiner/driverkit/virtual_hid_device_service/client.hpp:208-254 | the loop over the pairs updates the cache and emits the signals of the specification |
| `ServiceClient.Client.ClearState` | include/pqrs/karabiner/driverkit/virtual_hid_device_service/client.hpp:141-149 | everything cached is forgotten, both devices are signalled as not ready |
| `ServiceClient.Client.InitializeKeyboard` | include/pqrs/karabiner/driverkit/virtual_hid_device_service/client.hpp:69-82 | the request is sent and the parameters remembered unless it is suppressed |
| `ServiceClient.Client.InitializePointing` | include/pqrs/karabiner/driverkit/virtual_hid_device_service/client.hpp:92-100 | the request is sent unless it is suppressed |
| `Suppression.SuppressionPreservesMeaning` | include/pqrs/karabiner/driverkit/virtual_hid_device_service/client.hpp:69-100 | while nothing is terminated, a daemon sent only the requests that were not left out always has the same enabled flags, parameters, instances and generations as one sent all of them, under any interleaving of requests, statuses and failing checks |
| `Suppression.EntriesAgree` | include/pqrs/karabiner/driverkit/virtual_hid_device_service/client.hpp:69-100 | the same for any two runs of a daemon entry that go through these two sequences of requests and failed checks |
| `Suppression.HarmlessIffNotTerminated` | include/pqrs/karabiner/driverkit/virtual_hid_device_service/client.hpp:69-100 | with terminations, leaving a request out changes what the daemon was asked for unless the last request sent for the device was an initialization |
| `Suppression.InitializeAfterTerminateIsLost` | include/pqrs/karabiner/driverkit/virtual_hid_device_service/client.hpp:84-86 | the concrete case: initialize, ready, terminate, and the same initialize at once is not sent |
| `EndToEnd.OutputsEndToEnd` | include/pqrs/karabiner/driverkit/virtual_hid_device_service/client.hpp:110-138 | with in-order transport, the reports and resets that the driver is asked for on behalf of a client library are an in-order selection of those it sent |
| `EndToEnd.SentToDriver` | src/DriverKit/Karabiner-DriverKit-VirtualHIDDevice/org_pqrs_Karabiner_DriverKit_VirtualHIDDeviceUserClient.cpp:134-192 | what a driver object hands to its devices, from the opening of its handle to its close, is an in-order selection of the reports sent by the client library and of the empty reports of its resets |
| `EndToEnd.CallsHaveTheirObject` | src/Daemon/include/io_service_client.hpp:546-613 | every call and version query of every run lies in the life of one driver object: after the opening of its handle, with no other opening or close of that client in between |
| `EndToEnd.DriverHasBirthIds` | src/DriverKit/Karabiner-DriverKit-VirtualHIDDevice/org_pqrs_Karabiner_DriverKit_VirtualHIDDeviceUserClient.cpp:102-125 | a keyboard created in a driver object, during the life of that object, has the ids that the client instance was born with, modulo 2^32, also when handles are given out again |
| `EndToEnd.ClientAgrees` | include/pqrs/karabiner/driverkit/virtual_hid_device_service/client.hpp:208-254 | after all pushes the client library's ready flags are those of the latest sample, and the truth while no status check is queued |
| `Conversation.AgreesIff` | src/Daemon/include/virtual_hid_device_service_server.hpp:345-349 | over any run with its pushes and responses in the order in which they are sent: whenever no status check is queued, the client library agrees with the daemon if and only if the last thing it heard has the ready flags of the last push |
| `Conversation.QuietResponsesDoNoHarm` | src/Daemon/include/virtual_hid_device_service_server.hpp:345-349 | so it does agree if no response came after the last push, or the last one came while no status check was queued |
| `PeerConversation.ToldIsSaid` | src/Daemon/include/virtual_hid_device_service_server.hpp:345-349 | over runs of the whole daemon, where the server answers a message in the task that passes it on: what a peer is told is the conversation of its own entry |
| `PeerConversation.PeerAgreesIff` | src/Daemon/include/virtual_hid_device_service_server.hpp:345-349 | so the same condition holds for every peer in every run of the daemon with its one queue |
| `HarmfulResponse.ResponseMisleads` | src/Daemon/include/virtual_hid_device_service_server.hpp:345-349 | otherwise it may not agree: in a concrete run of the daemon, ready timer and queue order included, a keyboard is terminated while its one answer is on its way, and a reset sent right behind is answered with a ready keyboard; in the end nothing is queued, there is no keyboard, and the client library holds it for ready and would leave out the next request for it |
| `UserClient.KeyboardStays` | src/DriverKit/Karabiner-DriverKit-VirtualHIDDevice/org_pqrs_Karabiner_DriverKit_VirtualHIDDeviceUserClient.cpp:102-125 | once created, the keyboard and its ids never change |
| `UserClient.KeyboardHasIds` | src/DriverKit/Karabiner-DriverKit-VirtualHIDDevice/org_pqrs_Karabiner_DriverKit_VirtualHIDDeviceUserClient.cpp:104-108 | if all initializations carry the same scalars, the ids are these modulo 2^32 from the first one on |
| `UserClient.PostedAsAsked` | src/DriverKit/Karabiner-DriverKit-VirtualHIDDevice/org_pqrs_Karabiner_DriverKit_VirtualHIDDeviceUserClient.cpp:134-192 | what reaches the devices, the empty reports of resets included, is an in-order selection of what was asked, unaltered |
| `UserClient.Client.ExternalMethod` | src/DriverKit/Karabiner-DriverKit-VirtualHIDDevice/org_pqrs_Karabiner_DriverKit_VirtualHIDDeviceUserClient.cpp:89-206 | the new state and the reply for every selector, argument and system answer |
| `VirtualKeyboard.EchoesAreChanges` | src/DriverKit/Karabiner-DriverKit-VirtualHIDDevice/org_pqrs_Karabiner_DriverKit_VirtualHIDKeyboard.cpp:274-336 | the echoed LED states are the received ones without repetitions, starting from 0, if and only if every call that changes the state gets its echo through |
| `VirtualKeyboard.EchoIsLost` | src/DriverKit/Karabiner-DriverKit-VirtualHIDDevice/org_pqrs_Karabiner_DriverKit_VirtualHIDKeyboard.cpp:306-322 | concretely: without memory for the first echo, setting the same LED again echoes nothing |
| `VirtualKeyboard.EchoesAreSelected` | src/DriverKit/Karabiner-DriverKit-VirtualHIDDevice/org_pqrs_Karabiner_DriverKit_VirtualHIDKeyboard.cpp:274-336 | with failures, echoes can only be missing |
| `VirtualKeyboard.RemembersLast` | src/DriverKit/Karabiner-DriverKit-VirtualHIDDevice/org_pqrs_Karabiner_DriverKit_VirtualHIDKeyboard.cpp:306-310 | the remembered state is the last one received, whatever fails, and only LED reports are posted |
| `VirtualKeyboard.EchoKeepsMeaning` | src/DriverKit/Karabiner-DriverKit-VirtualHIDDevice/org_pqrs_Karabiner_DriverKit_VirtualHIDKeyboard.cpp:312-319 | a host reads from the echo the LED usages that it had set |
| `VirtualKeyboard.EmptyReportsRelease` | src/DriverKit/Karabiner-DriverKit-VirtualHIDDevice/org_pqrs_Karabiner_DriverKit_VirtualHIDKeyboard.cpp:361-394 | each report that `reset` posts tells a host that nothing is pressed |
| `VirtualKeyboard.Keyboard.SetReport` | src/DriverKit/Karabiner-DriverKit-VirtualHIDDevice/org_pqrs_Karabiner_DriverKit_VirtualHIDKeyboard.cpp:274-336 | the new state, and each result code exactly |
| `VirtualKeyboard.ResetPostsAll` | src/DriverKit/Karabiner-DriverKit-VirtualHIDDevice/org_pqrs_Karabiner_DriverKit_VirtualHIDKeyboard.cpp:356-394 | when nothing fails, `reset` posts every empty report and succeeds |
| `VirtualKeyboard.PostEmptyReports` | src/DriverKit/Karabiner-DriverKit-VirtualHIDDevice/org_pqrs_Karabiner_DriverKit_VirtualHIDKeyboard.cpp:356-394 | the loop posts what the user client records of a reset: each empty report up to the first for which there is no memory |
| `VirtualKeyboard.Keyboard.Reset` | src/DriverKit/Karabiner-DriverKit-VirtualHIDDevice/org_pqrs_Karabiner_DriverKit_VirtualHIDKeyboard.cpp:356-394 | the five empty reports in order, up to the first for which there is no memory, and the result |
| `VirtualKeyboard.Pointing.Reset` | src/DriverKit/Karabiner-DriverKit-VirtualHIDDevice/org_pqrs_Karabiner_DriverKit_VirtualHIDPointing.cpp:220-250 | the one empty report, and the result |
| `DescriptorTables.KeyboardFields` | src/DriverKit/Karabiner-DriverKit-VirtualHIDDevice/org_pqrs_Karabiner_DriverKit_VirtualHIDKeyboard.cpp:21-134 | interpreting the keyboard's table gives these eleven fields, with collections and stack balanced |
| `DescriptorTables.PointingFields` | src/DriverKit/Karabiner-DriverKit-VirtualHIDDevice/org_pqrs_Karabiner_DriverKit_VirtualHIDPointing.cpp:14-81 | interpreting the pointing table gives these seven fields: Push and Pop give both multipliers the same range and size |
| `ReportLayout.TablesParse` | src/DriverKit/Karabiner-DriverKit-VirtualHIDDevice/org_pqrs_Karabiner_DriverKit_VirtualHIDKeyboard.cpp:21-134 | the tables as bytes parse back into the items that are interpreted |
| `HidDescriptor.ParseBytes` | src/DriverKit/Karabiner-DriverKit-VirtualHIDDevice/org_pqrs_Karabiner_DriverKit_VirtualHIDKeyboard.cpp:21-134 | the bytes of items are read back as these items |
| `HidDescriptor.ParseReadsPrefix` | src/DriverKit/Karabiner-DriverKit-VirtualHIDDevice/org_pqrs_Karabiner_DriverKit_VirtualHIDKeyboard.cpp:21-134 | of any bytes, what is read is a well-formed descriptor whose bytes are the beginning; the rest, if any, starts with an item cut short or a long one |
| `HidDescriptor.ParsesWholeIff` | src/DriverKit/Karabiner-DriverKit-VirtualHIDDevice/org_pqrs_Karabiner_DriverKit_VirtualHIDKeyboard.cpp:21-134 | bytes are read to their end if and only if they are the bytes of some items |
| `HidDescriptor.InterpretJoin` | src/DriverKit/Karabiner-DriverKit-VirtualHIDDevice/org_pqrs_Karabiner_DriverKit_VirtualHIDKeyboard.cpp:21-134 | interpreting a table section by section is interpreting it as a whole |
| `ReportLayout.KeyboardReportReads` | include/pqrs/karabiner/driverkit/virtual_hid_device_driver/hid_report/keyboard_input.hpp:13-30 | for all modifiers and keys: the declared fields fill the report exactly, and a host reads from it the modifiers as usages 0xE0 to 0xE7 and exactly the nonzero keys up to 255 |
| `ReportLayout.KeysReportReads` | include/pqrs/karabiner/driverkit/virtual_hid_device_driver/hid_report/consumer_input.hpp:12-23 | the same for the four reports with keys only, up to 768 for consumer control and 255 for the others |
| `ReportLayout.PointingReportReads` | include/pqrs/karabiner/driverkit/virtual_hid_device_driver/hid_report/pointing_input.hpp:12-20 | for all values: button b on exactly if its bit is set, and the four movements as signed values, 0x80 being no movement |
| `ReportLayout.LedReportReads` | src/DriverKit/Karabiner-DriverKit-VirtualHIDDevice/org_pqrs_Karabiner_DriverKit_VirtualHIDKeyboard.cpp:91-119 | both LED reports give usages 1 and 2 the two low bits of the state |
| `Keys.SlotsHoldTheSet` | include/pqrs/karabiner/driverkit/virtual_hid_device_driver/hid_report/keys.hpp:19-69 | after any operations the slots are the set of at most 32 keys that a surplus insert leaves unchanged, each key once, the count its cardinality, and a zero slot present exactly when there is room |
| `Keys.HeldKeysStay` | include/pqrs/karabiner/driverkit/virtual_hid_device_driver/hid_report/keys.hpp:32-49 | a held key stays in its slot through any operations until it is erased or all are cleared |
| `Keys.InsertedSet` | include/pqrs/karabiner/driverkit/virtual_hid_device_driver/hid_report/keys.hpp:32-41 | inserting adds a nonzero key if there is room, and nothing else |
| `Keys.ErasedSet` | include/pqrs/karabiner/driverkit/virtual_hid_device_driver/hid_report/keys.hpp:43-49 | erasing takes the key out, and nothing else |
| `Keys.KeyArray.Insert` | include/pqrs/karabiner/driverkit/virtual_hid_device_driver/hid_report/keys.hpp:32-41 | in place, into the first free slot |
| `Keys.KeyArray.Erase` | include/pqrs/karabiner/driverkit/virtual_hid_device_driver/hid_report/keys.hpp:43-49 | in place |
| `Keys.KeyArray.Exists` | include/pqrs/karabiner/driverkit/virtual_hid_device_driver/hid_report/keys.hpp:51-59 | membership; for 0, whether there is room |
| `Keys.KeyArray.Count` | include/pqrs/karabiner/driverkit/virtual_hid_device_driver/hid_report/keys.hpp:61-69 | the cardinality of the set |
| `Keys.KeyArray.Empty` | include/pqrs/karabiner/driverkit/virtual_hid_device_driver/hid_report/keys.hpp:19-26 | whether the set is empty |
| `Keys.KeyArray.Clear` | include/pqrs/karabiner/driverkit/virtual_hid_device_driver/hid_report/keys.hpp:28-30 | the empty set |
| `Flags.SetFlag` | include/pqrs/karabiner/driverkit/virtual_hid_device_driver/hid_report/buttons.hpp:27-31 | or-ing a power of two adds its exponent to the set of bits |
| `Flags.ClearFlag` | include/pqrs/karabiner/driverkit/virtual_hid_device_driver/hid_report/buttons.hpp:33-37 | and-ing its complement takes it out |
| `Flags.SetDeterminesWord` | include/pqrs/karabiner/driverkit/virtual_hid_device_driver/hid_report/buttons.hpp:15-17 | the raw value and the set determine each other |
| `Flags.Buttons.Insert` | include/pqrs/karabiner/driverkit/virtual_hid_device_driver/hid_report/buttons.hpp:27-31 | adds buttons 1 to 32, ignores others |
| `Flags.Buttons.Erase` | include/pqrs/karabiner/driverkit/virtual_hid_device_driver/hid_report/buttons.hpp:33-37 | takes out buttons 1 to 32, ignores others |
| `Flags.Buttons.Exists` | include/pqrs/karabiner/driverkit/virtual_hid_device_driver/hid_report/buttons.hpp:39-45 | membership, false outside 1 to 32 |
| `Flags.Buttons.GetRawValue` | include/pqrs/karabiner/driverkit/virtual_hid_device_driver/hid_report/buttons.hpp:15-17 | the sum of the powers of two of the pressed buttons |
| `Flags.Modifiers.Insert` | include/pqrs/karabiner/driverkit/virtual_hid_device_driver/hid_report/modifiers.hpp:28-30 | adds the modifier |
| `Flags.Modifiers.Erase` | include/pqrs/karabiner/driverkit/virtual_hid_device_driver/hid_report/modifiers.hpp:32-34 | takes the modifier out |
| `Flags.Modifiers.Exists` | include/pqrs/karabiner/driverkit/virtual_hid_device_driver/hid_report/modifiers.hpp:36-38 | membership |
| `Flags.Modifiers.GetRawValue` | include/pqrs/karabiner/driverkit/virtual_hid_device_driver/hid_report/modifiers.hpp:16-18 | the sum of the powers of two of the held modifiers |
| `OneShot.WaiterGets` | src/Manager/Sources/Manager/OneShot.swift:27-45 | among any `wait` and `resume` calls, a waiter is resumed if and only if a result is pending when it waits or a `resume` comes before the next `wait`; then once, with that result; so a second `wait` replaces the first |
| `OneShot.WaiterIsResumedOnce` | src/Manager/Sources/Manager/OneShot.swift:27-45 | with one `wait` among any `resume` calls, the waiter is resumed exactly once if there is any `resume`, with the last result from before, or else the first from after |
| `OneShot.NeverBoth` | src/Manager/Sources/Manager/OneShot.swift:23-45 | a stored continuation and a pending result never coexist |
| `OneShot.Actor.WaitFor` | src/Manager/Sources/Manager/OneShot.swift:27-36 | the state of the specification after one more `wait` |
| `OneShot.Actor.ResumeWith` | src/Manager/Sources/Manager/OneShot.swift:38-45 | the state of the specification after one more `resume` |

## Left out

- The `io_service_client`s inside `ClientEntry.Entry` are held by value: the object with its matched services on the heap is `IoServiceClient.Client`, and sharing the client with a report in flight is not modelled.
- RetryChain.RetriedOnTheBeat: takes checks to run exactly when they are due.
- Suppression.SuppressionPreservesMeaning: takes failing checks and status samples as they come, the same for both daemons; a status may claim readiness only of a device that has a client.
- The generation counters are unbounded integers.
- Destroying an entry when its peer closes drops it in `Daemon`, with its tasks; the closing of its three connections is `ConnectionLaws.ShutdownCloses` for each.
- The notices of the kernel's monitors are taken as they come, instead of waiting in the queue; in `HarmfulResponse` they come while nothing of the entry is queued for now.
- `detach` waits for a task of the object that is running, and runs a last function in front of the queue; closing a peer is one step here.
- Unix domain sockets, connection attempts and the transport's own errors: in-order delivery of a selection of the messages is assumed where it matters.
- `IOServiceOpen`, `IOConnectCall*`, `handleReport`, `Create` and memory descriptors are inputs or recorded effects.
- Reference counts of kernel objects and device descriptions.
- Mutexes, logging, thread checks, server creation and retries, signal handling.
- Physical ranges, units and resolution multipliers of the descriptors beyond their place in the report, and long items.
- The manager application beyond `OneShot`, packaging and version scripts.
