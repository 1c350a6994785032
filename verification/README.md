# Verification of the RTDBUS broker, its message envelopes and its translator

Dafny models of the parts of RTDBUS where state, arithmetic or byte handling is hard to follow, with proofs of
what they keep. `dafny verify dfyconfig.toml` checks everything.

**The broker.** `Schema` holds the three tables (Service, Worker, Letter) as values and one function per
transaction. `System` is the broker as a state machine: an event is one message or timer tick, a step is the list
of transactions it runs, and a `Choice` stands for what the database leaves open (which armed worker, which waiting
letter). A `Log` records what was accepted, sent and released; the program keeps no such record, the properties
need one. `Invariants`, `Conservation`, `Runs`, `Affinity`, `Dispatch`, `Progress`, `Expiry`, `Stamps` and `Refinement`
prove what holds over all runs. `Commands` goes from the frames a worker sends to its row, `Registration` is about the
way back into service, `Counterexamples` has short runs of the empty broker that reach the exceptions. `Entities`,
`Database`, `ServiceList` and `Broker` are the program's own classes, with its loops, nested transactions, rollbacks
and in-place message edits; `Broker.Broker.Receive` ties every message to one step of the machine, and the object's
ghost field `run` makes every theorem about runs a theorem about the object.

**Messages.** `Messages` is the frame vector, `IdentityCodec` the text form of socket identities, `Replies` the
broker's answers, `ClientApi` and `WorkerApi` the two libraries at its ends. `Envelope` follows a request from a
client's frames through sockets, tables and worker and back. The protocol is 7/MDP, the internal services 8/MMI.

**Clocks.** `WorkerApi` holds the worker's receive loop, `Lives` says what renews it, and `Heartbeats` sets its rhythm
against the broker's expiry window.

**Around it.** `Endpoint` (the in-place rewrite before a bind), `Poller` (subscription groups and their change
flags), `SnapTrans`, `SnapRecords` and `Escape` (instance records to XML).

## Assumptions

- The values of `config.h` are chosen when the project is built, so they are parameters; `SHIPPED` are those of
  `cmake/CMakeLists.txt`.
- All autoids come from one database-wide counter and are never used again. The placeholder trick for `worker_ref`
  needs this: a letter's id must not be a worker's.
- `SK_by_worker_id` is unique, as the comments in the code say; the put or commit that violates it undoes the whole
  transaction. The engine returns only OK, NOTFOUND or DUPLICATE, and a nested transaction is part of the outer one.
- A new worker's `letter_ref` is 0, which is no id.
- Index order among equal keys is unspecified: no order of service is claimed.
- Sending is appending to a log, polling is "a message or the full timeout", the time is a parameter.

## What the proofs found

- Dispatch stops after one pass and is still enough, except when HEARTBEAT, or READY under an identity that is too
  long and begins with the worker's, arms a worker whose letter is outstanding while another waits
  (`Dispatch.StepIdlesExactly`, `Counterexamples.IdlingRun`). Assignments to such a worker roll back and send nothing.
- Identities are looked up whole and stored cut to 11 octets: READY under a longer one can move somebody else's worker
  to another service, and if that worker is busy its next report ends the broker (`Counterexamples.StealingRun`). The
  sender itself is never recognised again (`Registration.LongIdentityUnknown`).
- READY of a known worker disarms it and sends DISCONNECT, which the worker answers with READY. As long as the answer
  comes within the worker's poll the two go round in circles, whatever purges and messages of others come in between
  (`Registration.RegistrationCircles`). DISCONNECT of an unknown worker fails an assert.
- `mmi.filter` takes the sender's address for the operation. Its answer has no address (`Envelope.FilterAnswered`); a
  client whose identity is "enable" or "disable" runs it into an assert (`Envelope.ClientAborts`).
- Messages expire `MESSAGE_EXPIRATION_PERIOD_MSEC` seconds after assignment: the value is added to seconds
  (`Stamps.DeliveriesExpire`).
- The expiry window is cut to whole seconds. With the shipped 2500 ms an idle worker may be silent for five seconds
  against a window of four (`Heartbeats.ShippedWindowTooSmall`); it fits exactly for periods of whole seconds
  (`Heartbeats.IdleWorkerStays`, `Counterexamples.IdleWorkerDisarmed`).
- A header that is empty or begins with NUL is lost on the way to the worker (`Envelope.RequestReachesWorker`).
- The bind rewrite loses the port of a host with one character, and does not stay inside its buffer for an endpoint
  whose last ':' is less than two places behind its last '/' (`Endpoint.BindEndpoint`).
- A write between the poller's reading and clearing is lost, and so is a change for a group whose publication failed
  while another's succeeded (`Poller`).
- The loop that escapes '&' finds its own replacement and never ends (`Escape.ReplaceAmp`), so the translation of a
  file stops for good at the first point that shows such a value (`SnapTrans.StreamIsBatch`).
- The last point of an instance file is never written, and attributes of a point of an unknown class show up in the
  next one (`SnapTrans`).

## Model

| member | source | states |
|---|---|---|
| Invariants.TraceKeepsSound | xdb/impl/xdb_impl_db_broker.cpp:1714-1913 | Any sequence of transactions keeps the tables sound: keys unique, every id drawn from the one counter, `worker_ref` injective, a waiting letter's `worker_ref` its own id, the two references mutually inverse on assigned letters, an occupied worker holding exactly one letter |
| Invariants.HeldByReference | xdb/impl/xdb_impl_db_broker.cpp:1868-1881 | In sound tables the letters the index gives for a worker are exactly the one its own reference names, or none |
| Invariants.EnqueueKeeps | xdb/impl/xdb_impl_db_broker.cpp:2152-2246 | A new letter's placeholder collides with nothing in any sound table, so pushing a request never fails on the unique index |
| Invariants.CollidesExactly | xdb/impl/xdb_impl_db_broker.cpp:1816-1825 | The unique index rejects an assignment if and only if the worker still holds a letter |
| Invariants.ArmKeeps | xdb/impl/xdb_impl_db_broker.cpp:725-850 | Arming a known worker in whatever state, occupied or not, keeps references inverse and indexes unique |
| Invariants.ReleaseKeeps | xdb/impl/xdb_impl_db_broker.cpp:1855-1913 | Removing the letter and arming its worker keeps the tables sound |
| Runs.TraceEnabled | mdp/mdp_broker.cpp:599-650 | In sound tables no transaction of a step that passes the lookup asserts meets a missing row or fails a later assert |
| Runs.RunSafe | mdp/mdp_broker.cpp:870-927 | Soundness and agreement of the record with the tables hold in every state of every run |
| Runs.EachRequestOnce | mdp/mdp_broker.cpp:655-708 | In every run each accepted request is exactly one of waiting, held or released; it was sent if and only if it is no longer waiting, at most once, and to the worker that holds it or reported on it |
| Conservation.TraceConserves | xdb/impl/xdb_impl_db_broker.cpp:1714-1913 | Accepted requests are the disjoint union of stored and released ones, stored letters are still the accepted requests word for word, no letter is sent twice, each message sent belongs to a committed assignment and carries the client's own frames, whatever was assigned or released was sent |
| Conservation.ReleaseStutters | mdp/mdp_broker.cpp:525-533 | A report from a worker that holds no letter leaves tables and record as they were |
| Affinity.LeavesOnlyOnReport | mdp/mdp_broker.cpp:507-533 | A letter leaves the table only in a REPORT step of the worker it was assigned to, and is recorded as released by that worker |
| Affinity.ReportRemovesHeld | xdb/impl/xdb_impl_db_broker.cpp:1855-1913 | A REPORT step removes exactly the letter its worker held, no other |
| Affinity.StepAffineExactly | mdp/mdp_broker.cpp:449-504 | A step breaks the agreement between a letter's service and its worker's if and only if it is a READY whose identity is too long and whose first 11 octets name a busy worker of another service; with fitting identities no worker changes service |
| Bytes.BoundedPrefix | xdb/broker/xdb_broker_worker.cpp:65-76 | What is stored of an identity is its beginning: all of it up to the first NUL, or the first 11 octets of that |
| Affinity.RunAffine | xdb/impl/xdb_impl_db_broker.cpp:725-850 | In every run whose identities fit 11 octets, assigned letters and their workers share one service, and no worker ever changes its own |
| Affinity.RunAffineExactly | mdp/mdp_broker.cpp:449-504 | Over every run at all, whatever the identities, letters and their workers share one service in every state if and only if no step of the run is such a READY |
| Affinity.AbortsExactly | mdp/mdp_broker.cpp:507-561 | From any sound state in which letters and workers agree, after any run with fitting identities, the broker runs into an assert, null pointer or missing frame if and only if the message is malformed or unsolicited by its looks and the identity table: the asserts on service ids never fail |
| Affinity.StolenWorkerMoved | xdb/broker/xdb_broker_worker.cpp:65-76 | The identity cut to 11 octets: such a READY moves another worker to the new service while that worker still holds its letter of the old one |
| Counterexamples.StealingRun | xdb/broker/xdb_broker_worker.cpp:65-76 | The exception is reached from the empty broker: READY under 11 octets, a request, and READY under more octets that begin with them, for another service; the next report of the first worker then ends the broker |
| Affinity.StolenWorkerAborts | xdb/impl/xdb_impl_db_broker.cpp:1880-1881 | The next REPORT of a worker stolen that way fails the assert on the letter's service, so the exception above is real |
| Dispatch.DispatchRestores | mdp/mdp_broker.cpp:266-296 | From tables where only one service may be out of balance, by one worker or one letter, a purge and a single pass of the dispatch loop leave no armed worker beside a waiting letter, if and only if the worker that is picked holds no letter |
| Dispatch.StepIdlesExactly | mdp/mdp_broker.cpp:564-585 | Work conservation, exactly: from balanced tables a step leaves an armed worker beside a waiting letter of its service if and only if it arms a worker whose letter is outstanding while another letter waits for the service it dispatches |
| Dispatch.StepIdlesByPick | mdp/mdp_broker.cpp:229-297 | From any sound tables in which nobody idles, whoever holds what: a step leaves an armed worker beside a waiting letter if and only if the database hands its dispatch a worker that holds a letter; a second dispatch in the same step cannot mend that |
| Dispatch.RunIdlesExactly | mdp/mdp_broker.cpp:870-927 | Over every run at all, nobody idles in any state if and only if no dispatch of the run is handed a letter holder |
| Counterexamples.ProperExist | xdb/broker/xdb_broker_worker.cpp:65-76 | The names these runs use exist: eleven letters, the same with one more, and short ones; so the runs are real |
| Counterexamples.IdlingRun | mdp/mdp_broker.cpp:564-585 | The exception is reached from the empty broker: READY, two requests and a HEARTBEAT of the busy worker leave it armed beside the second request |
| Dispatch.RunNeverIdles | mdp/mdp_broker.cpp:229-297 | Over every run in which no step arms a letter holder, no service ever has both an armed worker and a waiting letter between steps, although the loop breaks after one pass |
| Dispatch.HolderStaysArmed | mdp/mdp_broker.cpp:564-585 | A re-armed holder outlives the dispatch of its own heartbeat unchanged, and a dispatch that picks it is rolled back to the purge alone |
| Dispatch.HolderTakesNoSecondLetter | mdp/mdp_broker.cpp:655-708 | Assigning to a worker that holds a letter changes no row and sends nothing |
| Progress.RequestServedAtOnce | mdp/mdp_broker.cpp:229-297 | In balanced tables a request for a service with an armed, unexpired worker is sent in the very step that accepts it, and its letter is then assigned to the worker it went to |
| Progress.WorkerServedAtOnce | mdp/mdp_broker.cpp:778-803 | In balanced tables a worker that calls for work with empty hands, a new one by READY or a known one by REPORT or HEARTBEAT, gets a waiting letter of its service in the same step, if there is one, and that is the one message of the step, although READY dispatches twice |
| Expiry.PurgedExactly | mdp/mdp_broker.cpp:165-199 | When expiries are those of the latest messages, a purge disarms a worker it looks at if and only if that worker has been silent for more than K = 2*(period/1000) seconds; a message here and below is READY, REPORT, HEARTBEAT or DISCONNECT, for an invalid command is not recorded |
| Expiry.RunStaysTimed | xdb/broker/xdb_broker_worker.cpp:117-150 | In every state of every run an armed worker's expiry is its latest recorded message plus K |
| Expiry.PunctualWorkerStays | xdb/impl/xdb_impl_db_broker.cpp:793-801 | A worker whose recorded messages (READY, REPORT, HEARTBEAT, DISCONNECT) are never more than K apart is not disarmed by any step of any run |
| Expiry.PurgeFrame | mdp/mdp_broker.cpp:165-199 | One purge disarms at most one worker per service, only armed and expired ones, and changes no letter, no service and no other worker |
| WorkerApi.LivenessInRange | mdp/mdp_worker_api.cpp:373-390 | At every head of the receive loop liveness is between one and its full value, whatever arrives, so the unsigned decrement never wraps |
| WorkerApi.MdWorker.Recv | mdp/mdp_worker_api.cpp:295-406 | For any sequence of poll results the loop's clock, deadline, liveness and messages are those of the round function; it stops at the first message with command 2 and hands over its reply address and payload |
| WorkerApi.MdWorker.SendToBroker | mdp/mdp_worker_api.cpp:148-172 | One message leaves: empty frame, protocol, command, then the given frames, octet for octet |
| WorkerApi.MdWorker.ConnectToBroker | mdp/mdp_worker_api.cpp:176-221 | A READY with service and endpoint leaves, and deadline and liveness start anew |
| WorkerApi.MdWorker.Reply | worker/wtester.cpp:59-78 | The service's answer: REPORT with the client's address, a delimiter, header and data |
| Lives.MessageRevives | mdp/mdp_worker_api.cpp:309-360 | Any message of the broker, a request or not, brings liveness back to its full value and puts the next heartbeat a whole period after the round; READY leaves if and only if the command is DISCONNECT, and nothing else does |
| Lives.SilenceCosts | mdp/mdp_worker_api.cpp:373-390 | A poll that gives nothing costs one life; with the last one the worker pauses and sends READY, otherwise it sends HEARTBEAT, which renews everything, if and only if the clock is past the deadline |
| Lives.RegistersOnlyWhenTold | mdp/mdp_worker_api.cpp:303-406 | Over any sequence of polls in which never as many in a row time out as the worker has lives, whatever arrives and whatever rounds cost, it sends exactly one READY for each DISCONNECT |
| Heartbeats.IdleWorkerBeats | mdp/mdp_worker_api.cpp:303-390 | An idle worker with three lives or more sends heartbeats and nothing else, each no later than two periods and one round's cost after the message before it |
| Heartbeats.IdleRoundsTakeTime | mdp/mdp_worker_api.cpp:303-390 | Every round takes a heartbeat period at least, so the heartbeats of an idle worker do come |
| Heartbeats.ThreeLivesNeeded | mdp/mdp_worker_api.cpp:412-419 | When rounds cost nothing, an idle worker keeps to heartbeats if and only if liveness starts at three or more; below that it registers again |
| Heartbeats.WindowExactly | xdb/broker/xdb_broker_worker.cpp:117-150 | Silence of at most `gap` milliseconds never looks longer than `grace` seconds in any phase of the clock if and only if gap <= 1000*grace |
| Heartbeats.IdleGapFits | xdb/broker/xdb_broker_worker.cpp:136-150 | The gap of an idle worker fits the broker's window if and only if the heartbeat period is a whole number of seconds and a round costs nothing |
| Heartbeats.IdleWorkerStays | mdp/mdp_worker_api.cpp:303-390 | Worker loop and broker together: with such a period, no run of the broker that takes the frames the loop sends, each at the time it is sent, disarms an idle worker |
| Counterexamples.IdleWorkerDisarmed | mdp/mdp_worker_api.cpp:303-390 | The converse: for every period that is no whole number of seconds there is a run from the empty broker, and an idle worker with free rounds and heartbeats that arrive at once, that the broker disarms |
| Heartbeats.ShippedWindowTooSmall | cmake/CMakeLists.txt:187-199 | With the values the build files choose (2500 ms, three lives) the idle gap is five seconds against a grace of four: an explicit pair of times at which the worker is silent for too long |
| Refinement.ApplyRefines | xdb/impl/xdb_impl_db_broker.cpp:725-850 | Each transaction is one action of an abstract broker (waiting requests with their services, a partial map from workers to requests, the workers' services, armed workers, finished requests; a request is only given to an armed worker of its service) or invisible; rejected assignments and reports without a letter are invisible |
| Refinement.RunRefines | mdp/mdp_broker.cpp:599-650 | Every run of the broker maps to a run of the abstract broker from the abstraction of its first state to that of its last |
| Refinement.AbsRunsKeepOk | xdb/impl/xdb_impl_db_broker.cpp:1714-1847 | In the abstract broker a request is never in two places, no two workers share one, and every armed or busy worker has a service |
| Stamps.StepStamps | xdb/impl/xdb_impl_db_broker.cpp:1766-1778 | Whatever a step sends, the letter's row and its worker's row are assigned and occupied and both expire MESSAGE_EXPIRATION_PERIOD_MSEC seconds after the step, a second dispatch in it notwithstanding |
| Stamps.DeliveriesExpire | xdb/impl/xdb_impl_db_broker.cpp:1714-1848 | In every state of every run, a letter that was sent and is still stored expires that long after its own delivery, and so does the worker that is busy with it |
| Stamps.WaitingLetters | xdb/impl/xdb_impl_db_broker.cpp:2152-2246 | A letter that waits after a step waited before in the same row, or was stored by it and expires one heartbeat period, cut to whole seconds, later |
| Database.DatabaseBroker.AssignLetterToWorker | xdb/impl/xdb_impl_db_broker.cpp:1714-1848 | Commits both rows and the reference, or, when the last put meets the unique index or a row is missing, leaves every row as it was; says exactly when |
| Database.DatabaseBroker.PushRequestToService | xdb/impl/xdb_impl_db_broker.cpp:2152-2246 | Stores the letter with its own id as placeholder; exactly when the index rejects that id, nothing is stored and the id is lost |
| Database.DatabaseBroker.ReleaseLetterFromWorker | xdb/impl/xdb_impl_db_broker.cpp:1855-1913 | Removes the held letter, arms the worker and drops its reference in one transaction with the nested state change, or changes nothing if there is no letter |
| Database.DatabaseBroker.SetWorkerState | xdb/impl/xdb_impl_db_broker.cpp:2008-2088 | Changes the state of the worker with this identity inside the caller's transaction; ARMED also drops the reference; without such a worker the outer transaction's rows come back |
| Database.DatabaseBroker.PushWorker | xdb/impl/xdb_impl_db_broker.cpp:725-850 | Arms the row with this identity, whatever its state, or creates it; fails without effect exactly when the service does not exist |
| Database.DatabaseBroker.RemoveWorker | xdb/impl/xdb_impl_db_broker.cpp:672-719 | Marks the row of this identity disarmed and keeps its letter reference; without a row nothing changes |
| Database.DatabaseBroker.PopWorker | xdb/impl/xdb_impl_db_broker.cpp:1243-1312 | Some worker of the service in the wanted state, null exactly when there is none |
| Database.DatabaseBroker.GetWaitingLetter | xdb/impl/xdb_impl_db_broker.cpp:1626-1700 | Some waiting letter of the service, null exactly when there is none |
| Database.DatabaseBroker.GetWorkerByIdent | xdb/impl/xdb_impl_db_broker.cpp:1385-1421 | The row stored under the whole C string, null exactly when there is none |
| Database.DatabaseBroker.AddService | xdb/impl/xdb_impl_db_broker.cpp:505-555 | A new registered service under a fresh id with the default endpoint of its name |
| Database.DatabaseBroker.ClearWorkersForService | xdb/impl/xdb_impl_db_broker.cpp:1319-1341 | Terminates, every round with one occupied worker less; at the end the service has none, exactly the workers that were are disarmed and without reference, exactly their letters are gone, and the links hold |
| ServiceList.Services.Refresh | xdb/impl/xdb_impl_db_broker.cpp:2400-2476 | The array lists stored services, each once, all of them or as many as fit |
| ServiceList.Services.First | xdb/impl/xdb_impl_db_broker.cpp:2288-2304 | The walk starts at the first listed service, or is over at once when there is none |
| ServiceList.Services.Next | xdb/impl/xdb_impl_db_broker.cpp:2324-2335 | The next listed service, null after the last |
| ServiceList.Services.AddService | xdb/impl/xdb_impl_db_broker.cpp:2358-2385 | Appends while there is room and refuses without effect when there is none |
| Broker.Broker.Receive | mdp/mdp_broker.cpp:870-927 | Any well-formed message that does not run into an assert is one legal step of the state machine: the run of the broker object grows by that step, the tables are what the step says, and on the wire are its answers followed by its worker requests, nothing else |
| Broker.Broker.Tick | mdp/mdp_broker.cpp:919-925 | The purge between two polls is a timer step and sends nothing |
| Broker.SurvivesExactly | mdp/mdp_broker.cpp:599-650 | From any sound state in which letters and workers agree, after any run with fitting identities a message is handled without meeting an assert if and only if it is none of the malformed or unsolicited kinds |
| Broker.Broker.ClientMsg | mdp/mdp_broker.cpp:809-867 | A request is queued and dispatched, refused with a NAK when its service is unknown, or answered by an internal service: in each case the step, and the frames, of the protocol |
| Broker.Broker.WorkerMsg | mdp/mdp_broker.cpp:599-650 | Each worker command takes its step; an unknown sender of a report or an invalid command gets a DISCONNECT, an unknown sender of a heartbeat gets nothing |
| Envelope.WorkerMessage | mdp/mdp_common.h:29-35 | By its octets: behind "MDPW0X" the commands 1, 3, 4 and 5 are READY, REPORT, HEARTBEAT and DISCONNECT of the socket's textual identity, with the frames that follow, and every other command is invalid |
| Envelope.CommandMessages | mdp/mdp_broker.cpp:618-629 | The broker takes the worker library's heartbeat for HEARTBEAT, its bare DISCONNECT for DISCONNECT, and any other bare command for an invalid one |
| Commands.HeartbeatKeeps | mdp/mdp_broker.cpp:564-585 | The frames of a HEARTBEAT from a known worker: it is heard now, and armed for a whole grace or busy with a letter, and nothing is answered |
| Commands.DisconnectLeaves | mdp/mdp_broker.cpp:588-593 | The frames of a DISCONNECT from a known worker: it is heard now and disarmed, nothing else changes, and nothing is answered |
| Commands.StrangerDismissed | mdp/mdp_broker.cpp:630-646 | REPORT or an invalid command from a socket without a row changes nothing and is answered with one DISCONNECT, which carries the socket's identity if and only if that is free of NUL and does not look encoded; HEARTBEAT from it is not answered |
| Commands.UnknownCommand | mdp/mdp_broker.cpp:626-641 | An invalid command of a known worker changes nothing and is not answered |
| Commands.ReadyRegisters | mdp/mdp_broker.cpp:465-500 | The frames of a READY from a socket without a row: afterwards its first frame names a service with the second for endpoint, a worker under the socket's return address is armed for that service or busy, and services of other names are as they were |
| Commands.EndpointTold | mdp/mdp_broker.cpp:317-344 | Whoever asks mmi.service for that name next is answered 200 and that endpoint, in any run |
| Broker.Broker.ProcessReady | mdp/mdp_broker.cpp:449-504 | READY of a known worker disarms it and sends DISCONNECT; of a new one finds or creates the service, stores the endpoint, arms the worker and dispatches twice |
| Broker.Broker.ProcessReport | mdp/mdp_broker.cpp:507-561 | The letter goes, the answer is readdressed to the client, the worker is armed again and its service dispatched |
| Broker.Broker.ProcessHeartbeat | mdp/mdp_broker.cpp:564-585 | Arms the worker without a look at its state and dispatches its service |
| Broker.Broker.ProcessDisconnect | mdp/mdp_broker.cpp:588-593 | Disarms the worker and sends nothing |
| Broker.Broker.WorkerSend | mdp/mdp_broker.cpp:655-708 | One request message leaves if and only if the assignment committed |
| Broker.Broker.ServiceDispatch | mdp/mdp_broker.cpp:229-297 | Stores the request if there is one, purges, and pairs one armed worker with one waiting letter if there are both |
| Broker.Broker.WorkerWaiting | mdp/mdp_broker.cpp:778-803 | The row of the worker's identity is armed or created, and the service dispatched |
| Broker.Broker.PurgeWorkers | mdp/mdp_broker.cpp:165-199 | Walks the refreshed list once, looks at one armed worker of each listed service that has any, and disarms exactly the expired ones among them |
| Broker.Broker.Release | mdp/mdp_broker.cpp:411-445 | Disarms the worker's row; the farewell goes out first when asked for |
| Broker.Broker.ServiceRequire | mdp/mdp_broker.cpp:203-224 | The service of that name, created when there was none, with the endpoint of the READY |
| Broker.Broker.ServiceInternal | mdp/mdp_broker.cpp:312-380 | The answer of mmi.service, mmi.filter and the unknown internal services, frame by frame; mmi.filter takes the return address for its operation and so answers 400 to no address |
| IdentityCodec.EncodeUuid | mdp/mdp_zmsg.cpp:241-265 | The loop writes '@' and the ten digits of a five octet identity, and a terminator |
| IdentityCodec.DecodeUuid | mdp/mdp_zmsg.cpp:272-297 | The loop reads the five octets back, digit pair by digit pair |
| IdentityCodec.EncodedDigits | mdp/mdp_zmsg.cpp:241-265 | Octet i of the identity stands in the text as the digits of "0123456789ABCDEF" for its high and its low half |
| IdentityCodec.DigitValues | mdp/mdp_zmsg.cpp:272-297 | Every such digit is read back as its value, lower case letters too |
| IdentityCodec.DecodeEncode | mdp/mdp_zmsg.cpp:241-297 | Decoding inverts encoding on all five octet identities |
| IdentityCodec.EncodeInjective | mdp/mdp_zmsg.cpp:241-265 | Different identities have different texts |
| IdentityCodec.SendAfterRecv | mdp/mdp_zmsg.cpp:110-172 | Sending what was received restores frame 0 if and only if the identity is not itself an 11 octet text beginning with '@' |
| IdentityCodec.ReturnAddressExact | xdb/broker/xdb_broker_letter.cpp:43-73 | A reply to the stored address reaches its owner if and only if the identity is a socket's own, or is free of NUL, at most 11 octets long and does not look like an encoded one |
| Messages.ZMsg.Recv | mdp/mdp_zmsg.cpp:86-136 | All frames are kept, the first one in textual form when it is a socket's own identity |
| Messages.ZMsg.Send | mdp/mdp_zmsg.cpp:138-184 | All frames go out, a textual first frame in binary form, and the message is empty afterwards |
| Messages.ZMsg.Unwrap | mdp/mdp_zmsg.cpp:341-356 | The first frame is the address; the next one goes too when it is empty or begins with NUL |
| Messages.ZMsg.BodySet | mdp/mdp_zmsg.cpp:190-195 | The last frame is replaced, or the only one made |
| ClientApi.MdClient.Send | mdp/mdp_client_async_api.cpp:325-346 | Empty frame, protocol header and service name in front of the caller's frames |
| ClientApi.MdClient.Recv | mdp/mdp_client_async_api.cpp:445-476 | An answer without its first three frames |
| ClientApi.MdClient.AskServiceInfo | mdp/mdp_client_async_api.cpp:211-215 | The question about a service: a request to mmi.service with the name as its one frame |
| ClientApi.MdClient.TakeServiceInfo | mdp/mdp_client_async_api.cpp:193-275 | Status and endpoint of the answer; the first endpoint learned for a service is kept |
| Envelope.RequestReachesWorker | mdp/mdp_broker.cpp:679-700 | For every client identity, service, header and body, before and after any runs: every delivery of that request goes to its worker, whose loop gets the client's return address, and gets [header, body] if and only if the header is not empty and does not begin with NUL; the message carries the identity of the socket the worker's row was made for if and only if that identity is addressable |
| Envelope.RowOfSocket | xdb/broker/xdb_broker_worker.cpp:65-76 | Only READY makes a worker's row; in every later state the row carries the return address of the socket that sent it, which leads back there if and only if the socket's identity is addressable |
| Envelope.RoundTrip | mdp/mdp_broker.cpp:540-548 | There and back in one: from the client's frames through the tables to the worker and its answer back, the request arrives as above, the answer is one message with the name the client asked for and all the worker's frames, it reaches the client if and only if its identity is addressable, and the letter is released by that worker; the request had gone to the very socket that reports if and only if the broker can answer to its identity |
| Envelope.ReportReachesClient | mdp/mdp_broker.cpp:540-548 | The worker's report leaves as one message with the service name and all the worker's frames intact, however many and whatever octets they hold, and carries the client's own identity as address if and only if that identity is addressable |
| Envelope.ServiceAskedFor | mdp/mdp_broker.cpp:320-371 | In any state of any run mmi.service answers 200 with the endpoint if the service is in the table and 404 if not, and the answer carries the asker's identity if and only if that is free of NUL and does not look encoded |
| Envelope.ServiceAnswered | mdp/mdp_broker.cpp:327-343 | From any tables at all: 200 if the service is registered or activated, 404 if it is disabled, unknown or missing |
| Envelope.UnsupportedAnswered | mdp/mdp_broker.cpp:371-373 | Any other service whose name holds "mmi." changes nothing and answers in one message: the name, the asker's frames unchanged but for the last, and 501 in its place; it carries the asker's identity under the same condition |
| Envelope.FilterAnswered | mdp/mdp_broker.cpp:345-370 | mmi.filter changes nothing and answers in one message without an address, with 400 as its last frame |
| Envelope.ClientAborts | mdp/mdp_broker.cpp:317-370 | A client message ends the broker if and only if it has no frame behind the name, asks mmi.service with any number but one, or asks mmi.filter under the identity "enable" or "disable" |
| Envelope.InternalExactly | mdp/mdp_broker.cpp:815-821 | A name is internal if and only if it holds "mmi." anywhere |
| Envelope.RefusalReachesClient | mdp/mdp_broker.cpp:826-841 | A request for an unknown service changes nothing, and one NAK naming the service leaves, with the client's own identity as address if and only if that is free of NUL and does not look encoded |
| Registration.DisarmedStays | mdp/mdp_broker.cpp:778-803 | No step arms a disarmed worker unless it is that worker's call for work |
| Registration.CallsForWork | mdp/mdp_broker.cpp:449-504 | Such a call is the worker's own HEARTBEAT or REPORT, or a READY under another, too long identity that begins with the worker's; its own READY never is |
| Registration.KnownReadyDismissed | mdp/mdp_broker.cpp:457-462 | READY of a known worker is answered with one DISCONNECT to that worker's address, and leaves it known and disarmed |
| Registration.FarewellAnswered | mdp/mdp_worker_api.cpp:350-360 | The worker's loop answers a DISCONNECT with READY and moves its next heartbeat a whole period away |
| Registration.RegistrationCircles | mdp/mdp_worker_api.cpp:176-221 | Worker and broker taking turns among purges and any messages of others, each turn handling the frames the worker sent last and giving it the frames the broker answered: however long it goes on, every turn is READY of the known worker, every answer a DISCONNECT, the worker has sent one READY for each and nothing else and asks again; after a turn it is disarmed, unless another step called for work in its name |
| Registration.CirclesOfAnyLength | mdp/mdp_broker.cpp:457-462 | Nothing ends it: after any such exchange, and after any run of the broker behind it, as many more turns are open as one likes, if the broker can answer to the worker's identity |
| Registration.LongIdentityUnknown | xdb/broker/xdb_broker_worker.cpp:65-76 | A worker whose textual identity is longer than its column is known to no sound table: its heartbeats change nothing, its reports release nothing and are answered with a DISCONNECT, and its own DISCONNECT fails an assert |
| Envelope.RequestAccepted | mdp/mdp_broker.cpp:809-867 | A request for a known service becomes a letter with exactly its header and body: its last two frames, however many come before, or no header and its only one |
| Endpoint.BindEndpoint | mdp/mdp_worker_api.cpp:442-459 | The overlapping copies stay inside the allocated octets if and only if the last ':' is at least two places behind the last '/'; then the buffer reads prefix, star and port, but without the port for a host of one character |
| Endpoint.PortSurvives | mdp/mdp_worker_api.cpp:442-459 | The text is prefix through '/', '*', suffix from ':' if and only if the host has two characters or more, and it is never longer than the original |
| Poller.DiggerPoller.Poll | worker/wdigger.cpp:829-968 | One pass publishes the armed groups in some order, each with what the base holds at its own reading, and clears the flags of what it published after all groups are done, whatever other threads write before, between and after the readings |
| Poller.Rtdb.QueryArmedGroups | xdb/impl/xdb_impl_db_rtap.cpp:2553-2719 | Exactly the enabled groups that contain a changed point |
| Poller.Rtdb.QueryReadPoints | xdb/impl/xdb_impl_db_rtap.cpp:2788-3007 | Exactly the group's changed points that can be read, with their current values |
| Poller.Rtdb.QueryDisarmByList | xdb/impl/xdb_impl_db_rtap.cpp:2725-2774 | Exactly the listed points lose their flag |
| Poller.ClearedExactly | worker/wdigger.cpp:936-968 | A round clears a flag if and only if the point was in one of its publications |
| Poller.MissedExactly | worker/wdigger.cpp:925-945 | A group misses a change for good if and only if its own turn failed for the point while another group's succeeded |
| Poller.FullRound | worker/wdigger.cpp:829-968 | When all groups are read and published, every point flagged at the start reaches every enabled group that contains it and stays flagged if and only if there is no such group; when nobody writes meanwhile it is the current value that arrives |
| Poller.StepLosesExactly | worker/wdigger.cpp:959-968 | Whatever fails and whatever is written meanwhile, a round loses a change if and only if some write, in a turn after the last one whose group took the point or between the last turn and the clearing, leaves the point with another value than it had at that turn |
| Poller.OvertakenExactly | worker/wdigger.cpp:925-968 | That condition on the writes says exactly when a published point ends the round with another value than its last publication carried |
| Poller.LostUpdate | worker/wdigger.cpp:959-968 | A concrete round that loses a change: one flagged point, one group, and a write between reading and clearing |
| Poller.RunLosesExactly | worker/wdigger.cpp:829-968 | Over any alternation of writes and rounds, written into or not, failing or not, in every state an unflagged point's latest publication carries its current value or the point was never touched, if and only if in no round a later write overtakes a reading |
| Escape.ReplaceAll | xdb/rtap/xdb_rtap_snap_trans.cpp:563-574 | The find, erase and insert loop for '<' or '>' ends, with the one-pass substitution |
| Escape.ReplaceAmp | xdb/rtap/xdb_rtap_snap_trans.cpp:557-561 | The loop for '&' is done after any number of rounds if and only if there was no '&'; otherwise the text only grows |
| Escape.Masquerade | xdb/rtap/xdb_rtap_snap_trans.cpp:555-575 | The three loops end if and only if the value is free of '&', and then give the value as XML character data |
| Escape.EscapedOctets | xdb/rtap/xdb_rtap_snap_trans.cpp:555-575 | Octet by octet: `&amp;`, `&lt;` and `&gt;` for the three marks, every other octet as it is |
| Escape.DecodedEscaped | xdb/rtap/xdb_rtap_snap_trans.cpp:555-575 | Decoding the predefined entities (XML 1.0, sections 2.4 and 4.6) gives every escaped value back |
| SnapTrans.Translator.ProcessInstanceFile | xdb/rtap/xdb_rtap_snap_trans.cpp:799-969 | The loop over the records computes the reading function: current class, name, attributes, everything written, and whether it is caught in the loop that does not end |
| SnapTrans.Translator.DumpPoint | xdb/rtap/xdb_rtap_snap_trans.cpp:580-710 | The template's attributes except two, with the given values where there are any, each escaped; it ends if and only if no value it shows holds '&'; an unused class returns before the given ones are emptied |
| SnapRecords.WrittenFromRecords | xdb/rtap/xdb_rtap_snap_trans.cpp:580-710 | Every point of the output in terms of the records: it stands behind those of the loaded instance records before its own and has its class; its tag is the first UNIVNAME of its group or, without one, '/' and the record's point name; its attributes are the template's but UNIVNAME and OBJCLASS, in order, each with the group's first value for it or the template's, escaped |
| SnapTrans.EndsExactly | xdb/rtap/xdb_rtap_snap_trans.cpp:660-668 | A point ends if and only if none of the values it shows, given or from the template, holds '&' |
| SnapTrans.StreamIsBatch | xdb/rtap/xdb_rtap_snap_trans.cpp:799-969 | For every stream that starts with an instance record and names known classes, the points are those of all groups but the last, each from its own scalars: they are written, escaped, up to the first that shows a value with '&'; the translation ends if and only if there is none, and then the output decodes to exactly these points |
| SnapTrans.StreamIsCarriedGrouping | xdb/rtap/xdb_rtap_snap_trans.cpp:822-898 | For every stream at all: the same for the groups but the last, each with what was carried into it from groups of unknown classes before it or from scalars before the first instance record |
| SnapTrans.WrittenIsText | xdb/rtap/xdb_rtap_snap_trans.cpp:555-575 | No value that is written holds '<' or '>' |
| SnapTrans.OnePointShort | xdb/rtap/xdb_rtap_snap_trans.cpp:1073-1088 | With all classes loaded the output is at least one point short, and exactly one, the last, when the translation ends |
| SnapTrans.LeakExactly | xdb/rtap/xdb_rtap_snap_trans.cpp:596-601 | After a group of an unknown class the next point is what its own records say if and only if no carried attribute shows in it |
| SnapTrans.FirstWins | xdb/rtap/xdb_rtap_snap_trans.cpp:950-950 | Of several values for one attribute of a group the first counts |

## Left out

- Sockets, polling, contexts, threads and signals: foreign library calls; only what is sent and received remains.
- The engine behind the tables: cursors, snapshots, its own error codes, and a connection that fails.
- A clock that cannot be read: `Expired` rethrows and the expiry calculation reports failure; time is always known here.
- Service names longer than the 32 octets of their column, and endpoints longer than the 100 of theirs: both are stored uncut here.
- What the engine does with a lookup key longer than its column: here it is compared whole and finds nothing, and the results about long identities rest on that.
- The several clock readings of one step of the broker: they give one time here.
- Poller.Rtdb.QueryReadPoints: a query that fails half way, after which the list it had begun is kept and goes out with the next group; here a failed query adds nothing, because the only failure among the assumed return codes comes before the first point.
- Aliasing between copies of one service: they are values here.
- Database.DatabaseBroker.SetWorkerState: its failure inside the release of a letter cannot happen in sound tables, and the release is modelled without that branch.
- The column-by-column writes inside a transaction and their error codes: one assignment each.
- Broker.Broker.Receive: messages that fail an assert of the main loop end the program and are outside its contract; `Affinity.AbortsExactly` says which ones follow after the envelope.
- Registration.RegistrationCircles: an answer that comes later than the worker's poll waits for it: the worker then sends a heartbeat, which is a call for work (`Registration.CallsForWork`) and outside the exchange.
- Redelivery of letters held by disarmed workers, and any order among waiting letters or armed workers: the code has neither.
- The `worker_send` overload with header and body, which nothing calls, and the stubs `EnableServiceCommand`, `DisableServiceCommand` and `GetAssignedLetter`.
- `ServiceList` walks backwards (`last`, `prev`), which nothing calls.
- The order of a worker's several clock readings within one round: one cost per round stands for all.
- ClientApi.MdClient.TakeServiceInfo: leading blanks and signs before the status code, which the broker never sends.
- ClientApi.MdClient.Recv: subscription and direct sockets, whose messages are handed on unread.
- The DIRECT channel of the client and the worker's own front socket.
- Poller.DiggerPoller.Poll: groups, their members and their states do not change while a round runs.
- Poller.Rtdb.QueryDisarmByList: points are not deleted while a round runs, so no lookup of a tag fails.
- SnapTrans.Translator.ProcessInstanceFile: lines are taken apart already; instance records with missing fields, class numbers outside the table and the glued alias column are not modelled.
- SnapTrans.Translator.DumpPoint: a value is its text; the types of attributes and the surrounding XML lines are constant decoration.
- The protobuf message classes, the per-type value switches, metrics, logging and option parsing.
- `mdp/mdp_service.cpp`: its header zmsg.hpp is not part of this model, and the running broker uses the other classes.
