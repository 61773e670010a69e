# SIP core: verified model

Dafny 4.11 model of the call core of a SIP softphone (`trunk/core`): the dispatcher with its per-call state machines and
event queues, the registrar manager, the account store and the configuration file. `dafny verify dfyconfig.toml` checks
all of it.

## What is modelled

**The call engine.** Two dispatcher threads take messages from bounded pools, give each new call one of `maxCalls` slots,
and route later events by call ID or SIP call ID. Each slot runs a state machine over its own ring buffer and a table of
ten transactions.

- `Queue.dfy`, `CallIds.dfy`, `Transactions.dfy`, `SlotSearch.dfy`: ring buffer, wrapping ID generator, transaction table
  and slot scans, as array-backed classes proved against functions on values. `Arithmetic.dfy` helps with quotients.
- `Events.dfy`, `CallMachine.dfy`: one call's machine as a function of state, event and the answers of the GUI and the SIP
  stack. `CallSafety.dfy` holds its invariant and the protocol rules, `CallRuns.dfy` the theorems over all runs,
  `StateMachine.dfy` the imperative machine proved equal to it.
- `CallSlots.dfy`, `CallEngine.dfy`: slots, routers, locks and message pools as a step system; any interleaving of its
  actions is a run. `EngineInvariant.dfy` and `EngineRouting.dfy` prove that every step keeps the invariant,
  `EngineTheorems.dfy` draws the conclusions, and `EngineLeak.dfy` those about the lock that a failed INVITE keeps.
  `Dispatcher.dfy` is the dispatcher over its mutable array of records, proved equal to the routing steps.
- `CallDuties.dfy`, `DispatchDuties.dfy`, `EngineDuties.dfy`: what must happen, where the others say what may: which
  messages each event leads to, with which IDs of the call's history, where each message goes, and when a machine stops.

**The registrar.** `Registrar.dfy` has the slot table with its locked sections, `RefreshTimer.dfy` the refresh timer,
`RegistrarThreads.dfy` any number of registration, unregistration, event and unregister-all threads as a step system, in
which an event and the guard of an unregistration hold the lock over two steps. `RegistrarSafety.dfy` is what every run
keeps and `RegistrarLeftovers.dfy` what ended threads leave in the slots. `RegistrarLimits.dfy` is how far that reaches:
which steps would open a guard, runs that show the hypotheses are needed, and what a late event or guard leads to.
`RegistrarWindow.dfy` does the same for claims of a slot that is being cleared, and `RegistrarOrder.dfy` has what holds
without any hypothesis. `RegistrarDuties.dfy` says case by case what the locked sections and the threads must do, and
`RegistrarCounts.dfy` that refreshes are paid for by positive events.

**Accounts and configuration.** `Accounts.dfy` and `AccountList.dfy` are the account store over the doubly linked list,
`SipUri.dfy` building and parsing of SIP addresses. `Decimals.dfy` is printing and parsing of values, `Config.dfy` the
document as a tree and a stream of events, `ConfigReading.dfy` the reader's flag automaton, `ConfigTrees.dfy` and
`ConfigRoundTrip.dfy` its theorems, `ConfigReader.dfy` and `ConfigWriter.dfy` the imperative reader and writer,
`ConfigFile.dfy` the two together. `AccountDuties.dfy` says what each operation on accounts must do, and
`ShippedConfig.dfy` what the configuration file of the repository means.

## Assumptions

- Atomic steps of the call engine: one queue operation, find + enqueue + wake, and one pass of a machine, except that
  sending an INVITE and storing its ID are two steps under one lock. The code is weaker in four places: `sm_start` and
  checking.OnEntry use the pool without its lock (`trunk/core/core/events/statemachine.c:73`,
  `trunk/core/core/events/statemachine.c:816`), `create_queue` fills in the IDs after unlocking
  (`trunk/core/core/events/event_dispatcher.c:98-109`), and `enqueue_and_wake` has released `queuesLock` before
  `enqueue_event` takes the lock of the pool, while `destroy_queue` takes neither, so that a record can be freed in
  between (`trunk/core/core/events/event_dispatcher.c:361-421`, `trunk/core/core/events/event_dispatcher.c:151-185`).
  The return with the lock held after a failed INVITE
  (`trunk/core/core/events/statemachine.c:109-114`) is modelled as it is.
- `maxEvents >= 2`. A pool of one event is a ring buffer of capacity 1, which leaves its array (`Queues.InBoundsIff`).
- `start_thread` succeeds.
- Registrar, H1: the two writes with which a registration thread ends
  (`trunk/core/core/sip_output/registrar_manager.c:598-599`) are one step. H2: an unused slot is not claimed while an
  unregistration thread is still at work on it, that is, while it polls
  (`trunk/core/core/sip_output/registrar_manager.c:698`) or is between the first and the other ten writes of clearing it
  (`trunk/core/core/sip_output/registrar_manager.c:77-89`). With only the first of these excluded OneThreadPerSlot and
  HandoverSafety fail (`RegistrarWindow.WithoutClearingGuard`, `RegistrarWindow.UnregisteredTwice`);
  `RegistrarOrder.OrderWithoutHypotheses` holds all the same, without any hypothesis.
  H3: of the eleven writes with which an unregistration thread clears its slot without the lock
  (`trunk/core/core/sip_output/registrar_manager.c:77-89`, called at
  `trunk/core/core/sip_output/registrar_manager.c:797`), the first, of the account ID, is one step and the other ten are
  one more. Events do not carry registration ID -1 and unregistration is not asked for account -1, the values that mark
  unused slots.
- Registrar, steps: every unlocked access to a flag is a step of its own. An event looks its slot up in one step and reads
  and writes the flags in another; the guard of an unregistration looks up in one and tests and sets the flags in
  another; both hold the lock in between. Claiming a slot, clearing one under the lock and muting the used slots are one
  step each; a slot that is cleared while the muting goes on may be muted after it.
- XML is a stream of start and end events with distinct attribute names; escaping, genx and Expat are not part of this
  model. Strings hold no NUL character. Numbers read by atoi fit an int.

## Where code and documentation differ

- `int_to_str` is documented as printing the value of an integer; it prints at most nine characters
  (`Decimals.IntSurvivesIff`).
- `am_account_create` is documented to create a new account; its ID can repeat an earlier one after "id" was set through
  `am_account_set` (`AccountSpec.NewIdRepeatsIff`, `AccountSpec.TwoAccountsWithOneId`).
- `cr_init` resets every flag but that of "config"; the round trip holds all the same (`ConfigRoundTrip.RoundTrip`).
- The refresh is meant to come before the registration expires. No setting is checked: for expire <= preExpireRange none is
  ever sent, for a timeout that is not positive the wait has no limit, and otherwise a slow answer to the previous
  REGISTER makes the next one late unless timeout < preExpireRange (`RefreshTimer.NeverLapsesIff`).
- `clear_account_info` is documented to initialise a slot; an event or a guard that had looked it up before can mark it again
  (`RegistrarLeftovers.UnusedSlotCleanIff`), up to an account that nobody refreshes and nobody can unregister
  (`RegistrarLimits.LateGuardSilencesAccount`).
- The waiting flag is meant to tell the dispatcher which answer the thread waits for; it is set before the REGISTER is
  sent, so an answer can be booked for one that was not (`RegistrarLimits.BookedForUnsentRefresh`).

## Model

| member | source | states |
|---|---|---|
| EngineTheorems.ExactlyOnce | trunk/core/core/events/event_dispatcher.c:432-746 | Over every interleaving of accepting, routing, placing, machine and shutdown steps, each accepted message is exactly once in one place: a message pool or a router's hand, a machine (waiting, handled, or left over when it ended), the registrar, or the refusals |
| EngineTheorems.FifoWithinBounds | trunk/core/core/events/event_dispatcher.c:272-324 | Over every interleaving, message pools, event pools and slots stay within their limits, and for each machine the handled events, the one in hand and the waiting ones are, in order, what was routed to it; events of one source keep their order |
| EngineTheorems.CallIdsCollideIff | trunk/core/core/callIDs/call_id_generator.c:26-41 | Two live calls with call IDs share one exactly if their IDs were drawn a multiple of INT_MAX draws apart |
| EngineTheorems.YoungIdsDistinct | trunk/core/core/events/event_dispatcher.c:187-230 | While fewer than INT_MAX IDs are drawn during any live call, the non-zero call IDs of live machines are distinct |
| EngineTheorems.GuiEventReachesOwner | trunk/core/core/events/event_dispatcher.c:361-421 | A GUI end or accept event reaches the only machine that owns its call ID, or changes no machine and is refused if none does |
| EngineTheorems.LookupFindsOwner | trunk/core/core/events/event_dispatcher.c:232-270 | With queuesLock free and distinct stack IDs, looking up a positive SIP call ID finds the slot it was given to |
| EngineTheorems.NoEarlyAnswerMissed | trunk/core/core/events/statemachine.c:97-125 | After the INVITE has gone out with a positive SIP call ID, every lookup of that ID until the machine ends finds its slot, because the lock is held from sending to storing |
| EngineTheorems.InitialSeesCreator | trunk/core/core/events/statemachine.c:198-337 | A machine in INITIAL has handled nothing and has the message that created it at the head of its pool or in hand; a GUI call has a callee |
| EngineTheorems.InitialAlwaysLeaves | trunk/core/core/events/statemachine.c:198-337 | Hence the branches of INITIAL that ignore an event are dead: a creating event leads to CHECKING, RINGING or an error |
| EngineTheorems.CheckingSeesAnswer | trunk/core/core/events/statemachine.c:33-84 | Exactly one account answer is waiting or in hand while CHECKING and none otherwise; no SIP event reaches an outgoing machine before its INVITE |
| EngineTheorems.EveryCallOk | trunk/core/core/events/statemachine.c:789-965 | Every call of the engine, live or over, obeys the handshake rules, keeps to the states of its side and has told the GUI a word of its status language |
| EngineTheorems.RefusedCallsTerminated | trunk/core/core/events/event_dispatcher.c:77-88 | A call refused for lack of a slot gets exactly one TERMINATED under its own ID, and no refused message is ever with a machine |
| EngineLeak.LeaksIff | trunk/core/core/events/statemachine.c:109-114 | On any run, a step loses queuesLock for good exactly if it is the return after a failed INVITE |
| EngineLeak.FailedInviteLeaks | trunk/core/core/events/statemachine.c:97-125 | From every state in which a machine has the answer that its account is valid next and the lock is free, three enabled steps and a refusal of the INVITE lose the lock |
| EngineLeak.LeakReachableIff | trunk/core/core/events/statemachine.c:97-125 | Such a run from the start exists exactly if there is room for at least one call |
| EngineLeak.LeakBlocksRouting | trunk/core/core/events/event_dispatcher.c:361-421 | From then on a dispatcher thread whose message needs a lookup or a new slot never gets past that message |
| EngineLeak.LeakStopsCalls | trunk/core/core/events/event_dispatcher.c:748-785 | From then on, whatever happens: no slot is filled, no machine leaves INITIAL for another state or goes on from CHECKING to INVITING, no ID is published, and shutting down all machines is never possible again |
| EngineLeak.LeakKeepsSlot | trunk/core/core/events/statemachine.c:33-84 | From then on an outgoing call whose GUI_MAKE_CALL was not handled keeps its slot for ever, and a thread that has the event in hand stays where it is |
| EngineRouting.ExecuteKeeps | trunk/core/core/events/event_dispatcher.c:432-636 | The engine invariant (conservation, order, IDs and their origin, lock and placing links, every slot's own invariant) holds after every interleaving |
| EngineDuties.RegistrarGetsItsEvents | trunk/core/core/events/event_dispatcher.c:505-512 | On every run a message that has been dealt with is with the registrar exactly if it is one of the five registration events, listed by name; none of these is refused or given to a machine |
| EngineDuties.StopsAfterOneEvent | trunk/core/core/events/event_dispatcher.c:748-785 | On every run a machine that is asked to stop handles at most one more event |
| EngineDuties.ShutdownAsksAll | trunk/core/core/events/event_dispatcher.c:748-785 | Shutting down asks every live machine to stop and changes nothing else |
| EngineDuties.LockIsNeeded | trunk/core/core/events/event_dispatcher.c:432-636 | Creating a call, looking one up, sending an INVITE, publishing a call ID, posting the account answer and shutting down happen only while queuesLock is free |
| EngineDuties.EveryCallIsARun | trunk/core/core/events/statemachine.c:789-965 | Every call of the engine, alive or over, is a run of the machine, so that what holds of runs holds of it |
| CallSlots.HandleKeeps | trunk/core/core/events/statemachine.c:809-923 | Handling one event keeps a slot's invariant: FIFO, birth by its creating event, its IDs, and one account answer while CHECKING |
| DispatchSpec.RouteAgrees | trunk/core/core/events/event_dispatcher.c:432-636 | What a routing step does to the slots and refusals is what the switch of dispatch does to the array of machine records |
| DispatchSpec.DeliverAgrees | trunk/core/core/events/event_dispatcher.c:361-421 | Delivery by call ID or SIP call ID in the step system is enqueue_and_wake on the array |
| DispatchDuties.RegistrationsGoToRegistrar | trunk/core/core/events/event_dispatcher.c:505-512 | A message goes to the registrar exactly if its kind is one of the five, and then no record changes |
| DispatchDuties.MakeCallStarts | trunk/core/core/events/event_dispatcher.c:477-502 | A call from the GUI takes the first free position with its call ID and itself as first event, or is refused with both GUI calls |
| DispatchDuties.InviteStarts | trunk/core/core/events/event_dispatcher.c:513-546 | An INVITE takes the first free position with its SIP call ID and itself as first event, or is refused with one GUI call |
| DispatchDuties.GuiEventsGoByCallId | trunk/core/core/events/event_dispatcher.c:561-584 | Hanging up and accepting go to the end of the pool of the first record with the call ID, or are refused with a user event, or without one if the ID is not positive |
| DispatchDuties.SipEventsGoBySipCallId | trunk/core/core/events/event_dispatcher.c:546-560 | Other SIP events go to the end of the pool of the first record with the SIP call ID, or are refused in silence |
| DispatchDuties.UnknownMessagesEndThread | trunk/core/core/events/event_dispatcher.c:585-605 | Any other message ends the dispatcher thread |
| DispatchDuties.ShutDownAsksAll | trunk/core/core/events/event_dispatcher.c:748-785 | After shutting down every used position is asked to stop with its IDs and events as before, and every free one is free |
| DispatchDuties.ShutDownAgrees | trunk/core/core/events/event_dispatcher.c:748-785 | The shutdown step of the step system does the same |
| DispatchDuties.PoolOfMessage | trunk/core/core/events/event_dispatcher.c:638-746 | The three GUI messages enter the GUI pool and all others the SIP pool, exactly while that holds fewer than 20 |
| Dispatchers.Dispatcher.CreateQueue | trunk/core/core/events/event_dispatcher.c:41-149 | The first free position becomes a record, or the GUI is told the user event and, for a call with an ID, TERMINATED |
| Dispatchers.Dispatcher.DestroyQueue | trunk/core/core/events/event_dispatcher.c:151-185 | Exactly this record goes |
| Dispatchers.Dispatcher.FindPosByCallId | trunk/core/core/events/event_dispatcher.c:187-230 | The first position with this call ID, or -1 |
| Dispatchers.Dispatcher.FindPosBySipCallId | trunk/core/core/events/event_dispatcher.c:232-270 | The first position with this SIP call ID, or -1 |
| Dispatchers.Dispatcher.EnqueueEvent | trunk/core/core/events/event_dispatcher.c:272-324 | The event is appended to one machine's pool, or refused when that is full, with a user event for GUI triggers |
| Dispatchers.Dispatcher.EnqueueAndWake | trunk/core/core/events/event_dispatcher.c:361-421 | The call ID has priority over the SIP call ID; the event goes to the first match or is refused |
| Dispatchers.Dispatcher.Dispatch | trunk/core/core/events/event_dispatcher.c:466-633 | The switch on one message, equal to the routing function of the step system's theorems |
| Dispatchers.Dispatcher.ShutdownAll | trunk/core/core/events/event_dispatcher.c:748-785 | Every live machine, and nothing else, is asked to stop |
| MessagePools.EventDispatch.Accept | trunk/core/core/events/event_dispatcher.c:638-746 | Which pool a message enters, which call ID it draws (also when the full pool refuses it), and when it is refused |
| MessagePools.AcceptAgrees | trunk/core/core/events/event_dispatcher.c:638-746 | The Accept step stores the same message in the same pool and draws the same ID |
| SlotSearch.FirstWith | trunk/core/core/events/event_dispatcher.c:187-270 | The scan returns the first position with the ID, and -1 only if there is none |
| CallRuns.HandshakeSafety | trunk/core/core/events/statemachine.c:381-714 | On every run of a machine, for any events and answers: each message obeys the protocol rules (180 before 200, ACK only on a 2xx, the callee's BYE after the ACK event, CANCEL only with a dialog ID that was seen; sections 9.1, 13.2.2.4 and 15 of RFC 3261), and INVITE, ACK and the local teardown are sent at most once |
| CallRuns.CalleeOrder | trunk/core/core/events/statemachine.c:572-660 | On incoming calls the BYE follows the ACK event, the 200 follows a 180 for the same transaction, both name the INVITE that created the call, and no ACK is sent |
| CallRuns.StatusLanguage | trunk/core/core/events/statemachine.c:130-152 | The statuses of an outgoing call are a prefix of (TRYING or RINGING)* (ACCEPTED, DECLINED or UNREACHABLE)? TERMINATED, those of an incoming call of (ACCEPTED or CANCELLED)? TERMINATED, complete exactly when the run is over |
| CallRuns.SidesNeverMix | trunk/core/core/events/statemachine.c:198-337 | No run visits both CHECKING or INVITING and RINGING or CONNECTING |
| CallRuns.TableOnRuns | trunk/core/core/events/transaction_info.c:7-16 | On every run the live transactions are a duplicate-free prefix of the table, and a lookup by type returns the earliest one of that type or -1 |
| CallRuns.ByeEndsCallIff | trunk/core/core/events/statemachine.c:679-705 | A remote BYE in CONNECTED leads to TERMINATING exactly if its transaction ID is at least 1, not in the table, and the table has room; otherwise the machine ends in an error |
| CallRuns.DialogTracking | trunk/core/core/events/statemachine.c:381-392 | While INVITING, dialogId is the dialog ID of the latest event with one whose transaction was already known, or 0 if there was none, and the table holds the known transactions |
| CallRuns.KnownMeaning | trunk/core/core/events/transaction_info.c:31-60 | While fewer than ten transactions are known, the known ones are exactly the positive IDs seen |
| CallRuns.PassDecreases | trunk/core/core/events/statemachine.c:810-923 | Each pass of the inner loop of sm_start lowers (state rank, pool length) or ends in an error |
| CallRuns.DrainEnds | trunk/core/core/events/statemachine.c:810-923 | With no arrivals the inner loop ends for every pool, state and answers, after at most two passes more than there were events |
| CallDuties.InitialDuties | trunk/core/core/events/statemachine.c:198-337 | On every run: GUI_MAKE_CALL leads to CHECKING exactly with a callee and room, posting whether the account was found valid; an INVITE for one of our accounts is shown to the GUI under the new call ID and then answered with 180 in its own transaction, and RINGING is entered exactly if both succeed; any other event is passed over |
| CallDuties.BeginningIsStored | trunk/core/core/events/statemachine.c:198-337 | What the record of the call keeps of the event by which it begins |
| CallDuties.CheckingDuties | trunk/core/core/events/statemachine.c:86-128 | On every run: with a valid account the INVITE goes to the callee and from the account as built when the call began, and INVITING is entered exactly if it was sent; an account error is reported under the account of the call |
| CallDuties.ResponseDuties | trunk/core/core/events/statemachine.c:388-479 | On every run in INVITING: 180 is reported as RINGING and other 1xx as TRYING, 3xx to 6xx as DECLINED, a release as UNREACHABLE, each under the call ID that began the call; which of them end the call, and that others change nothing |
| CallDuties.SuccessDuties | trunk/core/core/events/statemachine.c:433-456 | On every run a 2xx is acknowledged in the dialog of the latest confirming response and then reported; CONNECTED is entered exactly if both succeed |
| CallDuties.HangUpWhileInviting | trunk/core/core/events/statemachine.c:480-506 | On every run hanging up in INVITING sends one CANCEL with the SIP call ID of the INVITE that was sent and the tracked dialog if there is one, and TERMINATING is entered exactly if it was sent; without a dialog the call just ends |
| CallDuties.AcceptDuties | trunk/core/core/events/statemachine.c:508-660 | On every run accepting in RINGING or CONNECTING sends one 200 in the dialog and transaction of the INVITE that began the call, and CONNECTING is entered exactly if it was sent |
| CallDuties.HangUpWhileRinging | trunk/core/core/events/statemachine.c:508-660 | On every run hanging up in RINGING or CONNECTING declines the call with the IDs of the INVITE that began it, and TERMINATING is entered exactly if that was sent |
| CallDuties.CalleeSipDuties | trunk/core/core/events/statemachine.c:508-660 | On every run in RINGING or CONNECTING: a CANCEL is reported and ends the call, an ACK is reported and connects an accepted one, other SIP events change nothing |
| CallDuties.HangUpWhileConnected | trunk/core/core/events/statemachine.c:662-678 | On every run hanging up in CONNECTED sends exactly one BYE, with the SIP call ID and dialog of the INVITE that began the call, or of the INVITE and the ACK that were sent, and TERMINATING is entered exactly if it was sent |
| CallDuties.RemoteByeDuties | trunk/core/core/events/statemachine.c:679-714 | The other side's BYE ends the call exactly if its transaction is positive and new and fewer than ten are known; otherwise the machine fails |
| CallDuties.TerminatingDuties | trunk/core/core/events/statemachine.c:716-729 | On every run TERMINATED is reported under the ID the call was known by, and FINAL is entered exactly if that succeeds |
| CallDuties.OtherEventsIgnored | trunk/core/core/events/statemachine.c:381-714 | Events without a meaning in a state change nothing |
| CallDuties.DrainIsRun | trunk/core/core/events/statemachine.c:810-923 | What the inner loop does is a run of the machine, of at most one event if it was asked to stop |
| CallDuties.DrainIsFifo | trunk/core/core/events/statemachine.c:810-923 | The loop handles the events of the pool in their order and loses none; what INITIAL posts comes last |
| CallSafety.StepKeeps | trunk/core/core/events/statemachine.c:809-923 | One pass of the switch keeps the machine invariant behind these theorems |
| StateMachines.StateMachine.OnInitial | trunk/core/core/events/statemachine.c:198-337 | The imperative handler of INITIAL equals its specification, including what it posts to the pool |
| StateMachines.StateMachine.OnChecking | trunk/core/core/events/statemachine.c:339-379 | The handler of CHECKING, with inviting.OnEntry, equals its specification |
| StateMachines.StateMachine.OnInviting | trunk/core/core/events/statemachine.c:381-506 | The handler of INVITING equals its specification |
| StateMachines.StateMachine.OnRinging | trunk/core/core/events/statemachine.c:508-570 | The handler of RINGING equals its specification |
| StateMachines.StateMachine.OnConnecting | trunk/core/core/events/statemachine.c:572-660 | The handler of CONNECTING equals its specification |
| StateMachines.StateMachine.OnConnected | trunk/core/core/events/statemachine.c:662-714 | The handler of CONNECTED equals its specification |
| StateMachines.StateMachine.OnTerminating | trunk/core/core/events/statemachine.c:716-729 | The handler of TERMINATING equals its specification |
| StateMachines.StateMachine.DrainPool | trunk/core/core/events/statemachine.c:810-923 | The inner loop over the ring buffer terminates and computes the specified run |
| Transactions.FindIsEarliest | trunk/core/core/events/transaction_info.c:7-16 | The scan by type finds the earliest live transaction, whatever the uninitialised type fields of unused entries hold |
| Transactions.AddAppends | trunk/core/core/events/transaction_info.c:18-29 | Adding appends to the live entries while there is room and otherwise changes nothing |
| Transactions.UpdateMeaning | trunk/core/core/events/transaction_info.c:31-60 | When an update adds a transaction, when it replaces the dialog ID, and when it does nothing |
| Transactions.UnusedIsProper | trunk/core/core/events/transaction_info.c:73-83 | A freshly initialised table has no live entry |
| Transactions.LocalCallInfo.FindTransactionByType | trunk/core/core/events/transaction_info.c:7-16 | The loop over the array computes the specified lookup |
| Transactions.LocalCallInfo.AddTransaction | trunk/core/core/events/transaction_info.c:18-29 | The loop fills the first unused entry and reports whether there was one |
| Transactions.LocalCallInfo.UpdateTransactionAndDialog | trunk/core/core/events/transaction_info.c:31-60 | The loop computes the specified table and dialog ID |
| CallIds.KthId | trunk/core/core/callIDs/call_id_generator.c:26-41 | The k-th generated ID is (k - 1) mod INT_MAX + 1, never 0 |
| CallIds.IdsCountUp | trunk/core/core/callIDs/call_id_generator.c:26-41 | The IDs are 1, 2, ... up to the largest C int and then 1 again |
| CallIds.SameIdIff | trunk/core/core/callIDs/call_id_generator.c:26-41 | Two draws give the same ID exactly if their numbers differ by a multiple of INT_MAX |
| CallIds.WindowIsDistinct | trunk/core/core/callIDs/call_id_generator.c:26-41 | Any INT_MAX consecutive IDs are distinct |
| CallIds.CallIdGenerator.Generate | trunk/core/core/callIDs/call_id_generator.c:26-41 | Each call returns the next ID of that sequence |
| Queues.InBoundsIff | trunk/core/util/queue/queue.c:45-115 | No sequence of queue operations leaves the array exactly if the capacity is not 1 |
| Queues.WellFormedKept | trunk/core/util/queue/queue.c:60-115 | Every operation keeps the counters in range and rear + 1 congruent to front + size |
| Queues.Queue.MakeEmpty | trunk/core/util/queue/queue.c:45-51 | The queue is empty |
| Queues.Queue.EnqueueElement | trunk/core/util/queue/queue.c:67-78 | The element is appended, or refused exactly when the queue is full |
| Queues.Queue.Front | trunk/core/util/queue/queue.c:80-88 | The oldest element, if there is one |
| Queues.Queue.DequeueElement | trunk/core/util/queue/queue.c:90-100 | The oldest element goes, unless the queue is empty |
| Queues.Queue.FrontAndDequeue | trunk/core/util/queue/queue.c:102-115 | The oldest element is returned and goes |
| RegistrarSafety.HandoverSafety | trunk/core/core/sip_output/registrar_manager.c:506-602 | Over every interleaving within the hypotheses: no refresh REGISTER is tried after the expires-0 REGISTER of the same claim (sections 10.2.2 and 10.2.4 of RFC 3261), that is tried at most once, refreshes are numbered in the order they are sent, a claim is cleared at most once and nothing is sent for it afterwards, and the GUI is told once |
| RegistrarSafety.OneThreadPerSlot | trunk/core/core/sip_output/registrar_manager.c:635-700 | At most one registration thread works on a slot, and at most one unregistration thread is past the guard |
| RegistrarSafety.ToldAfterPositive | trunk/core/core/sip_output/registrar_manager.c:425-489 | The GUI is told "registered" only after a positive event in the same claim |
| RegistrarSafety.WaitingNamesRequest | trunk/core/core/sip_output/registrar_manager.c:511-531 | In every state of every run: used slots hold distinct account IDs; at most one waiting flag is set, and the REGISTER it announces, refreshes told apart by number, is the one sent last exactly if no thread of the slot is between setting its flag and a successful sending |
| RegistrarSafety.EventAnswersRequest | trunk/core/core/sip_output/registrar_manager.c:983-1062 | A success or failure event changes the flags as an answer to the REGISTER that the waiting flag announces, or only wakes a waiting thread if none is set; the REGISTER so answered is the one sent last exactly if no thread of the slot is between setting its flag and a successful sending |
| RegistrarSafety.LockedSections | trunk/core/core/sip_output/registrar_manager.c:635-690 | When nothing comes in between, the two steps of an event and of a guard are the locked sections of the table |
| RegistrarCounts.RefreshesArePaid | trunk/core/core/sip_output/registrar_manager.c:505-594 | On every run without REGISTRATION_REFRESHED, which eXosip never reports, the n-th refresh of a claim is sent only after n positive events have been looked up for the claim |
| RegistrarDuties.ClearedAfterUnregister | trunk/core/core/sip_output/registrar_manager.c:713-797 | In any interleaving an unregistration thread clears its slot only after its REGISTER with expires 0 was sent |
| RegistrarDuties.UnregistersTheRegistered | trunk/core/core/sip_output/registrar_manager.c:852-889 | The accounts to be unregistered are those of exactly the used slots with isRegistered, in slot order |
| RegistrarDuties.EventChangesOneSlot | trunk/core/core/sip_output/registrar_manager.c:983-1062 | An event changes the first slot with its registration ID, in three of its fields, and no other |
| RegistrarDuties.SuccessMeans | trunk/core/core/sip_output/registrar_manager.c:1019-1031 | What a positive answer confirms, by the waiting flag that is set |
| RegistrarDuties.FailureMeans | trunk/core/core/sip_output/registrar_manager.c:1032-1045 | What a negative answer means, by the waiting flag that is set |
| RegistrarDuties.OtherEventsMean | trunk/core/core/sip_output/registrar_manager.c:1046-1060 | The other registration events set or reset both flags, any further one only wakes the thread |
| RegistrarDuties.RegisterDuties | trunk/core/core/sip_output/registrar_manager.c:264-426 | When a registration is refused, finds no room or fails, and which slot it takes with what in it |
| RegistrarDuties.UnregisterDuties | trunk/core/core/sip_output/registrar_manager.c:635-690 | When a request to unregister is refused, and that it otherwise sets doShutdown in the slot of the account and nothing else |
| RegistrarDuties.FirstWaitDecides | trunk/core/core/sip_output/registrar_manager.c:445-506 | On which flag or answer each step of the first registration depends |
| RegistrarDuties.RefreshDecides | trunk/core/core/sip_output/registrar_manager.c:517-580 | On which flag or answer each step of a refresh depends |
| RegistrarDuties.UnregistrationDecides | trunk/core/core/sip_output/registrar_manager.c:698-797 | On which flag or answer each step of an unregistration depends |
| RegistrarDuties.RegistrationWrites | trunk/core/core/sip_output/registrar_manager.c:455-590 | Which flag each step of a registration thread writes |
| RegistrarDuties.UnregistrationWrites | trunk/core/core/sip_output/registrar_manager.c:705-797 | Which flag each step of an unregistration thread writes |
| RegistrarLimits.EventHitsUnusedSlotIff | trunk/core/core/sip_output/registrar_manager.c:77-89 | On any run the lookup of a registration ID finds an unused slot exactly if the ID is -1 or an unregistration thread is between its writes of the account ID and of the rest |
| RegistrarLimits.UnusedSlots | trunk/core/core/sip_output/registrar_manager.c:77-89 | On any run an unused slot that is not just being cleared has registration ID -1, no waiting flag, isShutdown unset and no registration thread |
| RegistrarLeftovers.UnusedSlotIs | trunk/core/core/sip_output/registrar_manager.c:1000-1062 | On any run an unused slot is, but for informGui, what the late events and guards since its last clearing make of a cleared slot: those that had looked it up before and finish while it is unused |
| RegistrarLeftovers.UnusedSlotCleanIff | trunk/core/core/sip_output/registrar_manager.c:77-89 | Hence it has eventArrived set exactly if a late event came, doShutdown exactly if a late guard did, and is as clear_account_info leaves it exactly if neither did |
| RegistrarLeftovers.BecomesUncleanIff | trunk/core/core/sip_output/registrar_manager.c:797 | Step by step: a slot that was clean or not unused is unused and not clean after a step exactly if it was unused before and the step is an event or a guard that finishes at it |
| RegistrarLeftovers.ClaimInheritsIff | trunk/core/core/sip_output/registrar_manager.c:338-426 | A new claim begins with eventArrived set exactly if a late event was left in its slot, and with doShutdown set exactly if a late guard was |
| RegistrarLeftovers.StopsUnaskedIff | trunk/core/core/sip_output/registrar_manager.c:506-602 | On any run a registration thread is told to stop with no unregistration thread waiting for it exactly if a late guard had marked its slot before the claim |
| RegistrarLeftovers.AbandonedIff | trunk/core/core/sip_output/registrar_manager.c:700-797 | On any run a step leaves a slot in use with no thread at work on it exactly if the expires-0 REGISTER could not be sent, the GUI could not be told of the end, the account was no longer registered when the unregistration went on, or the registration thread stopped with nobody waiting for it |
| RegistrarLeftovers.AbandonedForever | trunk/core/core/sip_output/registrar_manager.c:278-294 | Such a slot stays so whatever happens, and every later request to register or to unregister its account is refused |
| RegistrarLimits.GuardOpensIff | trunk/core/core/sip_output/registrar_manager.c:654-680 | After any run and one further step of any kind, a slot at which an unregistration thread is at work lets another one past its guard exactly if that step was a breach of H1, H2 or H3 at this slot |
| RegistrarLimits.BookedForUnsentRefresh | trunk/core/core/sip_output/registrar_manager.c:517-524 | A run in which a success that arrives between the flag and the sending is booked for a refresh that was never sent, while the first REGISTER is the one sent last |
| RegistrarLimits.ConfirmedUnanswered | trunk/core/core/sip_output/registrar_manager.c:517-565 | Continued: the refresh is then sent and taken as confirmed at once, with nothing having answered it |
| RegistrarLimits.WithoutOneExitStep | trunk/core/core/sip_output/registrar_manager.c:598-599 | A run with the two exit writes taken apart (hypothesis H1 dropped) in which two unregistration threads get past the guard |
| RegistrarLimits.WithoutPollingGuard | trunk/core/core/sip_output/registrar_manager.c:698-700 | A run in which a cleared slot is reclaimed while an unregistration thread still polls it (H2 dropped), with the same result |
| RegistrarLimits.WithoutOneClearStep | trunk/core/core/sip_output/registrar_manager.c:77-89 | A run in which a guard that had looked the slot up passes between the writes of the clearing (H3 dropped), with the same result |
| RegistrarWindow.ClaimIsWipedOut | trunk/core/core/sip_output/registrar_manager.c:77-89 | From every state within the invariant: a claim made between the write of the account ID and the rest of the clearing (the other part of H2) loses its registration ID with the rest, so that its thread waits in a slot no event finds |
| RegistrarWindow.ClaimedWhileCleared | trunk/core/core/sip_output/registrar_manager.c:77-89 | A run in which this happens |
| RegistrarWindow.WithoutClearingGuard | trunk/core/core/sip_output/registrar_manager.c:77-89 | With H2 narrowed to polling, a run in which a second unregistration thread gets past the guard while the first is clearing, so that OneThreadPerSlot fails |
| RegistrarWindow.UnregisteredTwice | trunk/core/core/sip_output/registrar_manager.c:713-717 | With H2 narrowed to polling, a run in which two expires-0 REGISTERs are sent for one claim, so that HandoverSafety fails |
| RegistrarOrder.OrderWithoutHypotheses | trunk/core/core/sip_output/registrar_manager.c:425-594 | Over every interleaving of all steps, with none of the hypotheses: no account is in two slots, and for each claim the first REGISTER comes once and before all else a registration thread logs, success is reported at most once and before all refreshes, and refreshes have increasing numbers |
| RegistrarLimits.LateGuardMarksUnusedSlot | trunk/core/core/sip_output/registrar_manager.c:797 | Within the hypotheses, because the slot is cleared without the lock: a run that ends with all threads gone and doShutdown set in an unused slot |
| RegistrarLimits.LateGuardSilencesAccount | trunk/core/core/sip_output/registrar_manager.c:797 | Continued within the hypotheses: the next account to take that slot is reported as registered and its thread ends at once; it is never refreshed, and in every continuation it can neither be unregistered nor registered again |
| RegistrarLimits.LateEventEndsNextWait | trunk/core/core/sip_output/registrar_manager.c:797 | Within the hypotheses: a run in which an event for the old claim sets eventArrived in the cleared slot, and the next claim stops waiting at once |
| Registrars.RegistrarManager.RegisterLocked | trunk/core/core/sip_output/registrar_manager.c:264-426 | The locked section that starts a registration: in use, no room, failed, or claimed, and the new slot |
| Registrars.RegistrarManager.UnregisterLocked | trunk/core/core/sip_output/registrar_manager.c:635-690 | The guard that lets one unregistration thread through |
| Registrars.RegistrarManager.ReceiveRegisterEvent | trunk/core/core/sip_output/registrar_manager.c:983-1080 | What an event changes in the slot it is for |
| Registrars.RegistrarManager.UnregisterAll | trunk/core/core/sip_output/registrar_manager.c:852-889 | Every used slot is muted and exactly the registered accounts, in slot order, are unregistered |
| Registrars.RegistrarManager.FindAccById | trunk/core/core/sip_output/registrar_manager.c:141-157 | The first slot with this account, and whether there is one |
| Registrars.RegistrarManager.FindEmptyAccInfo | trunk/core/core/sip_output/registrar_manager.c:163-175 | The first unused slot, or -1 |
| Registrars.RegistrarManager.FindAccByRegid | trunk/core/core/sip_output/registrar_manager.c:182-194 | The first slot with this registration ID, or -1 |
| RefreshTimer.RefreshLoop | trunk/core/core/sip_output/registrar_manager.c:445-594 | The two loops of the thread do what the timer does pass by pass, for any responses, settings and number of passes, and send 1 + min(passes / (expire - preExpireRange), confirmed responses) REGISTERs, or 1 if that period is not positive |
| RefreshTimer.SendCount | trunk/core/core/sip_output/registrar_manager.c:506-580 | That number, for the timer: one REGISTER at the start and one per period, until the first response that is late or not positive |
| RefreshTimer.GivesUpIff | trunk/core/core/sip_output/registrar_manager.c:461-580 | The thread gives up exactly when the answer to its last REGISTER was negative, or late where there is a limit |
| RefreshTimer.AwaitResponse | trunk/core/core/sip_output/registrar_manager.c:445-454 | A response is awaited for at most 10 * timeout ticks, and without limit if timeout is not positive |
| RefreshTimer.GapBelowExpireIff | trunk/core/core/sip_output/registrar_manager.c:505-594 | Two successive REGISTERs of a thread are r + 10 * (expire - preExpireRange) ticks apart if the response to the first took r, below 10 * expire exactly if r is below 10 * preExpireRange |
| RefreshTimer.NeverLapsesIff | trunk/core/core/sip_output/registrar_manager.c:505-594 | At no pass of the loop, for any responses and however long the thread runs, has the registration reached the age of expire seconds, exactly if expire > preExpireRange and 1 <= timeout < preExpireRange |
| RefreshTimer.ShippedSettingsCanLapse | trunk/core/config/xml/core_config.xml:92-96 | With the shipped settings two successive REGISTERs are 1800 s or more apart exactly if the response to the first took 10 s or more |
| AccountLists.AccountList.AddNode | trunk/core/util/list/list.c:11-23 | The account is appended and the links stay those of one acyclic list |
| AccountLists.AccountList.GetNode | trunk/core/util/list/list.c:25-39 | The first node with this ID, or null |
| AccountLists.AccountList.DelNode | trunk/core/util/list/list.c:53-79 | Exactly the first account with this ID goes, from either end, the middle, or as the only one |
| AccountLists.AccountList.DelAllNodes | trunk/core/util/list/list.c:81-94 | The list is empty |
| AccountLists.AccountList.GetLength | trunk/core/util/list/list.c:96-107 | The number of accounts |
| AccountLists.AccountList.WalksMirror | trunk/core/util/list/list.c:11-107 | The walk from tail along prev meets the nodes of the walk from head along next in reverse, and both end after the last |
| AccountSpec.NewIdIsFreshIff | trunk/core/accounts/account_management.c:203-228 | After am_init and any creations, deletions and attribute changes, a new ID exceeds every ID ever listed exactly if the counter has room and no "id" was set above what it has reached |
| AccountSpec.CreatedIdsAreNew | trunk/core/accounts/account_management.c:26-34 | So while "id" is never set and the counter has room, created IDs are always new, also after deletions |
| AccountSpec.NewIdRepeatsIff | trunk/core/accounts/account_management.c:203-228 | While the counter has room, a new ID repeats one that was listed before exactly if "id" was set to the value the counter reaches next |
| AccountSpec.TwoAccountsWithOneId | trunk/core/accounts/account_management.c:72-84 | One creation, "id" set to 2, and another creation: two listed accounts with ID 2 |
| AccountSpec.MaxId | trunk/core/accounts/account_management.c:306-320 | The highest listed ID, but at least 0 |
| AccountSpec.CalleeIsFirstOwner | trunk/core/accounts/account_management.c:322-381 | The lookup of a well-formed address returns the ID of the first listed account with that user and domain, else -1, and -1 for a list as long as the configured maximum |
| AccountSpec.SetAccountIsFound | trunk/core/accounts/account_management.c:72-134 | An account whose "username" and "domain" are set is then found by that address, unless an earlier one has the same |
| AccountSpec.OwnAddressFindsOwn | trunk/core/accounts/account_management.c:402-437 | The From address built for an account leads back to it if no earlier account has the same user and domain |
| AccountDuties.SetChangesOneAttribute | trunk/core/accounts/account_management.c:92-134 | Setting one of the eight text attributes changes, in the XML element saved for the account, exactly the attribute of that name, and no other account |
| AccountDuties.SetChangesNumber | trunk/core/accounts/account_management.c:92-134 | "autoregister" and "id" take a number and change nothing else |
| AccountDuties.SetRefusesIff | trunk/core/accounts/account_management.c:72-134 | An attribute is refused, with no change, exactly if the account is not listed or the name is none of the ten |
| AccountDuties.TextAttributes | trunk/core/accounts/account_management.c:92-134 | Each name belongs to its own field, and NULL is stored as the empty string |
| AccountDuties.DeleteTakesOutFirst | trunk/core/util/list/list.c:53-79 | Exactly the first account with the ID goes and the others keep their order |
| AccountDuties.CreateAppendsBlank | trunk/core/accounts/account_management.c:203-228 | The new account comes last with the next ID and nothing else set |
| AccountDuties.FromAndToAre | trunk/core/accounts/account_management.c:402-437 | The From address is that of the account and the To address that of the callee, in its own or the account's domain |
| AccountLists.AccountManager.Init | trunk/core/accounts/account_management.c:26-34 | The counter becomes the highest listed ID |
| AccountLists.AccountManager.CreateAccount | trunk/core/accounts/account_management.c:203-228 | A blank account with the next ID is appended |
| AccountLists.AccountManager.DeleteAccount | trunk/core/accounts/account_management.c:236-246 | The first account with this ID goes; the counter stays |
| AccountLists.AccountManager.SetAccount | trunk/core/accounts/account_management.c:72-134 | Which field of which account is changed, and when the call fails |
| AccountLists.AccountManager.GetMaxId | trunk/core/accounts/account_management.c:306-320 | The loop computes the maximum |
| AccountLists.AccountManager.GetAllAccounts | trunk/core/accounts/account_management.c:267-285 | The array is filled with the list in order, or not at all if there are too many accounts |
| AccountLists.AccountManager.GetAccountByCalleeUri | trunk/core/accounts/account_management.c:322-381 | The strtok calls and the loop compute the specified lookup |
| SipUri.ParseAddressIff | trunk/core/accounts/account_management.c:337-362 | "sip:user@domain" is read back as exactly (user, domain) if and only if the user is non-empty and free of '@' and the domain is non-empty |
| SipUri.ParsePadded | trunk/core/accounts/account_management.c:337-362 | Extra separators where strtok skips them make no difference |
| SipUri.ParseOnlyPadded | trunk/core/accounts/account_management.c:337-362 | Every text that is read at all is such an address |
| SipUri.PlainCalleeReadBackIff | trunk/core/accounts/account_management.c:411-437 | A callee without '@' is addressed in the account's domain and read back so exactly if that is non-empty |
| SipUri.FullCalleeReadBackIff | trunk/core/accounts/account_management.c:411-437 | A callee with a domain is read back as its parts at the first '@' exactly if both are non-empty |
| ConfigRoundTrip.RoundTrip | trunk/core/util/config/xml/config_writer.c:71-316 | Reading the element stream of a saved configuration, into any configuration and an empty list of accounts, gives the reloaded configuration and every account in order, with all flags back to 0, whatever memory malloc hands out and even if the flag of "config" was left set |
| ConfigRoundTrip.RoundTripInAnyOrder | trunk/core/util/config/xml/config_reader.c:231-282 | The same for any order of the attributes of each element |
| ConfigRoundTrip.RoundTripIsExactIff | trunk/core/util/config/xml/config_reader.c:334-599 | Configuration and accounts come back unchanged exactly if all integers are printable, all flags 0 or 1 and all log levels among the six |
| ConfigFiles.SaveThenInit | trunk/core/util/config/xml/config_reader.c:604-676 | Saving and then initialising the reader, whatever flags an earlier parse left set, leaves the reloaded configuration and list in the reader, and exactly the saved ones if and only if all values are printable |
| ShippedConfig.ShippedFileIsRead | trunk/core/config/xml/core_config.xml:3-142 | The configuration file of the repository, element by element, is read as exactly the settings and accounts it names |
| ShippedConfig.ShippedFileIsWritten | trunk/core/config/xml/core_config.xml:3-142 | Saving these settings and accounts writes that file, but for the order of attributes |
| ShippedConfig.MisplacedIsIgnored | trunk/core/util/config/xml/config_reader.c:334-599 | An element outside its own parent leaves no trace |
| ShippedConfig.UnknownAttributesIgnored | trunk/core/util/config/xml/config_reader.c:96-229 | Attributes of other names are passed over |
| ConfigTrees.FlagsBalanced | trunk/core/util/config/xml/config_reader.c:483-599 | After any document in which no known element stands inside itself, known or unknown elements anywhere, every flag is as before |
| ConfigTrees.ReadReordered | trunk/core/util/config/xml/config_reader.c:96-321 | The order of distinct attributes anywhere in a document makes no difference to the result |
| ConfigTrees.LaterAttributeWins | trunk/core/util/config/xml/config_reader.c:96-321 | Of two attributes with one name the earlier might as well be missing, whatever stands between them |
| ConfigTrees.ReadFlatten | trunk/core/util/config/xml/config_reader.c:334-599 | Reading a stream of events is reading the tree it comes from |
| ConfigReading.TagOfName | trunk/core/util/config/xml/config_reader.c:334-474 | The element names are told apart |
| ConfigReaders.ConfigReader.ElemStart | trunk/core/util/config/xml/config_reader.c:334-474 | The chain of tests on flags and names, with the attribute loops, does what the table of parents says |
| ConfigReaders.ConfigReader.ElemEnd | trunk/core/util/config/xml/config_reader.c:483-599 | The same for end tags |
| ConfigReaders.ConfigReader.Test | trunk/core/util/config/xml/config_reader.c:334-474 | The chain finds the one element that is noticed under this name, and none only if none is |
| ConfigReaders.ConfigReader.ParseAttributes | trunk/core/util/config/xml/config_reader.c:96-229 | The attribute loop of an element sets the fields its attributes name, one after the other |
| ConfigReaders.ConfigReader.ParseAccount | trunk/core/util/config/xml/config_reader.c:231-282 | One account is filled in and appended |
| ConfigReaders.ConfigReader.Init | trunk/core/util/config/xml/config_reader.c:604-676 | A stream read after resetting all flags but that of "config" |
| ConfigWriters.SaveConfig | trunk/core/util/config/xml/config_writer.c:71-327 | The calls to the element writer produce the events of the specified document, or nothing if the file cannot be opened; NULL is passed as an attribute value exactly if one of the written strings is NULL, and then the events are left open |
| Decimals.IntSurvivesIff | trunk/core/util/config/xml/config_writer.c:24-28 | An integer survives the nine-character print and atoi exactly if -99999999 <= n <= 999999999 |
| Decimals.BoolSurvivesIff | trunk/core/util/config/xml/config_writer.c:58-64 | A flag keeps its truth value, and its value exactly if it is 0 or 1 |
| Decimals.LoglevelSurvivesIff | trunk/core/util/config/xml/config_writer.c:36-50 | A log level survives exactly if it is one of the six; any other comes back as LOG_FAILURE |
| AccountDuties.LoglevelTexts | trunk/core/util/config/xml/config_writer.c:36-50 | The texts of the six log levels, both ways |
| Decimals.AtoiOfPrinted | trunk/core/util/config/xml/config_writer.c:24-28 | What an over-long number comes back as: its first nine digits, or eight after a minus sign |

## Left out

- EngineTheorems.NoEarlyAnswerMissed: for lookups made with queuesLock free and stack IDs that are distinct, as the stack promises; the stack itself is not modelled.
- EngineLeak.LeakStopsCalls: an incoming call for none of the accounts still fails in INITIAL, and calls that had reached INVITING, RINGING or a later state still run to their end.
- RegistrarSafety.HandoverSafety: under H1, H2, H3 and without the ID -1; RegistrarLimits and RegistrarWindow show by runs that none of the three, nor either part of H2, can be dropped.
- RegistrarLimits.GuardOpensIff: for a run within the hypotheses and one step that need not be; what happens on after a breach is not followed.
- RefreshTimer.RefreshLoop: an ideal clock, on which usleep takes one tick, sleep ten and everything else none; every response comes at last, since with a timeout that is not positive the wait for one that never does has no end.
- RefreshTimer.NeverLapsesIff: the age of a registration is counted from the sending of its REGISTER up to the sending of the next one, not on to the response to that.
- ConfigRoundTrip.RoundTrip: for strings that are not NULL; what genx makes of a NULL attribute value, as after `am_account_create`, is not part of this model.
- AccountSpec.NewIdIsFreshIff: increments past INT_MAX wrap around, where C leaves them undefined.
- AccountLists.AccountList.AddNode: a node holds the account itself instead of a pointer to it, so other holders of that pointer and the freeing of accounts are not captured.
- AccountLists.AccountManager.SetAccount: "id" and "autoregister" need a value, since the source passes it to atoi.
- AccountLists.AccountManager.GetAccountByCalleeUri: for a configured maximum that is not negative, since it is the size of a C array.
- ConfigReaders.ConfigReader.ElemStart: the 23 flags are one set-valued field, and the loops over attributes, one per element in the source, are one loop with the element as a parameter.
- ConfigWriters.SaveConfig: what genx, which is not part of this model, makes of a NULL string, as right after `am_account_create`: the contract says exactly when it is given one, and nothing about the events then; nor white space between elements, the document type and closing the file.
- Wake-ups and progress: the sleep does not recheck the queue under the lock, so a wake-up can be missed (`trunk/core/core/events/statemachine.c:931-940`); safety is proved, not progress.
- Thread creation, mutexes, sleeping and shutting down of threads; the shutdown message of the dispatcher threads.
- malloc and free, and the uninitialised strings of `callInfo`; the memory of a new account and of unused transactions is arbitrary.
- eXosip, osip, XML-RPC: their calls are arbitrary answers and events. The adapter builds the To address from scheme, user and host like `SipUri.Address` (`trunk/core/sipstack/eXosip/osip_adapter.c:148-164`).
- `queue_is_element`, which scans from cell 0 and not from `front`; nothing in the core uses it.
- `clear_transaction`, `am_account_get`, `am_is_account_valid` and `print_list`.
- `gui_callback_sender.c`: a bounded queue per message kind, with no order across kinds.
- "The GUI always shows the registration state": false as the code stands, since a refused second register reports status 0 (`trunk/core/core/sip_output/registrar_manager.c:278-294`).
- The remote interfaces, logger, call status texts, start-up code, volume, and the whole Java user interface.
