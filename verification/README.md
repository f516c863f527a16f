# Verification of the Laniakea daemon's stateful core

Laniakea runs data-source and controller plugins and hands their frames and states to API clients. This project
models the parts of the daemon whose correctness is a matter of whole runs rather than of single functions, and
proves what those runs keep, promise or, in some cases, break.

| files | what they model |
|---|---|
| `QueueProtocol`, `SignalQueue` | the bounded signalling queue with a consumer that may leave: as interleaved steps, and as the class whose calls are sequences of those steps |
| `Listeners` | the table of named listeners shared by the queue and by a plugin's state feed: subscribe, unsubscribe, broadcast |
| `FanOut` | the queue manager's pump from one source queue to any number of listener queues, and the stream handlers that read them |
| `StateFeed` | one state subscription, from the state setters to the reported updates |
| `SourceTables` | the queue manager's tables and quit channels, filled by plugin creations and emptied by a stop |
| `PluginSteps`, `PluginInstances`, `PluginRuns` | a plugin's life: what each call does, the class that does it, and all runs of calls, monitor ticks and late goroutines |
| `LogRing` | the rotating log writer, a ring of numbered files |
| `RootKeyStore`, `Unlocker` | the encrypted root-key store and the password service that must agree with it |
| `Shutdown` | the interrupt handler's shutdown protocol |
| `PluginCaveat`, `Strings` | printing a plugin caveat and reading it back |
| `UniqueName`, `Decimal` | the unique-file-name loop |
| `Wrappers` | option and result types |

Concurrent code is a state machine: one lock acquisition, one channel send, one receive is one step, and a run is any
sequence of enabled steps. Code that updates fields is a class whose methods are proved equal to functions on values,
and the theorems are about runs of those functions. What the plugin process, the clock, the scheduler and Go's map
order decide is a parameter or a free choice. Cryptography is symbolic: a key opens exactly what it sealed, and key
parameters yield their key exactly to the password that made them.

## What the proofs found

Where the code and what one would expect of it part ways, the model follows the code, and the exact condition is proved.

- Until its consumer unsubscribes the queue loses nothing, exactly when its limit is negative or at least four; the code
  uses 10 and 20. For every limit but zero it can deadlock: a push waits for room in the signal channel while it holds
  the lock that the consumer needs, for its next pop or for the unsubscribe it runs when it leaves. A push can end up
  there exactly if it begins with both places of the channel taken; with one place free it never waits, whatever the
  consumer does.
- A consumer that has caught up has popped exactly as many nils as pushes, taken together, found items in the queue. So
  it popped one exactly if some push found the queue non-empty, and it can for every limit but zero. The pump forwards
  its nils to every listener.
- The stream handlers read a field of every frame they pop (`plugins/service.go:453-454`, `:615-616`), and nothing
  recovers from the nil dereference: a handler that is handed a nil runs its deferred calls and ends the daemon. One that
  was there from the first frame and does not leave has survived, once everything has come to rest, exactly if every
  push, at the source and on its own queue, found an empty queue; two frames in quick succession are enough to end it. The handler for all plugins
  (`plugins/service.go:413-414`) and the loops that feed it do not look at nils.
- A listener queue stuck in this way stops the pump: no listener of that source is pushed anything any more. Four frames
  can bring that about. The pump can be blocked in a push exactly if it finds that listener's channel full before the
  listener has unsubscribed; if every push at both stages finds a free place nothing is ever stuck. A call that waits for
  a blocked pump hangs as well, the deregistering closure (`queue/manager.go:79-87`) with the manager's lock held.
- Calling an unsubscribe closure after its listener has left the table dereferences nil; nothing else in the listener
  protocol panics.
- A state subscription deadlocks if a setter finds its channel full while the loop has not read the state yet, or has
  quit and waits to unsubscribe; the instance's lock is then held for good, and everything that reads the state waits. A
  setter can end up there exactly if it finds the channel full before the loop has unsubscribed.
- A report can step back to a state that is over: exactly if two different states were assigned between the subscription
  and the first read, and something has been received since. Otherwise it is the state read followed by the changes
  after that read.
- Stopping the plugin manager hangs exactly if a registered instance does not stop, because a setter holds its lock as
  above, or some pump or the monitor does not return.
- Stopping a plugin never ends a recording gracefully: the nested request is always refused, because the state is
  already STOPPING.
- A call that fails after it was given up on turns UNRESPONSIVE into UNKNOWN, which the monitor does not look at: such a
  plugin is not restarted.
- Client and state agree through a run exactly if no goroutine reports after its plugin's client has gone. Otherwise a
  killed datasource leaves KILLED, and a controller that was stopped on purpose is started again by the monitor. A
  recording mark set by such a goroutine survives the restart.
- A password change re-encrypts the default root key only; every other root key becomes unreadable for good.
- `lanirpc/unlocker.proto:67-69` promises that a password change can rotate the root key and so invalidate all
  macaroons. The code (`unlocker/unlocker.go:200-207`) only removes macaroon files: every successful change keeps the
  default root key.
- The unlocker's password change overwrites the stored hash before it touches the root-key store, so a change that fails
  later leaves the two in disagreement; the exact condition for agreement is proved.
- A caveat that lists one plugin is a substring test, one that lists none admits every plugin, and a caveat of two
  fields whose second is "plugins" makes the validator index out of range. The condition added by `PluginConstraint`
  lacks the word "declared" and is never counted as a plugin caveat.
- The unique file name has the form "base (k)ext" up to the hundredth collision only.
- `maxFiles - 1` wraps for the smallest 64-bit value, and the log ring then has 2^63 places.

## Model

| member | source | states |
|---|---|---|
| `QueueProtocol.StepKeepsInv` | queue/queue.go:49-82 | no append, send, receive, pop or departure lets the queue exceed its limit, outgrow the signals still outstanding, or hold more than a pending signal announced and later pushes added |
| `QueueProtocol.RunKeepsInv` | queue/queue.go:35-82 | the same over every interleaving of pushes with the one consumer, wherever it leaves, the limit staying as it was |
| `QueueProtocol.ReachableInv` | queue/queue.go:26-32 | every state reachable from a new queue satisfies the invariant and has the limit it was made with |
| `QueueProtocol.StuckIffDeadlocked` | queue/queue.go:49-82 | a reachable state allows no step at all if and only if a push holds the lock, two signals are pending and the consumer still owes a pop or is leaving |
| `QueueProtocol.BacklogBound` | queue/manager.go:60-75 | in every reachable state the limit is kept, and while there is a consumer the backlog is at most the signals outstanding, which are at most four, and four only in the deadlock |
| `QueueProtocol.DeadlockReachable` | queue/queue.go:49-66 | for limits negative or at least four the bound of four is attained, by a run into the deadlock |
| `QueueProtocol.DeadlockReachableIff` | queue/queue.go:49-66 | the deadlock is reachable for exactly the limits other than zero |
| `QueueProtocol.ZeroLimitOnlyCrashes` | queue/queue.go:52-54 | with limit zero no run ever has anything pending: the first push slices an empty queue |
| `QueueProtocol.ThreePushesBehind` | queue/queue.go:49-66 | a consumer can be three whole pushes behind without anything being lost or stuck |
| `QueueProtocol.ThrottledNeverStuck` | queue/queue.go:49-82 | if every push begins with a free place in the channel no push ever waits and the deadlock does not occur, whatever the consumer does and whenever it leaves |
| `QueueProtocol.PushCanHangIff` | queue/queue.go:56-64 | a push about to begin can end up waiting for ever if and only if both places are taken and the consumer has not unsubscribed |
| `QueueProtocol.StepKeepsOrder` | queue/queue.go:35-66 | for any limit, one step keeps "everything that left, then what is queued" equal to everything pushed |
| `QueueProtocol.NothingOvertakes` | queue/queue.go:35-66 | for any limit, over every run items leave in exactly the order they were pushed, delivered or dropped |
| `QueueProtocol.StepKeepsLossless` | queue/queue.go:52-55 | with limit negative or at least four no step crashes, or drops an item before the consumer has unsubscribed |
| `QueueProtocol.RunKeepsLossless` | queue/manager.go:14-15 | for such limits (the code's 10 and 20 among them) non-nil pops followed by the queue are exactly the items pushed, in order, in every interleaving, and after the consumer's departure what it popped stays a prefix of them |
| `QueueProtocol.DropLoses` | queue/queue.go:52-54 | a push that finds the queue at its limit loses an item for good or crashes |
| `QueueProtocol.LosslessIff` | queue/queue.go:49-82 | no interleaving loses an item, wherever the consumer leaves, if and only if the limit is negative or at least four |
| `QueueProtocol.OverPopReachable` | queue/manager.go:67-68 | for every limit but zero a run exists in which the consumer pops an empty queue and receives nil |
| `QueueProtocol.OverPopReachableIff` | queue/manager.go:67-68 | nil can reach the consumer for exactly the limits other than zero |
| `QueueProtocol.StepKeepsBalanced` | queue/queue.go:35-66 | for any limit, the pops announced and not yet made are one for each queued item and one for each item a push found that no nil has answered |
| `QueueProtocol.RunKeepsBalanced` | queue/queue.go:35-66 | the same over every interleaving |
| `QueueProtocol.NilsAreFinds` | queue/queue.go:35-66 | for any limit, a consumer that has caught up received exactly as many nils as the pushes of the run found items, and so one exactly if some push found the queue non-empty; before that, at most as many |
| `QueueProtocol.DrainProgress` | queue/manager.go:62-72 | once pushing stops and the consumer reads on, each step uses one unit of the remaining work, some step is enabled while work remains, and none leads into the deadlock |
| `QueueProtocol.DrainDelivers` | queue/manager.go:62-72 | from any reachable state outside the deadlock, exactly that much work of a consumer that reads on ends with an empty queue and every item pushed received in order |
| `QueueProtocol.StepTires` | queue/queue.go:35-82 | every step but the beginning of a push uses up effort, the consumer's departure included |
| `QueueProtocol.GoesOn` | queue/queue.go:35-82 | outside the deadlock and short of rest some step of the push or the consumer is enabled |
| `QueueProtocol.LeavingComesToRest` | queue/manager.go:62-76 | with a consumer that may leave anywhere, everything comes to rest once pushing stops if the push in progress found a free place; a consumer that stayed has then emptied the queue |
| `QueueProtocol.LeaverTakesNothing` | plugins/service.go:452-465 | a consumer that leaves, in the middle of its pops or instead of receiving, takes nothing any more in any continuation |
| `QueueProtocol.UnsubLeavesNewest` | queue/queue.go:76-80 | a queue whose consumer unsubscribes holds exactly the newest items pushed |
| `QueueProtocol.AbandonedQueueKeepsNewest` | queue/queue.go:52-55 | from then on it always does, and after as many pushes as its limit it holds exactly that many |
| `SignalQueue.PushIsProtocolSteps` | queue/queue.go:49-66 | for a queue with one listener, the class's push is the protocol's append followed by its send, or by nothing exactly while the protocol's send is disabled |
| `SignalQueue.Queue.constructor` | queue/queue.go:26-32 | a new queue is empty, has no listeners and the given limit |
| `SignalQueue.Queue.Pop` | queue/queue.go:35-46 | returns the oldest item or nil, and is the protocol's pop for whoever the listener is |
| `SignalQueue.Queue.Append` | queue/queue.go:52-55 | panics exactly when the limit is zero and the queue empty; otherwise appends after making room if the queue stands at its limit |
| `SignalQueue.Queue.Push` | queue/queue.go:49-75 | panics, waits or finishes under exact conditions: it waits only if some connected listener has left two signals unread; when it finishes each connected listener has been sent the new length plus one, and the others are closed and forgotten |
| `SignalQueue.Queue.Subscribe` | queue/queue.go:69-82 | refuses a name in the table and changes nothing; otherwise returns a fresh open channel |
| `SignalQueue.UnsubscribeIsProtocolStep` | queue/queue.go:76-80 | on a queue with one listener the closure is the protocol's last step of a consumer that leaves |
| `SignalQueue.Queue.Unsubscribe` | queue/queue.go:76-80 | marks the entry, and panics exactly when the name is no longer in the table |
| `SignalQueue.Queue.ReceiveSignal` | queue/manager.go:62-62 | takes the oldest unread signal of a listener and touches nothing else |
| `SignalQueue.Queue.PopAll` | queue/manager.go:67-68 | as many pops as asked for, nil after the last item, leaving the rest |
| `SignalQueue.Queue.ConsumeSignal` | queue/manager.go:62-72 | one undisturbed turn of a consumer pops as many items as the signal announced, nil after the last, and leaves the rest |
| `Listeners.VisitKeepsInv` | queue/queue.go:57-64 | serving or dropping one listener keeps every other listener's record exact |
| `Listeners.BroadcastKeepsInv` | plugins/instance.go:61-72 | starting a broadcast makes every listener owe exactly one value |
| `Listeners.FinishKeepsInv` | queue/queue.go:65-65 | after the loop, listeners in the map have open channels and have been sent everything since they subscribed |
| `Listeners.StepKeepsInv` | queue/queue.go:56-81 | a step panics if and only if it is an unsubscribe whose entry is gone; every other step keeps the invariant |
| `Listeners.RunPanicsIff` | plugins/instance.go:688-701 | over every interleaving nothing is sent on a closed channel and none closed twice: a run panics if and only if it unsubscribes a name that has left the map |
| `Listeners.UnsubscribeTwicePanics` | queue/queue.go:76-80 | a second unsubscribe after the broadcast that removed the listener is such a run |
| `Listeners.FinishKeepsConnected` | queue/queue.go:56-65 | a broadcast leaves in the map exactly the connected listeners, whatever the map order, and has closed the channels of the others |
| `Listeners.VisitServes` | plugins/instance.go:63-70 | visiting one listener whose channel is not full serves it and moves nobody else |
| `Listeners.StepKeepsQueued` | plugins/instance.go:694-694 | in every state a listener has at most two values unread, and they are the last ones it was sent, in order |
| `Listeners.UpdateListeners` | plugins/instance.go:61-72 | the loop, left alone, blocks if and only if some connected listener's channel is full, and never while each has fewer than two values unread; otherwise everybody is served, in any order |
| `FanOut.SourceStep` | queue/manager.go:60-72 | the source queue stays lossless through every step, and exactly the pops lengthen the list of items the pump has taken |
| `FanOut.NewItemKeepsInv` | queue/manager.go:67-68 | taking an item makes every registered listener wait for that item and no other |
| `FanOut.SoundStep` | queue/queue.go:35-82 | a queue of the code's limits stays lossless and balanced through every step of its push and its consumer |
| `FanOut.PumpPopKeepsInv` | queue/manager.go:67-70 | the pump's pop keeps every listener queue equal to its share of the pops |
| `FanOut.ConsumerStepKeepsInv` | plugins/service.go:350-371 | a consumer's receive, departure or unsubscribe on its own queue disturbs no other listener |
| `FanOut.ConsumerPopKeepsInv` | plugins/service.go:452-460 | nor does its pop; a stream handler that is handed nil panics and reads no further, any other consumer goes on |
| `FanOut.ConsumerUnsubKeepsInv` | plugins/service.go:439-445 | a panicked handler ends the daemon once its deferred unsubscribe is through, the shares of all others as they were |
| `FanOut.ForwardBeginKeepsInv` | queue/manager.go:69-71 | the pump's append gives the listener the one item it was missing, and is the whole push if its consumer has gone |
| `FanOut.ForwardSendKeepsInv` | queue/manager.go:69-71 | the pump's send finishes one listener, and the loop with the last one |
| `FanOut.RegisterKeepsInv` | queue/manager.go:92-103 | a listener may register at any moment; one that comes during the pump's loop gets the item in hand or starts after it |
| `FanOut.DeregisterKeepsInv` | queue/manager.go:103-108 | a listener whose consumer has gone may leave at any moment, also during the pump's loop, and affects nobody |
| `FanOut.StepKeepsInv` | queue/manager.go:60-109 | every step of producers, pump, consumers and registration keeps each listener's queue pushed with exactly what the pump popped since it registered |
| `FanOut.RunKeepsInv` | queue/manager.go:60-109 | the same over every interleaving |
| `FanOut.FramesOfPopsReceived` | queue/manager.go:67-68 | leaving out the nils, what the pump popped is what the source queue delivered |
| `FanOut.SourceOrder` | queue/manager.go:60-75 | the frames pushed at the source are those the pump has taken followed by those still queued; once it has left, those it took stay a prefix |
| `FanOut.SeenSegment` | queue/manager.go:67-72 | what was delivered out of a listener's share is one slice of the frames, reaching to the end if its consumer has not gone and nothing waits |
| `FanOut.SeenIsSegment` | queue/manager.go:60-109 | in every interleaving, whoever leaves and whoever panics, a consumer has seen one contiguous, ordered, duplicate-free segment of the frames pushed at the source, from the first one handed round after it registered |
| `FanOut.QuietMeansDelivered` | queue/manager.go:60-109 | with nothing in flight, for a consumer that still reads, that segment reaches the last frame pushed |
| `FanOut.HandedNil` | plugins/service.go:453-454 | a consumer is handed a nil exactly if it was forwarded one or popped its queue empty |
| `FanOut.NilFreeHandsNoNil` | plugins/service.go:453-454 | it is handed none if no push on its queue found anything and no nil was forwarded to it, and once caught up only then |
| `FanOut.PanicsIffNil` | plugins/service.go:446-461 | in every interleaving a stream handler has panicked if and only if it was handed a nil |
| `FanOut.StreamSurvivesIff` | plugins/service.go:446-461 | a handler that has come to its end, caught up or panicked, has survived if and only if its queue was always empty when pushed and no nil was forwarded; it has then seen everything since it registered |
| `FanOut.PumpNils` | queue/manager.go:67-71 | the pump has forwarded no nil while every push at the source found an empty queue, and once caught up exactly then |
| `FanOut.FirstStreamSurvivesIff` | plugins/service.go:446-461 | a handler there from the first frame that has not left by itself, once everything has come to rest, has survived if and only if every push at both stages found an empty queue |
| `FanOut.StreamEndsDaemon` | plugins/service.go:608-622 | two frames that reach a handler's queue before it looks end the daemon |
| `FanOut.ListenersAgree` | queue/manager.go:69-71 | over the time both are registered two listeners are pushed the same items, up to the one item in the pump's hand, and exactly the same between items |
| `FanOut.AbandonedSourceKeepsTen` | queue/manager.go:14-14 | once the pump has left, the source queue comes to hold the ten newest frames |
| `FanOut.AbandonedListenerKeepsTwenty` | queue/manager.go:15-15 | the queue of a listener whose consumer has left comes to hold the twenty newest items |
| `FanOut.BlockedListenerStopsPump` | queue/manager.go:69-71 | once the pump waits for good on one listener's queue, in every continuation it takes no frame and pushes nothing to any other listener |
| `FanOut.BlockedReachable` | queue/manager.go:60-72 | four frames bring the net there, against a listener that has received one signal and not acted on it |
| `FanOut.PumpCanBlockIff` | queue/manager.go:69-71 | the pump about to push on a listener's queue can be blocked there for good if and only if it finds the channel full and the consumer has not unsubscribed |
| `FanOut.NetGoesOn` | queue/manager.go:60-109 | short of rest, with no queue stuck and the daemon up, some step is enabled that is nobody's new frame, registration or departure and begins no push without room |
| `FanOut.InternalStepTires` | queue/manager.go:60-109 | every such step leaves less work, at the source, else in the pump's loop, else at the listeners |
| `FanOut.ComesToRest` | queue/manager.go:60-109 | from every net with no stuck queue some order of such steps ends at rest or with the daemon down; at rest, with the pump there, every listener is quiet and has seen everything |
| `FanOut.StaysUnstuck` | queue/manager.go:60-109 | such a step that begins no push without room leaves no queue stuck |
| `FanOut.ThrottledNeverStuck` | queue/manager.go:60-109 | if every push, at the source and on the listeners' queues, finds a free place or its consumer gone, no queue is ever stuck, in any order of events and whoever leaves |
| `StateFeed.StutterFreeIsFree` | plugins/service.go:669-678 | the reported form of a sequence has no equal neighbours, the same first and last element, and the same elements |
| `StateFeed.SetBeginKeepsInv` | plugins/instance.go:75-80 | an assigned state is at once the current one and the last one pending |
| `StateFeed.ReceiveKeepsInv` | plugins/service.go:671-678 | a received state extends the report exactly if it differs from the last one seen, and nothing pending is lost |
| `StateFeed.StepKeepsInv` | plugins/instance.go:61-128 | every step of setters and loop, its departure included, keeps received and pending states together equal to the states assigned |
| `StateFeed.RunKeepsInv` | plugins/service.go:653-683 | the same over every interleaving |
| `StateFeed.ReportsEveryChange` | plugins/service.go:664-678 | in every interleaving the updates pushed are the stutter-free form of the state first read followed by the states received; these are the states assigned since subscribing, in order, all but at most three until it unsubscribes; and the state first read is the one after a known number of those, two at most |
| `StateFeed.ReportStepsBackIff` | plugins/service.go:664-678 | in every run past the first read the report is the state read followed by the changes after that read, if and only if at most one state was assigned before the read, or nothing has been received, or the first two states assigned were equal |
| `StateFeed.ReportStepsBack` | plugins/service.go:664-678 | a run of the other kind: the report goes from the newest state back to one that is over and forward again |
| `StateFeed.StutterFreeCons` | plugins/service.go:671-678 | a first state different from the next shows in front of the report of the rest |
| `StateFeed.StutterFreeRepeat` | plugins/service.go:671-678 | a first state equal to the next does not show |
| `StateFeed.Converges` | plugins/service.go:664-678 | with the channel drained and no setter sending, before it unsubscribes, the last state reported is the instance's state |
| `StateFeed.StuckIff` | plugins/service.go:657-681 | a reachable state allows no step if and only if a setter holds the lock, the channel is full, and the loop has not read yet or is leaving |
| `StateFeed.DeadlockBeforeReadReachable` | plugins/service.go:657-664 | three assignments before the first read lead there |
| `StateFeed.DeadlockAfterReadReachable` | plugins/service.go:679-680 | so do three after it that have not been received when the loop quits |
| `StateFeed.SetterCanHangIff` | plugins/instance.go:61-72 | a setter about to assign can wait for ever if and only if it finds the channel full before the loop has unsubscribed |
| `StateFeed.ThrottledNeverStuck` | plugins/instance.go:61-128 | if every setter finds a free place none ever waits, whenever the loop quits |
| `StateFeed.SettlesAfterRead` | plugins/service.go:669-678 | once the setters rest, while the loop reads on, a known number of steps brings it up to date, and some step is enabled until then |
| `StateFeed.QuittingComesToRest` | plugins/service.go:669-682 | with a loop that may quit anywhere, everything comes to rest if the setter in progress found a free place |
| `SourceTables.RegisterKeepsInv` | queue/manager.go:44-50 | registering a new name keeps the three tables' keys equal and every quit channel accounted for |
| `SourceTables.DeregisterKeepsInv` | queue/manager.go:79-87 | deregistering closes a channel that was open and removes it from all tables |
| `SourceTables.QueueManager.constructor` | queue/manager.go:28-36 | the tables start empty with no channel made |
| `SourceTables.QueueManager.RegisterSource` | queue/manager.go:39-89 | refuses exactly the names it has, changing nothing; otherwise one new channel enters all three tables |
| `SourceTables.QueueManager.Deregister` | queue/manager.go:79-87 | closes and removes the named channel; panics exactly when the name is gone; hangs exactly when that pump does not return, the channel closed and its entries still there |
| `SourceTables.QueueManager.Shutdown` | queue/manager.go:112-118 | hangs exactly if the pump of a registered source does not return; otherwise every channel ever made has been closed exactly once, and never is one closed twice |
| `SourceTables.PluginManager.constructor` | plugins/service.go:93-105 | a new plugin manager has an empty registry |
| `SourceTables.PluginManager.AddPlugin` | plugins/service.go:530-548 | succeeds exactly for a valid configuration, an unused name and a working plugin; a failed creation of a known type leaves its source registered and the registry unchanged, an invalid configuration changes nothing |
| `SourceTables.CloseOne` | queue/manager.go:114-115 | a channel closed and taken out of the table was open, and every other channel stays as it was |
| `SourceTables.PluginManager.CleanUp` | plugins/service.go:287-296 | hangs exactly if the instance does not stop or, before a stop of the manager, its pump does not return; otherwise removes the source, or panics after a stop |
| `SourceTables.PluginManager.CleanUpAll` | plugins/service.go:303-305 | removes the sources of exactly the registered plugins, or hangs exactly if one of them does not stop or its pump does not return |
| `SourceTables.PluginManager.Stop` | plugins/service.go:302-310 | a first stop hangs exactly if a registered instance does not stop, or some pump or the monitor does not return; otherwise it closes every quit channel exactly once, whatever creations failed before, and in no case one twice; a second stop never ends in order, and panics if every instance stops |
| `SourceTables.CreationsKeepTables` | plugins/service.go:259-299 | through any sequence of good and failed creations the key sets stay equal, contain the registry, and no channel is closed |
| `SourceTables.CreationOutcome` | plugins/service.go:259-298 | a creation not refused registers the name with one new channel, and enters the registry exactly if it worked |
| `SourceTables.FailedCreationTakesName` | plugins/service.go:259-284 | a creation that fails for the plugin's sake takes the name, through all later creations |
| `SourceTables.FailedNameStaysTaken` | plugins/service.go:259-284 | a name whose creation failed can never be registered again |
| `PluginInstances.PluginInstance.constructor` | plugins/service.go:265-272 | a new instance is READY with a client, not recording, count zero |
| `PluginInstances.PluginInstance.SetState` | plugins/instance.go:75-128 | assigns the state and tells the listeners that state |
| `PluginInstances.PluginInstance.StartRecord` | plugins/instance.go:159-247 | makes exactly the step of the specification, for every answer of the plugin |
| `PluginInstances.PluginInstance.StopRecord` | plugins/instance.go:250-309 | the same for ending a recording |
| `PluginInstances.PluginInstance.Command` | plugins/instance.go:427-505 | the same for a controller's command |
| `PluginInstances.PluginInstance.Kill` | plugins/instance.go:312-324 | drops client and recording, and nothing if there is no client |
| `PluginInstances.PluginInstance.TryStopRecording` | plugins/instance.go:338-354 | while stopping, the nested request changes nothing but the state, to UNRESPONSIVE or UNKNOWN, whatever the plugin would answer |
| `PluginInstances.PluginInstance.Stop` | plugins/instance.go:327-410 | every path, early return or not, runs the deferred calls in order and ends as specified |
| `PluginInstances.PluginInstance.EndRecorder` | plugins/instance.go:206-232 | a late recorder changes the state only while a recording is still wanted |
| `PluginInstances.PluginInstance.EndStream` | plugins/instance.go:470-490 | a late command stream changes the state whether wanted or not |
| `PluginInstances.PluginInstance.AnswerStartLate` | plugins/instance.go:193-208 | an answer after the time-out still sets the recording flag, or UNKNOWN |
| `PluginInstances.PluginInstance.AnswerStopLate` | plugins/instance.go:284-297 | an answer after the time-out still clears the recording flag, or sets UNKNOWN |
| `PluginInstances.PluginInstance.AnswerCommandLate` | plugins/instance.go:457-470 | an answer after the time-out still opens a stream, or sets UNKNOWN |
| `PluginInstances.PluginInstance.StartPlugin` | plugins/service.go:471-511 | a stopped or killed plugin gets a client never used before and becomes READY; any other is refused unchanged |
| `PluginInstances.PluginInstance.StopOrKill` | plugins/service.go:183-187 | a plugin that cannot be stopped gracefully is killed |
| `PluginInstances.PluginInstance.Monitor` | plugins/service.go:177-206 | one tick makes exactly the specified step |
| `PluginRuns.CallsSucceedIff` | plugins/instance.go:159-309 | the exact conditions under which each of the three calls succeeds |
| `PluginRuns.CallsFailCleanly` | plugins/instance.go:427-505 | a failed call keeps client, recording and count; it changes nothing at all exactly for the four refusals, and otherwise ends UNRESPONSIVE after a time-out and UNKNOWN after anything else |
| `PluginRuns.CallErrors` | plugins/instance.go:161-170 | each refusal is returned exactly when its check is the first to fail |
| `PluginRuns.GivenUpIff` | plugins/instance.go:242-246 | a call past its checks is given up on exactly if a plugin of the right kind does not answer in time |
| `PluginRuns.CallsAreHeard` | plugins/instance.go:171-247 | of such a call the listeners hear BUSY and then the state it ends in, twice exactly if the plugin failed a start or a command |
| `PluginRuns.HandshakeOutcome` | plugins/instance.go:508-664 | a version call succeeds, fails and is heard under the same rules, and changes nothing but the state |
| `PluginRuns.LateSuccessIsSuccess` | plugins/instance.go:193-208 | a call that succeeds after it was given up on has every effect of one that succeeded in time, except on the state |
| `PluginRuns.LateFailureHidesTimeout` | plugins/instance.go:195-203 | one that fails late changes nothing but the state: an unresponsive plugin becomes UNKNOWN, which the monitor does not look at |
| `PluginRuns.SilenceIsNoticed` | plugins/instance.go:212-219 | a datasource that stops sending while its recording is wanted, or a controller in the middle of a command, is restarted or killed by the next tick; without a wanted recording, and at the end of a stream, it is left alone |
| `PluginRuns.StopUndoesStart` | plugins/instance.go:206-309 | from READY or UNKNOWN, starting and then stopping a recording succeed and leave the instance READY and otherwise as it was, and the abandoned recorder's time-out does no harm |
| `PluginRuns.StepTells` | plugins/instance.go:75-128 | no event changes the state behind the listeners' back |
| `PluginRuns.RunTells` | plugins/instance.go:75-128 | over every run, stale goroutines included, the last state broadcast is the state |
| `PluginRuns.CreatedMatches` | plugins/service.go:265-298 | an instance is created exactly if both version calls succeed, and then is READY with matching client |
| `PluginRuns.StepKeepsMatchIff` | plugins/instance.go:159-410 | an event keeps client and state in step if and only if it is not the report of a goroutine whose client has gone |
| `PluginRuns.AlwaysMatchesIff` | plugins/instance.go:159-505 | a run of any plugin keeps them in step throughout if and only if it contains no such report |
| `PluginRuns.DatasourceAlwaysMatches` | plugins/service.go:170-211 | for a datasource whose timed-out calls stay silent: over every run the client is nil exactly in STOPPED and KILLED, nothing is then recorded, and no event ends in BUSY or STOPPING |
| `PluginRuns.KilledDatasourceRevived` | plugins/instance.go:193-203 | without that silence a killed datasource becomes UNKNOWN, still without a client |
| `PluginRuns.StaleStreamRevives` | plugins/instance.go:474-477 | a stream that times out after its plugin was stopped makes the monitor start the plugin again |
| `PluginRuns.StoppedControllerRevived` | plugins/instance.go:470-477 | so any controller stopped in the middle of a command comes back READY |
| `PluginRuns.StepCounts` | plugins/instance.go:145-149 | the time-out count moves only, and by one, with a monitor restart |
| `PluginRuns.CountIsRestarts` | plugins/service.go:170-211 | over every run of any plugin the count equals the monitor's restarts and never exceeds max(0, MaxTimeouts) |
| `PluginRuns.RestartsFitBudget` | plugins/service.go:181-191 | a run contains at most as many monitor restarts as the budget has left |
| `PluginRuns.TickOutcome` | plugins/service.go:177-206 | a tick on an unresponsive plugin, with or without a client, ends READY with a fresh client and one restart more, or KILLED without a client once the budget is spent; it leaves any other plugin alone, a killed one included; a recording mark survives exactly if there was no client |
| `PluginRuns.StopAlwaysStops` | plugins/instance.go:327-410 | on every path a stop ends STOPPED, without client or recording, STOPPING the first and STOPPED the last broadcast and BUSY none of them |
| `PluginRuns.StopAnswers` | plugins/instance.go:327-333 | a stop is refused, changing nothing, exactly in the three final states or without a client, and succeeds exactly if the plugin's own stop does |
| `PluginRuns.StopPassesThrough` | plugins/instance.go:338-367 | on its way it passes through UNRESPONSIVE exactly if a recording was wanted and the caller's time is up, and through UNKNOWN exactly if that was refused otherwise or the plugin could not be reached |
| `PluginRuns.StartPluginOutcome` | plugins/service.go:478-510 | a plugin is started exactly from STOPPED or KILLED, with a fresh client and the same count; otherwise nothing changes |
| `PluginRuns.KillOutcome` | plugins/instance.go:312-324 | killing drops client and recording together and changes nothing else |
| `PluginRuns.CleanUpLeavesNoClient` | plugins/service.go:287-294 | cleanup leaves no client in any state, and an instance in step it leaves STOPPED or KILLED |
| `LogRing.FindMatch` | core/log.go:55-59 | finds the leftmost place where the root name is followed by a digit, if there is one |
| `LogRing.NumberAfterRoot` | core/log.go:59-64 | a name that starts with the root and a run of digits yields exactly those digits |
| `LogRing.NumberOfName` | core/log.go:55-76 | reading back the number printed into a file name gives that number, or an error beyond 64 bits |
| `LogRing.NameInjective` | core/log.go:72-76 | different numbers have different file names |
| `LogRing.RingSizeIsMaxFiles` | core/log.go:72-76 | the ring has max(1, maxFiles) places, except for the smallest 64-bit value |
| `LogRing.AppendKeepsHolds` | core/log.go:89-89 | appending to the open file extends the newest chunk and no other |
| `LogRing.RotateKeepsHolds` | core/log.go:70-87 | starting the next file replaces exactly the oldest chunk of a full ring |
| `LogRing.NextFile` | core/log.go:55-76 | the number read from the current name and the number moved to are those of the newest and the next chunk |
| `LogRing.WriteKeepsHolds` | core/log.go:47-90 | a write always succeeds on such a directory and leaves the newest chunks, one per file, with the record packed in |
| `LogRing.FileWriter.constructor` | core/log.go:103-134 | the writer starts with one empty log file |
| `LogRing.FileWriter.Write` | core/log.go:47-90 | a record that leaves the open file below the configured size is appended to it and nothing else changes; any other starts the next file alone, or is refused with nothing changed if the number is needed and out of range |
| `LogRing.RunHolds` | core/log.go:47-90 | after any writes from the start the directory holds exactly the newest chunks of everything written |
| `LogRing.PackKeepsRecords` | core/log.go:53-89 | the chunks taken together are all records in order, and the newest is not empty |
| `LogRing.ReadRingIsChunks` | core/log.go:53-89 | reading once round the ring from the file after the current one gives the chunks on disk, oldest first |
| `LogRing.RingIsSuffix` | core/log.go:53-89 | in every run the surviving files, read so, are exactly a suffix of the records written, and the newest record is in it |
| `LogRing.FilesHoldWholeRecords` | core/log.go:53-89 | every file is a run of consecutive whole records |
| `LogRing.PackIsGreedy` | core/log.go:53-53 | of two neighbouring chunks the second begins with a record that would have taken the first to the configured size |
| `LogRing.NoFileLeftEarly` | core/log.go:53-89 | so in every run no file on disk is left early: the next one begins with a record that did not fit |
| `LogRing.FileCountBound` | core/log.go:72-82 | never more than max(1, maxFiles) files exist, for every 64-bit maxFiles but the smallest |
| `LogRing.WriteKeepsBelow` | core/log.go:53-53 | one write keeps every file below the configured size exactly if the record is shorter than that |
| `LogRing.RunStaysBelow` | core/log.go:53-89 | a run of such records keeps every file strictly below |
| `LogRing.BelowIff` | core/log.go:53-89 | every file stays strictly below throughout a run if and only if every record is shorter than the size |
| `LogRing.TotalBound` | core/log.go:53-89 | the whole ring then stays below places times size, however much is written |
| `RootKeyStore.StepKeepsInv` | macaroons/storage.go:84-428 | every call keeps the key in memory equal to the one on disk and the default root key sealed under it |
| `RootKeyStore.RunKeepsInv` | macaroons/storage.go:84-428 | the same over every sequence of calls |
| `RootKeyStore.DefaultRootKeyStable` | macaroons/storage.go:147-322 | once created, both requests return the same default root key in every later unlocked state of every run without a new one, through closing, reopening, unlocking and any password changes |
| `RootKeyStore.FirstRequestFixesRootKey` | macaroons/storage.go:147-186 | the first request creates the key that all later ones return |
| `RootKeyStore.PasswordTracked` | macaroons/storage.go:189-322 | the password of the key on disk is the first one that unlocked, replaced by each successful change |
| `RootKeyStore.OnlyNewestPasswordUnlocks` | macaroons/storage.go:189-232 | after any run from an empty database a locked store opens to a password if and only if it is the newest |
| `RootKeyStore.OtherRootKeyStep` | macaroons/storage.go:247-322 | another root key's entry never changes on disk, and stays readable through a call exactly if that is no successful password change |
| `RootKeyStore.UnreadableForever` | macaroons/storage.go:247-322 | a key once unreadable stays so, even if the old password returns |
| `RootKeyStore.ReadableUntilChange` | macaroons/storage.go:247-322 | a readable other key is readable after a run if and only if no password change succeeded in it |
| `RootKeyStore.OtherRootKeysReadableIff` | macaroons/storage.go:84-113 | so an unlocked store returns it unchanged, or fails to decrypt it, exactly accordingly |
| `RootKeyStore.LockedStoreRefuses` | macaroons/storage.go:87-89 | every call on a locked store but unlocking, closing and opening anew is refused, with bucket, key and randomness as they were |
| `RootKeyStore.LockedRunRevealsNothing` | macaroons/storage.go:84-428 | over any run that does not offer it the right password a locked store changes nothing and answers no root key |
| `RootKeyStore.ClosedStoreRevealsNothing` | macaroons/storage.go:235-243 | so after any run and a close, no root key is answered to any run of calls without the newest password |
| `RootKeyStore.FailureChangesNothing` | macaroons/storage.go:84-428 | a call that fails changes nothing |
| `RootKeyStore.CloseLocks` | macaroons/storage.go:235-243 | closing and opening anew lock the store and leave the database as it is |
| `RootKeyStore.CreateUnlockOutcome` | macaroons/storage.go:189-232 | a locked store takes any first password, and later exactly the one that made its key; it changes no root key |
| `RootKeyStore.UnlockedStoreRefuses` | macaroons/storage.go:192-194 | an unlocked store is not unlocked again; missing, empty and reserved identifiers are refused each with its own error |
| `RootKeyStore.ChangePasswordOutcome` | macaroons/storage.go:247-322 | a password change succeeds exactly with both passwords given, a default root key and the right old password, each failure with its own error, and then replaces the key in memory |
| `RootKeyStore.RootKeyAgreesWithGet` | macaroons/storage.go:147-186 | asking for a root key and looking it up give the same secret, for one that exists and for one just made, which differs from all others |
| `RootKeyStore.KeyIsNotARootKey` | macaroons/storage.go:96-103 | the entry of the encryption key is never answered |
| `RootKeyStore.DeleteFindsIff` | macaroons/storage.go:406-427 | deleting an ordinary identifier finds it exactly if it is there, and changes nothing otherwise |
| `RootKeyStore.NewRootKeyIsNew` | macaroons/storage.go:326-344 | a generated default root key is returned from then on and differs from every root key stored before |
| `RootKeyStore.DeletedIsGone` | macaroons/storage.go:383-428 | a deleted key is no longer found, a later request makes a different one, and all other keys answer as before |
| `RootKeyStore.RootKeyStorage.constructor` | macaroons/storage.go:70-81 | a new store is locked |
| `RootKeyStore.RootKeyStorage.Get` | macaroons/storage.go:84-113 | answers as the specification does, error by error, a locked store with a refusal, and changes nothing |
| `RootKeyStore.RootKeyStorage.GenerateAndStore` | macaroons/storage.go:131-144 | stores a new random key sealed under the given one, over any earlier one |
| `RootKeyStore.RootKeyStorage.RootKey` | macaroons/storage.go:147-186 | the same with a key made on demand, and the context's errors |
| `RootKeyStore.RootKeyStorage.CreateUnlock` | macaroons/storage.go:189-232 | unlocks with the right password, or sets the first one |
| `RootKeyStore.RootKeyStorage.Close` | macaroons/storage.go:235-243 | forgets the key in memory only |
| `RootKeyStore.RootKeyStorage.ChangePassword` | macaroons/storage.go:247-322 | fails with database and key untouched, or replaces the key and re-seals the default root key in one transaction |
| `RootKeyStore.RootKeyStorage.GenerateNewRootKey` | macaroons/storage.go:326-344 | replaces the default root key of an unlocked store |
| `RootKeyStore.RootKeyStorage.DeleteMacaroonId` | macaroons/storage.go:383-428 | removes one key but never the encryption key or the default root key |
| `Unlocker.HandleKeepsInv` | unlocker/unlocker.go:102-241 | no request, failed or not, breaks the root-key store's invariant |
| `Unlocker.AcceptedIff` | unlocker/unlocker.go:102-145 | a login is accepted exactly for the password whose hash is stored, a first password exactly if there is none |
| `Unlocker.SetThenLogin` | unlocker/unlocker.go:148-182 | after a first password exactly that one logs in, and no other can be set |
| `Unlocker.RefusedChangesNothing` | unlocker/unlocker.go:185-194 | a request that fails its first check changes nothing, a password change included |
| `Unlocker.FailedChangeSaysWhy` | unlocker/unlocker.go:200-219 | a change that fails later leaves only the hash changed, and returns the cause |
| `Unlocker.OtherRequestsKeepAgree` | unlocker/unlocker.go:148-182 | setting a password and logging in never separate the two buckets |
| `Unlocker.ChangePasswordAgreesIff` | unlocker/unlocker.go:185-241 | after an accepted old password, the buckets agree if and only if a condition holds that can be checked before the call |
| `Unlocker.ChangePasswordSucceedsIff` | unlocker/unlocker.go:185-241 | the exact condition for success; then the buckets agree, the default root key is the same, and the store opens to the new password only |
| `Unlocker.HandleKeepsSound` | unlocker/unlocker.go:148-241 | a careful request keeps agreement, and an accepted one hands over the password whose hash is stored |
| `Unlocker.UnlockKeepsSound` | core/laniakea.go:226-233 | the password whose hash is stored opens or creates the root-key store, and baking keeps the agreement |
| `Unlocker.UnreceivedUnlocksNothing` | unlocker/unlocker.go:158-163 | a password that does not get through in time unlocks nothing |
| `Unlocker.ServeKeepsSound` | core/laniakea.go:208-268 | a whole session of the daemon keeps the agreement, and an accepted password always opens the store in it |
| `Unlocker.HandedPasswordAlwaysUnlocks` | core/laniakea.go:208-233 | in every sequence of careful sessions an accepted password always opens the root-key store, and the buckets agree at the end |
| `Unlocker.HastyChangeLocksOut` | unlocker/unlocker.go:195-228 | changing the password before any macaroon was baked leads to a login that is accepted and cannot unlock |
| `Unlocker.UnlockerService.constructor` | unlocker/unlocker.go:74-82 | the password channel starts empty |
| `Unlocker.UnlockerService.StorePassword` | unlocker/unlocker.go:102-123 | refuses to replace a hash unless asked to |
| `Unlocker.UnlockerService.CheckPassword` | unlocker/unlocker.go:126-145 | tells a missing hash from a wrong password |
| `Unlocker.UnlockerService.HandOver` | unlocker/unlocker.go:158-163 | puts the password in the empty channel, or reports the time-out and leaves the channel alone |
| `Unlocker.UnlockerService.HandleLogin` | unlocker/unlocker.go:148-164 | database, channel and reply after a login, for every outcome |
| `Unlocker.UnlockerService.HandleSetPassword` | unlocker/unlocker.go:167-182 | the same for setting a password |
| `Unlocker.UnlockerService.ReplaceStorePassword` | unlocker/unlocker.go:209-232 | opens a second store over the database, changes its password there, and closes it again |
| `Unlocker.UnlockerService.HandleChangePassword` | unlocker/unlocker.go:185-241 | database, channel and reply after a password change, the hash already overwritten on late failures |
| `Shutdown.RunKeepsInv` | intercept/intercept.go:55-102 | the closes of both channels are tied to the handler's flag and return, over every interleaving |
| `Shutdown.ChannelsClosedOnce` | intercept/intercept.go:55-110 | `quit` is closed once, with the first signal or request taken, `shutdownChannel` once, on return and only after it, and a pending request can always return |
| `Shutdown.RequestsAddUp` | intercept/intercept.go:105-110 | over every run each request begun waits, was taken, or returned because it saw `quit` |
| `Shutdown.RequestsReturnIff` | intercept/intercept.go:105-110 | a request returns by itself exactly once `quit` is closed, and is taken exactly while the handler runs |
| `Shutdown.SignalsWait` | intercept/intercept.go:123-124 | a signal waits unless one waits already or the handler has returned |
| `Shutdown.HandlerTerminates` | intercept/intercept.go:75-102 | after `quit` the handler always has a ready arm and makes at most one turn per signal and request plus the last, which closes `shutdownChannel` |
| `Shutdown.Interceptor.constructor` | intercept/intercept.go:118-125 | both channels start open with nothing waiting |
| `Shutdown.Interceptor.CloseQuitOnce` | intercept/intercept.go:58-74 | a second call closes nothing |
| `Shutdown.Interceptor.Arrive` | intercept/intercept.go:104-110 | a signal is dropped if one is waiting, a request waits |
| `Shutdown.Interceptor.SelectArm` | intercept/intercept.go:76-100 | one turn takes some ready arm, and is that step of the protocol |
| `Shutdown.Interceptor.MainInterruptHandler` | intercept/intercept.go:75-101 | under any timing of arrivals and any choice of arms the loop is a run of the protocol and terminates; it returns, both channels closed once, exactly if anything arrives |
| `PluginCaveat.StrInStrSlice` | utils/general.go:140-147 | membership |
| `PluginCaveat.CheckPlugins` | macaroons/service.go:170-198 | with plugins registered a request is refused if and only if no caveat allows it; it panics if and only if some caveat has two fields and the second is "plugins" |
| `PluginCaveat.CaveatFields` | macaroons/service.go:181-181 | a printed caveat splits into "declared", "plugins" and the value |
| `PluginCaveat.CaveatRoundTrip` | macaroons/constraints.go:98-104 | for any non-empty list of valid names, splitting the printed caveat gives exactly the list |
| `PluginCaveat.ListIsMembership` | macaroons/service.go:183-187 | a caveat of two or more names allows exactly the names listed |
| `PluginCaveat.SingleIsSubstring` | macaroons/service.go:188-192 | a caveat of one name allows every plugin whose name contains it, and everything if it is "all" |
| `PluginCaveat.EmptyListAllowsAll` | macaroons/service.go:188-192 | a caveat of no names allows everything |
| `PluginCaveat.ExactlyTheListedIff` | macaroons/constraints.go:98-104 | a printed caveat allows exactly the valid names it lists if and only if it lists at least two |
| `PluginCaveat.OnlyTwoFieldsCount` | macaroons/service.go:181-190 | a caveat is a plugin caveat exactly by its second field, and then only its third field counts |
| `PluginCaveat.OtherCaveatIgnored` | macaroons/service.go:181-182 | a caveat of another kind, of one or two fields, neither allows nor denies anything |
| `PluginCaveat.CaveatsAllowUnion` | macaroons/service.go:179-197 | printed lists, in any number and among any other caveats of a macaroon, together allow exactly the union of their names |
| `PluginCaveat.BakedMacaroonAllowsListed` | core/laniakea.go:303-309 | the macaroon baked for a time and a list of plugins allows exactly those plugins |
| `PluginCaveat.ConstraintIff` | macaroons/constraints.go:83-96 | a constraint fails exactly on an invalid name, adds nothing exactly for an empty list, and otherwise prints the list so that it can be read back |
| `PluginCaveat.NameCharEnds` | utils/general.go:47-47 | both ends of each range of the name pattern belong to it, their neighbours do not |
| `PluginCaveat.ConstraintIsNotRead` | macaroons/constraints.go:83-96 | the condition a constraint adds is ignored by the validator, or makes it panic if the list is the name "plugins" |
| `Strings.SplitOfJoin` | macaroons/service.go:184-184 | splitting what was joined gives the parts back if none contains the separator |
| `Strings.JoinOfSplit` | macaroons/service.go:181-184 | joining what was split gives the string back, and no part contains the separator |
| `UniqueName.Ext` | utils/general.go:66-66 | the extension starts at the last dot of the last path element, or is empty if that has none |
| `UniqueName.ExtKept` | utils/general.go:66-72 | text without dots and separators in front of the extension does not change it |
| `UniqueName.NextCandidate` | utils/general.go:65-73 | each round turns a candidate into the next one and never slices out of range |
| `UniqueName.CandidatesDiffer` | utils/general.go:65-73 | no path is tried twice |
| `UniqueName.PlainFormIff` | utils/general.go:67-72 | a candidate has the form "base (k)ext" if and only if it is one of the first hundred |
| `UniqueName.RoundsBound` | utils/general.go:65-75 | there are at most as many rounds as existing files |
| `UniqueName.UniqueFileName` | utils/general.go:63-77 | terminates with the first candidate that does not exist |
| `Decimal.PrintParse` | core/log.go:64-75 | printing a natural number and parsing it are inverse |

## Left out

- gRPC, REST, the WebSocket proxy, the command line, TLS and generated code: input, output and library glue.
- Plugin processes, go-plugin and the plugin SDK: each call has an arbitrary answer (no client, no plugin, wrong type, error, success, time-out).
- The clock: timers and contexts are steps that may happen at any moment.
- `QueueProtocol.RunKeepsLossless`: one consumer, subscribed while the queue is empty, as the manager's pump and the stream handlers are; consumers that subscribe later are not followed. What a consumer does with an item is part of the pop, so one that never returns from a send to its client is not followed either.
- `SignalQueue.Queue.ConsumeSignal`: one turn that nobody interrupts, on a queue with a single listener; interleaved turns are in `QueueProtocol`.
- `SignalQueue.Queue.Push`: a call that has to wait stops with the lock held; what happens while it waits is in `QueueProtocol` and `Listeners`, not in the class.
- `FanOut.RegisterKeepsInv`: registering and subscribing are one step, so what is forwarded to a listener between the two is not followed. The unlocked accesses to the manager's maps are taken to be atomic, and a visit of the pump's loop to a map that changes under it as the language defines it.
- `FanOut.StreamSurvivesIff`: the handler for all plugins, which merges several listeners into one more queue and skips nils, is not modelled; the loops that feed it are listeners that look at no frame.
- `SourceTables.QueueManager.Shutdown`: which pumps, and in `SourceTables.PluginManager.Stop` which instances and whether the monitor, do not return is a parameter; when that happens is the subject of `FanOut`, `QueueProtocol` and `StateFeed`. What other callers do while a hanging call holds the manager's lock is left out.
- `SourceTables.PluginManager.AddPlugin`: the checks of a configuration (plugins/config.go:30-43) are one outcome, and the defaults they fill in (plugins/config.go:45-50) are left out.
- `PluginInstances.PluginInstance.StartRecord`: one call in time is one step, with the assignments its goroutine makes included, in one order; the frames it forwards are the queue's part. The same holds for the other calls.
- `PluginInstances.PluginInstance.Stop`: each instance has one caller at a time; two calls that both pass the first checks are not interleaved.
- `PluginInstances.PluginInstance.StartPlugin`: the configured type was checked at creation, so the branch for an unknown type is left out.
- `StateFeed.ReportsEveryChange`: the subscriber's output queue belongs to another repository and is an output sequence here; other subscribers of the same instance are in `Listeners`.
- `LogRing.FileWriter.Write`: calls are taken one at a time; the writer has no lock of its own, although all loggers share it, and two concurrent rotations are not modelled. Disk errors and sizes near 2^63 are left out. A restart reopens `logfile.log` and breaks the order of the ring, so the order is a property of one run.
- `RootKeyStore.RootKeyStorage.ChangePassword`: real cryptography, failing commits and missing buckets are left out; a failed transaction changes nothing.
- `RootKeyStore.StepKeepsInv`: listing the key identifiers reads only and is left out; calls are atomic, as the store's mutex makes them.
- `Unlocker.HandedPasswordAlwaysUnlocks`: one request per life of the daemon, as the daemon takes one password; requests that race on the password bucket are left out.
- `Shutdown.ChannelsClosedOnce`: the flag that allows one handler per process, and logging, are left out.
- `PluginCaveat.CheckPlugins`: decoding and checking the macaroon's signature, permissions, time and address are left out. The format of a declared caveat is that of the macaroon library, which is not part of this model, as the comment at macaroons/service.go:181 gives it.
- `UniqueName.UniqueFileName`: existing files are a fixed finite set, and paths use "/" as the separator.
- Health checks, configuration, log levels, the RPC state gate, permissions and number formatting: single branches without state.
