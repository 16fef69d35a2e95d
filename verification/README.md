# nosy, verified

`nosy` broadcasts change notifications: cells and notifiers send messages to listeners, which
are weak references to flags, logs and stores, possibly behind filters, gates and pairs; sources
are values that can be read and listened to, and can be nested. What the library is for is that
nothing gets lost, duplicated or left stale on the way. This project models its protocols in
Dafny and proves that.

| module | subject |
|---|---|
| `Listeners`, `ListenerLaws` | listener trees and the laws of `Listener::receive` |
| `Receivers` | the same `receive`, run in place on the allocations, with the loops of `Filter` |
| `Notifiers`, `NotifierRefinement` | the lazily swept vector of `RawNotifier` against a list that only grows |
| `NotifierRuns`, `NotifierCosts`, `Registrations`, `Marks` | what follows for whole runs: delivery and space; cost; repeated registration; what `was_alive` says |
| `NotifierObjects` | `RawNotifier`, `Notifier`, `Buffer` and `Cell` as objects, proved against those functions |
| `Pipeline` | a buffer into a notifier, which others use too, into a filter into a store |
| `Forwarding` | graphs of notifiers that forward to notifiers |
| `DirtyFlag` | a cell and the caches that watch it with flags, any number of threads |
| `WakeProtocol`, `WakeFlags` | `WakeFlag`: every atomic access a step; and on one thread |
| `FlattenProtocol`, `FlattenFreshness`, `FlattenGates`, `FlattenNotices`, `FlattenLimits`, `FlattenConditions` | `Flatten` with any number of getters and setters, every access to shared state a step |
| `Sources`, `SourceLaws`, `SourceRuns`, `SourceMeaning`, `SourceWays`, `SourceListening`, `SourceDependencies`, `SourceSweeps`, `SourceObjects` | cells, `map` and `flatten` nested in any way without cycles, on one thread |

Conventions. `Listeners.Receive`, `Notifiers.Step`, `Sources.Get` and the like are functions on
values; the classes change fields in place and each method ensures that the abstract value
afterwards is that function of the abstract value before. An `Arc` is an object with a count of
its strong owners, and a weak reference can be upgraded while that count is positive. A lock and
an atomic access are each one indivisible step. Listeners that users write themselves are
covered where a law is about any listener (`FilterPassesOnChunks`); elsewhere the listeners are
those of the library, whose good behaviour is then a theorem and not an assumption.

Where the code and its comments disagree, the code was followed:

- `State::generation` is documented as the generation of the cached source
  (`src/source/flatten.rs:24-27, 40-43`), but what is stored is always 0 (line 107). Once the outer
  source has notified, the cache is not hit again until the counter wraps around
  (`FlattenConditions.CacheIsHitIff`), so each `get` asks the outer source and registers again; that
  it is correct all the same, and that the registrations stay bounded, is proved. When gets overlap, an older source can be stored over a newer one and a change can go
  unannounced (`FlattenLimits.OverlappingGetsMissAChange`), even if our listeners have been told
  since the last get began (`FlattenLimits.EarlierGetMissesAChange`);
  `FlattenConditions.NeverMissedIff` says exactly when, for each completed get.
- `src/source/flatten.rs:28-30` says that the inner source is updated by `get()` or `listen()`.
  `listen` does not touch it (lines 138-144): see `SourceListening.ListeningAloneIsDeaf`, and
  `SourceListening.HeardOncePerWay` and `SourceListening.HeardIffLastGotHere` for the exact condition.
- `src/future.rs:170-177` promises `false` once all listeners are dropped. On one thread it is so
  (`WakeFlags.PollTellsTheTruth`). With threads, a destructor wakes the task before the listener
  stops being counted, and the task may count it in between: `WakeProtocol.TheEndCanBeMissed` is the
  run, and `WakeProtocol.TheEndIsHeardIff` the exact condition.
- `src/notifier.rs:126` says `was_alive` is true if and only if every `receive` returned true.
  `RawNotifier::count` asks without recording the answer (`Marks.AskLeavesTheMark`);
  `Marks.MarkedIffDeadAtASend` says exactly what is recorded, and `Marks.MarkTellsAllIff` when
  that comes to the same.
- `src/listener.rs:52-55` wants each message processed as if it came alone. A pair whose sides
  write the same log does not do so. `ListenerLaws.PairOnOneLogReorders` says exactly when that
  shows, whatever filters and gates stand in front of the log, `ListenerLaws.LogReordersIff` says it
  of every tree, pairs within pairs included, and `ListenerLaws.BatchesDoNotMatter` that nothing
  else shows.

## Model

| member | source | states |
|---|---|---|
| `ListenerLaws.BatchesDoNotMatter` | src/listener.rs:52-55 | for every listener tree, one call with two batches joined and two calls give the same answer and the same state everywhere; logs are equal as sequences unless a pair reaches one twice, and as multisets always |
| `ListenerLaws.PairOnOneLogReorders` | src/simple_listeners.rs:39-42 | the exception: a pair with one log behind both sides, through any filters and gates, leaves the same log for two batches sent together or apart if and only if what the second side makes of the first batch and what the first side makes of the second commute |
| `ListenerLaws.LogReordersIff` | src/listener.rs:52-55 | for every tree and log: if and only if the tree, run by an independent definition, writes the same for the joined batch as for the two in turn |
| `ListenerLaws.Writes` | src/simple_listeners.rs:35-42 | what a tree appends to a log, however often pairs reach it, is what that definition says, which updates no state and never gives up early |
| `ListenerLaws.BarePairReorders` | src/simple_listeners.rs:39-42 | with nothing in front of the log: if and only if the batches commute; nothing else in the world shows it |
| `ListenerLaws.EmptyBatchIsAQuery` | src/listener.rs:45-46 | an empty batch changes nothing at all, and the answer is whether anybody behind the tree is alive |
| `ListenerLaws.AnswerIsAliveness` | src/listener.rs:42-44 | whatever is sent, the answer is whether anybody is alive |
| `ListenerLaws.DeathIsForEver` | src/listener.rs:42-46 | after an answer of `false`, every later call answers `false` and has no effect, whatever owners are dropped in between |
| `ListenerLaws.Delivers` | src/simple_listeners.rs:300-311 | each destination ends up with what a definition without batches, buffers or early exits says it is handed |
| `ListenerLaws.FlagIsRaisedIff` | src/simple_listeners.rs:300-311 | a flag behind any tree is up after a batch if and only if it was up before or anything at all reaches it |
| `ListenerLaws.SetHoldsIff` | src/store.rs:134-138 | a set behind any tree holds a message afterwards if and only if it did before or the message reaches it |
| `ListenerLaws.FilterSelects` | src/filter.rs:76-81 | what a filter keeps is, in order, what the function makes of the messages at certain positions, and it drops all the others |
| `ListenerLaws.FilterPassesOnChunks` | src/filter.rs:71-106 | in front of any listener that keeps the death law, the batches passed on are the chunks of the kept messages, all of them or cut after the first `false` |
| `ListenerLaws.ChunkSizes` | src/filter.rs:84-105 | k kept messages make max(1, ceil(k / BATCH)) batches, all but the last of exactly BATCH |
| `ListenerLaws.ChunkConcat` | src/filter.rs:84-105 | the batches in order are the messages |
| `Receivers.Receive` | src/gate.rs:58-64 | `receive` of gates, pairs, weak references and null listeners in place equals the function on values |
| `Receivers.ReceiveBuffered` | src/filter.rs:84-105 | so does the filter loop that sends a full buffer before the next push and gives up early |
| `Receivers.ReceiveUnsized` | src/filter.rs:72-83 | so does the branch for messages without size |
| `Receivers.Keep` | src/filter.rs:76-81 | the first loop of that branch collects the kept messages |
| `Receivers.Extend` | src/store.rs:128-138 | a vector is extended, a set united, a flag raised unless the batch is empty |
| `Receivers.Flag.GetAndClear` | src/simple_listeners.rs:269-274 | hands out the flag and leaves it clear |
| `Receivers.StoreLock.Take` | src/store_lock.rs:115-123 | hands out everything and leaves nothing |
| `NotifierRefinement.SweepKeepsTheLiving` | src/notifier.rs:371-385 | the sweep leaves exactly the live entries, each as often as it was registered, in whatever order |
| `NotifierRefinement.SweepDropsTheMarked` | src/notifier.rs:371-385 | whoever is marked dead is dropped without being asked |
| `NotifierRefinement.ListenSweepsOnlyWhenFull` | src/notifier.rs:332-344 | a dead listener is refused; a live one is put at the end, after a sweep if and only if the vector was full, and the vector grows if and only if it still is |
| `NotifierRefinement.NotifyIsSendAll` | src/notifier.rs:284-296 | sending to the vector is sending to its listeners in order, and marks only the dead as dead |
| `NotifierRefinement.EveryRunRefines` | src/notifier.rs:332-392 | in every run of subscriptions, batches, counts and deaths the swept vector and a list that only grows allow the same operations and have the same live subscriptions and effects |
| `NotifierRuns.DeliveredExactlyOnce` | src/notifier.rs:284-296 | in every run, a destination that one subscription writes holds what it had when that began and then exactly the concatenation of the batches sent since, filtered, once and in order, as long as the way to it lives, whatever else dies |
| `NotifierRuns.FlagAfterRun` | src/notifier.rs:284-296 | in every run, however many subscriptions reach a flag, it is up if and only if it was up at first or anything has been handed to it, by whoever had subscribed and was alive then |
| `NotifierRuns.SetAfterRun` | src/notifier.rs:284-296 | likewise a set holds exactly what it held and what has been handed to it |
| `NotifierRuns.LogAfterRun` | src/notifier.rs:284-296 | and a log exactly what it held and what has been handed to it, each as often |
| `NotifierRuns.OwnersAreCounted` | src/gate.rs:58-64 | in every run an allocation has as many owners as it had, more for each clone and less for each drop, and nothing else changes that |
| `NotifierRuns.SpaceIsBounded` | src/notifier.rs:332-344 | in every run the capacity is at most max(4, 2P), P being the most subscriptions ever live at once |
| `NotifierCosts.SweepAsksEachOnce` | src/notifier.rs:371-385 | the sweep asks each entry at most once, and every one if none is marked |
| `NotifierCosts.ListenIsAmortised` | src/notifier.rs:332-344 | while no registered listener dies, n calls of `listen` make at most 3n calls of `receive` |
| `Registrations.RegistrationIsBounded` | src/source/flatten.rs:103-124 | however often a flatten registers again, leaves for another source and comes back, and whatever batches, listeners, deaths and counts come in between, a notifier that never has more than q other live listeners holds at most 2q + 4 entries |
| `Marks.MarkedIffDeadAtASend` | src/notifier.rs:124-128 | in every run, an entry is marked dead exactly if its listener was dead when a batch was sent after that entry subscribed |
| `Marks.MarkTellsAllIff` | src/notifier.rs:124-128 | the mark says whether every surviving call was answered `true` if and only if no bare count met the listener dead, or a batch did |
| `Marks.AskLeavesTheMark` | src/notifier.rs:399-404 | a run in which a count is answered `false` and the mark still says alive |
| `NotifierObjects.RawNotifier.NotifyMany` | src/notifier.rs:284-296 | the loop over the vector equals the function, and keeps the marks true |
| `NotifierObjects.RawNotifier.DropDeadListeners` | src/notifier.rs:371-385 | the `swap_remove` loop equals the function, asks at most once each, and keeps exactly the live |
| `NotifierObjects.RawNotifier.DropDeadIfFull` | src/notifier.rs:387-392 | sweeps if and only if the vector is full |
| `NotifierObjects.RawNotifier.Listen` | src/notifier.rs:332-344 | equals the function: refused if dead, swept if full, grown if still full |
| `NotifierObjects.RawNotifier.Count` | src/notifier.rs:399-404 | counts the live entries and changes nothing |
| `NotifierObjects.Notifier.Close` | src/notifier.rs:150-152 | drops every listener and closes |
| `NotifierObjects.Notifier.NotifyMany` | src/notifier.rs:223-228 | delivers if open; panics and changes nothing if closed |
| `NotifierObjects.Notifier.Listen` | src/notifier.rs:411-425 | adds if open; changes nothing if closed |
| `NotifierObjects.Notifier.Count` | src/notifier.rs:267-271 | sweeps, and gives the number of live listeners; 0 if closed |
| `NotifierObjects.Buffer.Flush` | src/notifier.rs:560-563 | sends the whole buffer and empties it, or panics and keeps it |
| `NotifierObjects.Buffer.Push` | src/notifier.rs:550-557 | sends as soon as the buffer is full; panics only when it must send through a closed notifier, or is full after having done so |
| `NotifierObjects.Buffer.Drop` | src/notifier.rs:601-605 | sends what is left, if anything |
| `NotifierObjects.Cell.Set` | src/cell.rs:105-111 | replaces the value and tells every listener; never panics |
| `NotifierObjects.Cell.SetIfUnequal` | src/cell.rs:134-145 | the same for an unequal value; an equal one changes nothing and tells nobody |
| `NotifierObjects.Cell.Drop` | src/cell.rs:160-165 | the sources that remain keep the value and have no listeners |
| `Pipeline.InOrderOfArrival` | src/notifier.rs:512-521 | in every run of pushes, takes and anything else done with the notifier meanwhile (batches past the buffer, other clients that come, die, are counted and swept out), while the way to the store lives: taken and stored together are what the filters make of everything in the order in which it came to the notifier |
| `Pipeline.NothingIsLostOrReordered` | src/notifier.rs:550-563 | at every point of every such run with nothing sent past the buffer, what was taken, what is stored and what the filters will make of the buffered messages are in this order everything pushed, as filtered |
| `Pipeline.ConsumerLagsByTheBuffer` | src/store_lock.rs:115-123 | taken and stored together are the filtered messages but for the last CAPACITY - 1 at most, whatever CAPACITY and BATCH |
| `Pipeline.DroppingTheBufferDeliversAll` | src/notifier.rs:597-606 | after the buffer is dropped taken and stored are, for any listener that feeds the store, everything pushed, as filtered |
| `Pipeline.SubscriberFeeds` | src/notifier.rs:332-344 | in every state that can be reached, whoever subscribes while nobody alive writes the store begins such a run |
| `Forwarding.Receive` | src/notifier.rs:644-653 | forwarding in place terminates in every graph without cycles and equals the function on values |
| `Forwarding.OncePerPath` | src/notifier.rs:284-296 | every inbox receives the whole batch once for each path to it through open notifiers |
| `Forwarding.PathsAreAllThePaths` | src/notifier.rs:205-207 | the paths that are counted are exactly the paths there are |
| `Forwarding.PanicsIffClosedIsReached` | src/notifier.rs:223-228 | sending panics if and only if forwarding can reach a closed notifier, whatever is sent, even nothing |
| `DirtyFlag.CachesAreCoherent` | src/cell.rs:105-145 | in every interleaving a stale cache has its flag up, is about to be read, or is owed a flag; in quiet times a clear flag means the cache agrees |
| `DirtyFlag.LastSetIsHeld` | src/cell.rs:105-145 | in every interleaving the cell holds the value of the last set that took place |
| `DirtyFlag.ReadCachesLastSet` | src/cell.rs:92-96 | and that is what a consumer caches when it reads |
| `DirtyFlag.FlagTellsWhatHappened` | src/simple_listeners.rs:265-311 | in every interleaving a flag is up exactly if it was made so or has been raised, and has not been cleared since; its owner is about to read exactly if it found it up |
| `DirtyFlag.EveryoneIsTold` | src/cell.rs:105-111 | when a setter is done, each consumer there since the set has its flag up, or has cleared it since that setter raised it |
| `DirtyFlag.SetsBegin` | src/cell.rs:134-145 | an equal value changes nothing and tells nobody; an unequal one is set as by `set` |
| `DirtyFlag.SettersAreAtWork` | src/cell.rs:105-145 | a thread is at work exactly from its replacement of the value until it has told everyone |
| `DirtyFlag.SetterCanMove` | src/cell.rs:105-111 | and never stuck |
| `WakeProtocol.NoLostWakeup` | src/future.rs:249-276 | in every interleaving, a parked task that was not woken has no message, or the thread that stored it is about to wake it |
| `WakeProtocol.NoLostEnd` | src/future.rs:227-233 | such a task has a listener left, unless it counted a listener that was being dropped |
| `WakeProtocol.TheEndIsHeardIff` | src/future.rs:227-233 | whatever happens to such a task but a poll, deliveries and clones included: when no listener is left, it has been woken if and only if one of them was not yet being dropped when it was parked, or a delivery came to its wake; and when none is on its way, that is if and only if one was then or has begun since |
| `WakeProtocol.TheEndCanBeMissed` | src/future.rs:267-275 | a run that leaves the task parked for good |
| `WakeProtocol.PollAlone` | src/future.rs:255-276 | a poll that no thread interrupts is, step by step, the single step of the one-thread model: same answer, same state |
| `WakeProtocol.OthersAlone` | src/future.rs:227-252 | so are a delivery, a clone and the drop of a listener |
| `WakeFlags.PollTellsTheTruth` | src/future.rs:170-177 | after any history on one thread a poll answers `true` exactly if something came in since the last, `false` exactly if nothing did and no listener is left |
| `WakeFlags.PendingTaskIsWoken` | src/future.rs:249-265 | a pending task is woken exactly by a message, a notify or the drop of a listener |
| `WakeFlags.TheEndIsForEver` | src/future.rs:175-177 | after `false`, every later poll says `false` unless the owner notifies |
| `WakeFlags.AbandonedWaitLeavesNoTrace` | src/future.rs:179-181 | a wait given up while pending does not change what any later poll answers |
| `WakeFlags.WakeFlag.Receive` | src/future.rs:207-218 | a message raises the flag and wakes the task, an empty batch does neither; `false` once the flag is gone |
| `WakeFlags.WakeFlag.NotifyMessage` | src/future.rs:249-252 | leaves the flag raised and the task woken if its waker was registered |
| `WakeFlags.WakeFlag.DropListener` | src/future.rs:227-233 | wakes the task unless the flag is gone, and is no longer counted |
| `WakeFlags.WakeFlag.GetAndClear` | src/future.rs:267-275 | clears the flag; answers `true` if it was raised, else `false` if no listener is left, else nothing |
| `WakeFlags.WakeFlag.Poll` | src/future.rs:255-265 | answers like that, and registers the waker if the answer is pending |
| `WakeFlags.WakeFlagFuture.Poll` | src/future.rs:238-245 | done with the first answer; polled again it panics |
| `FlattenFreshness.GetsAreFresh` | src/source/flatten.rs:88-127 | in every interleaving of fewer than 2^32 outer notifications, a get picks a value of the outer cell at least as new as every one announced before the get began |
| `FlattenFreshness.AnnouncedIsHeard` | src/source/flatten.rs:174-180 | the same in terms of the run alone: what a setter counted before a get began, that get does not miss |
| `FlattenFreshness.GetterCanMove` | src/source/flatten.rs:85-128 | a get can take its next step except exactly when it waits to register with a source whose listeners are being notified |
| `FlattenFreshness.SetterCanMove` | src/source/flatten.rs:168-196 | whoever notifies can always take a step, so that nobody is stuck |
| `FlattenGates.FewGatesAreOpen` | src/source/flatten.rs:103-127 | in every interleaving the open gates number at most one plus the getters between making a gate and finishing |
| `FlattenGates.OneGateIsOpen` | src/source/flatten.rs:113-126 | with no get in progress and one completed, exactly one gate is open, at the cached source |
| `FlattenGates.SettersPayInFull` | src/source/flatten.rs:168-196 | conservation: in every interleaving of setters, from any state, the notifications delivered and those still owed grow together by one for each set of the outer cell and one for each open gate where an inner cell is set |
| `FlattenGates.SetsNotifyOnce` | src/source/flatten.rs:192-196 | so with no get in progress any number of setters, in any interleaving, notify the listeners exactly once for each set of the outer cell or of the cached inner cell, and never for a set of any other |
| `FlattenNotices.NoMissedChange` | src/source/flatten.rs:85-128 | in every interleaving of setters with gets that do not overlap, for every get that has completed, however many have since: if the value differs from what it returned and no set is in progress, the listeners have been told since it began |
| `FlattenNotices.LastGetMissesNothing` | src/source/flatten.rs:85-128 | in particular for the get that completed last |
| `FlattenLimits.WrappingMissesAChange` | src/source/flatten.rs:88-97 | after exactly 2^32 outer notifications the first source is handed out again |
| `FlattenLimits.OverlappingGetsMissAChange` | src/source/flatten.rs:113-126 | two overlapping gets that leave a change unannounced |
| `FlattenLimits.EarlierGetMissesAChange` | src/source/flatten.rs:113-126 | the same two, completing in the other order: the listeners have been told since the last get began, but not since the other did |
| `FlattenConditions.NeverMissedIff` | src/source/flatten.rs:113-126 | for every completed get, after any interleaving, overlapping gets included, once all is quiet: every interleaving of setters from there leaves our listeners told of a change if and only if they have been told since that get began, or the cache holds the current inner cell and the value is still the one that get returned |
| `FlattenConditions.CacheIsHitIff` | src/source/flatten.rs:88-97 | in every interleaving, a get is answered from the cache if and only if there is one when it looks, and the number of outer notifications when it began is a multiple of 2^32 |
| `FlattenConditions.HitUsesTheCached` | src/source/flatten.rs:90-97 | a hit settles on the cached source |
| `FlattenConditions.LoserUsesTheirs` | src/source/flatten.rs:113-126 | in every interleaving, a get that comes to store and finds the state new enough settles on the cached source, otherwise its own becomes the cached one; and what it has settled on is what it reads |
| `FlattenConditions.LoneGetIsCurrentIff` | src/source/flatten.rs:88-101 | after any interleaving, wrapped around or not, an uninterrupted get reads the current inner source if and only if there is no cache, or the counter modulo 2^32 is not 0, or the cache holds that source |
| `SourceLaws.GetIsRight` | src/source/flatten.rs:155-157 | `get` of any nested source gives what the source denotes, keeps every cache that can still be hit right, and leaves the source linked to whatever it depends on |
| `SourceLaws.GetSourceIsRight` | src/source/flatten.rs:85-128 | the inner source handed out is the one the outer source denotes, hit or miss |
| `SourceRuns.EveryGetIsRight` | src/source/flatten.rs:70-157 | in every run of creations, gets, sets and subscriptions (fewer than 2^32 outer notifications of each flatten), every `get` equals the plain denotation |
| `SourceMeaning.EveryGetIsWorth` | src/source/flatten.rs:155-157 | in every such run, every `get` gives what follows from nothing but what each cell was set to last, the functions of `map` and the wiring |
| `SourceMeaning.DenoteIsWorth` | src/source/map.rs:36-38 | the denotation says just that: constants, the maps of cells, functions and outer sources |
| `SourceMeaning.LastSetIsHeld` | src/cell.rs:105-145 | in every run each cell holds what it was set to last |
| `SourceMeaning.SetSets` | src/cell.rs:105-111 | a set changes its cell and no other, and everyone hears of it once for each way |
| `SourceMeaning.SetIfUnequalSets` | src/cell.rs:134-145 | so does `set_if_unequal` of an unequal value; an equal one leaves everything as it was |
| `SourceMeaning.KeepsItsGateIff` | src/source/flatten.rs:88-127 | a get is answered from the cache, and then changes nothing, if and only if there is a cache and the counter modulo 2^32 is 0; otherwise it ends with a new gate |
| `SourceMeaning.GetAgainIsFree` | src/source/flatten.rs:88-97 | before anything is set, getting a source again changes nothing in the world |
| `SourceMeaning.StoreHandsOutTheCached` | src/source/flatten.rs:113-126 | the source handed out is the cached one, which is the fetched one unless the cache was new enough |
| `SourceRuns.NoChangeGoesUnannounced` | src/source/flatten.rs:168-196 | in every such run, a client that was listening before the first set after a `get` has been notified by the time the source denotes anything but what that `get` returned |
| `SourceRuns.SetIsAnnounced` | src/cell.rs:105-111 | one set of one cell either notifies everyone who listens to a linked source, through however many nodes, or leaves it linked and its value unchanged |
| `SourceRuns.SetKeepsCaches` | src/source/flatten.rs:174-180 | a set that makes a cached inner source wrong also moves the counter, so the cache is not hit |
| `SourceWays.DeliverAdds` | src/source/flatten.rs:168-196 | a notification arrives at every client, and counts at every flatten node, exactly once for each way there through listeners of flatten nodes, the inner ones with their gates open |
| `SourceWays.DeliversAlike` | src/notifier.rs:371-385 | so dropping listeners behind closed gates and reordering the others changes none of these numbers |
| `SourceSweeps.SweepingIsInvisible` | src/notifier.rs:332-392 | in every run, whichever notifiers sweep or reorder their listeners at whatever times: every `get` gives the same, every client has been notified as often, and every flatten node is in the same state, as if none ever did |
| `SourceDependencies.RegisteredOnce` | src/source/flatten.rs:78-80 | in every run each flatten node that exists has exactly one listener at its outer source, and exactly one behind its gate at the source it holds, and none elsewhere |
| `SourceDependencies.CreatedNodesExist` | src/source/flatten.rs:70-83 | a node that has been created or got exists from then on |
| `SourceDependencies.HeardOncePerDependency` | src/source/flatten.rs:168-196 | after every run, any set is heard by any client exactly as often as there are ways in which what it has subscribed to depends on the cell, told from the wiring and the sources the nodes hold |
| `SourceDependencies.OuterSetIsHeardOnce` | src/source/flatten.rs:174-180 | so a client that has subscribed once to a flatten over a cell hears of each set of that cell exactly once |
| `SourceListening.HeardOncePerWay` | src/source/flatten.rs:168-196 | any set of any cell is heard by a client, whoever else listens to the cell, exactly as often as there are such ways from the cell to the client |
| `SourceListening.HeardIffLastGotHere` | src/source/flatten.rs:138-144 | after any run, a client of a flatten that has no other way from an inner cell hears of a set of it if and only if the last `get` that came to the flatten was given a source that listens to that cell |
| `SourceListening.HeardIffOpen` | src/source/flatten.rs:186-196 | the same in terms of the state: if and only if the flatten holds a gate with a listener at that cell |
| `SourceListening.ListeningAloneIsDeaf` | src/source/flatten.rs:70-83 | so a client that only listens to a new flatten hears nothing, however the inner cell is set |
| `SourceObjects.Graph.GetSourceAndListenIfNew` | src/source/flatten.rs:85-128 | in place, with the wrapping counter, it leaves the state and gives the source that `SourceLaws.GetSourceIsRight` is about |
| `SourceObjects.Graph.Store` | src/source/flatten.rs:103-127 | registers behind a new gate and stores both unless the state is new enough |
| `SourceObjects.Graph.FetchAdd` | src/source/flatten.rs:175-177 | the wrapping `u32` stays the count of notifications modulo 2^32 |
| `SourceObjects.Graph.Get` | src/source/map.rs:36-38 | `get` of every kind of source in place equals the function, and terminates |
| `SourceObjects.Graph.NewFlatten` | src/source/flatten.rs:70-83 | listens to the outer source and to nothing else |
| `SourceObjects.Graph.ListenTo` | src/source/map.rs:20-26 | `map` passes the listener on to its source |
| `SourceObjects.Graph.Notify` | src/source/flatten.rs:168-196 | walking the listeners, and theirs, equals the function and terminates |
| `SourceObjects.Graph.Pass` | src/source/flatten.rs:168-196 | the outer listener counts and forwards; the inner one forwards while its gate is open |
| `SourceObjects.Graph.Set` | src/cell.rs:105-111 | leaves the state that `SourceRuns.SetIsAnnounced` is about |
| `SourceObjects.Graph.SetIfUnequal` | src/cell.rs:134-145 | does nothing if the value is equal |

## Left out

- Weak memory orderings: every atomic access is sequentially consistent. `AtomicWaker`, `Arc`, `Weak` and the executor are foreign code, taken as a waker cell and as owner counts; the growth of `Vec` is an assumption (`GrowsLikeVec`).
- Lock selection, poisoning and feature flags (`src/maybe_sync.rs`), and whatever `Send` and `Sync` decide.
- Listeners written by users that break the contract: that revive, that call back into the library while being notified, or that forward in a cycle. A pair, a filter and a gate are modelled in front of any of the library's destinations; only the filter also in front of a user's listener.
- SourceRuns.NoChangeGoesUnannounced: the client must be listening before the first set after the `get`; one that subscribes later is covered from the next `get`.
- FlattenNotices.NoMissedChange: for gets that do not overlap, since for others it is false; what holds of those is `FlattenConditions.NeverMissedIff`. The outer source is a cell, and one notification of all our listeners is one step.
- NotifierRuns.DeliveredExactlyOnce: of a destination that several live subscriptions write at once, `NotifierRefinement.EveryRunRefines` says only that it holds the same messages as in the reference, in some order.
- Pipeline.InOrderOfArrival: nobody else who writes the same log subscribes during the run, and the notifier is not closed; what a buffer does when it is closed is at `NotifierObjects.Buffer.Push`.
- NotifierCosts.ListenIsAmortised: says nothing once registered listeners die, when a full vector can be swept for each `listen`.
- Forwarding.OncePerPath: the inboxes are plain logs, and the entries of these notifiers are not swept; sweeping and listener trees are the subject of `NotifierRefinement`.
- `Sources` keeps the listeners of a notifier as a list, in order of registration and unswept, which by `SourceSweeps.SweepingIsInvisible` makes no difference. A sweep is a step between two operations there; one that `listen` makes in the middle of a `get` drops nobody whose gate could open again, and a `get` looks at no list. A flatten node is created at the latest when it is first used; the numbering of nodes rules out cycles, which Rust would leak or overflow on. A number in the place of a source, which the types exclude, is read as a constant.
- Dropping a flatten node or a cell while its sources are in use, in module `Sources`: the outer listener then answers `false`; for a cell see `NotifierObjects.Cell.Drop`.
- The implementations of `LoadStore` for each type: one replacement stands for all. `CellWithLocal`, `update_mut`, `Constant` as a trait implementation, and `Listen` and `Source` for smart pointers, each of which is one delegation.
- `FromListener`, `IntoListener` and `DynListener` (type erasure), `Debug` and `fmt::Pointer` (text), the `Stream` implementation of `WakeFlag` (the same `poll`), and `NotifierForwarder` behind `Filtered`.
