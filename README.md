# async-event-channel, modelled in Dafny

This project models the core of the `async-event-channel` library.

**The event channel.** An `AsyncEventChannel` keeps two watched sets, listeners and cached emits, plus a set of watch callbacks.
- `on` and `once` register listeners.
- `emit` calls the listeners of a type in insertion order. When none exists and `isEmitCache` holds, it caches the emit. The cached emit is handed to the next listener of that type in a microtask.
- `off` removes every listener and cached emit of the given types.
- `immedOnce` listens once, but only when an emit of the type is cached.
- `immedEmit` (in `src/index.js`, `syncEmit`) returns only the synchronous replies.
- `watch` receives a notification (`register`, `run`, `cancel`, `delete`) for everything that happens.
- `hasId` and `hasType` query the stored items.

**Options.** Per channel, the options `isEmitCache`, `isEmitOnce` and `isOnOnce` are resolved in this order: per-type map, then channel options, then defaults.

**Watched sets.** `createSet` wraps a `Set` so that `add` and `delete` call registered watchers, some of them one-shot.

**The scope.** The scope `asyncEventChannelScope(ctx, {include | exclude})` is a view of a channel.
- It routes every operation either to `ctx` or to a second channel `_ctx`. The choice depends on the list and on each listed type's allowed handlers.
- It records the cancel function of every run it makes.
- `cancel()` calls all recorded cancel functions in order.

**The older variant.** Both the TypeScript source (`src/index.ts`) and the older JavaScript build (`src/index.js`) are modelled. The JavaScript build also has:
- its own, simpler scope;
- `AsyncTaskQueue`, a queue of one task per declared type. Once every type has its task, the queue runs the tasks in the declared order, threading each task's result into the next.

**Import order.** `importParamSsort` (the order in which `import` replays exported data) is modelled as a stable sort by the counter part of the ids.

**Layout:**
- `wrappers.dfy`: `Option` and `Result`.
- `options.dfy`: option resolution.
- `watched_set.dfy`: `createSet` as the class `WatchedSet`. Its `legacy` flag selects the delete-watcher rule of `src/index.js`.
- `registry.dfy`: the notification record (`Note`), listener handlers and the sequence functions the contracts use.
- `channel_state.dfy` and `channel.dfy`: the channel of `src/index.ts`.
- `legacy_state.dfy` and `legacy_channel.dfy`: the channel of `src/index.js`.
- `scope_rules.dfy` and `scope.dfy`: the scope of `src/index.ts`.
- `legacy_scope.dfy`: the scope of `src/index.js`.
- `task_queue.dfy`: `AsyncTaskQueue`.
- `import_sort.dfy`: `importParamSsort`.

**Modelling choices:**
- A `Set` is a sequence in insertion order, which is the order `forEach` visits. Every item is made with a fresh id, so identity is the id; an invariant keeps the ids distinct.
- The watch callbacks are modelled as one log of `Note` records. Each watch is a record of the part of the log it was live for, together with its type filter. This matches calling every live callback for each notification.
- A listener callback is an opaque value. What it returns for some parameters is given by a function `call` fixed when the channel is built.
- Microtasks are an explicit queue (`pending`) that `Deliver` and `Flush` run.
- The `await` points of `AsyncTaskQueue.start` are explicit steps (`Start`, `Step`), so `cancel` and `on` may come in between.

**Quirks the code has and the model keeps:**
- `off`, and the `isEmitOnce` sweep, remove a cached emit but leave its one-shot delivery watcher in place. A later listener of the type is still handed the removed emit.
- A listener added while several emits of its type are cached receives all of them, even a `once` listener.
- `AsyncTaskQueue` never loads when a type is declared twice. `#tasks.size` then never reaches `#types.length`.

## Model

| member | source | states |
|---|---|---|
| ChannelOptions.GetOption | src/index.ts:213-227 | a key set in the type's own options wins; otherwise the channel's; otherwise the default |
| ChannelOptions.Default | src/index.ts:154-158 | only `isEmitCache` is on by default |
| ChannelOptions.PerTypeEntryIsLocal | src/index.ts:213-227 | changing one type's options changes the options of no other type |
| ChannelOptions.NothingConfiguredMeansDefaults | src/index.ts:213-227 | a channel built without options resolves every key to its default |
| WatchedSets.WatchedSet.constructor | src/index.ts:9-18 | a new set has no items and no watchers |
| WatchedSets.WatchedSet.Add | src/index.ts:19-36 | an item with a new id is appended and the others stay; every add watcher whose type matches fires, and the one-shot ones among them are dropped |
| WatchedSets.WatchedSet.RunAddWatchers | src/index.ts:23-33 | the watchers that fire are exactly those without a type or with the item's type; those kept are all but the one-shot fired ones |
| WatchedSets.WatchedSet.Delete | src/index.ts:37-56 | the result says whether the item was stored; only then is it removed and its delete watchers fired |
| WatchedSets.WatchedSet.RunDeleteWatchers | src/index.ts:42-52 | the fired and kept delete watchers, under the rule of `src/index.ts` or, for a legacy set, of `src/index.js` |
| WatchedSets.WatchedSet.WatchAdd | src/index.ts:60-72 | `watch_add` / `watch_add_one` append one watcher |
| WatchedSets.WatchedSet.WatchDelete | src/index.ts:64-77 | `watch_delete` / `watch_delete_one` append one watcher |
| WatchedSets.WatchedSet.UnwatchAdd | src/index.ts:62 | the unwatch function removes exactly that watcher and says whether it was there |
| WatchedSets.WatchedSet.UnwatchDelete | src/index.ts:66 | the unwatch function removes exactly that watcher and says whether it was there |
| WatchedSets.KeptOneShot | src/index.ts:32 | when every watcher is one-shot, a watcher is kept if and only if it is one of them and does not fire; every one either fires or is kept |
| WatchedSets.KeptAllPersistent | src/index.ts:51 | without one-shot watchers, a delete drops no watcher |
| Registry.TypePartition | src/index.ts:318-323 | the listeners of a type and the others partition the listeners, as a multiset |
| Registry.OffPartition | src/index.ts:409-427 | the items `off` removes and the items it keeps partition the set |
| Registry.CloseWatchLive | src/index.ts:664-667 | unwatching removes exactly that key from the live watches |
| Channel.AsyncEventChannel.constructor | src/index.ts:179-194 | a new channel stores nothing, with counter 0 and its options |
| Channel.AsyncEventChannel.NextId | src/index.ts:196-200 | `#processIdInc` returns the counter plus one and stores it |
| Channel.AsyncEventChannel.KnownBelow | src/index.ts:196-200 | every id made so far is at most the counter, so the next id is fresh |
| Channel.AsyncEventChannel.CallAll | src/index.ts:318-323 | calls the listeners of the type in order, returning their replies and dropping the `once` ones |
| Channel.AsyncEventChannel.Listen | src/index.ts:229-301 | `on`/`once`: fresh id; with `isOnOnce` the type's listeners leave first; the item is appended; the waiting cached emits are queued for delivery; the notes logged |
| Channel.AsyncEventChannel.CancelListen | src/index.ts:272-293 | removes exactly that listener, says whether it was stored, and logs `delete` only then and `cancel` always |
| Channel.AsyncEventChannel.Emit | src/index.ts:303-407 | replies of the type's listeners in order; cached exactly when none matched and `isEmitCache` holds (after the type's earlier cached emits with `isEmitOnce`); the delivery watcher, the log and the recorded replies |
| Channel.AsyncEventChannel.CancelEmit | src/index.ts:339-342 | a cached emit and its delivery watcher are removed, and the result says whether it was still cached; a synchronous emit is untouched |
| Channel.AsyncEventChannel.Off | src/index.ts:409-446 | throws without types; otherwise removes exactly the listeners and cached emits of the types and returns their ids in removal order |
| Channel.AsyncEventChannel.ImmedOnce | src/index.ts:507-536 | listens once if and only if an emit of the type is cached; otherwise only the register note is logged |
| Channel.AsyncEventChannel.EmitNow | src/index.ts:538-542 | `#immedEmit`: the synchronous replies; an emit that would be cached is cancelled at once, so the cache keeps only what the `isEmitOnce` sweep left |
| Channel.AsyncEventChannel.ImmedEmit | src/index.ts:549-566 | `#immedEmit` between its `immedEmit` register and run notes |
| Channel.AsyncEventChannel.Watch | src/index.ts:648-668 | fresh id; a watch that receives, with its type filter, every note logged from now on |
| Channel.AsyncEventChannel.Unwatch | src/index.ts:664-667 | the watch stops receiving notes; the result says whether it was live |
| Channel.AsyncEventChannel.HasId | src/index.ts:675-683 | true if and only if the id is this channel's and names a stored listener, a cached emit or a live watch |
| Channel.AsyncEventChannel.HasType | src/index.ts:690-698 | `has` if and only if a listener or a cached emit of the type is stored |
| Channel.TypeIdsOfMeaning | src/index.ts:690-698 | `onIds` / `emitIds` hold exactly the ids of the stored items of the type |
| Channel.AsyncEventChannel.Deliver | src/index.ts:331-337 | one queued delivery: the listener's reply appended to the emit's values, a `once` listener removed, the emit and its guard removed from the cache, the notes logged; the delivery watchers are untouched |
| Channel.AsyncEventChannel.Flush | src/index.ts:331-337 | runs the queued deliveries in queue order: the listeners, the cache and its guards, the values and the log end as `Deliver` applied to each queued delivery in turn leaves them |
| Channel.UncachedGone | src/index.ts:331-337 | after the queued deliveries, none of their emits is still cached |
| Channel.OnceDroppedGone | src/index.ts:331-337 | after the queued deliveries, none of their `once` listeners is still stored |
| Registry.RepliedValues | src/index.ts:331-337 | after the queued deliveries, each emit's values are the ones it had, then one reply per delivery of that emit, in queue order |
| LegacyChannel.LegacyEventChannel.constructor | src/index.js:88-98 | a new channel stores nothing, with counter 0 and its options |
| LegacyChannel.LegacyEventChannel.NextId | src/index.js:118 | `++this.#processId` |
| LegacyChannel.LegacyEventChannel.Listen | src/index.js:111-165 | `on`/`once`: the same as `src/index.ts`, except that the emits it picks up leave the cache at once and the guards follow the legacy delete rule |
| LegacyChannel.LegacyEventChannel.CancelListen | src/index.js:122 | `#listener.delete(item)`: the item removed; the guards and notes as the legacy delete leaves them |
| LegacyChannel.LegacyEventChannel.Emit | src/index.js:167-255 | the replies; whether it is cached; the cache, its guards, the delivery watcher and the log |
| LegacyChannel.LegacyEventChannel.CancelEmit | src/index.js:198-201 | a cached emit and its delivery watcher go, and the result says whether it was still cached |
| LegacyChannel.LegacyEventChannel.SyncEmit | src/index.js:315-322 | the synchronous replies; the emit is never left in the cache |
| LegacyChannel.LegacyEventChannel.Off | src/index.js:257-296 | throws without types; otherwise removes exactly the items of the types and returns their ids |
| LegacyChannel.LegacyEventChannel.Watch | src/index.js:358-370 | a watch that receives every note logged from now on |
| LegacyChannel.LegacyEventChannel.Unwatch | src/index.js:369 | the watch stops receiving notes |
| LegacyChannel.LegacyEventChannel.Deliver | src/index.js:192-195 | one queued delivery: the reply appended and the emit's run logged |
| LegacyChannel.LegacyEventChannel.Flush | src/index.js:192-195 | runs the queued deliveries in queue order: the listeners, their guards, the log and the values end as `Deliver` applied to each queued delivery in turn leaves them |
| LegacyState.LDeliveredGone | src/index.js:192-195 | after the queued deliveries, none of their `once` listeners is still stored |
| LegacyState.LDelGone | src/index.js:25-40 | after a delete, the id is not stored |
| LegacyState.SiblingGuardLost | src/index.js:25-40 | deleting two listeners of one type logs the `cancel` of the first only |
| LegacyState.LDelKeptGuarded | src/index.ts:37-56 | with the `src/index.ts` rule, a delete keeps every persistent guard |
| LegacyState.SiblingGuardKept | src/index.ts:37-56 | with the `src/index.ts` rule, both `cancel` notes are logged |
| LegacyScope.LegacyChannelScope.constructor | src/index.js:378-381 | a new scope has recorded nothing |
| LegacyScope.LegacyChannelScope.Listen | src/index.js:388-394 | `on`/`once` of the channel, the channel changing exactly as its `on`/`once` does, with the cancel recorded last |
| LegacyScope.LegacyChannelScope.Emit | src/index.js:388-394 | `emit` of the channel, the channel changing exactly as its `emit` does, with the cancel recorded last |
| LegacyScope.LegacyChannelScope.CancelOne | src/index.js:398 | one cancel: a listener deleted (its guards and notes as the legacy delete leaves them), or a cached emit deleted with its delivery watcher, or nothing for an emit that was not cached; nothing else changes, and what was removed before stays removed |
| LegacyScope.LegacyChannelScope.Cancel | src/index.js:397-400 | the recorded cancels called in order: listeners, cache, guards, delivery watchers and notes end as each cancel in turn leaves them, nothing else changes, no recorded listener or cached emit is still stored, and the record is empty |
| LegacyScope.LegacyChannelScope.CancelAll | src/index.js:398 | the loop over `cancels`: the channel ends as each recorded cancel in turn leaves it, and no recorded listener or cached emit is still stored |
| TaskQueue.TaskList | src/index.js:477 | the tasks in the order of the declared types |
| TaskQueue.PipeThreads | src/index.js:462-488 | when every task resolves, the run ends with the last value, each task having received the value before it |
| TaskQueue.PipeStopsAtError | src/index.js:477-483 | the first rejection ends the run with its error, and later tasks do not run |
| TaskQueue.DriveIsPipe | src/index.js:468-485 | without a cancel, the step-by-step loop is the pipeline |
| TaskQueue.AsyncTaskQueue.constructor | src/index.js:422-428 | a new queue has no tasks, is not loaded and is not running |
| TaskQueue.AsyncTaskQueue.Create | src/index.js:422-428 | throws exactly for an empty type list |
| TaskQueue.AsyncTaskQueue.On | src/index.js:434-449 | throws for an undeclared type and then for a missing callback; a type's first task is kept; the last missing task loads the queue, starts it with `oneAuto` and calls the `onLoad` callback |
| TaskQueue.AsyncTaskQueue.Register | src/index.js:443-448 | the task is stored, loading and starting as `on` says |
| TaskQueue.AsyncTaskQueue.OnLoad | src/index.js:454-456 | the callback replaces the previous one |
| TaskQueue.AsyncTaskQueue.Start | src/index.js:462-467 | starts if and only if idle and loaded, calling the first task |
| TaskQueue.AsyncTaskQueue.Step | src/index.js:468-487 | after one await: the run ends in error, in cancel or with the value, or the next task is called; the rest of the run is unchanged |
| TaskQueue.AsyncTaskQueue.Settle | src/index.js:468-487 | the run in progress driven to its end |
| TaskQueue.AsyncTaskQueue.Run | src/index.js:462-488 | an uninterrupted `start` ends as the pipeline of the declared tasks |
| TaskQueue.AsyncTaskQueue.Cancel | src/index.js:492-494 | sets the cancel flag |
| TaskQueue.AsyncTaskQueue.LoadedWhenAllRegistered | src/index.js:444-445 | with distinct types, loaded if and only if every type has its task |
| TaskQueue.AsyncTaskQueue.RepeatedTypeNeverLoads | src/index.js:444-445 | a type declared twice keeps the queue from loading |
| ScopeRules.ModeOf | src/index.ts:754-760 | both lists given throw; otherwise include, exclude or a plain view |
| ScopeRules.Asserts | src/index.ts:776-793 | the router throws its one message or routes to one of its two sides |
| ScopeRules.AssertsMeaning | src/index.ts:776-793 | the first item of the type decides: `handlers: true` or the handler listed routes to `yes`, otherwise it throws; with none of the type the route is `no` |
| ScopeRules.AssertsListed | src/index.ts:776-793 | an unlisted type goes to `no`; a listed one throws or goes to `yes` |
| ScopeRules.RouteAgreesWithCtx | src/index.ts:762-797 | every routed operation goes to the channel `getCtx` picks; only a listed type fails |
| ScopeRules.OkPrefix | src/index.ts:831-835 | the leading types that `off` routes before it throws |
| ScopeRules.OffStep | src/index.ts:831-835 | one more type: its ids join the side it goes to, the other side unchanged |
| ScopeRules.PlainSides | src/index.ts:825-837 | without a list every type of `off` goes to the main channel and none to the sub channel |
| ScopeRules.PlainOff | src/index.ts:825-837 | without a list, the ids the scope's `off` collects are exactly the main channel's ids of the items the channel's `off` removes type by type |
| ScopeRules.OffOne | src/index.ts:832 | `off(type)` of one type removes exactly the items of that type |
| ScopeRules.SetRun | src/index.ts:799-806 | `runs.set`: a new id goes last; a recorded id keeps its place and takes the new cancel |
| ScopeRules.Record | src/index.ts:799-806 | recording a callable cancel keeps every record callable |
| Scope.ChannelScope.constructor | src/index.ts:740-761 | a scope over `ctx` and, with a list, `_ctx`, with nothing recorded |
| Scope.ChannelScope.Create | src/index.ts:753-761 | throws exactly when both lists are given; with a list, `_ctx` is a new empty channel with the options of `ctx` and an id of its own |
| Scope.ChannelScope.RecordRun | src/index.ts:799-806 | `runs.set(run.id, run.cancel)` |
| Scope.ChannelScope.Listen | src/index.ts:813-818 | `on` (and `once`, lines 838-843): throws exactly when the router refuses `'on'`, changing nothing; otherwise the routed channel changes exactly as its `on`/`once` does, the other is untouched, and the cancel is recorded |
| Scope.ChannelScope.Emit | src/index.ts:819-824 | throws exactly when the router refuses `'emit'`, changing nothing; otherwise the routed channel changes exactly as its `emit` does, the other is untouched, and the cancel is recorded |
| Scope.ChannelScope.Watch | src/index.ts:872-876 | `watch(type, cb)`: throws exactly when the router refuses `'watch'`; otherwise one watch of the type on the routed channel, recorded |
| Scope.ChannelScope.WatchAll | src/index.ts:877-886 | `watch(cb)`: one watch on `ctx` and, when there is one, on `_ctx`, with one cancel recorded under the id of the watch on `ctx` |
| Scope.ChannelScope.ImmedOnce | src/index.ts:844-847 | throws exactly when the router refuses `'on'`; otherwise the routed channel changes exactly as its `immedOnce` does, the other is untouched, and nothing is recorded |
| Scope.ChannelScope.ImmedEmit | src/index.ts:848-851 | throws exactly when the router refuses `'emit'`; otherwise the routed channel changes exactly as its `immedEmit` does, the other is untouched, and nothing is recorded |
| Scope.ChannelScope.HasId | src/index.ts:888-891 | true if and only if `ctx` or `_ctx` has the id |
| Scope.ChannelScope.HasType | src/index.ts:892-894 | asked of the channel `getCtx` picks for the type |
| Scope.ChannelScope.Off | src/index.ts:825-837 | throws without types, and at the first type the router refuses, after removing the types before it; each channel loses exactly the items of the types routed to it, with one `off` report per type; otherwise the ids gathered type by type |
| Scope.ChannelScope.OffSide | src/index.ts:832 | `off(t)` on the routed channel: its items of type `t` go, with their notes, and the other channel is untouched |
| Scope.ChannelScope.CancelOne | src/index.ts:879-884 | one recorded cancel undoes its run on its channel (for `watch(cb)`, `_ctx`'s watch first): a listener deleted, or a cached emit deleted with its delivery watcher, or a watch closed, with their notes; nothing else of the channels changes, and what was undone before stays undone |
| Scope.ChannelScope.Cancel | src/index.ts:969-972 | the recorded cancels called in order: each channel ends as each cancel in turn leaves it, the items made, the queue and the values are unchanged, no recorded run is left live, and the record is cleared |
| Scope.ChannelScope.CancelAll | src/index.ts:970 | the loop over `runs`: the channels end as each recorded cancel in turn leaves them, and none of the recorded runs is left live |
| ImportSort.Compare | src/index.ts:142-146 | negative, zero or positive as the first item's counter is below, equal to or above the second's |
| ImportSort.ImportOrderSorted | src/index.ts:141-147 | after the sort, the counters never go down, and the items are a permutation of the input |
| ImportSort.ImportOrderStable | src/index.ts:141-147 | items with equal counters keep their relative order |

## Left out

- Real promise timing: a microtask is a queued delivery that `Deliver` runs; interleaving with other microtasks is not modelled.
- `asyncEmit` (both variants): it only wraps `emit` in a `Promise` whose resolve and reject depend on promise timing.
- Re-entrancy: a listener or watch callback that calls back into the channel is not modelled.
- `export`, `import` and `#currentData` (`src/index.ts:202-211` and `704-729`, and the scope's `895-962`): `import` replays exported records by dynamic dispatch on their event name. Only its ordering, `importParamSsort`, is modelled.
- `useCreateEventChannel` and the `Proxy` around the scope's view: only the operations the view forwards are modelled.
- The argument checks `asserts_on`, `asserts_emit`, `asserts_watch`, `asserts_hasId` and `asserts_ctx`: callbacks, event types, ids and channels are typed values here, so these checks cannot fail.
- The constructor's checks that `options` is an object and `optionsMap` a `Map`, for the same reason.
- Channel.AsyncEventChannel.Watch: a watch callback has no identity here. An untyped `watch(cb)` in `src/index.ts:652-657` stores the function object itself in a `Set` and writes the new id onto it. Watching one function twice therefore keeps one entry, carrying the later id, and either unwatch removes it. The model gives every watch its own record and live key, so `HasId` of the earlier id stays true.
- Channel.AsyncEventChannel.HasId: for the same reason, it answers by each watch's own key, not by the id last written onto a shared callback.
- Scope.ChannelScope.WatchAll: the one wrapper `_cb` that `watch(cb)` hands first to `ctx` and then to `_ctx` (`src/index.ts:877-885`) is two independent watches here. In the source its `id` ends up as `_ctx`'s, so `hasId` of the returned id is false; here it is true.
- LegacyChannel.LegacyEventChannel.Watch: the callbacks are not kept as a `Set` of function objects (`src/index.js:364-369`). A callback watched twice is one entry there and two watches here, and one unwatch closes only one of them here.
- The `value` field of a watch notification (the run, the callback, the parameters, the replies, the `off` totals or `true`, by event; `src/index.ts:259-442`, `src/index.js:141-292`) is not part of `Note`. A note keeps the id, the event, the stage and the type, so the payload a watch callback is handed is not modelled.
- Scope.ChannelScope.Cancel: the emit cache's delete watchers are bound only by the channel invariant, which guards every cached emit. They are not stated beyond that. The listener set's delete watchers are fixed by its items.
- Scope.ChannelScope.CancelOne: the same holds for the emit cache's delete watchers after one cancel.
- Scope.ChannelScope.WatchAll: does not apply the include/exclude filter that the scope's untyped `watch` puts on the notes it passes on (`src/index.ts:862-871`).
- The static channel counter `AsyncEventChannel.#id`: a channel's id is a constructor parameter.
- The id string format `"<channel>:<n>"` is the pair `ProcessId(channel, n)`.
- ImportSort.ImportOrder: models the in-place `Array.prototype.sort` as a function on values. An id whose counter is not a number (a `NaN` comparison) is not modelled.
- Callback return values and thrown exceptions: a listener's reply is `call(cb, params)`. A listener that throws is not modelled.
- TaskQueue.AsyncTaskQueue.Step: does not model a task that throws synchronously. The source then rejects without clearing `#isRunning`.
- The test files and the build configuration are not part of this model.

## Findings

| source | as written | input that shows it | evidently intended | confidence | as-written member | corrected member |
|---|---|---|---|---|---|---|
| src/index.js:25-40 | `delete` drops every typed delete watcher of the deleted item's type after calling it, including the persistent `watch_delete` guards that `on` and `emit` register for their own items | two listeners of one type, then both `run.cancel()` calls: the second item's guard was dropped by the first delete, so its `cancel` notification is never sent | drop only one-shot watchers, as `src/index.ts:37-56` does | not executed | LegacyState.SiblingGuardLost | LegacyState.SiblingGuardKept |
