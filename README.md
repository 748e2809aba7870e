# Signals: a verified model of the reactive core

The library keeps values in **signals**. A signal has a getter and a setter.
An **effect** is a callback that runs once immediately and runs again after any
signal it read is written. A **derived** signal computes its value from other
signals. Writes are batched: the first write in a turn queues one microtask,
and that microtask (the **flush**) runs the subscribers of every signal
written since. `tick()` returns a promise that resolves when the pending
flush has run.

This project models the two engines of the library:

- `src/signal/signals.ts`, the current engine. It has `signal` with an
  optional `onSubscribe` hook, `effect` with a stack of running effects,
  `derived` with its inner effect, `tick`, and a flush that runs each effect
  at most once.
- `src/signal/function/create-signal.ts`, the older engine. It has
  `createSignal` and `createEffect` with a single "current effect" slot, and
  a flush with no deduplication.

Each engine is modelled three times.

1. A **class** whose fields are the module-level variables plus the closure
   state of every signal and effect: `Signals.Engine` and
   `CreateSignal.Module`. Each method updates the fields in place, and the
   loops of the flush and of the unsubscribe function stay loops. Each method
   is proved equal to a function of the model on the abstract state `Abs()`.
2. A **functional model** over values: `SignalsModel` and
   `CreateSignalModel`. Every operation is a function from state to state.
   Its contract says what it changes and what it keeps.
3. **Properties** that relate several operations: `SignalsProps` and
   `CreateSignalProps`. These include the invariant that every public
   operation keeps, read-after-write, the unsubscribe round trip and
   idempotence, and what a flush runs. `SignalsReads` gives every read the
   value its cell denotes and its exact cost in `calculate` calls, inside an
   effect or not, and `SignalsScenarios` replays the derived-signal tests of
   `src/signal/signals.test.js` step by step.

How the model represents the source:

- Closures are identified by numbers. A cell id (`SigId`) stands for the
  getter and setter pair of one signal or derived signal. An effect id
  (`EffId`) stands for a callback.
- A remover closure is the value `Remover(cell, effect)` in `signals.ts`, and
  the cell id in `create-signal.ts`.
- A JavaScript `Set` is a sequence without repeats, kept in insertion order
  (`OrderedSet`).
- A user callback is a script of getter and setter calls (`Instr`).
- A derived signal's `calculate` reads a fixed list of dependencies in order
  and then applies a pure `combine` function.
- `queueMicrotask` is a counter of queued flushes. The flush itself is the
  operation `Notify`, which the caller invokes from an empty call stack. The
  tick promise is also a pair of counters: promises created and promises
  resolved.

## Model

| member | source | states |
|---|---|---|
| OrderedSet.Add | src/signal/signals.ts:53 | `Set.add`: the result holds exactly the old members plus `x`, has no repeats, and keeps the old order with `x` appended when it is new |
| OrderedSet.Delete | src/signal/signals.ts:58 | `Set.delete`: the result holds exactly the old members minus `x`, has no repeats, one member fewer when `x` was present, and is unchanged when it was not |
| OrderedSet.DeleteKeepsOrder | src/signal/signals.ts:58 | `Set.delete` of a member removes it at its one position and keeps the remaining members in their insertion order |
| SignalsModel.Init | src/signal/signals.ts:3-7 | the module as loaded is well formed: empty stack, nothing processed, no microtask queued |
| SignalsModel.NewSignal | src/signal/signals.ts:46-49 | `signal(v, hook)` appends a plain cell holding `v` with no subscribers and no cleanup, and returns its id; earlier cells and all effects are unchanged |
| SignalsModel.NewDerived | src/signal/signals.ts:122-125 | `derived(calculate)` appends a derived cell with no value yet and returns its id; nothing else changes |
| SignalsModel.Tick | src/signal/signals.ts:27-29 | the tick promise is already resolved exactly when no flush is queued |
| SignalsModel.Schedule | src/signal/signals.ts:69-74 | the written cell's set joins `awaiting`; a new tick promise is created only when no microtask was queued; cells and effects are untouched |
| SignalsModel.SetSignal | src/signal/signals.ts:67-75 | the setter stores the value in its cell and changes no other cell and no effect; the cell joins `awaiting`; a microtask is queued, and a new tick promise is created exactly when none was queued |
| SignalsModel.Get | src/signal/signals.ts:50-66 | a plain getter returns the current value; outside every effect a read changes nothing that a denotation depends on; the cell's stored value is the returned one; the value returned, inside an effect or not, is what the cell denotes (`SignalsReads.GetOk`) |
| SignalsModel.TrackPlain | src/signal/signals.ts:51-65 | inside an effect: the top effect joins the subscriber set; `onSubscribe` fires and its cleanup is kept when the set then has exactly one member; one remover is recorded; the value is returned unchanged; other cells are untouched |
| SignalsModel.SubscribeHook | src/signal/signals.ts:54-56 | the hook call and its count happen exactly when a hook exists and the set has one member; a cleanup is held afterwards only for a hook that returned one |
| SignalsModel.ColdRead | src/signal/signals.ts:153-156 | a derived read outside any effect recomputes once and stores the result; nothing else changes; the value is the denotation (`SignalsReads.ColdReadOk`) |
| SignalsModel.TrackDerived | src/signal/signals.ts:127-152 | a derived read inside an effect subscribes the top effect and recomputes once; on the first subscriber it creates and runs the inner effect, holds it as cleanup and enqueues the cell; it records the remover; the value returned is the denotation (`SignalsReads.TrackDerivedOk`) |
| SignalsModel.SubscribedDerived | src/signal/signals.ts:130-145 | with one subscriber the cell is activated; otherwise the cleanup is kept; `calculate` runs exactly once either way; the value is the denotation (`SignalsReads.SubscribedDerivedOk`) |
| SignalsModel.Activate | src/signal/signals.ts:130-142 | the new effect is the next id, runs once, becomes the cell's cleanup, and the cell is enqueued with a microtask queued; the value is the denotation (`SignalsReads.ActivateOk`) |
| SignalsModel.TrackedRecompute | src/signal/signals.ts:143-145 | the value is recomputed and stored; subscribers and cleanup stay the same; the value is the denotation (`SignalsReads.TrackedRecomputeOk`) |
| SignalsModel.Calculate | src/signal/signals.ts:131-132 | `calculate()` is counted once, and the cell itself is otherwise unchanged by its dependency reads; the result is `combine` of the dependencies' denotations (`SignalsReads.CalculateOk`) |
| SignalsModel.ReadDeps | src/signal/signals.ts:132 | the dependency reads from position `k` return one value per remaining dependency; outside effects they change nothing a denotation depends on; the values are the dependencies' denotations, inside an effect or not (`SignalsReads.ReadDepsOk`) |
| SignalsModel.CreateInner | src/signal/signals.ts:131-142 | the inner effect gets the next id, has body `Inner(c)`, runs exactly once and leaves `c` with a value, enqueued; the value cached is the denotation (`SignalsReads.CreateInnerOk`) |
| SignalsModel.InnerBody | src/signal/signals.ts:132-141 | the inner callback recomputes the cell once, stores the value, and enqueues the cell's set whether or not the value changed; the value stored is the denotation (`SignalsReads.InnerBodyOk`) |
| SignalsModel.CacheIfChanged | src/signal/signals.ts:133-135 | after the comparison the cache holds the new value; subscriptions are untouched |
| SignalsModel.CreateEffect | src/signal/signals.ts:98-104 | `effect(cb)` returns the next effect id, whose body is the script and which has run exactly once; the stack is restored; older effects keep their call counts; the new effect ends subscribed to every cell its callback read (`SignalsReads.CreateEffectOk`) |
| SignalsModel.Invoke | src/signal/signals.ts:98-104 | one call of an effect, at its creation (line 101) or in a flush (line 13): its own call count goes up by one and no other effect's does; a derived cell's inner callback leaves later cells alone; called from a flush it changes no subscription and creates no effect |
| SignalsModel.Step | src/signal/signals.ts:50-75 | one getter or setter call inside a callback keeps the state well formed and changes no call count; from an empty stack it changes no subscription |
| SignalsModel.RunScript | src/signal/signals.ts:101 | a callback's getter and setter calls keep the state well formed and run no other effect; from an empty stack they change no subscription; inside an effect they subscribe it to every cell read (`SignalsReads.RunScriptOk`) |
| SignalsModel.Unsubscribe | src/signal/signals.ts:103 | the returned function runs every remover of `e`; afterwards `e` is in no set it had subscribed to, every other user effect keeps its subscriptions, held cleanups keep a subscriber, and each hook cleanup is counted exactly once when it is dropped; every derived cell left with no subscriber has had its inner effect unsubscribed in turn, however deep the chain (`Cascaded`, lines 146-152) |
| SignalsModel.RunRemovers | src/signal/signals.ts:103 | the `forEach` over removers from position `i` on: each named effect leaves its named set, the cleanups dropped on the way are counted exactly, and user effects not named keep their subscriptions |
| SignalsModel.Remove | src/signal/signals.ts:57-63 | a remover deletes the effect from one set, keeping the order of the others; the cleanup runs and is dropped exactly when one was held and the set became empty; a hook cleanup is counted then; no other user subscription is lost |
| SignalsModel.Notify | src/signal/signals.ts:9-22 | the flush changes no subscription, no `cleanup`, no cell's kind and no callback, runs each effect at most once, runs every subscriber of every awaiting set exactly once, runs no effect that is in no set, then clears the scheduler and resolves the tick |
| SignalsModel.NotifyFrom | src/signal/signals.ts:10-17 | the outer loop from set `i` on also sees sets added while it runs; every subscriber of those sets ends up processed, and every effect that ran was processed there and was subscribed |
| SignalsModel.NotifySet | src/signal/signals.ts:11-16 | the inner loop runs each not-yet-processed member once and adds the members to `processed` |
| SignalsModel.FlushCleared | src/signal/signals.ts:18-21 | the end of a flush: `awaiting` and `processed` are empty, no microtask is queued, and one more tick is resolved |
| Signals.Engine.constructor | src/signal/signals.ts:3-7 | the fields as loaded equal the model's initial state |
| Signals.Engine.NewSignal | src/signal/signals.ts:46-49 | the field update equals `SignalsModel.NewSignal` |
| Signals.Engine.NewDerived | src/signal/signals.ts:122-125 | the field update equals `SignalsModel.NewDerived` |
| Signals.Engine.Tick | src/signal/signals.ts:27-29 | returns the model's current tick promise |
| Signals.Engine.SetSignal | src/signal/signals.ts:67-75 | the in-place update equals `SignalsModel.SetSignal` |
| Signals.Engine.Schedule | src/signal/signals.ts:69-74 | the in-place update equals `SignalsModel.Schedule` |
| Signals.Engine.Get | src/signal/signals.ts:50-66 | the getter's in-place effect and result equal `SignalsModel.Get`, for plain and derived cells |
| Signals.Engine.TrackPlain | src/signal/signals.ts:51-65 | equals `SignalsModel.TrackPlain` |
| Signals.Engine.ColdRead | src/signal/signals.ts:153-156 | equals `SignalsModel.ColdRead` |
| Signals.Engine.TrackDerived | src/signal/signals.ts:127-152 | equals `SignalsModel.TrackDerived` |
| Signals.Engine.SubscribedDerived | src/signal/signals.ts:130-145 | equals `SignalsModel.SubscribedDerived` |
| Signals.Engine.Activate | src/signal/signals.ts:130-142 | equals `SignalsModel.Activate` |
| Signals.Engine.TrackedRecompute | src/signal/signals.ts:143-145 | equals `SignalsModel.TrackedRecompute` |
| Signals.Engine.Calculate | src/signal/signals.ts:131-132 | equals `SignalsModel.Calculate` |
| Signals.Engine.ReadDeps | src/signal/signals.ts:132 | the loop over the dependencies returns the same values and state as `SignalsModel.ReadDeps` |
| Signals.Engine.CreateInner | src/signal/signals.ts:131-142 | equals `SignalsModel.CreateInner` |
| Signals.Engine.CreateEffect | src/signal/signals.ts:98-104 | the push, run and pop equal `SignalsModel.CreateEffect` |
| Signals.Engine.RunScript | src/signal/signals.ts:101 | equals `SignalsModel.RunScript` |
| Signals.Engine.Invoke | src/signal/signals.ts:98-104 | the in-place call of an effect equals `SignalsModel.Invoke` |
| Signals.Engine.Step | src/signal/signals.ts:50-75 | one getter or setter call in place equals `SignalsModel.Step` |
| Signals.Engine.InnerBody | src/signal/signals.ts:132-141 | equals `SignalsModel.InnerBody` |
| Signals.Engine.Unsubscribe | src/signal/signals.ts:103 | the `forEach` over the removers equals `SignalsModel.Unsubscribe` |
| Signals.Engine.Remove | src/signal/signals.ts:57-63 | equals `SignalsModel.Remove` |
| Signals.Engine.Notify | src/signal/signals.ts:9-22 | the nested loops over the live `awaiting` set equal `SignalsModel.Notify` |
| Signals.Engine.RunSubscribers | src/signal/signals.ts:11-16 | the inner loop over one subscriber set equals `SignalsModel.NotifySet` from its start |
| SignalsProps.InitCoherent | src/signal/signals.ts:3-7 | the initial state is coherent: well formed, every subscription has its remover, every held cleanup has a subscriber, and no flush is in progress |
| SignalsProps.NewSignalCoherent | src/signal/signals.ts:46-49 | `signal` keeps coherence |
| SignalsProps.NewDerivedCoherent | src/signal/signals.ts:122-125 | `derived` keeps coherence |
| SignalsProps.SetSignalCoherent | src/signal/signals.ts:67-75 | a write keeps coherence |
| SignalsProps.GetCoherent | src/signal/signals.ts:50-66 | a read keeps coherence |
| SignalsProps.CreateEffectCoherent | src/signal/signals.ts:98-104 | `effect` keeps coherence |
| SignalsProps.UnsubscribeCoherent | src/signal/signals.ts:103 | unsubscribing keeps coherence |
| SignalsProps.NotifyCoherent | src/signal/signals.ts:9-22 | a flush keeps coherence |
| SignalsProps.ReadAfterWrite | src/signal/signals.test.js:7-10 | a getter right after its setter returns the value written, with no flush between and whatever effects are running |
| SignalsProps.CleanupsBounded | src/signal/signals.ts:41-43 | the hook's cleanup runs at most as often as the hook, and strictly less often while a cleanup is held |
| SignalsProps.UnsubscribeDetaches | src/signal/signals.ts:103 | when every subscription has its remover, an unsubscribed effect is left in no subscriber set |
| SignalsProps.UnsubscribedNotRun | src/signal/signals.test.js:88-93 | an effect unsubscribed before the flush is not run by it, even when its signal was written earlier |
| SignalsProps.RunRemoversNoop | src/signal/signals.ts:57-63 | removers whose effect has already gone change nothing while every held cleanup has a subscriber |
| SignalsProps.UnsubscribeIdempotent | src/signal/signals.ts:103 | calling an unsubscribe function twice is the same as calling it once |
| SignalsProps.UnsubscribeHookCleanup | src/signal/signals.ts:57-63 | unsubscribing (line 103) runs a cell's hook cleanup exactly once when the cell held one and is left with no subscriber, and otherwise not at all |
| SignalsProps.RemoveHookCleanup | src/signal/signals.ts:57-63 | the same exact cleanup count for one remover closure |
| SignalsProps.UnsubscribeKeepsOthers | src/signal/signals.ts:57-63 | unsubscribing (line 103) one effect takes no other user effect off any set |
| SignalsProps.DerivedCooling | src/signal/signals.ts:146-152 | when the last subscriber of a derived cell goes, its inner effect is removed from everything it read and the cleanup is cleared |
| SignalsProps.CreateEffectReadOnce | src/signal/signals.ts:98-104 | `effect(() => get())` is that one read made with the new effect on top, followed by the pop |
| SignalsProps.RunScriptRead | src/signal/signals.ts:101 | a callback that makes one read is that read |
| SignalsProps.PlainReadFacts | src/signal/signals.ts:51-65 | a tracked plain read subscribes the effect, fires the hook on a set of one, and records one remover |
| SignalsProps.StartedRead | src/signal/signals.ts:98-104 | the tracked read made by a new effect's callback, seen from before the effect was created |
| SignalsProps.EffectReadingPlain | src/signal/signals.ts:98-104 | `effect(() => get())` on a plain cell subscribes exactly the new effect and changes nothing else |
| SignalsProps.UnsubscribeSingle | src/signal/signals.ts:103 | unsubscribing an effect that made one read runs that one remover |
| SignalsProps.HookCounts | src/signal/signals.test.js:31-34 | the subscribe and cleanup counts over two effects that each read the hooked signal once |
| SignalsProps.HookWithTwoEffects | src/signal/signals.test.js:14-39 | the hook test: after effects A and B and unsubscribing B then A, the counts (subscribe, cleanup) go (1,0), (1,0), (1,0), (1,1) |
| SignalsProps.TwoWritesOneTick | src/signal/signals.ts:70-74 | two writes in a row create at most one tick promise, exactly one when none was pending, and the tick is then unresolved |
| SignalsProps.WriteEnqueues | src/signal/signals.ts:69 | a write appends its signal's set to `awaiting` when the set is not there, and leaves `awaiting` unchanged when it is |
| SignalsProps.FlushResolvesTick | src/signal/signals.test.js:85-87 | after the flush, the promise that `tick()` returned before it is resolved and no new one is pending |
| SignalsReads.GetOk | src/signal/signals.ts:126-157 | every getter call (the plain one at lines 50-66 too), plain or derived, inside an effect or not, returns what the cell denotes (its value, or `calculate` over its dependencies' denotations), changes no plain value, costs exactly one read in `calculate` calls, changes no effect but the reader, and leaves the reader subscribed |
| SignalsReads.ColdReadOk | src/signal/signals.ts:153-156 | a derived read outside every effect returns the denotation and recomputes once, even while the cell has subscribers |
| SignalsReads.TrackDerivedOk | src/signal/signals.ts:127-152 | a derived read inside an effect returns the denotation, costs one read, and subscribes the reader |
| SignalsReads.SubscribedDerivedOk | src/signal/signals.ts:130-145 | after the subscription, the value returned is the denotation whether the cell is activated or only recomputed |
| SignalsReads.ActivateOk | src/signal/signals.ts:130-142 | on the first subscriber the value returned is the denotation and no older effect changes |
| SignalsReads.TrackedRecomputeOk | src/signal/signals.ts:143-145 | a recompute with subscribers present returns the denotation and costs one read |
| SignalsReads.CreateInnerOk | src/signal/signals.ts:131-142 | the new inner effect caches the denotation, changes no older effect, and is subscribed to every dependency |
| SignalsReads.InnerBodyOk | src/signal/signals.ts:132-141 | the inner callback caches the denotation, costs one read, and subscribes the running effect to every dependency |
| SignalsReads.CalculateOk | src/signal/signals.ts:131-132 | `calculate()` returns the denotation, costs one read, and subscribes the reader to every dependency |
| SignalsReads.ReadDepsOk | src/signal/signals.ts:132 | the dependency reads from position `k` return the dependencies' denotations in order and cost one read each |
| SignalsReads.StepOk | src/signal/signals.ts:50-75 | one getter or setter call of a callback changes no kind, costs one read for a getter and nothing for a setter, and subscribes the running effect to what it read |
| SignalsReads.RunScriptOk | src/signal/signals.ts:101 | a callback's calls cost their reads one by one and leave the running effect subscribed to every cell read |
| SignalsReads.InvokeOk | src/signal/signals.ts:98-104 | one run of an effect, at creation or in a flush, costs what its callback's reads cost, changes no other effect, and at creation subscribes a user effect to every cell its callback read |
| SignalsReads.CreateEffectOk | src/signal/signals.ts:98-104 | `effect(cb)` costs what `cb`'s reads cost, changes no older effect, and subscribes the new effect to every cell `cb` read |
| SignalsReads.NotifySetCost | src/signal/signals.ts:11-16 | the inner loop of a flush costs one run of each effect it ran |
| SignalsReads.NotifyFromCost | src/signal/signals.ts:10-17 | the outer loop of a flush from set `i` on costs one run of each effect it ran |
| SignalsReads.NotifyCost | src/signal/signals.ts:9-22 | a flush raises every `calculate` count by what the effects that ran cost, each run once |
| SignalsScenarios.EffectOverChain | src/signal/signals.test.js:145-149 | `effect` reading `doubled` then `quadrupled` creates the user effect and the two inner effects in that order, with the subscriptions each makes, and enqueues `doubled` |
| SignalsScenarios.ChainEffectCounts | src/signal/signals.test.js:145-152 | that `effect` call recomputes `doubled` twice and `quadrupled` once |
| SignalsScenarios.ChainFlushCounts | src/signal/signals.test.js:156-168 | once the three effects exist, a write and the flush run each of them once and recompute `doubled` four and `quadrupled` two more times |
| SignalsScenarios.ChainScenario | src/signal/signals.test.js:145-168 | from any chain with no effect: the counts after the effect, after the write and after the flush go up by (2, 1), (2, 1) and (6, 3), with the effect run 1, 1 and 2 times |
| SignalsScenarios.ChainCells | src/signal/signals.test.js:132-143 | creating `count`, `doubled` and `quadrupled` gives a well formed state with the three cells, no value computed and no effect |
| SignalsScenarios.DerivedWithEffect | src/signal/signals.test.js:125-168 | the derived test with an effect: `calculate` counts and effect count are (2, 1, 1) after `effect`, still (2, 1, 1) after the write, and (6, 3, 2) after the flush |
| SignalsScenarios.DerivedUnsubscribed | src/signal/signals.test.js:170-180 | the tail of that test: the user effect is effect 0, the counts are (6, 3, 2) after the first flush, and they are still (6, 3, 2) after `unsubscribe`, a second write and its flush |
| SignalsScenarios.ChainRewritten | src/signal/signals.test.js:172-180 | the state after `unsubscribe`, the second write and its flush: no effect ran and no `calculate` was called since the first flush |
| SignalsScenarios.ChainTorn | src/signal/signals.ts:146-152 | unsubscribing the user effect of the chain empties `quadrupled`'s set, which unsubscribes its inner effect, which empties `doubled`'s set, which unsubscribes its inner effect: no cell keeps a subscriber |
| SignalsScenarios.ChainTeardown | src/signal/signals.test.js:172-180 | from any such chain after its first flush: the unsubscribe leaves no subscriber anywhere and changes no count, and a further write and its flush run no effect and call no `calculate` |
| SignalsScenarios.QuietWrite | src/signal/signals.ts:67-74 | with no subscriber anywhere, a write and the flush after it (lines 9-22) run no effect and call no `calculate` |
| SignalsScenarios.ChainFlushed | src/signal/signals.test.js:145-168 | the state the first flush of the chain leaves is well formed and linked, with the user effect subscribed to both derived cells and each derived cell holding its own inner effect as `cleanup` |
| SignalsScenarios.FlushRunsAwaiting | src/signal/signals.ts:9-22 | a flush runs every subscriber of every awaiting set exactly once |
| SignalsScenarios.WriteRerunsReader | src/signal/signals.ts:67-74 | an effect that read a plain cell at creation runs exactly once more in the flush (lines 9-22) after a write to that cell |
| SignalsScenarios.HookFirstRead | src/signal/signals.ts:127-152 | the first read of a derived cell inside an effect creates its inner effect, which becomes the only subscriber of the hooked dependency and fires its hook once |
| SignalsScenarios.HookEffect | src/signal/signals.test.js:62-63 | `effect(() => derivedSignal())` creates the user effect and the inner effect, each holding one remover, and fires the upstream hook once without running its cleanup |
| SignalsScenarios.HookWithDerived | src/signal/signals.test.js:41-66 | the hook test with a derived signal: after `effect` the counts (subscribe, cleanup) are (1, 0); after unsubscribing they are (1, 1) and both sets are empty |
| CreateSignalModel.ReadCells | src/signal/function/create-signal.ts:68-78 | the cells that a callback's getter calls read: exactly the targets of its `Read` steps |
| CreateSignalModel.Track | src/signal/function/create-signal.ts:69-76 | the effect in the slot joins the cell's subscribers and its unsubscribe set gains a remover for the cell; every other cell and effect is unchanged |
| CreateSignalModel.Counted | src/signal/function/create-signal.ts:12 | one more call of the effect; no subscription, slot or scheduler change |
| CreateSignalModel.Init | src/signal/function/create-signal.ts:6-7 | the module as loaded: empty slot, nothing awaiting, no microtask queued, well formed and linked |
| CreateSignalModel.NewSignal | src/signal/function/create-signal.ts:64-66 | appends a cell holding the initial value with no subscribers and returns its id; nothing else changes |
| CreateSignalModel.Get | src/signal/function/create-signal.ts:68-78 | returns the current value; with the slot empty nothing changes; with an effect in the slot it is `Track` |
| CreateSignalModel.Set | src/signal/function/create-signal.ts:80-87 | stores the value and keeps the subscribers; the set joins `awaitingNotify`; a microtask is queued only when none was; no subscription changes |
| CreateSignalModel.Step | src/signal/function/create-signal.ts:68-87 | one getter or setter call is a tracked run over the cells it reads |
| CreateSignalModel.RunScript | src/signal/function/create-signal.ts:44 | a callback body runs no effect and is a tracked run over exactly `ReadCells` of its remaining steps: the slot's effect gains those subscriptions and removers, in order |
| CreateSignalModel.Invoke | src/signal/function/create-signal.ts:12 | a call of an effect adds one to its count and none to any other, and tracks the reads of its callback under the current slot |
| CreateSignalModel.CreateEffect | src/signal/function/create-signal.ts:41-50 | the new effect ran once and holds one remover per read; it subscribes to exactly the cells its callback read; other effects are unchanged; the slot ends empty whatever it held before |
| CreateSignalModel.Started | src/signal/function/create-signal.ts:42-43 | the slot holds a new effect with an empty unsubscribe set |
| CreateSignalModel.Emptied | src/signal/function/create-signal.ts:48 | the slot is emptied and nothing else changes |
| CreateSignalModel.Unsubscribe | src/signal/function/create-signal.ts:45-47 | each cell the effect's removers name loses the effect from its subscribers, every other cell is unchanged, and effects and the scheduler are untouched |
| CreateSignalModel.RunRemovers | src/signal/function/create-signal.ts:46 | the removers from position `k` on delete the effect from exactly the cells they name |
| CreateSignalModel.Remove | src/signal/function/create-signal.ts:72-74 | one remover deletes the effect from one cell's set only |
| CreateSignalModel.DeleteTwice | src/signal/function/create-signal.ts:73 | deleting a member twice is deleting it once |
| CreateSignalModel.Notify | src/signal/function/create-signal.ts:9-17 | the flush changes no subscription; it runs each effect once per visited set that holds it, with no deduplication, visiting the sets awaiting at the start and any added during the flush; then `awaitingNotify` is empty and no microtask is queued |
| CreateSignalModel.NotifyFrom | src/signal/function/create-signal.ts:10-14 | the outer loop from set `i` on runs each effect once per set it meets in the live `awaitingNotify` |
| CreateSignalModel.NotifySet | src/signal/function/create-signal.ts:11-13 | the inner loop runs every member of one set once |
| CreateSignalModel.Cleared | src/signal/function/create-signal.ts:15-16 | the end of the flush: `awaitingNotify` is empty and no microtask is queued |
| CreateSignalModel.HitsSameLinks | src/signal/function/create-signal.ts:11 | how often a flush runs an effect depends only on the subscriber sets |
| CreateSignal.Module.constructor | src/signal/function/create-signal.ts:6-7 | the fields as loaded equal `CreateSignalModel.Init` |
| CreateSignal.Module.NewSignal | src/signal/function/create-signal.ts:64-66 | equals `CreateSignalModel.NewSignal` |
| CreateSignal.Module.Get | src/signal/function/create-signal.ts:68-78 | the getter's in-place update and result equal `CreateSignalModel.Get` |
| CreateSignal.Module.Track | src/signal/function/create-signal.ts:69-76 | equals `CreateSignalModel.Track` |
| CreateSignal.Module.Set | src/signal/function/create-signal.ts:80-87 | the setter's in-place update equals `CreateSignalModel.Set` |
| CreateSignal.Module.CreateEffect | src/signal/function/create-signal.ts:41-50 | the slot fill, the single call and the slot clearing equal `CreateSignalModel.CreateEffect` |
| CreateSignal.Module.RunScript | src/signal/function/create-signal.ts:44 | the loop over a callback's steps equals `CreateSignalModel.RunScript` |
| CreateSignal.Module.Invoke | src/signal/function/create-signal.ts:41-50 | the in-place call of an effect equals `CreateSignalModel.Invoke` |
| CreateSignal.Module.Unsubscribe | src/signal/function/create-signal.ts:45-47 | the loop over the unsubscribe set equals `CreateSignalModel.Unsubscribe` |
| CreateSignal.Module.Notify | src/signal/function/create-signal.ts:9-17 | the nested loops over the live `awaitingNotify`, then the clearing, equal `CreateSignalModel.Notify` |
| CreateSignal.Module.NotifyOne | src/signal/function/create-signal.ts:11-13 | one pass of the outer loop: runs every member of the set at position `i`, after which the flush from set `i + 1` on ends in the same state as the whole flush from its start |
| CreateSignal.Module.Clear | src/signal/function/create-signal.ts:15-16 | equals `CreateSignalModel.Cleared` |
| CreateSignalProps.InitCoherent | src/signal/function/create-signal.ts:6-7 | the initial module is coherent: well formed, every subscription undoable through its effect's unsubscribe set, slot empty |
| CreateSignalProps.LinkedTracked | src/signal/function/create-signal.ts:69-76 | every subscription a read adds comes with its remover |
| CreateSignalProps.NewSignalCoherent | src/signal/function/create-signal.ts:64-66 | `createSignal` keeps coherence |
| CreateSignalProps.GetCoherent | src/signal/function/create-signal.ts:68-78 | a read keeps coherence |
| CreateSignalProps.SetCoherent | src/signal/function/create-signal.ts:80-87 | a write keeps coherence |
| CreateSignalProps.CreateEffectCoherent | src/signal/function/create-signal.ts:41-50 | `createEffect` keeps coherence |
| CreateSignalProps.UnsubscribeCoherent | src/signal/function/create-signal.ts:45-47 | unsubscribing keeps coherence |
| CreateSignalProps.NotifyCoherent | src/signal/function/create-signal.ts:9-17 | a flush keeps coherence |
| CreateSignalProps.ReadAfterWrite | src/signal/function/create-signal.ts:65-87 | a getter after a setter of the same signal returns the value written, and the getter of another signal still returns its own value |
| CreateSignalProps.SameValueStillNotifies | src/signal/function/create-signal.ts:80-87 | writing the value a signal already holds still enqueues its set and queues a flush |
| CreateSignalProps.TwoWritesOneFlush | src/signal/function/create-signal.ts:83-86 | two writes queue at most one microtask, exactly one when none was queued, and both sets await it |
| CreateSignalProps.ReadSubscribesSlot | src/signal/function/create-signal.ts:69-76 | a read with an empty slot changes nothing; with effect `x` in the slot, `x` joins the set and records the cell |
| CreateSignalProps.ContextNotRestored | src/signal/function/create-signal.ts:48 | `createEffect` called from inside another effect's callback leaves the slot empty, so the outer callback's later reads subscribe nothing |
| CreateSignalProps.WriteRerunsReader | src/signal/function/create-signal.ts:41-50 | after `createEffect`, writing a signal its callback read makes the next flush run it again |
| CreateSignalProps.HitsOne | src/signal/function/create-signal.ts:10-13 | a visited set that holds the effect adds at least one run |
| CreateSignalProps.HitsTwo | src/signal/function/create-signal.ts:10-13 | two visited sets that hold the effect add at least two runs |
| CreateSignalProps.HitsNone | src/signal/function/create-signal.ts:10-13 | an effect in no set gets no run |
| CreateSignalProps.FlushRunsTwice | src/signal/function/create-signal.ts:9-17 | with no deduplication, an effect subscribed to two written signals runs at least twice in one flush |
| CreateSignalProps.FlushRunsSubscriber | src/signal/function/create-signal.ts:9-17 | every subscriber of every written signal runs at least once in the flush |
| CreateSignalProps.FlushSkipsUnsubscribed | src/signal/function/create-signal.ts:9-17 | an effect subscribed to nothing is not run by the flush |
| CreateSignalProps.UnsubscribeDetaches | src/signal/function/create-signal.ts:45-47 | when every subscription is undoable, unsubscribing leaves the effect in no set |
| CreateSignalProps.UnsubscribedNotRun | src/signal/function/create-signal.ts:45-47 | an effect unsubscribed before the flush is not run by it, and the awaiting sets are unchanged |
| CreateSignalProps.UnsubscribeIdempotent | src/signal/function/create-signal.ts:45-47 | calling the unsubscribe function twice is calling it once |
| CreateSignalProps.SetEnqueues | src/signal/function/create-signal.ts:82 | `set` appends the cell's subscriber set to `awaitingNotify` when the set is not there, and leaves `awaitingNotify` unchanged when it is |

## Left out

- Microtasks and promises: `queueMicrotask` and the tick promise are counters. The flush is the explicit operation `Notify`, which requires an empty effect stack or an empty slot, because a microtask starts from an empty call stack.
- Exceptions thrown by callbacks, `calculate` or hooks are not modelled. Every callback runs to completion.
- Callbacks are scripts of getter and setter calls on existing signals. A callback that creates effects, creates signals or calls an unsubscribe function is not modelled. For `create-signal.ts`, `CreateSignalProps.ContextNotRestored` states the effect of a nested `createEffect` on the enclosing slot directly.
- Closure identity: every `effect`/`createEffect` call gets a fresh id, so the same function object passed to two calls (which a JavaScript `Set` would store once) is not modelled.
- Derived `calculate`: modelled as a fixed list of dependencies read in order and a pure `combine`. A `calculate` whose reads depend on values, or that writes signals, is not modelled.
- Value comparison: `!==` is Dafny equality on the value type, so the special cases of `NaN` and `-0` are not modelled.
- The inner loop of `notifySubscribers` (`CreateSignal.Module.NotifyOne`) iterates a snapshot of the subscriber set rather than the live set. During a flush the slot is empty, so no subscription can change, and the two are proved equal.
- SignalsModel.NewDerived: requires every dependency to be a cell created earlier. A `calculate` that reads a getter created later, or a cycle of derived signals (which never terminates in the source), is not modelled.
- Signals.Engine.RunSubscribers iterates a snapshot of the subscriber set rather than the live `Set`. Effects re-run by a flush are not pushed on the stack, so no subscription changes during a flush, and the two are proved equal (`SignalsModel.Notify` changes no subscription).
- SignalsScenarios.DerivedWithEffect: states the call counts of the test up to the first flush; the tail after `unsubscribe` is `SignalsScenarios.DerivedUnsubscribed`. The values the test expects to be pushed (2 and 4, then 4 and 8) follow from `SignalsReads.GetOk`, which gives every read the denotation of its cell; they are not restated for the three concrete cells. After `unsubscribe` no effect runs (`SignalsScenarios.ChainTeardown`), so nothing is pushed again.
- SignalsScenarios.HookWithDerived: the test's `check` also writes the hooked signal without awaiting a flush, and calls `derived()` with no `calculate`. Neither changes a subscribe or cleanup count, and the lemma leaves them out.
- `src/signal/function/create-derived.ts`, `src/signal/svelte.ts`, `src/signal/function/to-svelte-store.ts` and `src/signal/types.ts` (type declarations only) are not part of this model.

## Behaviour of the code worth knowing

The model follows the code in each of these cases, and a contract or lemma states the behaviour.

- The `onSubscribe` hook (`src/signal/signals.ts:54-56`) fires whenever the set has exactly one member after the `add`. This includes a second read by the only subscriber, not only the change from zero subscribers to one. `SignalsModel.SubscribeHook` states this.
- A derived signal's inner effect (`src/signal/signals.ts:136-141`) enqueues the derived signal's subscribers even when the recomputed value is unchanged. `SignalsModel.InnerBody` states this.
- Effects re-run by a flush are called without being pushed on the effect stack (`src/signal/signals.ts:13`, `src/signal/function/create-signal.ts:12`). Reads during a re-run therefore subscribe nothing new, and the subscriptions are those made on the first run. `SignalsModel.Notify` and `CreateSignalModel.Notify` state this: the flush changes no subscription.
- A write made during a flush to a signal whose set is not yet awaiting appends that set to the `Set` being iterated, so the same flush visits it (`NotifyFrom` in both models). A write to a signal whose set is already awaiting changes nothing there (`SignalsProps.WriteEnqueues`, `CreateSignalProps.SetEnqueues`). If the flush has already passed that set, it does not visit it again, and `awaiting.clear()` at the end drops it: the write schedules no run of its subscribers and queues no new flush, since `microtaskQueued` is still true (`src/signal/signals.ts:18-20`, `src/signal/function/create-signal.ts:15-16`). In `signals.ts` an effect that already ran in this flush is also skipped in a set visited later (`processed`, line 12; `SignalsModel.Notify` runs each effect at most once).
- A second read of a derived signal by its only subscriber finds the set at size 1 again (`src/signal/signals.ts:129-131`), so it creates a second inner effect and overwrites `cleanup` with it (`SignalsModel.SubscribedDerived` activates whenever the set has one member after the add). The first inner effect stays subscribed to the dependencies and keeps re-running on their writes. When the reader unsubscribes, only the inner effect held in `cleanup` is torn down (`SignalsProps.DerivedCooling`); the first one is never unsubscribed.
- A derived signal read outside every effect recomputes on every read, even while it has subscribers (`src/signal/signals.ts:153-156`). `SignalsReads.ColdReadOk` states this.
- Nothing is memoised between reads: every read of a derived signal calls its `calculate` once, so one read costs one call per dependency path (`SignalsReads.GetOk`). This is why the derived test counts 2 and 1 calls after `effect`, then 6 and 3 after the flush (`SignalsScenarios.DerivedWithEffect`), and why they stay there once the effect is unsubscribed (`SignalsScenarios.DerivedUnsubscribed`).
- `create-signal.ts` keeps no `processed` set. An effect subscribed to two written signals runs once per set in the same flush (`CreateSignalProps.FlushRunsTwice`).
