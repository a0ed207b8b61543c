# vue-map core, modelled in Dafny

This project models the three stateful components of the `vue-map` fleet viewer:

- **The publish/subscribe distributor** (`src/store/pubsub/DataProvider.ts`), in module `Channel` and module `Provider`.
  - A `DataChannel` is an ordered buffer of timestamped items. It is changed in place by `add`, `addMany`, `clear` and the destructive `consumeTimeChunk`.
  - A `DataProvider` keeps a map from channel name to channel, a list of subscriber registrations and a list of publisher registrations, plus a ready flag.
  - `publish` appends to a channel and drains the whole channel to every subscriber.
- **The view-synchronisation dispatcher** (`src/components/Map/MapViewEventDispatcher.ts`), in module `ViewDispatcher`.
  - It keeps a list of subscriber records and one active listener. Its handlers react to interaction, viewpoint and stationary events of the map views, and copy the driving view's viewpoint to the others.
- **The fleet layer updater** (`src/components/Map/FleetLayerManager.ts`), in module `FleetLayer`.
  - It keeps a buffer of at most two telemetry batches and drains it oldest first.
  - `updateFeatures` turns a batch into edits of the active view's vehicle layer: an update of the first feature with the vehicle's object id, or an added graphic. A stationary watch that fires once can cancel it.

Two helper modules hold JavaScript semantics the core relies on:
- `Wrappers`: `Option` and `Result`.
- `JsArray`: `findIndex` as `IndexOf`, and `Array.prototype.splice` with a negative start counted from the end and clamped arguments.

How the model stands in for what it cannot run:
- **Time.** `Date.now()` is an integer parameter `now`. JavaScript's `x || default` treats 0 as "omitted", so 0 is the omitted time. The empty channel name becomes `'__default__'`.
- **Callbacks.** Subscriber callbacks are not called. `Publish` returns the list of deliveries it would make, one per callback call, in order.
- **Dispatcher records.** Views are opaque numbers, and the viewpoints of all views are a map from view to value. Subscriber records are objects the source shares between the list, the active listener and closures. Here they live in a table under their allocation number, and a watch handle is a boolean.
- **Deferred callback.** The zero-delay `setTimeout` of `setListener` is a queue, and `FireDeferred` is one timer tick.
- **The layer.** The fleet layer is a log of the requests sent to it (query, add, update).
- **The environment of `updateFeatures`.** Each run gets a `BatchEnv` value holding:
  - the active view;
  - the features the query returns;
  - the first change the view reports to the stationary watch, counted in edits already applied (the one-shot lemma shows that only the first change can matter);
  - the first layer request whose promise is rejected, if any.

  A drain gets a `Timeline` of such values, one per run. A rejected request ends the run with an error, so the drain loop stops before `buffer.shift()` and the batch stays at the head.

The model follows the code where it departs from its own comments:
- `onPublish` (DataProvider.ts:253-259) delivers the chunk to every subscriber, whatever channel the subscriber registered for. The class comment at DataProvider.ts:171-173 says data published to a channel is broadcast to all subscribers to that channel.
- `registerSubscriber` registers even when the channel does not exist. The comment at DataProvider.ts:188 says such a request is ignored.
- The guard of `publish` (DataProvider.ts:270) only asks that some publisher has a non-empty id and channel.
- `consumeTimeChunk` has these quirks (lines 98, 107, 116, 127):
  - an end time of 0 becomes `now`;
  - the item just past the end bound is consumed too;
  - a start bound no item reaches makes `splice(-1, …)` take the last item;
  - the chunk starts at the first item stamped at or after the start bound (line 113), which is never compared with the end bound, so a chunk can hold no item within both bounds.
- `unsubscribe` in the dispatcher clears neither the active listener nor a pending deferred activation.
- `setListener` sets `scheduleId` and clears it at once, so the interact handler's `scheduleId` test never fires.

## Model

| member | source | states |
|---|---|---|
| JsArray.IndexOf | src/store/pubsub/DataProvider.ts:222-224 | `findIndex`: -1 exactly when the key is absent, otherwise a position holding it with no earlier occurrence |
| JsArray.Splice | src/store/pubsub/DataProvider.ts:127 | `splice(start, count)`: the removed run has the clamped length, and putting it back at the effective start gives the array again |
| JsArray.SpliceOne | src/store/pubsub/DataProvider.ts:226 | `splice(k, 1)` at an existing index removes exactly element k and keeps the rest in order |
| Channel.Stamped | src/store/pubsub/DataProvider.ts:143-148 | the items `addMany` builds: one per value, in order, with that value and the one shared timestamp |
| Channel.EffectiveBounds | src/store/pubsub/DataProvider.ts:97-104 | the bounds are ordered; an end of 0 becomes `now`; otherwise they are the given bounds, possibly swapped |
| Channel.FirstStampAtLeast | src/store/pubsub/DataProvider.ts:111-115 | the search for the start: every item it passes is stamped before the start bound, and the one it stops at, if any, is stamped at or after it |
| Channel.FirstStampAbove | src/store/pubsub/DataProvider.ts:111-119 | the search for the end: every item it passes is stamped within the end bound, and the one it stops at, if any, is stamped after it |
| Channel.ChunkIndices | src/store/pubsub/DataProvider.ts:106-124 | the searched indices are ordered and within the array, the start possibly -1 |
| Channel.ChunkIndicesMeaning | src/store/pubsub/DataProvider.ts:106-124 | meaning of the searched indices: (0, 0) selects all; start is -1 exactly when no item reaches the start bound; otherwise it is the first item stamped at or after the start bound, which may itself lie past the end bound, every later item before the end index is within the end bound, and the end index is one past the first later item beyond the end bound, or the length when there is none |
| Channel.LocateChunk | src/store/pubsub/DataProvider.ts:95-124 | the search loop of `consumeTimeChunk` ends with exactly the indices `ChunkIndices` describes |
| Channel.Consume | src/store/pubsub/DataProvider.ts:94-128 | the (chunk, remainder) pair `consumeTimeChunk` gives; together they hold exactly as many items as before |
| Channel.ConsumeRestores | src/store/pubsub/DataProvider.ts:94-128 | consuming loses and duplicates nothing: the remaining prefix, the chunk and the remaining suffix reassemble the previous contents |
| Channel.DataChannel.constructor | src/store/pubsub/DataProvider.ts:79-81 | a new channel has its name and no data |
| Channel.DataChannel.ConsumeTimeChunk | src/store/pubsub/DataProvider.ts:94-128 | returns the chunk and leaves the remainder, as `Consume` of the old contents gives them |
| Channel.DataChannel.Add | src/store/pubsub/DataProvider.ts:135-137 | appends exactly one item, a copy of the value stamped `now`, after the unchanged earlier items |
| Channel.DataChannel.AddMany | src/store/pubsub/DataProvider.ts:143-148 | appends all values in order under one shared timestamp, after the unchanged earlier items |
| Channel.DataChannel.Clear | src/store/pubsub/DataProvider.ts:154-156 | leaves the channel empty |
| Channel.ConsumeNothing | src/store/pubsub/DataProvider.ts:94-128 | an empty channel gives an empty chunk and stays empty |
| Channel.SwappedBoundsAgree | src/store/pubsub/DataProvider.ts:97-104 | with both bounds nonzero, `consumeTimeChunk(a, b)` and `consumeTimeChunk(b, a)` agree |
| Channel.ConsumeUpToNowDrains | src/store/pubsub/DataProvider.ts:111-127 | `consumeTimeChunk(0, now)` on items stamped between 0 and `now` returns all of them in order and empties the channel |
| Channel.UnmatchedStartTakesLast | src/store/pubsub/DataProvider.ts:111-127 | when no item reaches the start bound, the chunk is the last item alone and the rest stays |
| Channel.ChunkOverrunsEnd | src/store/pubsub/DataProvider.ts:113-117 | when an item past the end bound follows the first item stamped at or after the start bound (which may itself lie past the end bound), the chunk ends with an item stamped after the end bound |
| Provider.ChannelName | src/store/pubsub/DataProvider.ts:197 | `channel \|\| '__default__'`: never empty, and a non-empty name is kept |
| Provider.FirstActive | src/store/pubsub/DataProvider.ts:270 | the `find` of the guard: -1 exactly when no publisher has a non-empty id and channel, otherwise a position of one that has |
| Provider.PublishGuard | src/store/pubsub/DataProvider.ts:270 | the guard holds exactly when some registered publisher, not necessarily the publishing one, has a non-empty id and channel |
| Provider.GuardOfAnyPublisher | src/store/pubsub/DataProvider.ts:270 | under the registry invariant, any registered publisher with a non-empty id makes the guard hold |
| Provider.Appended | src/store/pubsub/DataProvider.ts:271-279 | one value appends one item, an array appends one item per element in order, all stamped `now` |
| Provider.FanOut | src/store/pubsub/DataProvider.ts:253-259 | one delivery per subscriber, in registration order, all with the same chunk and channel |
| Provider.PublishedChunkIsEverything | src/store/pubsub/DataProvider.ts:248-279 | after a publish, draining with `consumeTimeChunk(0, now)` hands out the earlier items followed by the new ones and leaves the channel empty |
| Provider.WithSubscriber | src/store/pubsub/DataProvider.ts:203-208 | appending a subscriber with a new key keeps the registry invariant |
| Provider.WithoutSubscriber | src/store/pubsub/DataProvider.ts:226 | removing one subscriber record keeps the registry invariant |
| Provider.WithPublisher | src/store/pubsub/DataProvider.ts:308-312 | appending a publisher with a new key, on an existing channel, keeps the registry invariant |
| Provider.WithoutPublisher | src/store/pubsub/DataProvider.ts:330 | removing one publisher record keeps the registry invariant |
| Provider.WithChannel | src/store/pubsub/DataProvider.ts:343 | storing a channel under its own non-empty name keeps the registry invariant |
| Provider.ChannelsDistinct | src/store/pubsub/DataProvider.ts:339-344 | distinct channel names hold distinct channel objects, so publishing to one leaves the others alone |
| Provider.DataProvider.constructor | src/store/pubsub/DataProvider.ts:176-185 | no channels or registrations, and ready |
| Provider.DataProvider.Ready | src/store/pubsub/DataProvider.ts:288-292 | the `isReady` flag; what publishing does to it is stated by `Publish` |
| Provider.DataProvider.IsDataAvailable | src/store/pubsub/DataProvider.ts:236-242 | true exactly when the (defaulted) channel exists and holds an item |
| Provider.DataProvider.RegisterSubscriber | src/store/pubsub/DataProvider.ts:191-212 | a duplicate (id, channel) fails and changes nothing; otherwise exactly one record is appended; the channel is not created |
| Provider.DataProvider.Unsubscribe | src/store/pubsub/DataProvider.ts:218-229 | removes only the first record with the key, keeping the others in order; does nothing when the channel was never created |
| Provider.DataProvider.CreateChannel | src/store/pubsub/DataProvider.ts:339-344 | creates a fresh empty channel only when the name is absent; otherwise nothing changes |
| Provider.DataProvider.RegisterPublisher | src/store/pubsub/DataProvider.ts:298-318 | a duplicate fails and changes nothing; otherwise the channel is created if absent and one record with last-published time 0 is appended |
| Provider.DataProvider.Unpublish | src/store/pubsub/DataProvider.ts:324-333 | removes only the first record with the key, keeping the others in order |
| Provider.DataProvider.OnPublish | src/store/pubsub/DataProvider.ts:248-261 | a channel with data is drained with `consumeTimeChunk(0, now)` and the chunk goes to every subscriber under this channel's name; otherwise nothing happens |
| Provider.DataProvider.AddAndDeliver | src/store/pubsub/DataProvider.ts:271-279 | the payload is appended, then the channel is drained to every subscriber; nothing is delivered when the channel stays empty |
| Provider.DataProvider.Publish | src/store/pubsub/DataProvider.ts:267-282 | under the guard, the data is added, every subscriber receives the drained chunk and ready is true again; without it, nothing is added and ready stays false; no other channel changes |
| ViewDispatcher.WithoutPropertyWatches | src/components/Map/MapViewEventDispatcher.ts:60-66 | no property and no stationary handle afterwards, everything else unchanged |
| ViewDispatcher.WithoutPropertyWatchesIdempotent | src/components/Map/MapViewEventDispatcher.ts:60-66 | removing the property watches twice is the same as once |
| ViewDispatcher.Assign | src/components/Map/MapViewEventDispatcher.ts:99 | assigning a view's viewpoint changes that view only |
| ViewDispatcher.IndexOfTarget | src/components/Map/MapViewEventDispatcher.ts:36 | `findIndex` by view: -1 exactly when no listed record is for the view, otherwise the first one that is |
| ViewDispatcher.EnlistKeepsValid | src/components/Map/MapViewEventDispatcher.ts:24-31 | a new record for an unlisted view, appended with its interaction handle, keeps the list valid |
| ViewDispatcher.Unwatched | src/components/Map/MapViewEventDispatcher.ts:43-45 | the record an unsubscription leaves holds none of the three handles live (the source's fields keep the removed handle objects) |
| ViewDispatcher.Unlisted | src/components/Map/MapViewEventDispatcher.ts:34-48 | the records and list `unsubscribe` leaves: no record is dropped from the table, so a removed record can still be the active listener or pending (its list change is stated by `UnlistedValid`) |
| ViewDispatcher.UnlistedValid | src/components/Map/MapViewEventDispatcher.ts:34-48 | an absent view changes nothing; otherwise exactly its record leaves the list, the others keep their order, the record loses its handles, the view is no longer listed and the list stays valid |
| ViewDispatcher.MapViewEventDispatcher.constructor | src/components/Map/MapViewEventDispatcher.ts:10-14 | no records and no active listener |
| ViewDispatcher.MapViewEventDispatcher.IsSubscribed | src/components/Map/MapViewEventDispatcher.ts:16-18 | true exactly when some listed record is for the view |
| ViewDispatcher.MapViewEventDispatcher.Subscribe | src/components/Map/MapViewEventDispatcher.ts:20-32 | idempotent: a listed view leaves everything unchanged, otherwise one record with an interaction watch is appended; afterwards the view is subscribed |
| ViewDispatcher.MapViewEventDispatcher.RemovePropertyWatchers | src/components/Map/MapViewEventDispatcher.ts:60-67 | the record loses its property and stationary handles; nothing else changes |
| ViewDispatcher.MapViewEventDispatcher.Unsubscribe | src/components/Map/MapViewEventDispatcher.ts:34-49 | the new records and list are `Unlisted` of the old ones; the view is no longer subscribed; the active listener and pending activations are untouched |
| ViewDispatcher.MapViewEventDispatcher.AddPropertyWatchers | src/components/Map/MapViewEventDispatcher.ts:51-58 | the record gains a property handle; nothing else changes |
| ViewDispatcher.MapViewEventDispatcher.SetListener | src/components/Map/MapViewEventDispatcher.ts:69-80 | a deferred activation is queued and the stationary watch attached at once; the active listener is not yet changed and no schedule id remains |
| ViewDispatcher.MapViewEventDispatcher.SwitchListener | src/components/Map/MapViewEventDispatcher.ts:82-90 | the old active listener loses its property and stationary handles and its animation is finished if running; then the new record is armed |
| ViewDispatcher.MapViewEventDispatcher.InteractHandler | src/components/Map/MapViewEventDispatcher.ts:109-129 | a falsy value, a record with a property watch or schedule id, or an active listener on the same view is ignored; no active listener arms directly; another view's listener is switched out first |
| ViewDispatcher.MapViewEventDispatcher.FireDeferred | src/components/Map/MapViewEventDispatcher.ts:71-74 | the oldest pending activation adds the property watch and makes its record the active listener; with nothing pending, nothing changes |
| ViewDispatcher.MapViewEventDispatcher.UpdateViews | src/components/Map/MapViewEventDispatcher.ts:94-103 | every listed view other than the source whose viewpoint is set gets the value; all other views, the source included, keep theirs |
| ViewDispatcher.MapViewEventDispatcher.UpdateHandler | src/components/Map/MapViewEventDispatcher.ts:135-145 | a viewpoint change is forwarded only when the active listener is for this record's view |
| ViewDispatcher.MapViewEventDispatcher.StationaryHandler | src/components/Map/MapViewEventDispatcher.ts:151-171 | the source's viewpoint is pushed to the others, the record loses its property and stationary handles and there is no active listener |
| FleetLayer.Notify | src/components/Map/FleetLayerManager.ts:111-118 | a notification leaves the watch removed, and sets the cancel flag exactly when the watch was still registered and the view stopped being stationary |
| FleetLayer.NotifyAll | src/components/Map/FleetLayerManager.ts:111-118 | after notifications the watch is registered only if there were none, and a set cancel flag is never cleared |
| FleetLayer.RemovedStaysRemoved | src/components/Map/FleetLayerManager.ts:111-118 | a removed stationary watch ignores every later notification |
| FleetLayer.OneShot | src/components/Map/FleetLayerManager.ts:111-118 | only the first notification matters, and it cancels exactly when its value is false |
| FleetLayer.WatchAfter | src/components/Map/FleetLayerManager.ts:107-118 | the cancel flag is set exactly when the first change has arrived and its value is false |
| FleetLayer.Moved | src/components/Map/FleetLayerManager.ts:156-159 | an updated feature gets the vehicle's location and heading and keeps object id, depth and vehicle id |
| FleetLayer.FirstMatch | src/components/Map/FleetLayerManager.ts:134-145 | the first feature at or after the start with the object id, or the end when there is none |
| FleetLayer.EditFor | src/components/Map/FleetLayerManager.ts:141-163 | one vehicle's add or update; `EditForMatches` states its meaning |
| FleetLayer.EditForMatches | src/components/Map/FleetLayerManager.ts:141-163 | a vehicle's edit is an update exactly when some feature has its object id, and then moves the first such feature; otherwise it adds a graphic with the vehicle's location and whole report |
| FleetLayer.Edits | src/components/Map/FleetLayerManager.ts:128-164 | the edits of the first n vehicles: one per vehicle, in item order |
| FleetLayer.Processed | src/components/Map/FleetLayerManager.ts:128-140 | how many vehicles a run gets to: at most all of them, and all of them on a layer with no features, where the cancel flag is never consulted; `UncancelledEditsEveryVehicle` and `CancelledEditsPrefix` state the cancelling case |
| FleetLayer.Sent | src/components/Map/FleetLayerManager.ts:128-164 | how many edits are sent: exactly one per processed vehicle without a rejection, and with one exactly those up to and including the rejected one |
| FleetLayer.BatchOps | src/components/Map/FleetLayerManager.ts:98-164 | the requests of one run: none when the guard fails, otherwise the query first, then one edit per sent vehicle |
| FleetLayer.CanUpdate | src/components/Map/FleetLayerManager.ts:98-105 | the guard of `updateFeatures`; `NoViewNoRequests` and `BatchOps` state that nothing is sent without it and the query comes first with it |
| FleetLayer.Rejected | src/components/Map/FleetLayerManager.ts:125-163 | whether a run fails; `FleetLayerManager.UpdateFeatures` reports failure exactly when it holds, and `RejectionCutsShort` states what such a run sends |
| FleetLayer.NoViewNoRequests | src/components/Map/FleetLayerManager.ts:98-105 | with no active view, or one that is not ready or not stationary, nothing is sent to any layer |
| FleetLayer.UncancelledEditsEveryVehicle | src/components/Map/FleetLayerManager.ts:121-164 | without a cancelling change or a rejection, the query is followed by exactly one edit per vehicle, in order |
| FleetLayer.CancelledEditsPrefix | src/components/Map/FleetLayerManager.ts:136-140 | a cancelling change after c edits, on a layer with features and without a rejection, leaves exactly the first c edits after the query |
| FleetLayer.EmptyLayerAddsAll | src/components/Map/FleetLayerManager.ts:136-154 | with no features the cancel flag is never consulted, and without a rejection every vehicle is added |
| FleetLayer.RejectionCutsShort | src/components/Map/FleetLayerManager.ts:125-163 | a rejected query or edit ends the run: the query and the edits of the vehicles before the rejected one are sent, the rejected request last |
| FleetLayer.UnreachedRejectionIrrelevant | src/components/Map/FleetLayerManager.ts:136-140 | a rejection of a request the run never sends does not change the requests |
| FleetLayer.FirstMatchSameIds | src/components/Map/FleetLayerManager.ts:136-145 | the search finds the same position in any feature list with the same object ids, so the features moved in place by earlier vehicles do not change a later vehicle's match |
| FleetLayer.Offer | src/components/Map/FleetLayerManager.ts:50-55 | a batch is accepted exactly when fewer than two are pending, and then appended at the end |
| FleetLayer.OfferBounded | src/components/Map/FleetLayerManager.ts:46-55 | the buffer never holds more than two batches |
| FleetLayer.ThirdBatchDropped | src/components/Map/FleetLayerManager.ts:46-55 | of three batches arriving with none drained, the third is dropped |
| FleetLayer.DrainRun | src/components/Map/FleetLayerManager.ts:57-61 | the drain gets past at most the batches that are pending |
| FleetLayer.DrainRunAccepted | src/components/Map/FleetLayerManager.ts:57-61 | every batch the drain gets past, and so shifts out of the buffer, was accepted |
| FleetLayer.DrainRunHalts | src/components/Map/FleetLayerManager.ts:57-61 | the drain stops before the end of the buffer only at a rejected batch, which stays at the head |
| FleetLayer.DrainTwoInOrder | src/components/Map/FleetLayerManager.ts:57-61 | of two pending batches with the older accepted, every request of the older precedes every request of the newer, and the newer stays pending exactly when it is rejected |
| FleetLayer.HandleAll | src/components/Map/FleetLayerManager.ts:48-62 | the buffer after a series of arrivals never holds more than two batches |
| FleetLayer.HandleAllOps | src/components/Map/FleetLayerManager.ts:48-62 | the requests of a series of arrivals, in order; `HandleAllAppend` and `FullBufferStaysFull` state its properties |
| FleetLayer.HandleAllAppend | src/components/Map/FleetLayerManager.ts:48-62 | handling one series of arrivals and then another leaves the same buffer and sends the same requests, in the same order, as handling the joined series |
| FleetLayer.HandleStep | src/components/Map/FleetLayerManager.ts:48-62 | one arrival: the buffer stays within two batches, and a batch finding it full is dropped with nothing sent |
| FleetLayer.FullBufferStaysFull | src/components/Map/FleetLayerManager.ts:50-55 | once two batches are pending, every later arrival is dropped and nothing is sent again |
| FleetLayer.TwoRejectionsBlock | src/components/Map/FleetLayerManager.ts:48-62 | a batch rejected on its own run and again when the next batch arrives leaves both pending, and the handler is blocked for good |
| FleetLayer.FleetLayerManager.constructor | src/components/Map/FleetLayerManager.ts:44 | an empty buffer and no requests |
| FleetLayer.FleetLayerManager.FindFeature | src/components/Map/FleetLayerManager.ts:134-145 | gives up exactly when the flag is set and there are features; otherwise finds the first match, and adds exactly when there is none |
| FleetLayer.FleetLayerManager.EditVehicle | src/components/Map/FleetLayerManager.ts:129-163 | one vehicle: gives up exactly when the cancel flag is set and the layer has features; otherwise sends the vehicle's edit as `EditFor` defines it on the queried features, and keeps the object ids of the list it moves features in |
| FleetLayer.FleetLayerManager.UpdateFeatures | src/components/Map/FleetLayerManager.ts:93-165 | the requests sent are exactly `BatchOps` of the batch and its environment, and the run fails exactly when a request it sends is rejected; the buffer is untouched |
| FleetLayer.FleetLayerManager.Drain | src/components/Map/FleetLayerManager.ts:57-61 | the requests and the buffer left are as `DrainRun` gives them: accepted batches are shifted out in order, and a rejected one stays at the head |
| FleetLayer.FleetLayerManager.Receive | src/components/Map/FleetLayerManager.ts:48-55 | buffers the batch exactly as `Offer` says and sends nothing |
| FleetLayer.FleetLayerManager.HandleBatch | src/components/Map/FleetLayerManager.ts:48-62 | the buffer and requests are as `HandleStep` gives them: a full buffer drops the batch, otherwise it joins and the buffer is drained oldest first until empty or rejected |

## Left out

- Subscriber callbacks, closures and `this` binding: a delivery is a record of the call `onDataChanged(chunk, channel, provider)`, and the provider argument is not represented.
- The two `updateType` branches of `onPublish` make the same call, so they are one case.
- Provider.DataProvider.Publish: requires the handle's channel to exist. Every handle from `registerPublisher` satisfies this because channels are never removed; the TypeError a missing channel would raise is not modelled.
- `lastPublishedTime` is stored as 0 and never read.
- `_channelDataAvailableQueue` is declared and never used.
- Names inherited from `Object.prototype`: the source's channel cache is a plain object literal (DataProvider.ts:177), so `_cache[name]` is truthy for names such as `constructor`, `toString` or `__proto__` although no channel was created. The model's channel map holds only created channels. For such names the lines below differ from the source.
- Provider.DataProvider.IsDataAvailable: for an `Object.prototype` name the source throws a TypeError reading `.data.length` (line 239); the model returns false.
- Provider.DataProvider.Unsubscribe: for an `Object.prototype` name the source finds the cache entry truthy and removes the record (lines 221-227); the model removes it only when the channel was created.
- Provider.DataProvider.RegisterPublisher: for an `Object.prototype` name the source creates no channel (line 305), and a later `publish` fails calling `add` on the inherited property; the model creates the channel.
- Provider.DataProvider.Publish: for an `Object.prototype` name the source's `add`/`addMany` on the inherited property throws; the model's requirement that the channel exists excludes such handles.
- Provider.DataProvider.CreateChannel: requires a non-empty name; its only caller passes a name already defaulted by `channel || '__default__'`.
- Copying by object spread (`{ ...data }`) is value semantics: datatypes are values.
- Real timers, watch registrations and the `await` points: a watch callback or a timer tick is an explicit method call. A watch handle is a boolean, so overwriting a handle the record already holds does not leak an old registration in the model.
- Re-entrant drains: a second caller of the telemetry handler entering the `while` loop while the first is suspended is not modelled. The drain is sequential, and `Receive` alone models a batch arriving in the middle of a drain.
- Failures other than a rejected layer request are not modelled: `await ArcGIS`, `getFeatureLayer` and the graphic constructor (FleetLayerManager.ts:95, 121, 148) always succeed.
- ArcGIS layer creation and configuration: `getFeatureLayer`, renderers, symbols and labels (FleetLayerManager.ts:69-86 and 171-387). Requests are logged per view kind instead of applied to a layer object.
- `initialize` and the subscription of the fleet manager to the `vehicle-data` channel.
- Floating-point coordinates and readings are opaque reals, only compared and copied.
- ViewDispatcher.MapViewEventDispatcher.SwitchListener: `animation.finish()` is recorded as the view's entry in `finished` and has no further effect.
- ViewDispatcher.MapViewEventDispatcher.UpdateViews: the property is always the viewpoint, the only one the dispatcher's handlers watch; the generic property name is not modelled.
