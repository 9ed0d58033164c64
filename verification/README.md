# A verified model of wsjtx-relay

wsjtx-relay forwards live WSJT-X events. Ingest clients feed named sources of a tenant over a websocket; watch clients
select a source and are sent its events, next to catalogs and state changes. This project models the relay server's
session state machine, the ingest client, the authentication proof and the heartbeats in Dafny, and proves what they
promise.

`dafny verify dfyconfig.toml` checks everything.

## How the model is built

The server is modelled twice, and the two are tied together.

* As values. `ServerModel.Apply` is the state change of one critical section of the server's mutex and
  `ServerModel.Emits` says which notifications it may produce; it is a relation because Go iterates maps in any order.
  `Worlds` adds everything that happens outside the lock, one lock section or one channel or connection operation at a
  time: closing an evicted session, each of the two selects of `enqueueEnvelope`, the close of a full session, taking an
  envelope out of a queue, writing it, closing a session. Any interleaving of these steps is a run. It allows more
  interleavings than the program has, because a task may run beside later steps of the session that started it.
* As objects. `RelayServer`, `Sessions` and `SequenceWindows` have the program's classes, with fields that methods
  update in place and loops over maps. Each critical section of `RelayServer.Server` is proved to change the whole
  server exactly as `Apply` says, to produce notifications that `Emits` allows, and to change no object of another
  tenant.

| file | contents |
|---|---|
| `Basics.dfy`, `Protocol.dfy` | optional values, 64-bit words, enumerations; sessions, frames, messages, notifications |
| `SequenceWindow.dfy` | the duplicate window against its history |
| `ServerModel.dfy`, `Runs.dfy` | critical sections as values; properties of all sequences of them |
| `World.dfy`, `WorldInvariants.dfy`, `NonInterference.dfy` | all interleavings, what they keep, independence of tenants |
| `Delivery.dfy` | one watcher's queue in all interleavings: bounds, missed messages, gaps, the time after the close |
| `Closing.dfy` | which sessions get closed, and by whom |
| `Serialised.dfy`, `Catalogs.dfy`, `PerTenant.dfy` | what watchers can reconstruct |
| `Overlaps.dfy` | runs from a new server in which overlapping steps spoil that, or delivery |
| `Sessions.dfy`, `RelayServer.dfy` | the objects and loops of the server |
| `EndToEnd.dfy`, `Restarts.dfy`, `Client.dfy` | the ingest client composed with the server; restarts; its own objects and loop |
| `Auth.dfy`, `Heartbeat.dfy` | proof payload and clock tolerance; negotiation and timeout detection |

Session ids are assumed fresh: no session registers twice. Clock
readings, network outcomes and map iteration orders are arbitrary. HMAC-SHA256 is an arbitrary function.

## What turned out not to hold everywhere

* `Overlaps.OverlappingDispatchGoesStale`: notifications are queued after the lock is released, so the notifications of
  a later critical section can overtake those of an earlier one and leave a watcher with a stale view. The
  replica and catalog theorems are therefore about runs in which they do not; in `PerTenant` only the watcher's own
  tenant has to keep to that.
* `Overlaps.GreetedTooLate`: without any overlap, a watcher's catalog is stale when a source comes online
  between the watcher's registration and its greeting: the greeting is built at the registration, and the notifications
  are turned away because the session is not ready. The catalog theorems are therefore about runs in which no critical
  section falls in between.
* `Overlaps.CloseComesTooLate`, `Overlaps.TakesAfterClose`: a queue can take a message after its session missed one,
  before the session is closed or, for a goroutine caught between the two selects, after. `Delivery.OneAtATimeHasNoGap`
  shows that this takes two goroutines queueing messages for the session at the same time, and
  `Delivery.MissedMeansClosing` that a session with a gap does not stay open.
* `Auth.SkewTestIsExact`: the clock test is right for every tolerance up to a distance of 9223372036 seconds and not
  beyond; `Auth.FarTimestampsPass` shows that the next 292 years are let through.
* `Auth.LongStringsCollide`: `buildPayload` is ambiguous for strings of 2^32 bytes; `Auth.RoundTrip` says exactly when
  it is not. The server reads at most 1 MiB per frame, so no such string reaches it from the network.
* `Heartbeat.LongTimeoutsBreakNegotiation`: from 2^32 seconds on, truncation can leave the client with an interval
  longer than its timeout; `Heartbeat.NegotiationIsSound` says exactly when.
* `Restarts.RestartDropsExactly`: a client restarted under the same configured instance id numbers its events from 1
  again, and the window may take them for duplicates. The theorem says exactly which, for every state of the server at
  the restart, whatever is lost on the way and whatever other sessions do: event m is dropped exactly if the source's
  history holds its key and no more than 1024 keys, itself included, were accepted from then until event m arrives.
  If the history only holds numbers up to 1024 of that instance, these are exactly the numbers dropped
  (`Restarts.ShortLifeDropsExactly`); if it holds 1 to k and nothing is lost, event m is dropped exactly if
  m <= k <= 1024 (`Restarts.GaplessRestartDropsExactly`). If the first process unregisters before, that clears the
  history exactly if the tenant has no watcher and no other active source (`Restarts.DepartureClearsWindow`).

## Model

| member | source | states |
|---|---|---|
| SequenceWindows.SequenceWindow.SeenBefore | internal/server/runtime/server.go:780-793 | a key is reported exactly if it is among the last `max` accepted keys; the history grows by the key otherwise; the queue stays free of duplicates and bounded, and the set holds the same keys |
| SequenceWindows.RepeatsAreSpaced | internal/server/runtime/server.go:776-793 | over every sequence of calls, two acceptances of a key have at least `max` other acceptances between them |
| SequenceWindows.EveryKeyIsAccepted | internal/server/runtime/server.go:780-793 | over every sequence of calls, a key was accepted at some point exactly if it was offered |
| ServerModel.EventFanOut | internal/server/runtime/server.go:505-525 | an accepted event brings each watcher that selected its source exactly one message, under the session's own source name; nobody else gets any, nor does anybody for a refused frame |
| ServerModel.CatalogsThenStateBringsTwo | internal/server/runtime/server.go:703-718 | a state change brings every watcher of the tenant one catalog marked with its own selection, then the announcement; others nothing |
| ServerModel.CatalogLists | internal/server/runtime/server.go:720-735 | a catalog has one entry for each source and no others, online exactly if a session feeds the source, under its display name or else its name, with the time it was last seen |
| Runs.RefusalChangesNothing | internal/server/runtime/server.go:393-413 | a `source_busy` refusal leaves the whole server state as it was, although it looks up or creates tenant and source |
| Runs.ExactGarbageCollection | internal/server/runtime/server.go:434-479 | after every sequence of critical sections a tenant exists exactly if a watch session of it is registered or one of its sources was last announced as not offline |
| Runs.WatchersAreHistory | internal/server/runtime/server.go:747-774 | the registered watchers are exactly those that registered and did not unregister since, and no tenant without watchers or active sources remains |
| Runs.LifecycleGrammar | internal/server/runtime/server.go:407-455 | the announcements about a source form a prefix of (ONLINE REPLACED* OFFLINE)*, also across deletion of its tenant; the source is owned exactly inside a segment, by the session announced last |
| Runs.OneInstancePerSegment | internal/server/runtime/server.go:407-412 | all sessions between ONLINE and OFFLINE share one instance id |
| Runs.SourcesAreHistory | internal/server/runtime/server.go:415-417 | over every run a source carries the display name of the session admitted last, is fed exactly if its last announcement was not OFFLINE, and was last seen at its last announcement or accepted frame |
| Runs.AcceptanceRule | internal/server/runtime/server.go:518-525 | the owner's frame is accepted exactly if it has no number or its key is not among the last 1024; it then sets last seen, and the last status if it is a status, and a frame without number leaves the history as it was |
| Runs.RetiredStaysRetired | internal/server/runtime/server.go:434-446 | a session that was replaced or unregistered never becomes active again; its later frames and its unregistration change nothing and notify nobody |
| Runs.ReplacementRetires | internal/server/runtime/server.go:406-417 | a registration for an owned source is refused exactly for another instance id; otherwise it evicts the owner, which owns nothing from then on |
| Runs.SelectionsNeverDangle | internal/server/runtime/server.go:481-503 | in every run each selection is empty or names an existing source, and sources are filed under their own non-empty names |
| Runs.SourcesOnlyGrow | internal/server/runtime/server.go:393-404 | while a tenant lives it loses no source and no history |
| WorldInvariants.AlwaysLinked | internal/server/runtime/server.go:324-350 | in every interleaving each registered watch session is filed under its own tenant and every running one is registered; an active ingest session is one still running |
| WorldInvariants.SelectFindsItsTenant | internal/server/runtime/server.go:484-488 | a select request from a running watch loop finds its tenant and itself in it, so the nil-tenant branch is not reached from there |
| WorldInvariants.UnselectedHearNothing | internal/server/runtime/server.go:737-745 | a watcher without a selection is sent no event, because no source has an empty name |
| WorldInvariants.NotesStayInTenant | internal/server/runtime/server.go:688-718 | every notification is addressed to a session of the tenant it is about |
| Delivery.DeliveryIsBounded | internal/server/runtime/server.go:835-857 | in every interleaving at most 128 messages are queued; what the queue took is a subsequence of what was dispatched since the session became ready; what was sent is a prefix of that, and with what is being written and what waits all of it |
| Delivery.MissedMeansClosing | internal/server/runtime/server.go:688-701 | in every interleaving a session that missed a message is closed, or its close is pending with whoever found the queue full |
| Delivery.OpenMissesNothing | internal/server/runtime/server.go:835-857 | while a session is open and no close is pending, its queue has taken everything dispatched since it was ready |
| Delivery.OneAtATimeHasNoGap | internal/server/runtime/server.go:688-701 | if no two goroutines queue messages for a session at the same time, what its queue took is a prefix of what was dispatched since it was ready, whoever closes it and whenever |
| Serialised.SerialisedHasNoGap | internal/server/runtime/server.go:835-857 | in serialised runs every session's queue has taken a prefix of what was dispatched to it |
| PerTenant.NoGapInTenant | internal/server/runtime/server.go:835-857 | the same when only the steps of the session's own tenant keep to either condition |
| Delivery.GapsAreLateTakes | internal/server/runtime/server.go:835-857 | a history has a gap exactly if the run contains a take after a miss |
| Delivery.NoRaceNoGap | internal/server/runtime/server.go:688-701 | delivery has no gap in runs without a take while a close is pending or done |
| Delivery.OfferIsUninterrupted | internal/server/runtime/server.go:688-701 | the selects and the close with nothing in between amount to the one step the dispatch loop is proved against |
| Delivery.ClosedIsAbsorbing | internal/server/runtime/server.go:375-391 | a closed session stays closed; it sends at most the message being written, and its queue takes at most one message from each goroutine that was between the two selects |
| Closing.ReplacedMeansClosing | internal/server/runtime/server.go:427-429 | in every interleaving each ingest session that runs without being the active one is closed, or some goroutine is about to close it |
| Closing.ClosedIngestIsAbsorbing | internal/server/runtime/server.go:826-833 | a closed ingest session stays closed |
| Closing.WhoClosesIngest | internal/server/runtime/server.go:243-245 | an ingest session is closed exactly by its eviction, its refusal or its own close |
| Closing.WhoClosesWatch | internal/server/runtime/server.go:384-388 | a watch session is closed exactly by the close owed after an overflow, by a write that fails, or by its own goroutines |
| Closing.WhoOwesAClose | internal/server/runtime/server.go:849-856 | a close is owed only by a message that found 128 messages waiting in an open session |
| Closing.WhoGetsReady | internal/server/runtime/server.go:271-277 | a watch session becomes ready exactly when its greeting was written, and then that is the first thing it was sent |
| NonInterference.TenantsDoNotInterfere | internal/server/runtime/server.go:393-525 | erasing all steps of other tenants' sessions from a run leaves a run, and leaves one tenant's state, queues, wires, closed sessions and pending work exactly the same |
| Serialised.WatcherHoldsReplica | internal/server/runtime/server.go:676-686 | in serialised runs a watcher that was never closed reconstructs online flag and last status of its selected source from snapshot and later frames, up to what is still being dispatched |
| Serialised.ReplicaIsExactWhenQuiet | internal/server/runtime/server.go:481-503 | the same, exactly, whenever nothing is being dispatched |
| Catalogs.CatalogsConverge | internal/server/runtime/server.go:703-735 | in serialised runs in which no critical section falls between a registration and its greeting, the last catalog sent or queued to each open watcher lists the tenant's sources by name, display name and online flag and marks the watcher's own selection |
| Catalogs.CatalogIsExactWhenQuiet | internal/server/runtime/server.go:460-467 | in the same runs, whenever nothing is being dispatched, the last catalog has exactly one entry for each source, online exactly if the source is fed, under its display name or else its name |
| Catalogs.CatalogTellsHistory | internal/server/runtime/server.go:720-735 | an entry of that catalog is online exactly if the last announcement about the source was not OFFLINE, under the display name of the session announced last |
| Catalogs.NotesKeepShowing | internal/server/runtime/server.go:494-501 | every critical section that changes a listing or a selection tells each watcher it concerns |
| PerTenant.ReplicaIsExactInTenant | internal/server/runtime/server.go:481-503 | the replica is exact as soon as the steps of the watcher's own tenant are serialised and dispatched, whatever other tenants do |
| PerTenant.CatalogIsExactInTenant | internal/server/runtime/server.go:703-735 | the same for the last catalog, if moreover no section of the own tenant falls between a registration and its greeting |
| Overlaps.OverlappingDispatchGoesStale | internal/server/runtime/server.go:425-430 | a run from a new server after which everything is delivered and the watcher, never closed and missing nothing, holds an online source as offline |
| Overlaps.GreetedTooLate | internal/server/runtime/server.go:269-277 | a serialised run from a new server after which nothing is pending and an open watcher's only catalog lists no source, while one is online |
| Overlaps.CloseComesTooLate | internal/server/runtime/server.go:688-701 | a run from a new server in which a queue takes a message between a miss and the close it causes, so that it is not a prefix of what was dispatched |
| Overlaps.TakesAfterClose | internal/server/runtime/server.go:843-856 | a run in which a goroutine that passed the first select queues its message after the session was closed and another message was turned away |
| RelayServer.BuildCatalog | internal/server/runtime/server.go:720-735 | one entry for each source object and no others, in any map order: online exactly if a session feeds it, with its display name or else its name, and when it was last seen |
| RelayServer.BuildTenantCatalogNotifications | internal/server/runtime/server.go:703-710 | one catalog for each watcher, marked with its own selection |
| RelayServer.BuildTenantStateNotifications | internal/server/runtime/server.go:712-718 | one state event for each watcher |
| RelayServer.SelectedWatchers | internal/server/runtime/server.go:737-745 | exactly the watchers with this selection, each once |
| RelayServer.WrapWatchNotifications | internal/server/runtime/server.go:660-666 | one notification for each watcher, all with the same envelope object |
| RelayServer.Deserted | internal/server/runtime/server.go:765-772 | the scan finds out whether the tenant has neither watchers nor an active ingest |
| RelayServer.RecordEvent | internal/server/runtime/server.go:518-521 | the window decides, number 0 passes; an accepted frame updates last status and last seen |
| RelayServer.Server.GetOrCreateTenant | internal/server/runtime/server.go:747-758 | the tenant is found or created empty, nothing else changes |
| RelayServer.Server.CleanupTenant | internal/server/runtime/server.go:760-774 | the tenant is deleted exactly if it is deserted, nothing else changes |
| RelayServer.Server.RegisterIngest | internal/server/runtime/server.go:393-432 | the objects change exactly as the registration of the model, with its refusal and notifications, addressed to registered sessions of the tenant; the session object itself feeds the source afterwards, and the one that fed it before is handed out to be closed |
| RelayServer.Server.UnregisterIngest | internal/server/runtime/server.go:434-458 | the objects change exactly as the unregistration of the model, with its notifications and cleanup; a session object that is not the active one changes nothing but the cleanup, even if it carries the same identity |
| RelayServer.Server.WithIngestEvent | internal/server/runtime/server.go:505-525 | the objects change exactly as the model's event, with its notifications; a session object that is not the active one changes nothing, even if it carries the same identity |
| RelayServer.Server.RegisterWatch | internal/server/runtime/server.go:460-467 | the session enters its tenant with its selection and the reply is the tenant's catalog with that selection marked; for a new session this is the model's registration |
| RelayServer.Server.UnregisterWatch | internal/server/runtime/server.go:469-479 | the objects change exactly as the model's unregistration, with cleanup |
| RelayServer.Server.SelectSource | internal/server/runtime/server.go:481-503 | the objects change exactly as the model's selection, unless another session object is registered under the same id, when the server's state stays; result, catalog and snapshot, or the refusal, go to the requesting session only |
| RelayServer.Server.OthersUntouched | internal/server/runtime/server.go:393-503 | tenants share no objects: a section that changes only its own tenant's objects keeps the whole server consistent |
| Sessions.SessionBase.SendEnvelope | internal/server/runtime/server.go:795-816 | frames on a connection are numbered 1, 2, 3, ... without gap or repeat; the shared envelope object is not changed |
| Sessions.WatchSession.EnqueueEnvelope | internal/server/runtime/server.go:835-857 | the queue takes the envelope, the session is inactive, or it is full: exactly the model's step |
| Sessions.WatchSession.RunWatchWriter | internal/server/runtime/server.go:375-391 | the loop writes the front of the queue, in order, on consecutive numbers, up to the first write that fails; it gives up and closes the session exactly if it has something to write and the session is closed or broken or a write fails |
| Sessions.Dispatch | internal/server/runtime/server.go:688-701 | for any list over any mix of sessions, each ends up as if only its own messages had been offered to it; an open session with room for them ends with exactly these messages added to its queue, in list order |
| Sessions.BodiesForAreEntries | internal/server/runtime/server.go:688-696 | the messages a list addresses to a session are the bodies of exactly its entries, in list order |
| RelayServer.BodiesForAreMessages | internal/server/runtime/server.go:688-696 | and they are what the list addresses to the session's id in the model |
| EndToEnd.AcceptedInOrder | internal/client/relay/client.go:68-95 | over any number of reconnects and any delay of frames, the accepted events of one client process have strictly increasing numbers and are published events in order, each at most once |
| EndToEnd.DuplicateWindowIsIdle | internal/client/relay/client.go:181-212 | the server accepts a frame exactly if its session is the active one: the duplicate test never drops one |
| EndToEnd.FirstEventArrives | internal/client/relay/client.go:202-210 | a run in which an admitted client's first event is forwarded under number 1 and accepted |
| EndToEnd.AdmissionIsOwnership | internal/server/runtime/server.go:407-415 | registering a link succeeds exactly if it makes the link's session the owner |
| EndToEnd.RunsWhenAdmitted | internal/client/relay/client.go:163-178 | the client runs only on its last link, after the server has admitted it |
| EndToEnd.DropReleases | internal/server/runtime/server.go:434-448 | unregistering a link's session ends its ownership and nobody else's |
| EndToEnd.RestartCollides | internal/client/relay/client.go:51-57 | after one accepted event, a second process under the same instance id has its first event dropped as a duplicate and its second accepted |
| Restarts.RestartDropsExactly | internal/client/relay/client.go:206 | in any state of the server, with any losses and any other sessions: event m of the restarted process is dropped exactly if the history holds its key and at most a window of keys has been accepted from there on |
| Restarts.ShortLifeDropsExactly | internal/server/runtime/server.go:518-520 | if the history holds distinct numbers of this instance up to the size of the window, exactly these are dropped |
| Restarts.GaplessRestartDropsExactly | internal/client/relay/client.go:206 | if events 1 to k of a first process on a new server all arrived and none is lost now, event m is dropped exactly if m <= k and k is at most the size of the window |
| Restarts.FirstLifeAccepts | internal/server/runtime/server.go:518-520 | all events of a first process on a new server are accepted, if all arrive |
| Restarts.DepartureClearsWindow | internal/server/runtime/server.go:760-774 | when the owner of a source unregisters, its history is gone exactly if the tenant has no watcher and no other active source, and otherwise stays as it was |
| RelayClient.LiveEventDispatcher.Publish | internal/client/relay/client.go:334-349 | an event goes to the active channel, or is dropped when it is full or there is none |
| RelayClient.LiveEventDispatcher.Deactivate | internal/client/relay/client.go:325-332 | a late deactivation does not touch the channel of a newer connection |
| RelayClient.ConnectionState.WriteEnvelope | internal/client/relay/client.go:296-304 | an envelope without a number takes the connection's next one, any other keeps its own |
| RelayClient.Client.RunConnected | internal/client/relay/client.go:181-240 | the loop over channel, ticker and failures, beside the pongs of readLoop, acts exactly as the value-level run of the connection |
| RelayClient.WhatStops | internal/client/relay/client.go:189-211 | the loop stops exactly on request, when a tick finds the server silent for too long, or when a ping or an event cannot be written |
| RelayClient.PingsAndPongs | internal/client/relay/client.go:195-230 | a tick in time sends one ping, and a ping is answered by one more frame, under the connection's next number each; nothing else changes |
| RelayClient.QuietStops | internal/client/relay/client.go:191-198 | stopping for silence or on request writes nothing; a pong that fails breaks the connection for good |
| RelayClient.EventsAreConserved | internal/client/relay/client.go:202-210 | every event that entered the channel is on the wire, in order, or still queued, except at most one lost with the write that ended the connection |
| RelayClient.NumbersStayApart | internal/client/relay/client.go:206-304 | events are numbered by the process, all other frames by the connection, each without gap or repeat |
| RelayClient.NextNumber | internal/client/relay/client.go:206 | counting with `Add(1)` modulo 2^64 gives the n-th event number n |
| RelayClient.TurnIsActions | internal/client/relay/client.go:202-210 | taking an event is the end-to-end model's Forward, an arrival its Aim and Publish, and what stops the loop its Hangup: the model sends on the link what the connection writes |
| RelayClient.LoopIsActions | internal/client/relay/client.go:181-212 | from any matching state the loop does what actions of the end-to-end model do, with the same events sent in the same order under the same numbers |
| RelayClient.EstablishMatches | internal/client/relay/client.go:86-90 | a new connection with an empty channel matches the model's client after Establish |
| RelayClient.LoopIsRun | internal/client/relay/client.go:181-212 | every run of the model that matches a connection can be continued to one that matches it after the loop and has sent the same events, so that `EndToEnd.AcceptedInOrder` speaks of what the loop writes |
| Auth.BuildPayload | internal/shared/auth/proof.go:36-49 | the payload is the nonce, four length-prefixed strings and the timestamp, and has exactly the precomputed length |
| Auth.PayloadLayout | internal/shared/auth/proof.go:36-57 | nonce, role, tenant, source and instance stand in the payload in this order, each string behind its length, and the timestamp in two's complement ends it |
| Auth.PutBigEndian | internal/shared/auth/proof.go:45-53 | the buffer holds the big-endian digits of the number |
| Auth.DigitAt | internal/shared/auth/proof.go:45-53 | the i-th of n bytes is the i-th highest digit to base 256 |
| Auth.NumberOfBigEndian | internal/shared/auth/proof.go:51-57 | reading big-endian bytes back gives the number modulo what they can hold |
| Auth.RoundTrip | internal/shared/auth/proof.go:36-57 | a parser recovers nonce, strings and signed timestamp exactly if every string is shorter than 2^32 bytes |
| Auth.PayloadInjective | internal/shared/auth/proof.go:36-57 | payloads are equal exactly if nonce and all claims are |
| Auth.LongStringsCollide | internal/shared/auth/proof.go:51-57 | `buildPayload` gives different claims the same payload, once a string has 2^32 bytes |
| Auth.ValidateProof | internal/shared/auth/proof.go:22-34 | the proof is valid exactly if the clock test passes and the MAC agrees; up to a distance of 9223372036 seconds and for a positive tolerance, skew is reported exactly if the distance exceeds it, whatever the proof |
| Auth.SkewTestIsExact | internal/shared/auth/proof.go:22-30 | the test equals the ideal one for every positive tolerance exactly up to a distance of 9223372036 seconds |
| Auth.FarTimestampsPass | internal/shared/auth/proof.go:28 | beyond that distance the product is negative and every tolerance accepts |
| Auth.ProofBindsClaims | internal/shared/auth/proof.go:15-34 | a proof made for some claims is accepted for exactly those, within the tolerance, if the MAC does not collide on these two payloads |
| Heartbeat.Config.NormalizeAndValidate | internal/server/config/config.go:103-146 | which configurations are accepted, with which error the others are refused, every field afterwards with its default, and what an accepted one guarantees |
| Heartbeat.NegotiationIsSound | internal/client/relay/client.go:147-154 | the client ends with 0 < interval <= timeout for every accepted configuration below 2^32 seconds, and beyond exactly if the announced seconds kept their order or the interval is at most 30 |
| Heartbeat.ClientPingsInTime | internal/server/runtime/server.go:179-180 | from one second up both sides agree up to a fraction of a second; below, the client takes 10 seconds, and 30 as timeout if the server's is below 10; its interval stays within the server's timeout exactly if the interval is at least one second or the timeout at least ten |
| Heartbeat.LongTimeoutsBreakNegotiation | internal/server/runtime/server.go:179-180 | a configuration for which the client's interval exceeds its timeout |
| Heartbeat.MonitorSession | internal/server/runtime/server.go:353-373 | the loop closes the session at the first tick that finds it silent for too long or cannot be written |
| Heartbeat.ClosedAtFirstBadTick | internal/server/runtime/server.go:353-373 | the session is closed exactly at the first tick that finds it silent for longer than the timeout or cannot write its ping, and not at all if there is none |
| Heartbeat.StoredRoundsDown | internal/server/runtime/server.go:818-824 | arrival times are rounded down to a millisecond |
| Heartbeat.NotTooEarly | internal/server/runtime/server.go:818-824 | no session is closed for silence before the timeout, up to one millisecond of rounding |
| Heartbeat.NotTooLate | internal/server/runtime/server.go:353-373 | a session silent since t0 is closed by t0 + timeout + interval, or by the first tick if that is later |

## Left out

- Websocket, TLS, HTTP and UDP input and output, protobuf encoding: a connection is a sequence of frames, and each write
  succeeds or fails for good. `proto.Clone` is a new equal object.
- HMAC-SHA256, random bytes and certificates: an arbitrary function, and fresh ids and nonces.
- Field by field copying of events (`sanitize*Event`) and `mapWsjtxMessage`: an event is a kind, a source name, a client
  id and an opaque payload. Events without a body (nil) are dropped by the program before the lock and do not occur.
- `strings.TrimSpace` of names: sessions carry names after trimming. Message texts of notices, state events and errors.
- `ServerUnixMs` in snapshots. `lastSeen` is an arbitrary number, as are all clock readings.
- `NoteOf` for lists with nil entries: dispatch skips them, but the critical sections never produce one.
- Delivery.OneAtATimeHasNoGap: for runs without overlapping dispatch to the session, see `Overlaps`.
- Serialised.WatcherHoldsReplica: covers runs in which each critical section starts after the dispatch of the previous
  one, see `Overlaps`.
- Catalogs.CatalogsConverge: takes registration, the first catalog and readiness of a watcher as one step, besides.
- EndToEnd.AcceptedInOrder: fewer than 2^64 events, and one process per instance id, see `Restarts`.
- RelayClient.LoopIsActions: up to 2^64 events; where the model writes the number 0, the program takes the connection's.
- Heartbeat.NotTooLate: ticks are ideal, one every interval, and times are unbounded integers.
- The warning of `normalizeAndValidate`; loading, flags and overrides. Trimming, joining paths and making the data
  directory are arbitrary functions there.
- Back-off of reconnects, the trust store, health checks, logging, the command line.
- `relayEndpoint`: names may contain the separator, so it has no inverse to prove.
