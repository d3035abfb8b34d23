# Delivery tracking service — Dafny model

This project models the core of a Go delivery-tracking service. Drivers'
phones and customers' browsers connect over WebSockets. Drivers stream their
locations. The service follows each driver's active delivery and pushes
location, arrival-estimate, proximity-alert and status-change messages to
the customers watching that delivery.

The model has four modules, one per source file:

- `Models` (models.dfy, models.go): the timing, proximity and speed
  constants, the `MessageType` and `DeliveryStatus` enumerations, and the
  records that travel between the parts.
- `Session` (client.dfy, client.go): a connected peer (`Client`) with its
  bounded outbound queue `send` and the queue's `closed` flag.
  - The inbound loop (`ReadPump`, `HandleDriverMessage`) runs over a script
    of read results.
  - The outbound loop (`WriteStep`, `WritePump`) runs over a script of
    wake-ups. It drains, coalesces and closes.
  - Each loop is proved against a specification function: `ReadLog`,
    `WriteStepSpec` and `WriteRun`.
- `Registry` (hub.dfy, main.go and `sendToDeliveryWatchers`): the `Hub` class.
  - It holds the registered clients and the driver, customer and delivery
    indices, with its invariant `Valid`.
  - Its operations are registration, unregistration, the global broadcast
    and the delivery-scoped fan-out.
- `Tracking` (tracker.dfy, delivery_tracking.go): the pure estimate, band and
  status-transition functions. The `DeliveryTracker` class holds the
  deliveries and last locations, and carries the location pipeline.

A Go channel `send` becomes a `seq<Bytes>` with a capacity and a `closed`
flag. A `select { case ch <- m: default: }` becomes `Offer`: append when
there is room, drop otherwise. A send on a closed channel panics in Go. The
methods that can do that return `panicked`, and their contracts say exactly
when it happens. Floating point becomes `real`. Timestamps are `int`
nanoseconds, and the clock reading `now` is a parameter.

## Model

| member | source | states |
|---|---|---|
| Models.TimingConstants | models.go:12-14 | pingPeriod is 54 s, and writeWait < pingPeriod < pongWait |
| Models.ProximityConstants | models.go:16-19 | 50 < 100 < 500 m, so the nearest-first tests cut distances into four disjoint bands; the default speed 40 is at or above the 5 km/h floor, which is positive |
| Models.MessageTypeNamesDistinct | models.go:24-31 | the six message types have six distinct wire names |
| Models.StatusNamesDistinct | models.go:35-44 | the eight statuses have eight distinct wire names |
| Session.OfferAllKeepsPrefix | delivery_tracking.go:93-97 | successive non-blocking sends deliver exactly the longest prefix of the messages that fits, in order, and never overfill the queue |
| Session.OfferAllAppend | delivery_tracking.go:263-267 | sending one batch and then another is the same as sending their concatenation |
| Session.JoinSnoc | client.go:66-69 | each further message adds a newline and the message to the end of the frame |
| Session.SplitJoin | client.go:62-69 | splitting a coalesced frame at its newlines gives back exactly the batch, in FIFO order, when no message holds a raw newline |
| Session.NonDriverDispatchesNothing | client.go:33-35 | a session whose role is not "driver" dispatches nothing; its log is only the unregistration request and the close |
| Session.ReadLogEndsWithCleanup | client.go:11-37 | every inbound run ends with the unregistration request followed by the connection close, and everything before them is an accepted location report |
| Session.AcceptedOnlyFromLocationFrames | client.go:84-109 | every accepted report comes from a driver session, from a frame that decoded as a location_update envelope whose payload decoded to that very location, read before any read error |
| Session.ReadLogStopsAtFailure | client.go:23-30 | a read error ends the loop: the log equals the log of the reads before it, whatever follows |
| Session.ReadLogAppend | client.go:23-36 | reads with no error among them, then further reads: the log is what the first reads dispatched, in order, followed by the log of the rest |
| Session.ReadLogSplit | client.go:23-36 | up to any point before a read error, the log is what the reads so far dispatched followed by the log of the remaining reads |
| Session.LocationFrameAccepted | client.go:23-36 | a driver's location report read before any read error is accepted, after everything earlier reads dispatched and before everything later reads dispatch |
| Session.WriteRunClosesOnceAtExit | client.go:42-82 | the outbound loop exits exactly when its log ends with closing the connection, and it closes the connection at most once |
| Session.WriteStepCloseFrame | client.go:51-56 | a close frame is written iff the queue is closed and drained and the queue case fires; it is then followed only by closing the connection |
| Session.DataFrameCarriesWholeQueue | client.go:58-73 | a successful data frame carries every queued message, newline-joined, and leaves the queue empty |
| Session.Client.constructor | main.go:132-139 | a new session has the given identity, an empty open queue and the given capacity |
| Session.Client.TrySend | delivery_tracking.go:137-141 | the message is appended iff the queue has room; the result says which |
| Session.Client.Close | main.go:59 | the queue becomes closed and keeps its buffered messages |
| Session.HandleDriverMessage | client.go:84-109 | a report comes out iff the envelope decoded, has type location_update and its payload decoded; it is that payload |
| Session.Client.ReadPump | client.go:11-37 | the loop's log equals the specification `ReadLog`: driver-only dispatch until the first read error, then unregistration, then close |
| Session.Client.WriteStep | client.go:49-80 | one pass equals `WriteStepSpec`: coalesce the whole queue into one frame, or write the close frame on a closed and drained queue, or ping on a tick; a failed write exits |
| Session.Client.WritePump | client.go:42-82 | the loop's output, final queue and exit flag equal `WriteRun` over the wake-ups |
| Registry.RemoveFirstMultiset | main.go:75-80 | splicing out the first occurrence removes exactly one copy, and leaves a list without the client unchanged |
| Registry.RemoveFirstNoDup | main.go:72-92 | on a duplicate-free list the client is gone afterwards and the list stays duplicate-free |
| Registry.SpliceOut | main.go:75-80 | the scan-and-splice loop removes the first occurrence and keeps the others in order |
| Registry.QueuesAfterOfferChain | delivery_tracking.go:263-267 | two fan-outs to the same watchers, one after the other, equal one fan-out of both batches |
| Registry.Hub.constructor | main.go:11-21 | the hub starts with no clients and empty indices, satisfying its invariant |
| Registry.Hub.RegisterClient | main.go:35-52 | the client always joins `clients`; a driver overwrites `drivers[userID]`; a customer is appended to its customer list and, with a non-empty delivery id, to that watcher list; other roles touch no index; the invariant is kept |
| Registry.Hub.UnregisterClient | main.go:53-70 | an unregistered client changes nothing; otherwise it leaves `clients`, its queue closes, a driver's id key is deleted whoever it maps to, and a customer leaves both lists |
| Registry.Hub.RemoveCustomerClient | main.go:72-92 | the first occurrence leaves the customer list and, with a non-empty delivery id, the watcher list; nothing else changes |
| Registry.Hub.BroadcastToAll | main.go:93-105 | every registered client with room gets the message; a full one is closed and dropped from `clients` only, so the indices still hold it |
| Registry.Hub.OfferInOrder | delivery_tracking.go:135-143 | the watchers before the stop point each get the message offered; the loop stops at the first closed queue |
| Registry.Hub.SendToDeliveryWatchers | delivery_tracking.go:131-144 | it panics iff a watcher's queue is closed; otherwise each watcher gets the message if it has room and every other queue is unchanged; it never panics while every indexed client is registered |
| Registry.Hub.BroadcastToAllUnregistering | main.go:93-105 | the corrected broadcast: the same deliveries, but a full client is unregistered from every index, so consistency is kept |
| Registry.ServeWs | main.go:116-145 | nothing is registered when the upgrade fails or the user id or type is empty; otherwise a fresh client with an empty open queue of capacity 256 is registered |
| Registry.DroppedWatcherPanics | main.go:101-102 | a watcher dropped by BroadcastToAll makes the next send to its delivery panic |
| Tracking.ActiveIsMidLifecycle | delivery_tracking.go:180-185 | the active statuses lie strictly between pending and delivered; inactive means pending, delivered or cancelled |
| Tracking.EffectiveSpeed | delivery_tracking.go:38-41 | the reported speed when it is at least 5, otherwise 40; always at least 5 |
| Tracking.Truncate | delivery_tracking.go:44 | a conversion to int rounds toward zero on both signs |
| Tracking.EtaMinutes | delivery_tracking.go:43-44 | the estimate in minutes is non-negative for a non-negative distance |
| Tracking.EtaMinutesBounds | delivery_tracking.go:38-44 | the minutes are the travel time cut down to whole minutes (m·v ≤ 60·d < (m+1)·v), and at most 12 per km |
| Tracking.CalculateETA | delivery_tracking.go:30-54 | the estimate carries the delivery id, the distance and the minutes, and arrives `minutes` whole minutes after `now`, never before it |
| Tracking.ProximityLevel | delivery_tracking.go:63-82 | arrived iff ≤ 50 m, arriving iff in (50, 100], nearby iff in (100, 500], none iff beyond 500 m |
| Tracking.RequestedStatus | delivery_tracking.go:63-82 | arrived always requests delivered; only nearby, arriving or delivered are requested; arriving never requests nearby; a request moves an active status strictly forward |
| Tracking.Transition | delivery_tracking.go:63-98 | an active status never moves back; within 50 m it becomes delivered; beyond 500 m it is unchanged; from arriving only arriving or delivered |
| Tracking.EvolveMonotone | delivery_tracking.go:63-98 | over any run of reports the status never moves backwards |
| Tracking.EvolveFromArriving | delivery_tracking.go:68-81 | once arriving, a delivery stays arriving until it is delivered |
| Tracking.EvolveArrivedDelivers | delivery_tracking.go:63-67 | one report within 50 m delivers an active delivery for good |
| Tracking.Advanced | delivery_tracking.go:100-111 | after a report only the status and update time may change, and they change only when the band requests a status |
| Tracking.Outbox | delivery_tracking.go:242-268 | a report sends 2 to 4 messages: the alert first iff within 500 m, then the stored status change, then location, then estimate; all are stamped `now`; none is delivery_assigned or delivery_completed |
| Tracking.OutboxStatusChange | delivery_tracking.go:84-98 | a status change is sent iff the band requests one and it was stored, and only right after the alert |
| Tracking.DeliveryTracker.constructor | delivery_tracking.go:21-28 | the tracker starts with the loaded deliveries, keyed by id, and no locations |
| Tracking.DeliveryTracker.GetActiveDeliveryForDriver | delivery_tracking.go:175-190 | nothing is found iff the driver has no active delivery; what is found is that driver's active delivery, filed under its id |
| Tracking.DeliveryTracker.Broadcast | delivery_tracking.go:146-156 | one encoded message goes to the delivery's watchers; it panics iff a watcher's queue is closed |
| Tracking.DeliveryTracker.UpdateDeliveryStatus | delivery_tracking.go:100-130 | an unknown id changes nothing; otherwise only that delivery's status and update time change, in memory, even when the write fails; the old/new status event is sent only after a successful write; it panics iff the id is known, the write succeeded and a watcher's queue is closed |
| Tracking.DeliveryTracker.CheckProximityAlerts | delivery_tracking.go:55-99 | the delivery becomes `Advanced`, and its watchers receive the alert and then the stored status change, as `AlertOutbox` lists; it panics iff the distance is within 500 m and a watcher's queue is closed |
| Tracking.DeliveryTracker.AlertThenStatus | delivery_tracking.go:93-97 | the alert fan-out followed by the status fan-out is one fan-out of `AlertOutbox` |
| Tracking.DeliveryTracker.SendInOrder | delivery_tracking.go:265-267 | the location message then the estimate message reach the watchers as one in-order batch |
| Tracking.DeliveryTracker.OutboxChain | delivery_tracking.go:263-267 | the proximity check's messages followed by location and estimate are exactly `Outbox` |
| Tracking.DeliveryTracker.TrackDelivery | delivery_tracking.go:254-267 | for the active delivery, the status is advanced and the watchers receive `Outbox` in order; it panics iff a watcher's queue is closed |
| Tracking.DeliveryTracker.ProcessLocationUpdate | delivery_tracking.go:242-268 | the driver's last location is always overwritten and no other entry changes; with no active delivery nothing else changes; otherwise that delivery is tracked as `Outbox` says; it panics iff the driver has an active delivery with a closed watcher queue, so never while the registry is consistent |

## Left out

- `calculateDistance` (haversine over float64) is the tracker's function
  field `calculateDistance`. No property of it (symmetry, zero distance,
  non-negativity) is assumed or proved.
- Floating point: reals replace float64. IEEE rounding, and the range of
  Go's float-to-int conversion, are not modelled.
- `time.Now()` is the parameter `now`. One reading is used for a whole
  location report, where the code reads the clock once per message.
- The 64-bit wrap-around of `time.Duration(minutes) * time.Minute` is not
  modelled.
- JSON: `json.Marshal` is the tracker's function field `marshal`, and its
  ignored errors are not modelled. Inbound frames arrive already decoded as
  `InboundEnvelope` values. The human-readable `message` strings of alerts
  and status events are not modelled.
- SQL:
  - The status `UPDATE` is the parameter `persistOk`.
  - `saveLocation` is not modelled, since its result is ignored.
  - `loadActiveDeliveries` and `initDatabase` are not part of this model.
    The loaded deliveries arrive as a map keyed by id.
- `App.processLocation` is not part of this model. It is `panic("unimplemented")`
  and is called before the tracker in `handleDriverMessage`, so the socket
  path is modelled only up to "location accepted for processing"
  (`LocationAccepted`). The tracker pipeline is modelled on its own.
- Concurrency is not modelled; every operation is one atomic step. This
  covers the `sync.RWMutex` of the hub and the tracker, the `Hub.run`
  register, unregister and broadcast channels, and the goroutines of
  `serveWs`.
- WebSocket I/O is not modelled: the upgrader, deadlines, the pong handler
  and the wire formats of ping and close frames.
  - Reads are a script of `ReadResult`s.
  - The outbound loop's wake-ups (queue ready or ticker, with each write's
    outcome) are a script of `Wake`s.
  - Which `select` case fires when both are ready is the script's choice.
- HTTP routing, the static file server and the two stub handlers are not
  modelled.
- Logging is not modelled.
- Session.Client.WriteStep: the outbound loop drains the messages still
  buffered in a closed queue before it writes the close frame. The model
  follows Go's receive semantics on a closed, non-empty channel.
- Tracking.DeliveryTracker.ProcessLocationUpdate: the contract states
  exactly when a send panics, but not the partial effects up to the panic
  (which watchers were already served, the stored status).
- Tracking.DeliveryTracker.TrackDelivery: after a panic the partial effects
  are not described, as for ProcessLocationUpdate.
- Tracking.DeliveryTracker.CheckProximityAlerts: after a panic the partial
  effects are not described, as for ProcessLocationUpdate.
- Tracking.DeliveryTracker.UpdateDeliveryStatus: after a panic the new
  in-memory status is stated; the queues are not described.

## Findings

| source | as written | input that shows it | evidently intended | confidence | as-written member | corrected member |
|---|---|---|---|---|---|---|
| main.go:101-102 | `broadcastToAll` closes a full client's queue and deletes it from `clients` only. The client stays in `deliveries[...]`, and the next `sendToDeliveryWatchers` for that delivery sends on the closed channel and panics. | A customer watching "delivery-1" whose queue holds 256 messages when `broadcastToAll` runs, followed by any status, alert, location or estimate broadcast for "delivery-1". | A dropped slow client is unregistered from every index (as `unregisterClient` does), so no index holds a closed queue. | not executed; low, because nothing in the service writes to `h.broadcast` | Registry.DroppedWatcherPanics | Registry.Hub.BroadcastToAllUnregistering |
