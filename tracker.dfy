/**
 * The delivery tracker (delivery_tracking.go): the deliveries it follows and
 * the last reported location of each driver; on every location report it
 * finds the driver's active delivery, estimates the arrival time, classifies
 * the distance into the proximity bands, moves the delivery's status forward
 * and sends the resulting messages to the delivery's watchers.
 *
 * The distance between two points and the JSON encoding of a message are
 * functions the tracker is given; the clock reading is a parameter; the
 * outcome of the status write to storage is a parameter.
 */
module Tracking {
  import opened Models
  import opened Session
  import opened Registry

  // ---------------------------------------------------------------------------
  // Estimated time of arrival
  // ---------------------------------------------------------------------------

  /** The statuses under which a delivery is followed: assigned, picked_up,
      in_transit, nearby and arriving. */
  predicate IsActive(s: DeliveryStatus)
  {
    || s == StatusAssigned
    || s == StatusPickedUp
    || s == StatusInTransit
    || s == StatusNearby
    || s == StatusArriving
  }

  /** The active statuses are exactly those strictly between pending and
      delivered on the lifecycle. */
  lemma ActiveIsMidLifecycle(s: DeliveryStatus)
    ensures IsActive(s) <==> Stage(StatusPending) < Stage(s) < Stage(StatusDelivered)
    ensures !IsActive(s) <==> s == StatusPending || s == StatusDelivered || s == StatusCancelled
  {
  }

  /** The speed the estimate divides by: the reported speed, unless it is
      below 5 km/h, in which case the default speed. */
  function EffectiveSpeed(speed: real): (r: real)
    ensures r >= SpeedFloor
    ensures speed >= SpeedFloor ==> r == speed
    ensures speed < SpeedFloor ==> r == DefaultSpeed
  {
    if speed < SpeedFloor then DefaultSpeed else speed
  }

  /** Conversion of a real to an integer, rounding toward zero as Go's int()
      does on a float64. */
  function Truncate(x: real): (n: int)
    ensures x >= 0.0 ==> n as real <= x < n as real + 1.0
    ensures x < 0.0 ==> n as real - 1.0 < x <= n as real
  {
    if x >= 0.0 then x.Floor else -((-x).Floor)
  }

  /** Whole minutes to cover `distanceKm` at the effective speed. */
  function EtaMinutes(distanceKm: real, speed: real): (minutes: int)
    ensures distanceKm >= 0.0 ==> minutes >= 0
  {
    var v := EffectiveSpeed(speed);
    assert distanceKm >= 0.0 ==> distanceKm / v >= 0.0;
    Truncate(distanceKm / v * 60.0)
  }

  lemma MulLeft(a: real, b: real, c: real)
    requires a <= b && c >= 0.0
    ensures a * c <= b * c
  {
    assert b * c - a * c == (b - a) * c;
  }

  lemma MulLeftStrict(a: real, b: real, c: real)
    requires a < b && c > 0.0
    ensures a * c < b * c
  {
    assert b * c - a * c == (b - a) * c;
  }

  /** The estimate is the distance's travel time cut down to whole minutes:
      `minutes` minutes at the effective speed cover at most the distance, and
      one more minute would cover it. With the 5 km/h floor it is never more
      than 12 minutes per kilometre. */
  lemma EtaMinutesBounds(distanceKm: real, speed: real)
    requires distanceKm >= 0.0
    ensures EtaMinutes(distanceKm, speed) as real * EffectiveSpeed(speed) <= 60.0 * distanceKm
    ensures 60.0 * distanceKm < (EtaMinutes(distanceKm, speed) as real + 1.0) * EffectiveSpeed(speed)
    ensures EtaMinutes(distanceKm, speed) as real <= 12.0 * distanceKm
  {
    var v := EffectiveSpeed(speed);
    var q := distanceKm / v * 60.0;
    HoursTimesSpeed(distanceKm, v);
    var m := EtaMinutes(distanceKm, speed) as real;
    assert m == Truncate(q) as real;
    WholeMinutes(m, m + 1.0, q, v, 60.0 * distanceKm);
    AtMostTwelvePerKm(distanceKm, v, q);
  }

  /** Cutting a travel time `q` down to `m` whole minutes, below the next
      whole number `n`: at speed `v`, `m` minutes cover at most the distance
      `dist` that `q` minutes cover, and `n` minutes cover more. */
  lemma WholeMinutes(m: real, n: real, q: real, v: real, dist: real)
    requires m <= q < n && v > 0.0 && q * v == dist
    ensures m * v <= dist < n * v
  {
    MulLeft(m, q, v);
    MulLeftStrict(q, n, v);
  }

  /** Travel time in minutes times the speed gives back the distance. */
  lemma HoursTimesSpeed(distanceKm: real, v: real)
    requires distanceKm >= 0.0 && v > 0.0
    ensures distanceKm / v * 60.0 >= 0.0
    ensures distanceKm / v * 60.0 * v == 60.0 * distanceKm
  {
    var w := distanceKm / v;
    assert w * v == distanceKm;
  }

  lemma AtMostTwelvePerKm(distanceKm: real, v: real, q: real)
    requires v >= SpeedFloor && q >= 0.0 && q * v == 60.0 * distanceKm
    ensures q <= 12.0 * distanceKm
  {
    MulLeft(SpeedFloor, v, q);
    assert SpeedFloor * q <= v * q;
    assert v * q == q * v;
  }

  /** The estimate for a delivery from a driver's location, `distanceKm` away
      from the drop-off point at the clock reading `now`. */
  function CalculateETA(loc: DriverLocation, d: Delivery, distanceKm: real, now: Time): (eta: ETAUpdate)
    ensures eta.deliveryID == d.id && eta.distanceKm == distanceKm
    ensures eta.durationMinutes == EtaMinutes(distanceKm, loc.location.speed)
    ensures eta.estimatedArrival == now + eta.durationMinutes * Minute
    ensures distanceKm >= 0.0 ==> now <= eta.estimatedArrival
  {
    var minutes := EtaMinutes(distanceKm, loc.location.speed);
    ETAUpdate(d.id, now + minutes * Minute, distanceKm, minutes)
  }

  // ---------------------------------------------------------------------------
  // Proximity bands and status transitions
  // ---------------------------------------------------------------------------

  /** The alert a distance (in metres) raises, the nearest band checked first. */
  function ProximityLevel(distanceM: real): (level: Option<AlertLevel>)
    ensures level == Some(AlertArrived) <==> distanceM <= ProximityArrived
    ensures level == Some(AlertArriving) <==> ProximityArrived < distanceM <= ProximityArriving
    ensures level == Some(AlertNearby) <==> ProximityArriving < distanceM <= ProximityNear
    ensures level == None <==> ProximityNear < distanceM
  {
    if distanceM <= ProximityArrived then Some(AlertArrived)
    else if distanceM <= ProximityArriving then Some(AlertArriving)
    else if distanceM <= ProximityNear then Some(AlertNearby)
    else None
  }

  /** The status an alert asks for, given the delivery's current status. */
  function RequestedStatus(level: AlertLevel, current: DeliveryStatus): (r: Option<DeliveryStatus>)
    ensures level == AlertArrived ==> r == Some(StatusDelivered)
    ensures r.Some? ==> r.value == StatusNearby || r.value == StatusArriving || r.value == StatusDelivered
    ensures current == StatusArriving ==> r != Some(StatusNearby)
    ensures IsActive(current) && r.Some? ==> Stage(current) < Stage(r.value)
    ensures IsActive(current) && level != AlertArrived ==> (r.None? <==> Stage(current) >= Stage(
      if level == AlertNearby then StatusNearby else StatusArriving))
  {
    match level
    case AlertArrived => Some(StatusDelivered)
    case AlertArriving => if current != StatusArriving then Some(StatusArriving) else None
    case AlertNearby =>
      if current != StatusNearby && current != StatusArriving then Some(StatusNearby) else None
  }

  /** The status change a location report `distanceM` metres from the
      drop-off point requests, if any. */
  function StatusRequest(current: DeliveryStatus, distanceM: real): Option<DeliveryStatus>
  {
    match ProximityLevel(distanceM)
    case None => None
    case Some(level) => RequestedStatus(level, current)
  }

  /** The in-memory status after one report; the change is kept whether or not
      it reaches storage. */
  function Transition(s: DeliveryStatus, distanceM: real): (t: DeliveryStatus)
    ensures IsActive(s) ==> Stage(s) <= Stage(t)
    ensures IsActive(s) && t != s ==> Stage(s) < Stage(t)
    ensures distanceM <= ProximityArrived ==> t == StatusDelivered
    ensures ProximityNear < distanceM ==> t == s
    ensures s == StatusArriving ==> t == StatusArriving || t == StatusDelivered
  {
    match StatusRequest(s, distanceM)
    case None => s
    case Some(n) => n
  }

  /** The status of a delivery followed through successive reports at the
      given distances; once it is no longer active the tracker stops finding it. */
  function Evolve(s: DeliveryStatus, distancesM: seq<real>): DeliveryStatus
    decreases |distancesM|
  {
    if distancesM == [] || !IsActive(s) then s
    else Evolve(Transition(s, distancesM[0]), distancesM[1..])
  }

  /** Over any run of reports the status never moves backwards. */
  lemma {:induction false} EvolveMonotone(s: DeliveryStatus, distancesM: seq<real>)
    ensures Stage(s) <= Stage(Evolve(s, distancesM))
    decreases |distancesM|
  {
    if distancesM != [] && IsActive(s) {
      EvolveMonotone(Transition(s, distancesM[0]), distancesM[1..]);
    }
  }

  /** Once arriving, a delivery never goes back to nearby or earlier: it stays
      arriving until it is delivered. */
  lemma {:induction false} EvolveFromArriving(distancesM: seq<real>)
    ensures Evolve(StatusArriving, distancesM) in {StatusArriving, StatusDelivered}
    decreases |distancesM|
  {
    if distancesM != [] {
      var t := Transition(StatusArriving, distancesM[0]);
      if t == StatusArriving {
        EvolveFromArriving(distancesM[1..]);
      }
    }
  }

  /** A single report within 50 m of the drop-off point delivers an active
      delivery, and it stays delivered through every later report. */
  lemma {:induction false} EvolveArrivedDelivers(s: DeliveryStatus, distancesM: seq<real>, i: nat)
    requires IsActive(s)
    requires i < |distancesM| && distancesM[i] <= ProximityArrived
    ensures Evolve(s, distancesM) == StatusDelivered
    decreases i
  {
    var t := Transition(s, distancesM[0]);
    if i == 0 {
      assert !IsActive(t);
      assert Evolve(t, distancesM[1..]) == t;
    } else if IsActive(t) {
      EvolveArrivedDelivers(t, distancesM[1..], i - 1);
    } else {
      assert t == StatusDelivered by {
        assert Stage(s) < Stage(t);
      }
    }
  }

  /** A delivery after one report: only its status and update time change,
      and only when the report requests a status. */
  function Advanced(d: Delivery, distanceM: real, now: Time): (r: Delivery)
    ensures r.status == Transition(d.status, distanceM)
    ensures r == d.(status := r.status, updatedAt := r.updatedAt)
    ensures r.updatedAt == (if StatusRequest(d.status, distanceM).Some? then now else d.updatedAt)
  {
    match StatusRequest(d.status, distanceM)
    case None => d
    case Some(n) => d.(status := n, updatedAt := now)
  }

  // ---------------------------------------------------------------------------
  // Messages to the watchers of a delivery
  // ---------------------------------------------------------------------------

  function AlertMessage(d: Delivery, loc: DriverLocation, distanceM: real, level: AlertLevel, now: Time): WebSocketMessage
  {
    WebSocketMessage(TypeProximityAlert, now, AlertData(ProximityAlert(d.id, loc.driverID, distanceM, level)))
  }

  function StatusMessage(id: string, oldStatus: DeliveryStatus, newStatus: DeliveryStatus, now: Time): WebSocketMessage
  {
    WebSocketMessage(TypeStatusChange, now, StatusData(StatusChangeEvent(id, oldStatus, newStatus)))
  }

  function LocationMessage(loc: DriverLocation, now: Time): WebSocketMessage
  {
    WebSocketMessage(TypeLocationUpdate, now, LocationData(loc))
  }

  function EtaMessage(eta: ETAUpdate, now: Time): WebSocketMessage
  {
    WebSocketMessage(TypeETAUpdate, now, ETAData(eta))
  }

  /** What a status update sends: the change event, only when the delivery is
      known and the write to storage succeeded. */
  function StatusOutbox(deliveries: map<string, Delivery>, id: string, newStatus: DeliveryStatus,
                        now: Time, persistOk: bool): seq<WebSocketMessage>
  {
    if id in deliveries && persistOk then [StatusMessage(id, deliveries[id].status, newStatus, now)] else []
  }

  /** What the proximity check sends: an alert when the distance falls in a
      band, followed by the status change it requests when that is stored. */
  function AlertOutbox(d: Delivery, loc: DriverLocation, distanceM: real, now: Time, persistOk: bool)
    : seq<WebSocketMessage>
  {
    match ProximityLevel(distanceM)
    case None => []
    case Some(level) =>
      [AlertMessage(d, loc, distanceM, level, now)]
      + (match RequestedStatus(level, d.status)
         case None => []
         case Some(n) => if persistOk then [StatusMessage(d.id, d.status, n, now)] else [])
  }

  /** Everything one location report sends to the watchers of its delivery,
      in order. */
  function Outbox(d: Delivery, loc: DriverLocation, distanceKm: real, now: Time, persistOk: bool)
    : (ms: seq<WebSocketMessage>)
    ensures 2 <= |ms| <= 4
    ensures ms[|ms| - 2] == LocationMessage(loc, now)
    ensures ms[|ms| - 1] == EtaMessage(CalculateETA(loc, d, distanceKm, now), now)
    ensures ms[0].msgType == TypeProximityAlert <==> distanceKm * 1000.0 <= ProximityNear
    ensures ProximityNear < distanceKm * 1000.0 ==> |ms| == 2
    ensures persistOk && StatusRequest(d.status, distanceKm * 1000.0).Some? ==>
      ms[1] == StatusMessage(d.id, d.status, Transition(d.status, distanceKm * 1000.0), now)
    ensures forall i :: 0 <= i < |ms| ==>
      && ms[i].timestamp == now
      && ms[i].msgType != TypeDeliveryAssigned && ms[i].msgType != TypeDeliveryCompleted
  {
    AlertOutbox(d, loc, distanceKm * 1000.0, now, persistOk)
      + [LocationMessage(loc, now), EtaMessage(CalculateETA(loc, d, distanceKm, now), now)]
  }

  /** A report sends a status change exactly when its band requests a status
      and the change was stored, and then only one, right after the alert. */
  lemma OutboxStatusChange(d: Delivery, loc: DriverLocation, distanceKm: real, now: Time, persistOk: bool)
    ensures var ms := Outbox(d, loc, distanceKm, now, persistOk);
      && ((exists i :: 0 <= i < |ms| && ms[i].msgType == TypeStatusChange)
          <==> persistOk && StatusRequest(d.status, distanceKm * 1000.0).Some?)
      && forall i :: 0 <= i < |ms| && ms[i].msgType == TypeStatusChange ==> i == 1
  {
    var ms := Outbox(d, loc, distanceKm, now, persistOk);
    var distanceM := distanceKm * 1000.0;
    if persistOk && StatusRequest(d.status, distanceM).Some? {
      assert ms[1].msgType == TypeStatusChange;
    }
    forall i | 0 <= i < |ms| && ms[i].msgType == TypeStatusChange
      ensures i == 1 && persistOk && StatusRequest(d.status, distanceM).Some?
    {
      assert i != |ms| - 1 && i != |ms| - 2;
    }
  }

  /** `d` is the delivery filed under its id, driven by `driverID`, and active. */
  ghost predicate ActiveFor(deliveries: map<string, Delivery>, d: Delivery, driverID: string)
  {
    d.id in deliveries && deliveries[d.id] == d && d.driverID == driverID && IsActive(d.status)
  }

  ghost predicate HasActiveDelivery(deliveries: map<string, Delivery>, driverID: string)
  {
    exists id :: id in deliveries && deliveries[id].driverID == driverID && IsActive(deliveries[id].status)
  }

  // ---------------------------------------------------------------------------
  // The tracker
  // ---------------------------------------------------------------------------

  /** The tracker's state: the followed deliveries by id and the last location
      reported by each driver, beside the registry it sends through. */
  class DeliveryTracker {
    const hub: Hub
    /** Great-circle distance in km between two (lat, lon) points. */
    const calculateDistance: (real, real, real, real) -> real
    /** Encoding of an outgoing envelope into the bytes put on a queue. */
    const marshal: WebSocketMessage -> Bytes
    var deliveries: map<string, Delivery>
    var lastLocations: map<string, DriverLocation>

    /** Every delivery is filed under its own id, as loading keys them. */
    ghost predicate Valid()
      reads this
    {
      forall id :: id in deliveries ==> deliveries[id].id == id
    }

    /** A tracker over the deliveries loaded from storage, with no location yet. */
    constructor (hub: Hub, calculateDistance: (real, real, real, real) -> real,
                 marshal: WebSocketMessage -> Bytes, loaded: map<string, Delivery>)
      requires forall id :: id in loaded ==> loaded[id].id == id
      ensures Valid()
      ensures this.hub == hub && this.calculateDistance == calculateDistance && this.marshal == marshal
      ensures deliveries == loaded && lastLocations == map[]
    {
      this.hub := hub;
      this.calculateDistance := calculateDistance;
      this.marshal := marshal;
      deliveries := loaded;
      lastLocations := map[];
    }

    /** Distance in km from a driver's location to a delivery's drop-off point. */
    function DistanceKm(loc: DriverLocation, d: Delivery): real
    {
      calculateDistance(loc.location.lat, loc.location.lon, d.dropoffLat, d.dropoffLon)
    }

    function Encode(ms: seq<WebSocketMessage>): (bs: seq<Bytes>)
      ensures |bs| == |ms| && forall i :: 0 <= i < |ms| ==> bs[i] == marshal(ms[i])
    {
      seq(|ms|, i requires 0 <= i < |ms| => marshal(ms[i]))
    }

    lemma EncodeAppend(a: seq<WebSocketMessage>, b: seq<WebSocketMessage>)
      ensures Encode(a + b) == Encode(a) + Encode(b)
    {
      assert forall i :: 0 <= i < |a + b| ==> Encode(a + b)[i] == (Encode(a) + Encode(b))[i];
    }

    /** Search of the deliveries, in no particular order, for an active one of
        the driver; nothing is found exactly when the driver has none. */
    method GetActiveDeliveryForDriver(driverID: string) returns (found: Option<Delivery>)
      requires Valid()
      ensures found.None? <==> !HasActiveDelivery(deliveries, driverID)
      ensures found.Some? ==> ActiveFor(deliveries, found.value, driverID)
    {
      var pending := deliveries.Keys;
      while pending != {}
        invariant pending <= deliveries.Keys
        invariant forall id :: id in deliveries && id !in pending ==>
          !(deliveries[id].driverID == driverID && IsActive(deliveries[id].status))
        decreases pending
      {
        var id :| id in pending;
        var d := deliveries[id];
        if d.driverID == driverID && IsActive(d.status) {
          return Some(d);
        }
        pending := pending - {id};
      }
      return None;
    }

    /** Encoding of one message and its send to the watchers of a delivery
        (the location, estimate, alert and status-change broadcasts). */
    method Broadcast(id: string, m: WebSocketMessage) returns (panicked: bool)
      requires hub.Valid()
      modifies hub.Repr
      ensures hub.Valid()
      ensures hub.ClosedClients() == old(hub.ClosedClients())
      ensures panicked <==> old(hub.HasClosedWatcher(id))
      ensures hub.HasClosedWatcher(id) == old(hub.HasClosedWatcher(id))
      ensures !panicked ==> hub.Received(old(hub.Queues()), id, Encode([m]))
      ensures old(hub.Consistent()) ==> !panicked
    {
      panicked := hub.SendToDeliveryWatchers(id, marshal(m));
      assert Encode([m]) == [marshal(m)];
    }

    lemma NothingSent(q: map<Client, seq<Bytes>>, ws: seq<Client>)
      ensures QueuesAfterOffer(q, q, ws, Encode([]))
    {
      QueuesAfterOfferNothing(q, ws);
      assert Encode([]) == [];
    }

    /** Status update of one delivery: an unknown id changes nothing;
        otherwise the status and update time change in memory, and the change
        event (old and new status) goes to the watchers only when it was
        stored. */
    method UpdateDeliveryStatus(id: string, newStatus: DeliveryStatus, now: Time, persistOk: bool)
      returns (panicked: bool)
      requires Valid() && hub.Valid()
      modifies this, hub.Repr
      ensures Valid() && hub.Valid() && lastLocations == old(lastLocations)
      ensures deliveries == if id in old(deliveries)
        then old(deliveries)[id := old(deliveries)[id].(status := newStatus, updatedAt := now)]
        else old(deliveries)
      ensures hub.ClosedClients() == old(hub.ClosedClients())
      ensures panicked <==> id in old(deliveries) && persistOk && old(hub.HasClosedWatcher(id))
      ensures hub.HasClosedWatcher(id) == old(hub.HasClosedWatcher(id))
      ensures !panicked ==>
        hub.Received(old(hub.Queues()), id, Encode(StatusOutbox(old(deliveries), id, newStatus, now, persistOk)))
      ensures old(hub.Consistent()) ==> !panicked
    {
      if id !in deliveries {
        NothingSent(hub.Queues(), hub.Watchers(id));
        return false;
      }
      var d := deliveries[id];
      deliveries := deliveries[id := d.(status := newStatus, updatedAt := now)];
      if !persistOk {
        NothingSent(hub.Queues(), hub.Watchers(id));
        return false;
      }
      panicked := Broadcast(id, StatusMessage(id, d.status, newStatus, now));
    }

    /** The proximity check of one report: an alert when the distance falls in
        a band, then the status change that band requests, if any. */
    method CheckProximityAlerts(d: Delivery, loc: DriverLocation, distanceKm: real, now: Time, persistOk: bool)
      returns (panicked: bool)
      requires Valid() && hub.Valid()
      requires d.id in deliveries && deliveries[d.id] == d
      modifies this, hub.Repr
      ensures Valid() && hub.Valid() && lastLocations == old(lastLocations)
      ensures hub.ClosedClients() == old(hub.ClosedClients())
      ensures panicked <==> ProximityLevel(distanceKm * 1000.0).Some? && old(hub.HasClosedWatcher(d.id))
      ensures hub.HasClosedWatcher(d.id) == old(hub.HasClosedWatcher(d.id))
      ensures !panicked ==>
        && deliveries == old(deliveries)[d.id := Advanced(d, distanceKm * 1000.0, now)]
        && hub.Received(old(hub.Queues()), d.id, Encode(AlertOutbox(d, loc, distanceKm * 1000.0, now, persistOk)))
      ensures old(hub.Consistent()) ==> !panicked
    {
      var distanceM := distanceKm * 1000.0;
      var level := ProximityLevel(distanceM);
      if level.None? {
        NothingSent(hub.Queues(), hub.Watchers(d.id));
        assert AlertOutbox(d, loc, distanceM, now, persistOk) == [];
        assert deliveries == deliveries[d.id := d];
        return false;
      }
      ghost var q0 := hub.Queues();
      ghost var ws := hub.Watchers(d.id);
      var alert := AlertMessage(d, loc, distanceM, level.value, now);
      panicked := Broadcast(d.id, alert);
      if panicked {
        return;
      }
      ghost var q1 := hub.Queues();
      assert QueuesAfterOffer(q0, q1, ws, Encode([alert]));
      var requested := RequestedStatus(level.value, d.status);
      if requested.None? {
        assert AlertOutbox(d, loc, distanceM, now, persistOk) == [alert];
        assert deliveries == deliveries[d.id := d];
        return;
      }
      ghost var before := deliveries;
      panicked := UpdateDeliveryStatus(d.id, requested.value, now, persistOk);
      if !panicked {
        assert QueuesAfterOffer(q1, hub.Queues(), ws, Encode(StatusOutbox(before, d.id, requested.value, now, persistOk)));
        AlertThenStatus(q0, q1, hub.Queues(), ws, before, d, loc, distanceM, level.value,
                        requested.value, now, persistOk);
      }
    }

    lemma AlertThenStatus(q0: map<Client, seq<Bytes>>, q1: map<Client, seq<Bytes>>, q2: map<Client, seq<Bytes>>,
                          ws: seq<Client>, deliveries: map<string, Delivery>, d: Delivery,
                          loc: DriverLocation, distanceM: real,
                          level: AlertLevel, requested: DeliveryStatus, now: Time, persistOk: bool)
      requires d.id in deliveries && deliveries[d.id] == d
      requires ProximityLevel(distanceM) == Some(level) && RequestedStatus(level, d.status) == Some(requested)
      requires QueuesAfterOffer(q0, q1, ws, Encode([AlertMessage(d, loc, distanceM, level, now)]))
      requires QueuesAfterOffer(q1, q2, ws, Encode(StatusOutbox(deliveries, d.id, requested, now, persistOk)))
      ensures QueuesAfterOffer(q0, q2, ws, Encode(AlertOutbox(d, loc, distanceM, now, persistOk)))
    {
      var alert := [AlertMessage(d, loc, distanceM, level, now)];
      var rest := StatusOutbox(deliveries, d.id, requested, now, persistOk);
      QueuesAfterOfferChain(q0, q1, q2, ws, Encode(alert), Encode(rest));
      EncodeAppend(alert, rest);
      assert AlertOutbox(d, loc, distanceM, now, persistOk) == alert + rest;
    }

    /** Two sends to the watchers of one delivery, one after the other. */
    method SendInOrder(id: string, first: WebSocketMessage, second: WebSocketMessage) returns (panicked: bool)
      requires hub.Valid()
      modifies hub.Repr
      ensures hub.Valid()
      ensures hub.ClosedClients() == old(hub.ClosedClients())
      ensures panicked <==> old(hub.HasClosedWatcher(id))
      ensures !panicked ==> hub.Received(old(hub.Queues()), id, Encode([first, second]))
      ensures old(hub.Consistent()) ==> !panicked
    {
      ghost var q0 := hub.Queues();
      panicked := Broadcast(id, first);
      if panicked {
        return;
      }
      ghost var q1 := hub.Queues();
      panicked := Broadcast(id, second);
      if !panicked {
        QueuesAfterOfferChain(q0, q1, hub.Queues(), hub.Watchers(id), Encode([first]), Encode([second]));
        EncodeAppend([first], [second]);
        assert [first] + [second] == [first, second];
      }
    }

    /** The proximity check's messages followed by the location and the
        estimate are the report's whole outbox. */
    lemma OutboxChain(q0: map<Client, seq<Bytes>>, q1: map<Client, seq<Bytes>>, q2: map<Client, seq<Bytes>>,
                      ws: seq<Client>, d: Delivery, loc: DriverLocation, distanceKm: real, now: Time,
                      persistOk: bool)
      requires QueuesAfterOffer(q0, q1, ws, Encode(AlertOutbox(d, loc, distanceKm * 1000.0, now, persistOk)))
      requires QueuesAfterOffer(q1, q2, ws,
        Encode([LocationMessage(loc, now), EtaMessage(CalculateETA(loc, d, distanceKm, now), now)]))
      ensures QueuesAfterOffer(q0, q2, ws, Encode(Outbox(d, loc, distanceKm, now, persistOk)))
    {
      var first := AlertOutbox(d, loc, distanceKm * 1000.0, now, persistOk);
      var last := [LocationMessage(loc, now), EtaMessage(CalculateETA(loc, d, distanceKm, now), now)];
      QueuesAfterOfferChain(q0, q1, q2, ws, Encode(first), Encode(last));
      EncodeAppend(first, last);
      assert Outbox(d, loc, distanceKm, now, persistOk) == first + last;
    }

    /** What tracking delivery `d` for the report `loc` leaves behind, measured
        from the deliveries `before` and the queues `queues`: the delivery's
        status advanced as its distance band requests, and every message of
        the report's outbox offered, in order, to each of its watchers. */
    ghost predicate Tracked(before: map<string, Delivery>, queues: map<Client, seq<Bytes>>, d: Delivery,
                            loc: DriverLocation, now: Time, persistOk: bool)
      reads this, hub, hub.Repr
    {
      var km := DistanceKm(loc, d);
      && deliveries == before[d.id := Advanced(d, km * 1000.0, now)]
      && hub.Received(queues, d.id, Encode(Outbox(d, loc, km, now, persistOk)))
    }

    /** The part of a location report that follows finding the driver's
        active delivery `d`: the estimate, the proximity check, then the
        location and the estimate to the delivery's watchers. */
    method TrackDelivery(d: Delivery, loc: DriverLocation, now: Time, persistOk: bool) returns (panicked: bool)
      requires Valid() && hub.Valid()
      requires d.id in deliveries && deliveries[d.id] == d
      modifies this, hub.Repr
      ensures Valid() && hub.Valid() && lastLocations == old(lastLocations)
      ensures hub.ClosedClients() == old(hub.ClosedClients())
      ensures !panicked ==> Tracked(old(deliveries), old(hub.Queues()), d, loc, now, persistOk)
      ensures panicked <==> old(hub.HasClosedWatcher(d.id))
      ensures hub.HasClosedWatcher(d.id) == old(hub.HasClosedWatcher(d.id))
      ensures old(hub.Consistent()) ==> !panicked
    {
      ghost var q0 := hub.Queues();
      var eta := CalculateETA(loc, d, DistanceKm(loc, d), now);
      var distanceKm := DistanceKm(loc, d);
      panicked := CheckProximityAlerts(d, loc, distanceKm, now, persistOk);
      if panicked {
        return;
      }
      ghost var q1 := hub.Queues();
      var location := LocationMessage(loc, now);
      var estimate := EtaMessage(eta, now);
      panicked := SendInOrder(d.id, location, estimate);
      if !panicked {
        OutboxChain(q0, q1, hub.Queues(), hub.Watchers(d.id), d, loc, distanceKm, now, persistOk);
      }
    }

    /** A location report from a driver: it always becomes the driver's last
        location (the write of the location to storage is not waited on); when
        the driver has an active delivery, that delivery is tracked. */
    method ProcessLocationUpdate(loc: DriverLocation, now: Time, persistOk: bool)
      returns (active: Option<Delivery>, panicked: bool)
      requires Valid() && hub.Valid()
      modifies this, hub.Repr
      ensures Valid() && hub.Valid()
      ensures lastLocations == old(lastLocations)[loc.driverID := loc]
      ensures hub.ClosedClients() == old(hub.ClosedClients())
      ensures active.None? <==> !HasActiveDelivery(old(deliveries), loc.driverID)
      ensures active.None? ==> deliveries == old(deliveries) && unchanged(hub, hub.Repr)
      ensures active.Some? ==> ActiveFor(old(deliveries), active.value, loc.driverID)
      ensures active.Some? && !panicked ==>
        Tracked(old(deliveries), old(hub.Queues()), active.value, loc, now, persistOk)
      ensures panicked <==> active.Some? && old(hub.HasClosedWatcher(active.value.id))
      ensures old(hub.Consistent()) ==> !panicked
    {
      lastLocations := lastLocations[loc.driverID := loc];
      active := GetActiveDeliveryForDriver(loc.driverID);
      if active.None? {
        return active, false;
      }
      panicked := TrackDelivery(active.value, loc, now, persistOk);
    }
  }
}
