/**
 * Shared vocabulary of the location-tracking service (models.go): the timing
 * and proximity constants, the message-type and delivery-status enumerations,
 * and the records exchanged between the sessions, the registry and the tracker.
 *
 * Floating-point fields become `real`, timestamps and durations become `int`
 * nanoseconds (Go's time.Time and time.Duration), and a Go `[]byte` becomes a
 * sequence of bytes.
 */
module Models {

  datatype Option<+T> = None | Some(value: T)

  newtype byte = x: int | 0 <= x < 256
  type Bytes = seq<byte>

  /** An instant, in nanoseconds. */
  type Time = int
  /** A duration, in nanoseconds. */
  type Duration = int

  const Second: Duration := 1_000_000_000
  const Minute: Duration := 60 * Second

  const WriteWait: Duration := 10 * Second
  const PongWait: Duration := 60 * Second
  const PingPeriod: Duration := (PongWait * 9) / 10

  /** Proximity thresholds, in metres. */
  const ProximityNear: real := 500.0
  const ProximityArriving: real := 100.0
  const ProximityArrived: real := 50.0

  /** Speeds are in km/h. */
  const DefaultSpeed: real := 40.0
  /** A reported speed below this floor is replaced by DefaultSpeed. */
  const SpeedFloor: real := 5.0

  /** The keep-alive ping goes out strictly before the peer's read deadline expires. */
  lemma TimingConstants()
    ensures PingPeriod == 54 * Second
    ensures WriteWait < PingPeriod < PongWait
  {
  }

  /** The three thresholds are strictly ordered, so the nearest-first chain of tests
      cuts the distance axis into four disjoint bands; the default speed is above the floor. */
  lemma ProximityConstants()
    ensures 0.0 < ProximityArrived < ProximityArriving < ProximityNear
    ensures DefaultSpeed >= SpeedFloor > 0.0
  {
  }

  datatype MessageType =
    | TypeLocationUpdate
    | TypeStatusChange
    | TypeETAUpdate
    | TypeProximityAlert
    | TypeDeliveryAssigned
    | TypeDeliveryCompleted

  /** The string a message type travels as. */
  function MessageTypeName(t: MessageType): string
  {
    match t
    case TypeLocationUpdate => "location_update"
    case TypeStatusChange => "status_change"
    case TypeETAUpdate => "eta_update"
    case TypeProximityAlert => "proximity_alert"
    case TypeDeliveryAssigned => "delivery_assigned"
    case TypeDeliveryCompleted => "delivery_completed"
  }

  /** The six message types have six distinct names. */
  lemma MessageTypeNamesDistinct(a: MessageType, b: MessageType)
    ensures MessageTypeName(a) == MessageTypeName(b) <==> a == b
  {
  }

  datatype DeliveryStatus =
    | StatusPending
    | StatusAssigned
    | StatusPickedUp
    | StatusInTransit
    | StatusNearby
    | StatusArriving
    | StatusDelivered
    | StatusCancelled

  function StatusName(s: DeliveryStatus): string
  {
    match s
    case StatusPending => "pending"
    case StatusAssigned => "assigned"
    case StatusPickedUp => "picked_up"
    case StatusInTransit => "in_transit"
    case StatusNearby => "nearby"
    case StatusArriving => "arriving"
    case StatusDelivered => "delivered"
    case StatusCancelled => "cancelled"
  }

  /** The eight statuses have eight distinct names. */
  lemma StatusNamesDistinct(a: DeliveryStatus, b: DeliveryStatus)
    ensures StatusName(a) == StatusName(b) <==> a == b
  {
  }

  /** Position of a status along the delivery lifecycle
      pending, assigned, picked_up, in_transit, nearby, arriving, delivered;
      cancelled is terminal and placed last. */
  function Stage(s: DeliveryStatus): nat
  {
    match s
    case StatusPending => 0
    case StatusAssigned => 1
    case StatusPickedUp => 2
    case StatusInTransit => 3
    case StatusNearby => 4
    case StatusArriving => 5
    case StatusDelivered => 6
    case StatusCancelled => 7
  }

  datatype Location = Location(
    lat: real,
    lon: real,
    altitude: real,
    speed: real,
    bearing: real,
    accuracy: real,
    timestamp: Time)

  datatype DriverLocation = DriverLocation(driverID: string, deliveryID: string, location: Location)

  datatype Delivery = Delivery(
    id: string,
    driverID: string,
    customerID: string,
    pickupLat: real,
    pickupLon: real,
    dropoffLat: real,
    dropoffLon: real,
    status: DeliveryStatus,
    estimatedTime: Time,
    createdAt: Time,
    updatedAt: Time)

  datatype ETAUpdate = ETAUpdate(
    deliveryID: string,
    estimatedArrival: Time,
    distanceKm: real,
    durationMinutes: int)

  /** The three alert levels a proximity alert can carry. */
  datatype AlertLevel = AlertNearby | AlertArriving | AlertArrived

  /** A proximity alert; its human-readable message text is not modelled. */
  datatype ProximityAlert = ProximityAlert(
    deliveryID: string,
    driverID: string,
    distanceM: real,
    alertLevel: AlertLevel)

  /** A status change event; its human-readable message text is not modelled. */
  datatype StatusChangeEvent = StatusChangeEvent(
    deliveryID: string,
    oldStatus: DeliveryStatus,
    newStatus: DeliveryStatus)

  /** The payload carried in the `data` field of an outgoing envelope. */
  datatype Payload =
    | LocationData(driverLocation: DriverLocation)
    | ETAData(eta: ETAUpdate)
    | AlertData(alert: ProximityAlert)
    | StatusData(change: StatusChangeEvent)

  /** An outgoing envelope, before JSON encoding. */
  datatype WebSocketMessage = WebSocketMessage(msgType: MessageType, timestamp: Time, data: Payload)
}
