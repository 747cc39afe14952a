/**
 * `POST /api/users/saved-routes/add`: three ordered guards over the parsed
 * body (the top-level fields, then the pickup point, then the dropoff point),
 * each answering 400 with its own message, and otherwise one insert into
 * `savedRoutes` of the payload stamped with `createdAt`.
 */
module SavedRoutes {
  import opened Basics
  import opened Js
  import opened Http
  import opened DocStore

  const MissingFields := "Missing required fields: userId, label, pickupLocation, dropoffLocation"
  const InvalidPickup := "Invalid pickupLocation: address, latitude, and longitude are required"
  const InvalidDropoff := "Invalid dropoffLocation: address, latitude, and longitude are required"
  const AddFailed := "Failed to add saved route"
  const AddedMessage := "Saved route added successfully"

  /** What the guards decide: insert, answer 400 with a message, or throw (a TypeError). */
  datatype Verdict = Accept | Reject(message: string) | Throw(error: string)

  /** The first guard: `userId`, `label`, `pickupLocation` and `dropoffLocation` are all truthy. */
  predicate TopLevelPresent(data: Value)
    requires !data.IsNullish()
  {
    data.Get("userId").Truthy() && data.Get("label").Truthy()
    && data.Get("pickupLocation").Truthy() && data.Get("dropoffLocation").Truthy()
  }

  /** The guard on a `LocationPoint`: a truthy `address`, and numbers for both coordinates. */
  predicate ValidPoint(p: Value)
    requires !p.IsNullish()
  {
    p.Get("address").Truthy() && p.Get("latitude").IsNumber() && p.Get("longitude").IsNumber()
  }

  /** The guard chain of the handler, in its order. */
  function Validate(data: Value): (v: Verdict)
    ensures v.Throw? <==> data.IsNullish()
    ensures v.Throw? ==> v.error == ReadError(data, "userId")
    ensures v == Reject(MissingFields) <==> !data.IsNullish() && !TopLevelPresent(data)
    ensures v == Reject(InvalidPickup) <==>
              !data.IsNullish() && TopLevelPresent(data) && !ValidPoint(data.Get("pickupLocation"))
    ensures v == Reject(InvalidDropoff) <==>
              !data.IsNullish() && TopLevelPresent(data) && ValidPoint(data.Get("pickupLocation"))
              && !ValidPoint(data.Get("dropoffLocation"))
    ensures v.Reject? ==> v.message in {MissingFields, InvalidPickup, InvalidDropoff}
    ensures v == Accept ==> data.Obj?
    ensures v == Accept <==>
              !data.IsNullish() && TopLevelPresent(data)
              && ValidPoint(data.Get("pickupLocation")) && ValidPoint(data.Get("dropoffLocation"))
  {
    if data.IsNullish() then Throw(ReadError(data, "userId"))
    else if !TopLevelPresent(data) then Reject(MissingFields)
    else if !ValidPoint(data.Get("pickupLocation")) then Reject(InvalidPickup)
    else if !ValidPoint(data.Get("dropoffLocation")) then Reject(InvalidDropoff)
    else Accept
  }

  /** The payload with one coordinate of one of its points replaced. */
  function WithCoordinate(data: Value, point: string, coordinate: string, n: Number): (r: Value)
    requires data.Obj? && data.Get(point).Obj?
    ensures r.Obj? && r.Get(point).Obj?
  {
    data.With(point, data.Get(point).With(coordinate, Num(n)))
  }

  /**
   * Coordinates are checked by type only: replacing a numeric latitude or
   * longitude of either point by any other number, zero or NaN included,
   * never changes the verdict.
   */
  lemma CoordinateValueIrrelevant(data: Value, point: string, coordinate: string, n: Number)
    requires data.Obj? && data.Get(point).Obj?
    requires point == "pickupLocation" || point == "dropoffLocation"
    requires coordinate == "latitude" || coordinate == "longitude"
    requires data.Get(point).Get(coordinate).IsNumber()
    ensures Validate(WithCoordinate(data, point, coordinate, n)) == Validate(data)
  {
  }

  /** In particular an accepted route stays accepted with a latitude or longitude of 0. */
  lemma ZeroCoordinateAccepted(data: Value, point: string, coordinate: string)
    requires Validate(data) == Accept
    requires point == "pickupLocation" || point == "dropoffLocation"
    requires coordinate == "latitude" || coordinate == "longitude"
    ensures data.Get(point).Obj?
    ensures Validate(WithCoordinate(data, point, coordinate, Finite(0.0))) == Accept
  {
    CoordinateValueIrrelevant(data, point, coordinate, Finite(0.0));
  }

  /** `stops` is never looked at: any value for it, or none, gives the same verdict. */
  lemma StopsIgnored(data: Value, stops: Value)
    requires data.Obj?
    ensures Validate(data.With("stops", stops)) == Validate(data)
  {
  }

  /** A point's `doorOrFlat` is never looked at: any value for it gives the same verdict. */
  lemma DoorOrFlatIgnored(data: Value, point: string, doorOrFlat: Value)
    requires data.Obj? && data.Get(point).Obj?
    requires point == "pickupLocation" || point == "dropoffLocation"
    ensures Validate(data.With(point, data.Get(point).With("doorOrFlat", doorOrFlat))) == Validate(data)
  {
  }

  datatype RouteAdded = RouteAdded(message: string, id: DocId)

  /**
   * `POST`: `body` is what `req.json()` yields, or the error it throws; `addError`
   * is the error `collection('savedRoutes').add` throws, if any.
   */
  method Post(savedRoutes: Collection<Record>, body: Result<Value>, now: Timestamp, addError: Option<string>)
    returns (resp: Response<RouteAdded>)
    requires savedRoutes.Valid()
    modifies savedRoutes
    ensures savedRoutes.Valid()
    ensures resp.BadRequest? <==> body.Success? && Validate(body.value).Reject?
    ensures resp.BadRequest? ==> resp.error == Validate(body.value).message
    ensures resp.Ok? <==> body.Success? && Validate(body.value) == Accept && addError.None?
    ensures resp.ServerError? ==> resp.error == AddFailed && resp.details.Some?
    ensures body.Failure? ==> resp == ServerError(AddFailed, Some(body.error))
    ensures body.Success? && body.value.IsNullish() ==>
              resp == ServerError(AddFailed, Some(ReadError(body.value, "userId")))
    ensures body.Success? && Validate(body.value) == Accept && addError.Some? ==>
              resp == ServerError(AddFailed, Some(addError.value))
    ensures !resp.Ok? ==> savedRoutes.docs == old(savedRoutes.docs)
    ensures resp.Ok? ==> resp.body.message == AddedMessage && resp.body.id !in old(savedRoutes.docs)
    ensures resp.Ok? ==>
              savedRoutes.docs == old(savedRoutes.docs)[resp.body.id := Stamped(body.value, now)]
  {
    if body.Failure? {
      return ServerError(AddFailed, Some(body.error));
    }
    var data := body.value;
    match Validate(data)
    case Throw(e) =>
      resp := ServerError(AddFailed, Some(e));
    case Reject(m) =>
      resp := BadRequest(m);
    case Accept =>
      if addError.Some? {
        return ServerError(AddFailed, Some(addError.value));
      }
      var id := savedRoutes.Add(Stamped(data, now));
      resp := Ok(RouteAdded(AddedMessage, id));
  }
}
