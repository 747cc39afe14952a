/**
 * `POST /api/users/favorite-locations/add`: one guard over the parsed body,
 * then one insert into `favoriteLocations` of the payload stamped with
 * `createdAt`, and a read-back of the stored document.
 */
module FavoriteLocations {
  import opened Basics
  import opened Js
  import opened Http
  import opened DocStore

  const MissingFields := "Missing required fields: userId, label, address, latitude, longitude"
  const AddFailed := "Failed to add favorite location"

  /** The guard: truthy `userId`, `label` and `address`, and numbers for both coordinates. */
  predicate Acceptable(data: Value)
    requires !data.IsNullish()
    ensures Acceptable(data) ==> data.Obj?
    ensures Acceptable(data) ==> data.Get("latitude").IsNumber() && data.Get("longitude").IsNumber()
    ensures Acceptable(data) ==> "userId" in data.props && "label" in data.props && "address" in data.props
  {
    data.Get("userId").Truthy() && data.Get("label").Truthy() && data.Get("address").Truthy()
    && data.Get("latitude").IsNumber() && data.Get("longitude").IsNumber()
  }

  /** A favorite-location payload as the route's interface declares it. */
  function Payload(userId: string, placeLabel: string, address: string, latitude: Number, longitude: Number): (v: Value)
    ensures v.Obj?
  {
    Obj(map["userId" := Str(userId), "label" := Str(placeLabel), "address" := Str(address),
            "latitude" := Num(latitude), "longitude" := Num(longitude)])
  }

  /**
   * For a payload of the declared shape the guard holds exactly when the three
   * strings are non-empty; the coordinates, zero or NaN included, always pass.
   */
  lemma AcceptableIff(userId: string, placeLabel: string, address: string, latitude: Number, longitude: Number)
    ensures Acceptable(Payload(userId, placeLabel, address, latitude, longitude))
            <==> userId != "" && placeLabel != "" && address != ""
  {
  }

  /** Any value that is not a number in a coordinate is refused, a numeric string included. */
  lemma NonNumberCoordinateRefused(data: Value, coordinate: string, v: Value)
    requires data.Obj?
    requires coordinate == "latitude" || coordinate == "longitude"
    requires !v.IsNumber()
    ensures !Acceptable(data.With(coordinate, v))
  {
  }

  datatype LocationAdded = LocationAdded(id: DocId, data: Record)

  /**
   * `POST`: `body` is what `req.json()` yields, or the error it throws;
   * `addError` and `readError` are the errors the insert and the read-back
   * throw, if any.
   */
  method Post(favoriteLocations: Collection<Record>, body: Result<Value>, now: Timestamp,
              addError: Option<string>, readError: Option<string>)
    returns (resp: Response<LocationAdded>)
    requires favoriteLocations.Valid()
    modifies favoriteLocations
    ensures favoriteLocations.Valid()
    ensures resp.BadRequest? <==> body.Success? && !body.value.IsNullish() && !Acceptable(body.value)
    ensures resp.BadRequest? ==> resp.error == MissingFields
    ensures resp.ServerError? ==> resp.error == AddFailed && resp.details.Some?
    ensures body.Failure? ==> resp == ServerError(AddFailed, Some(body.error))
    ensures body.Success? && body.value.IsNullish() ==>
              resp == ServerError(AddFailed, Some(ReadError(body.value, "userId")))
    ensures body.Success? && !body.value.IsNullish() && Acceptable(body.value) && addError.Some? ==>
              resp == ServerError(AddFailed, Some(addError.value))
    ensures body.Success? && !body.value.IsNullish() && Acceptable(body.value)
              && addError.None? && readError.Some? ==>
              resp == ServerError(AddFailed, Some(readError.value))
    ensures resp.Ok? <==>
              body.Success? && !body.value.IsNullish() && Acceptable(body.value)
              && addError.None? && readError.None?
    ensures resp.Ok? ==> resp.body.id !in old(favoriteLocations.docs)
    ensures resp.Ok? ==> resp.body.data == Stamped(body.value, now)
    ensures resp.Ok? ==>
              favoriteLocations.docs == old(favoriteLocations.docs)[resp.body.id := resp.body.data]
    // Only a failed read-back answers 500 after the document was written.
    ensures body.Success? && !body.value.IsNullish() && Acceptable(body.value) && addError.None? ==>
              exists id: DocId :: id !in old(favoriteLocations.docs)
                && favoriteLocations.docs == old(favoriteLocations.docs)[id := Stamped(body.value, now)]
    ensures !(body.Success? && !body.value.IsNullish() && Acceptable(body.value) && addError.None?) ==>
              favoriteLocations.docs == old(favoriteLocations.docs)
  {
    if body.Failure? {
      return ServerError(AddFailed, Some(body.error));
    }
    var data := body.value;
    if data.IsNullish() {
      return ServerError(AddFailed, Some(ReadError(data, "userId")));
    }
    if !Acceptable(data) {
      return BadRequest(MissingFields);
    }
    if addError.Some? {
      return ServerError(AddFailed, Some(addError.value));
    }
    var id := favoriteLocations.Add(Stamped(data, now));
    if readError.Some? {
      return ServerError(AddFailed, Some(readError.value));
    }
    var stored := favoriteLocations.Get(id);
    resp := Ok(LocationAdded(id, stored.value));
  }
}
