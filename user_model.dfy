/** The User document (models/User.js): required and unique username,
 *  `admin` defaulting to false, and the GeoJSON position validator. */
module UserModel {
  import opened Common

  predicate IsLatitude(v: real)
  {
    -90.0 <= v <= 90.0
  }

  predicate IsLongitude(v: real)
  {
    -180.0 <= v <= 180.0
  }

  /** A position as section 3.1.1 of RFC 7946 describes it: longitude,
   *  latitude and an optional altitude, in that order. */
  datatype Position = Position(longitude: real, latitude: real, altitude: Option<real>)

  /** A position in range: longitude within [-180, 180], latitude within [-90, 90]. */
  predicate InRange(p: Position)
  {
    IsLongitude(p.longitude) && IsLatitude(p.latitude)
  }

  /** The coordinates array that encodes a position. */
  function Coordinates(p: Position): (c: seq<real>)
    ensures 2 <= |c| <= 3 && c[0] == p.longitude && c[1] == p.latitude
    ensures |c| == 3 <==> p.altitude.Some?
  {
    [p.longitude, p.latitude] + (if p.altitude.Some? then [p.altitude.value] else [])
  }

  /** The position a coordinates array encodes, when it has two or three elements. */
  function PositionOf(c: seq<real>): (p: Option<Position>)
    ensures p.Some? <==> 2 <= |c| <= 3
    ensures p.Some? ==> Coordinates(p.value) == c
  {
    if |c| == 2 then Some(Position(c[0], c[1], None))
    else if |c| == 3 then Some(Position(c[0], c[1], Some(c[2])))
    else None
  }

  /** validateGeoJsonCoordinates. The array type makes `Array.isArray` hold;
   *  the check accepts exactly the arrays that encode an in-range position,
   *  whatever the altitude. */
  function ValidateGeoJsonCoordinates(value: seq<real>): (ok: bool)
    ensures ok <==> PositionOf(value).Some? && InRange(PositionOf(value).value)
  {
    2 <= |value| <= 3 && IsLongitude(value[0]) && IsLatitude(value[1])
  }

  /** The validator on `position.coordinates`: absent or empty coordinates pass. */
  function CoordinatesValid(value: Option<seq<real>>): (ok: bool)
    ensures value.None? || value.value == [] ==> ok
    ensures value.Some? && value.value != [] ==> (ok <==> ValidateGeoJsonCoordinates(value.value))
  {
    value.None? || |value.value| == 0 || ValidateGeoJsonCoordinates(value.value)
  }

  /** Encoding a position and validating the array accepts it exactly when it is in range. */
  lemma PositionValidation(p: Position)
    ensures PositionOf(Coordinates(p)) == Some(p)
    ensures ValidateGeoJsonCoordinates(Coordinates(p)) <==> InRange(p)
  {
  }

  /** The altitude is unconstrained: adding or changing it never changes the verdict. */
  lemma AltitudeUnconstrained(longitude: real, latitude: real, altitude: real)
    ensures ValidateGeoJsonCoordinates([longitude, latitude, altitude])
        <==> ValidateGeoJsonCoordinates([longitude, latitude])
  {
  }

  /** A stored user. The password is required but is stored only as a hash
   *  computed by a foreign library, so the model does not keep it. */
  datatype User = User(
    username: string,
    admin: bool,
    positionType: Option<string>,
    coordinates: seq<real>,
    dynamo: bool)

  /** What saving `new User(body)` accepts, and the defaults it fills in:
   *  `admin` and `dynamo` false, coordinates the empty array. */
  function NewUser(
    username: Option<string>, password: Option<string>, admin: Option<bool>,
    positionType: Option<string>, coordinates: Option<seq<real>>, dynamo: Option<bool>): (r: Result<User>)
    ensures r.Ok? <==> (RequiredString(username) && RequiredString(password)
                        && (positionType.None? || positionType.value == "Point")
                        && CoordinatesValid(coordinates))
    ensures r.Ok? ==> r.value.username == username.value
    ensures r.Ok? ==> (r.value.admin <==> admin == Some(true))
    ensures r.Ok? ==> (r.value.dynamo <==> dynamo == Some(true))
    ensures r.Ok? && coordinates.Some? ==> r.value.coordinates == coordinates.value
    ensures r.Ok? && coordinates.None? ==> r.value.coordinates == []
    ensures r.Err? ==> r.failure == Invalid
  {
    if RequiredString(username) && RequiredString(password)
       && (positionType.None? || positionType.value == "Point")
       && CoordinatesValid(coordinates)
    then
      Ok(User(
        username.value,
        if admin.Some? then admin.value else false,
        positionType,
        if coordinates.Some? then coordinates.value else [],
        if dynamo.Some? then dynamo.value else false))
    else
      Err(Invalid)
  }

  /** The unique index on `username`. */
  ghost predicate UsernamesUnique(users: map<UserId, User>)
  {
    forall a, b :: a in users && b in users && a != b ==> users[a].username != users[b].username
  }

  predicate UsernameTaken(users: map<UserId, User>, name: string)
  {
    exists id :: id in users && users[id].username == name
  }

  /** Inserting a validated user under a fresh ObjectId: the unique index
   *  rejects a username already in use and otherwise the insert keeps it unique. */
  function AddUser(users: map<UserId, User>, id: UserId, u: User): (r: Result<map<UserId, User>>)
    requires id !in users
    ensures r.Ok? <==> !UsernameTaken(users, u.username)
    ensures r.Ok? ==> r.value == users[id := u]
    ensures r.Err? ==> r.failure == Duplicate
    ensures UsernamesUnique(users) && r.Ok? ==> UsernamesUnique(r.value)
  {
    if UsernameTaken(users, u.username) then Err(Duplicate) else Ok(users[id := u])
  }
}
