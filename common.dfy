/** Identifiers, optional values and the kinds of reply the routes produce. */
module Common {

  /** A user's `_id`: a MongoDB ObjectId, modelled as an opaque integer. */
  type UserId = int

  /** A Resource's numeric `_id`, supplied by whoever creates the resource. */
  type ResourceId = int

  /** An Upgrade's numeric `_id`, supplied by whoever seeds the catalog. */
  type UpgradeId = int

  datatype Option<+T> = None | Some(value: T)

  /** The ways a route can fail, as result kinds rather than HTTP statuses. */
  datatype Failure =
    | NotFound             // the resource, upgrade or user-resource link is absent
    | Duplicate            // a unique index rejected the insert (MongoDB error 11000)
    | AlreadyLinked        // the user already has a link to this resource
    | AlreadyOwned         // the user already owns this upgrade
    | PrerequisitesNotMet  // the upgrade's unlockLevel upgrade is not owned
    | PriceRequired        // a price update without a truthy price
    | Invalid              // schema validation rejected the document on save
    | Broken               // a link names a deleted resource; reading its fields throws

  datatype Result<+T> = Ok(value: T) | Err(failure: Failure)

  /** JavaScript truthiness of an optional number: the falsy values are
   *  exactly a missing value and 0. */
  function Truthy(x: Option<real>): (b: bool)
    ensures b <==> x != None && x != Some(0.0)
  {
    x.Some? && x.value != 0.0
  }

  /** Mongoose's `required` check on a String: a missing value fails, and so does "". */
  predicate RequiredString(s: Option<string>)
  {
    s.Some? && s.value != ""
  }

  /** The value of `x || 0`: a present number is kept (a 0 gives 0 either
   *  way), and a missing one becomes 0. */
  function OrZero(x: Option<real>): (r: real)
    ensures x.Some? ==> r == x.value
    ensures x.None? ==> r == 0.0
  {
    if Truthy(x) then x.value else 0.0
  }
}
