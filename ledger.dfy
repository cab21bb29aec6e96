/** The state the routes read and write: the two catalogs, the two link
 *  collections and the users, each collection as a map keyed by its
 *  (compound) unique key. */
module Ledger {
  import opened Common
  import opened ResourceModel
  import opened UpgradeModel
  import opened UserModel

  datatype Db = Db(
    resources: map<ResourceId, Resource>,          // the Resource collection, by `_id`
    upgrades: map<UpgradeId, Upgrade>,             // the Upgrade collection, by `_id`
    amounts: map<(UserId, ResourceId), real>,      // the UserResource collection, by (user_id, resource_id)
    owned: set<(UserId, UpgradeId)>,               // the UserUpgrade collection, by (user_id, upgrade_id)
    users: map<UserId, User>)                      // the User collection, by `_id`

  /** What the schemas' keys and indexes guarantee of every state. Links may
   *  name deleted resources: nothing cascades a delete. Amounts may be
   *  negative: an amount update does not run the `min: 0` validator. */
  ghost predicate WellFormed(db: Db)
  {
    && ResourceModel.Keyed(db.resources)
    && UpgradeModel.Keyed(db.upgrades)
    && UsernamesUnique(db.users)
  }

  /** The `min: 0` constraint of a saved link, over the whole collection. */
  ghost predicate AmountsNonNegative(db: Db)
  {
    forall k :: k in db.amounts ==> db.amounts[k] >= 0.0
  }

  /** The new state a route leaves and what it replies. */
  datatype Step<+T> = Step(db: Db, reply: Result<T>)

  /** A link as the routes report it, with the resource's current fields. */
  datatype LinkView = LinkView(resourceId: ResourceId, name: string, price: real, amount: real)

  function ViewOf(r: Resource, amount: real): LinkView
  {
    LinkView(r.id, r.name, r.price, amount)
  }

  /** The resources a user has a link to, whether or not they still exist. */
  function LinkedResources(db: Db, user: UserId): set<ResourceId>
  {
    set k | k in db.amounts && k.0 == user :: k.1
  }
}
