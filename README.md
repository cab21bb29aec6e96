# Progression ledger of the incremental-game backend, in Dafny

This project models the core of an Express/Mongoose game server's
progression ledger:

- a catalog of **resources**, each with an `_id`, a `name` and a `price`;
- a catalog of **upgrades**, each with an `_id`, a `name`, a `production`,
  a `price` and an optional `unlockLevel` prerequisite;
- a per-user **resource ledger**, the UserResource documents, as a map
  from `(user, resource)` to an amount;
- an **ownership set** of `(user, upgrade)` pairs, the UserUpgrade documents;
- the **users**, with their username uniqueness and GeoJSON position
  validation.

Module layout follows the program:

- `Common`: identifiers, the `Option`/`Result` wrappers, the failure kinds
  that stand in for HTTP error replies, and JavaScript truthiness.
- `ResourceModel`, `UpgradeModel`, `UserModel`, `UserResourceModel`,
  `UserUpgradeModel` (one per schema file): the documents as datatypes. What
  saving a document accepts (required fields, defaults, `min: 0`) is a
  function returning a `Result`. The unique indexes are predicates over the
  document collections, with lemmas showing that under them the collections
  are faithfully maps and sets.
- `Ledger`: the state `Db` the routes share, and its well-formedness.
- `ResourceRoutes`, `UpgradeRoutes`: each route as a transition function
  `Db -> Step(new Db, reply)`. The contracts state success and failure
  conditions, what changes and that nothing else does. The lemmas relate
  routes to one another: read after write, idempotence of `/init`, stranded
  links after a delete, and the prerequisite chain of purchases.
- `ResourceStats`: the `/stats` aggregation pipeline. The `$group` stage is a
  left fold over the link documents in collection order. It is proved equal
  to reference sums over the joined entries.
- `NameOrder`: the binary string order of `sort("name")`, proved a total
  order. The name-sorted catalog listing is built by insertion and proved
  sorted and a permutation of the catalog.
- `ProgressionStore`: the `Store` class. Its five fields are the
  collections; each route is a method that changes them in place. Each
  method is proved to leave exactly the state and reply of the route's
  transition function, so every law proved of those functions holds of the
  class. The `/init` upsert and the `/stats` collection scan are loops with
  their invariants.

Amounts, prices, productions and coordinates are exact `real`s; identifiers
are `int`s. JavaScript truthiness (`amount || 0`, `if (!price)`,
`if (upgrade.unlockLevel)`) is written out: a missing value and `0` are
falsy. A `populate` whose target was deleted yields `null`, and reading a
field of it throws; this is the `Broken` failure.

## Model

| member | source | states |
|---|---|---|
| Common.Truthy | routes/resources.js:191 | the falsy optional numbers are exactly a missing value and 0, as in `if (!price)` and `if (upgrade.unlockLevel)` |
| Common.OrZero | routes/resources.js:140 | `amount \|\| 0` keeps any present amount (0 gives 0 either way) and turns a missing one into 0 |
| ResourceModel.NewResource | models/Resource.js:6-12 | a resource saves iff `_id`, a non-empty `name` and `price` are all given; the saved document carries exactly those fields, otherwise a validation failure |
| ResourceModel.NewResourceRoundTrip | models/Resource.js:7-9 | any resource with a non-empty name is accepted back unchanged when saved from its own fields |
| UpgradeModel.NewUpgrade | models/Upgrade.js:5-26 | an upgrade saves iff `_id`, non-empty `name`, `production` and `price` are given; `unlockLevel` is kept as given, absent meaning null |
| UpgradeModel.Prerequisite | routes/upgrades.js:53-57 | an upgrade has a prerequisite iff its `unlockLevel` is set and non-zero, and the prerequisite is that id |
| UserModel.Coordinates | models/User.js:38-44 | a position encodes as an array of 2 or 3 numbers: longitude, latitude, then the altitude if present |
| UserModel.PositionOf | models/User.js:39-41 | an array decodes to a position iff it has 2 or 3 elements, and re-encoding gives the array back |
| UserModel.ValidateGeoJsonCoordinates | models/User.js:38-52 | an array is valid iff it decodes to a position whose longitude is in [-180, 180] and latitude in [-90, 90] |
| UserModel.CoordinatesValid | models/User.js:20-25 | absent or empty coordinates pass; any other array passes iff it is a valid GeoJSON position |
| UserModel.PositionValidation | models/User.js:38-52 | decoding inverts encoding, and an encoded position is valid iff both of its bounds hold (RFC 7946, section 3.1.1) |
| UserModel.AltitudeUnconstrained | models/User.js:38-44 | adding any altitude to a longitude/latitude pair never changes the verdict |
| UserModel.NewUser | models/User.js:7-35 | a user saves iff username and password are non-empty, the position type is absent or `Point`, and the coordinates pass; `admin` and `dynamo` default to false and the coordinates to empty |
| UserModel.AddUser | models/User.js:8 | inserting under a fresh id fails as a duplicate iff the username is taken; otherwise it adds exactly that user and keeps usernames unique |
| UserResourceModel.NewLink | models/UserResource.js:16-21 | saving a link accepts a missing amount (stored as 0) or a non-negative one, and rejects a negative one |
| UserResourceModel.Index | routes/resources.js:92-95 | the amounts a lookup by (user, resource) can find: the map's keys are exactly the documents' keys |
| UserResourceModel.IndexFirstWins | routes/resources.js:92-95 | for every collection, the amount under a document's key is that document's whenever no earlier document has the same key: `findOne` reads the first match |
| UserResourceModel.IndexAppend | routes/resources.js:92-95 | appending a document changes the lookup only if its key is new, and then adds exactly that key with its amount |
| UserResourceModel.UniqueIndexLossless | models/UserResource.js:24-25 | under the unique index the keyed map has one entry per document, holding that document's amount |
| UserResourceModel.DuplicateKeyShadowed | models/UserResource.js:24-25 | for every collection, without the index a further document under a key already in use is invisible to every lookup |
| UserUpgradeModel.NewUpgradeLink | models/UserUpgrade.js:5-16 | an ownership link saves iff both `user_id` and `upgrade_id` are given, and carries nothing else |
| UserUpgradeModel.OwnershipIsASet | models/UserUpgrade.js:18-19 | under the unique index the ownership documents are in one-to-one correspondence with the owned pairs |
| NameOrder.NameLeTotal | routes/upgrades.js:11 | any two names are comparable under the sort order |
| NameOrder.NameLeTransitive | routes/upgrades.js:11 | the sort order is transitive |
| NameOrder.NameLeAntisymmetric | routes/upgrades.js:11 | only equal names tie |
| NameOrder.InsertByName | routes/upgrades.js:10-11 | inserting into a name-sorted list keeps it sorted and adds exactly the one element |
| NameOrder.ListByName | routes/resources.js:10-11 | the listing is sorted by name and holds every catalog entry exactly once and nothing else |
| ResourceRoutes.CreateResource | routes/resources.js:23-42 | succeeds iff the fields validate and the `_id` is new, adding exactly that resource; a reused `_id` is a duplicate; failures change nothing; well-formedness is kept |
| ResourceRoutes.NameReuseAllowed | routes/resources.js:26-38 | a new resource may reuse an existing name under a fresh `_id`, while reusing the `_id` is a duplicate |
| ResourceRoutes.GetResource | routes/resources.js:45-60 | found iff the id is in the catalog, with that resource; otherwise not-found |
| ResourceRoutes.DeleteResource | routes/resources.js:63-75 | removes exactly that resource (not-found if absent) and leaves every link in place |
| ResourceRoutes.UpdateResource | routes/resources.js:78-87 | not-found with no change if absent; otherwise overwrites only the given fields and replies with the updated resource |
| ResourceRoutes.PatchPrice | routes/resources.js:187-207 | a missing or falsy price (0 included) is rejected before any lookup; otherwise only the price of an existing resource changes |
| ResourceRoutes.GetAmount | routes/resources.js:90-113 | an absent link replies not-found carrying amount 0; a present one replies its amount with the resource's current name and price; a link to a deleted resource fails |
| ResourceRoutes.CreateLink | routes/resources.js:116-155 | fails not-found for a missing resource and already-linked for an existing link, with no change; otherwise stores `amount \|\| 0` if it is non-negative; keeps all amounts non-negative |
| ResourceRoutes.PatchAmount | routes/resources.js:158-184 | not-found with no change if the link is absent; otherwise overwrites only that amount, without the `min: 0` check |
| ResourceRoutes.UserResources | routes/resources.js:313-333 | exactly the user's linked resources, each with its amount and the resource's current fields; fails if any linked resource was deleted |
| ResourceRoutes.InitResources | routes/resources.js:269-310 | adds a 0 amount for every catalog resource the user lacks, never overwrites an amount, touches nothing else, and replies with the user's links |
| ResourceRoutes.InitIdempotent | routes/resources.js:283-291 | a second `/init` changes nothing |
| ResourceRoutes.InitKeepsLaterAmounts | routes/resources.js:283-291 | an amount written after `/init` survives another `/init` |
| ResourceRoutes.CreateThenGet | routes/resources.js:137-151 | reading a link just created returns the reply of the creation |
| ResourceRoutes.CreateDefaultsToZero | routes/resources.js:137-141 | a missing or zero amount creates the link with 0 |
| ResourceRoutes.PatchThenGet | routes/resources.js:162-180 | reading a link just patched returns the new amount |
| ResourceRoutes.DeleteStrandsLinks | routes/resources.js:63-72 | after a delete, the user's link to it still exists: reading it and listing the user's resources fail, and a second delete is not-found |
| ResourceRoutes.PatchCanStoreNegative | routes/resources.js:162-169 | an amount update can store a negative amount in a ledger whose amounts were all non-negative |
| ResourceStats.Joins | routes/resources.js:213-223 | a link survives `$lookup` and `$unwind` iff it belongs to the user and its resource is in the catalog |
| ResourceStats.Entries | routes/resources.js:213-223 | the user's joined links as entries, no more than there are links, and empty exactly when no link of the user names an existing resource |
| ResourceStats.Group | routes/resources.js:225-237 | the `$group` fold only appends to the `$push` list, and the `$sum: 1` counter grows by exactly the number of entries pushed |
| ResourceStats.GroupComputesTotals | routes/resources.js:225-237 | the `$group` fold yields the sum of the amounts, the sum of amount times price, the count and the entries of the user's joined links |
| ResourceStats.EntriesAreJoinedLinks | routes/resources.js:213-223 | every link of the user to an existing resource gives an entry, and every entry comes from such a link with value amount times price |
| ResourceStats.EntriesInOrder | routes/resources.js:230-236 | the entries follow collection order: the entries of a longer scan extend those of a shorter one |
| ResourceStats.DanglingLinkDropped | routes/resources.js:221-223 | a link to a deleted resource contributes nothing |
| ResourceStats.Stats | routes/resources.js:239-258 | one summary for exactly the existing users with at least one joined link, carrying that user's username |
| ResourceStats.StatsReportsSums | routes/resources.js:225-258 | each summary's totalResources, totalValue, resourceCount and resources are the reference sums, count and list of the user's entries |
| ResourceStats.GoldExample | routes/resources.js:212-260 | 10 Gold at price 100 reports 10, 1000 and 1 |
| ResourceStats.TwoResourceExample | routes/resources.js:212-260 | 10 Gold and 5 Energy, both at price 1, report 15, 15 and 2 |
| UpgradeRoutes.GetUpgrade | routes/upgrades.js:22-31 | found iff the id is in the catalog, with that upgrade; otherwise not-found |
| UpgradeRoutes.PrerequisiteMet | routes/upgrades.js:53-63 | the prerequisite check passes iff `unlockLevel` is null, or 0, or names an upgrade the user owns |
| UpgradeRoutes.BuyUpgrade | routes/upgrades.js:34-84 | succeeds iff the upgrade exists, is not owned and its prerequisite (if any) is owned; each failure has its own kind and changes nothing; success adds exactly the pair and echoes the upgrade's fields; amounts never change; prerequisite closure of ownership is kept |
| UpgradeRoutes.BuyTwiceRefused | routes/upgrades.js:43-50 | buying again right after a purchase is refused as already owned and changes nothing |
| UpgradeRoutes.BuyUnlocks | routes/upgrades.js:53-72 | after buying an upgrade, an unowned upgrade whose prerequisite it is can be bought |
| UpgradeRoutes.ZeroUnlockLevelIsOpen | routes/upgrades.js:53 | an `unlockLevel` of 0 imposes no prerequisite |
| UpgradeRoutes.ChainScenario | routes/upgrades.js:34-84 | with upgrade 2 requiring upgrade 1: buying 2 first fails, then 1 succeeds, 1 again is already owned, and 2 succeeds |
| ProgressionStore.Store.constructor | models/Upgrade.js:5-26 | a store starts with no resources, links, ownership or users, over a seeded upgrade catalog keyed by `_id` |
| ProgressionStore.Store.BuyUpgrade | routes/upgrades.js:34-84 | the purchase in place: new state and reply are those of `UpgradeRoutes.BuyUpgrade` |
| ProgressionStore.Store.GetUpgrade | routes/upgrades.js:22-31 | found iff the id is in the catalog, with that upgrade |
| ProgressionStore.Store.ListUpgrades | routes/upgrades.js:9-19 | the upgrade catalog sorted by name, each upgrade exactly once |
| ProgressionStore.Store.ListResources | routes/resources.js:9-20 | the resource catalog sorted by name, each resource exactly once |
| ProgressionStore.Store.CreateResource | routes/resources.js:23-42 | in place, the state and reply of `ResourceRoutes.CreateResource` |
| ProgressionStore.Store.GetResource | routes/resources.js:45-60 | found iff the id is in the catalog, with that resource |
| ProgressionStore.Store.DeleteResource | routes/resources.js:63-75 | in place, the state and reply of `ResourceRoutes.DeleteResource` |
| ProgressionStore.Store.UpdateResource | routes/resources.js:78-87 | in place, the state and reply of `ResourceRoutes.UpdateResource` |
| ProgressionStore.Store.PatchPrice | routes/resources.js:187-207 | in place, the state and reply of `ResourceRoutes.PatchPrice` |
| ProgressionStore.Store.GetAmount | routes/resources.js:90-113 | not-linked iff no link exists; a found reply carries the stored amount |
| ProgressionStore.Store.CreateLink | routes/resources.js:116-155 | in place, the state and reply of `ResourceRoutes.CreateLink` |
| ProgressionStore.Store.PatchAmount | routes/resources.js:158-184 | in place, the state and reply of `ResourceRoutes.PatchAmount` |
| ProgressionStore.Store.UserResources | routes/resources.js:313-333 | on success, exactly the user's linked resources |
| ProgressionStore.Store.InitResources | routes/resources.js:283-310 | the per-resource upsert loop leaves the state and reply of `ResourceRoutes.InitResources` |
| ProgressionStore.Store.Stats | routes/resources.js:210-266 | scans the ledger into link documents that satisfy the unique index and index back to the ledger, and reports the pipeline's summaries over them |
| ProgressionStore.Store.SaveUser | models/User.js:7-35 | an invalid user or a taken username leaves the store unchanged with the matching failure; otherwise exactly that user is added |

## Left out

- HTTP plumbing: routing, status codes, JSON envelopes and the order in which routes are matched (`GET /:id` is registered before `GET /stats`). Replies are result kinds instead.
- Authentication and authorisation (`protect`, `adminOnly`): they are foreign JWT calls, and every route is modelled as run by an authenticated user.
- Concurrency: the check-then-insert sequences in purchase and link creation could race. Operations are modelled sequentially, and uniqueness is a property of the map and set keys.
- Password hashing and `matchPassword`: these are foreign bcrypt calls. The model does not keep the password; it only checks that one is required.
- Floating point: amounts, prices and products are exact reals. NaN and rounding of `amount * price` are not modelled.
- Type casting of ids: request ids arrive as strings and are cast by Mongoose, and `UserResource.resource_id` is declared as an ObjectId while `Resource._id` is a Number (models/UserResource.js:11-15, models/Resource.js:7). Read literally, casting a numeric id such as "1" to an ObjectId fails, so every link route would end in an error. The model instead uses one integer id space and treats a link's resource id as a resource `_id`, which is what the routes evidently intend.
- `ResourceRoutes.PatchPrice`, `ResourceRoutes.PatchAmount`, `ResourceRoutes.UpdateResource`: request-body values are assumed to arrive already as numbers or strings of the right type, never cast. A string price such as "0" passes the `if (!price)` guard and is then cast and stored as 0. A `null` amount or name is stored as null, since these updates run no validator. None of this is modelled.
- The upgrades router is never mounted: app.js:27-29 mounts only `/`, `/users` and `/resources`, so as written the upgrade routes cannot be reached. They are modelled as the router defines them, as if mounted.
- `ProgressionStore.Store.UserResources`: the listing is returned as a map keyed by resource id. The `sort('resource_id.name')` on a populated path, and hence the reply's order, is not modelled.
- `ResourceStats.Stats`: the pipeline's output is a map keyed by the user `_id` that `$project` drops. The order of the output array is not modelled.
- `NameOrder.ListByName`: documents with equal names may come in either order, as the sort does not fix one.
- `ResourceRoutes.UpdateResource`: only `name` and `price` are modelled as updatable. Other body fields, and a body that changes `_id`, are left out.
- `ResourceRoutes.PatchAmount`: the amount is modelled as always present in the body. A PATCH without one, which Mongoose would drop from the update, is left out.
- The upgrade catalog has no write route (`POST /upgrades` does not exist), so the store is seeded with one.
- `GET /upgrades/next`, filtering and pagination are exercised by tests but not implemented, so they are not modelled.
- Tests that disagree with the code (e.g. a delete expecting 200 where the code sends 204) are not followed.
- routes/users.js, app.js, utils.js, middleware/auth.js and the unused duplicate schema models/resource.js are not part of this model.
- Logging (`console.log`, `console.error`) is left out.
