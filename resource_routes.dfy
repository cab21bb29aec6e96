/** The resource routes (routes/resources.js) as transitions of the store:
 *  catalog administration, and each user's links to resources with their
 *  amounts. HTTP statuses are replaced by result kinds. */
module ResourceRoutes {
  import opened Common
  import opened ResourceModel
  import opened UserResourceModel
  import opened Ledger

  /** POST /: save a new resource; a reused `_id` hits the primary key. */
  function CreateResource(db: Db, id: Option<ResourceId>, name: Option<string>, price: Option<real>): (s: Step<Resource>)
    ensures s.reply.Ok? <==> NewResource(id, name, price).Ok? && id.value !in db.resources
    ensures s.reply.Ok? ==> s.reply.value == Resource(id.value, name.value, price.value)
    ensures s.reply.Ok? ==> s.db == db.(resources := db.resources[id.value := s.reply.value])
    ensures s.reply == Err(Duplicate) <==> NewResource(id, name, price).Ok? && id.value in db.resources
    ensures s.reply.Err? ==> s.db == db
    ensures WellFormed(db) ==> WellFormed(s.db)
  {
    match NewResource(id, name, price)
    case Err(f) => Step(db, Err(f))
    case Ok(r) =>
      if r.id in db.resources then Step(db, Err(Duplicate))
      else Step(db.(resources := db.resources[r.id := r]), Ok(r))
  }

  /** Names carry no unique index: a second resource may reuse a name, and
   *  only a reused `_id` is a duplicate. */
  lemma NameReuseAllowed(db: Db, other: ResourceId, id: ResourceId, price: real)
    requires other in db.resources && db.resources[other].name != "" && id !in db.resources
    ensures CreateResource(db, Some(id), Some(db.resources[other].name), Some(price)).reply.Ok?
    ensures CreateResource(db, Some(other), Some(db.resources[other].name), Some(price)).reply == Err(Duplicate)
  {
  }

  /** GET /:id */
  function GetResource(db: Db, id: ResourceId): (r: Result<Resource>)
    ensures r.Ok? <==> id in db.resources
    ensures r.Ok? ==> r.value == db.resources[id]
    ensures r.Err? ==> r.failure == NotFound
  {
    if id in db.resources then Ok(db.resources[id]) else Err(NotFound)
  }

  /** DELETE /:id: removes the resource only; links to it are kept. */
  function DeleteResource(db: Db, id: ResourceId): (s: Step<()>)
    ensures s.reply.Ok? <==> id in db.resources
    ensures s.reply.Err? ==> s.reply.failure == NotFound
    ensures id !in s.db.resources && s.db == db.(resources := db.resources - {id})
    ensures WellFormed(db) ==> WellFormed(s.db)
  {
    if id in db.resources then Step(db.(resources := db.resources - {id}), Ok(()))
    else Step(db, Err(NotFound))
  }

  /** PUT /:id: overwrite the fields the body carries, without running validators. */
  function UpdateResource(db: Db, id: ResourceId, name: Option<string>, price: Option<real>): (s: Step<Resource>)
    ensures s.reply.Ok? <==> id in db.resources
    ensures s.reply.Err? ==> s == Step(db, Err(NotFound))
    ensures s.reply.Ok? ==> s.reply.value.id == db.resources[id].id
    ensures s.reply.Ok? ==> s.reply.value.name == if name.Some? then name.value else db.resources[id].name
    ensures s.reply.Ok? ==> s.reply.value.price == if price.Some? then price.value else db.resources[id].price
    ensures s.reply.Ok? ==> s.db == db.(resources := db.resources[id := s.reply.value])
    ensures WellFormed(db) ==> WellFormed(s.db)
  {
    if id !in db.resources then Step(db, Err(NotFound))
    else
      var current := db.resources[id];
      var updated := current.(
        name := if name.Some? then name.value else current.name,
        price := if price.Some? then price.value else current.price);
      Step(db.(resources := db.resources[id := updated]), Ok(updated))
  }

  /** PATCH /:id: a price update. A missing or falsy price (0 included) is
   *  rejected before the resource is looked up; otherwise only `price` changes. */
  function PatchPrice(db: Db, id: ResourceId, price: Option<real>): (s: Step<Resource>)
    ensures !Truthy(price) ==> s == Step(db, Err(PriceRequired))
    ensures Truthy(price) && id !in db.resources ==> s == Step(db, Err(NotFound))
    ensures s.reply.Ok? <==> Truthy(price) && id in db.resources
    ensures s.reply.Ok? ==> s.reply.value == db.resources[id].(price := price.value)
    ensures s.reply.Ok? ==> s.db == db.(resources := db.resources[id := s.reply.value])
  {
    if !Truthy(price) then Step(db, Err(PriceRequired))
    else UpdateResource(db, id, None, price)
  }

  /** The reply of GET /:id/resource. An absent link is a not-found reply
   *  that still carries an amount, 0. */
  datatype AmountReply = Found(view: LinkView) | NotLinked(amount: real) | Failed(failure: Failure)

  /** GET /:id/resource: the caller's amount of one resource. */
  function GetAmount(db: Db, user: UserId, id: ResourceId): (r: AmountReply)
    ensures r.NotLinked? <==> (user, id) !in db.amounts
    ensures r.NotLinked? ==> r.amount == 0.0
    ensures r.Found? <==> (user, id) in db.amounts && id in db.resources
    ensures r.Found? ==> r.view == ViewOf(db.resources[id], db.amounts[(user, id)])
    ensures r.Failed? ==> r.failure == Broken
  {
    if (user, id) !in db.amounts then NotLinked(0.0)
    else if id !in db.resources then Failed(Broken)
    else Found(ViewOf(db.resources[id], db.amounts[(user, id)]))
  }

  /** POST /:id/resource: link the caller to a resource with `amount || 0`.
   *  The save's `min: 0` validator rejects a negative amount. */
  function CreateLink(db: Db, user: UserId, id: ResourceId, amount: Option<real>): (s: Step<LinkView>)
    ensures id !in db.resources ==> s == Step(db, Err(NotFound))
    ensures id in db.resources && (user, id) in db.amounts ==> s == Step(db, Err(AlreadyLinked))
    ensures id in db.resources && (user, id) !in db.amounts && OrZero(amount) < 0.0 ==> s == Step(db, Err(Invalid))
    ensures s.reply.Ok? <==> id in db.resources && (user, id) !in db.amounts && OrZero(amount) >= 0.0
    ensures s.reply.Ok? ==> s.db == db.(amounts := db.amounts[(user, id) := OrZero(amount)])
    ensures s.reply.Ok? ==> s.reply.value == ViewOf(db.resources[id], OrZero(amount))
    ensures AmountsNonNegative(db) ==> AmountsNonNegative(s.db)
  {
    if id !in db.resources then Step(db, Err(NotFound))
    else if (user, id) in db.amounts then Step(db, Err(AlreadyLinked))
    else
      match NewLink(user, id, Some(OrZero(amount)))
      case Err(f) => Step(db, Err(f))
      case Ok(link) =>
        Step(db.(amounts := db.amounts[KeyOf(link) := link.amount]), Ok(ViewOf(db.resources[id], link.amount)))
  }

  /** PATCH /:id/resource: overwrite the amount of an existing link. The update
   *  runs no validator, and the write happens before the resource is read. */
  function PatchAmount(db: Db, user: UserId, id: ResourceId, amount: real): (s: Step<LinkView>)
    ensures (user, id) !in db.amounts ==> s == Step(db, Err(NotFound))
    ensures (user, id) in db.amounts ==> s.db == db.(amounts := db.amounts[(user, id) := amount])
    ensures s.reply.Ok? <==> (user, id) in db.amounts && id in db.resources
    ensures s.reply.Ok? ==> s.reply.value == ViewOf(db.resources[id], amount)
    ensures (user, id) in db.amounts && id !in db.resources ==> s.reply == Err(Broken)
    ensures AmountsNonNegative(db) && amount >= 0.0 ==> AmountsNonNegative(s.db)
  {
    if (user, id) !in db.amounts then Step(db, Err(NotFound))
    else
      var db' := db.(amounts := db.amounts[(user, id) := amount]);
      if id in db.resources then Step(db', Ok(ViewOf(db.resources[id], amount)))
      else Step(db', Err(Broken))
  }

  /** GET /user/resources, and the reply of POST /init: every link of the
   *  user with its resource's fields; one link to a deleted resource makes
   *  the whole reply fail. */
  function UserResources(db: Db, user: UserId): (r: Result<map<ResourceId, LinkView>>)
    ensures r.Ok? <==> LinkedResources(db, user) <= db.resources.Keys
    ensures r.Err? ==> r.failure == Broken
    ensures r.Ok? ==> r.value.Keys == LinkedResources(db, user)
    ensures r.Ok? ==> forall id :: id in r.value ==>
      (user, id) in db.amounts && r.value[id] == ViewOf(db.resources[id], db.amounts[(user, id)])
  {
    var linked := LinkedResources(db, user);
    if linked <= db.resources.Keys then
      Ok(map id | id in linked :: ViewOf(db.resources[id], db.amounts[(user, id)]))
    else
      Err(Broken)
  }

  /** POST /init: an insert-if-absent upsert of a 0 amount for every catalog
   *  resource, then the user's links. */
  function InitResources(db: Db, user: UserId): (s: Step<map<ResourceId, LinkView>>)
    ensures s.db == db.(amounts := s.db.amounts)
    ensures forall k :: k in db.amounts ==> k in s.db.amounts && s.db.amounts[k] == db.amounts[k]
    ensures forall id :: id in db.resources ==> (user, id) in s.db.amounts
    ensures forall k :: k in s.db.amounts && k !in db.amounts ==>
      k.0 == user && k.1 in db.resources && s.db.amounts[k] == 0.0
    ensures s.reply == UserResources(s.db, user)
    ensures AmountsNonNegative(db) ==> AmountsNonNegative(s.db)
  {
    var added := map id | id in db.resources && (user, id) !in db.amounts :: (user, id) := 0.0;
    var db' := db.(amounts := db.amounts + added);
    Step(db', UserResources(db', user))
  }

  /** Running /init again changes nothing, amounts set in between included. */
  lemma InitIdempotent(db: Db, user: UserId)
    ensures InitResources(InitResources(db, user).db, user) == InitResources(db, user)
  {
    var once := InitResources(db, user).db;
    var twice := InitResources(once, user).db;
    assert twice.amounts.Keys == once.amounts.Keys;
    assert twice.amounts == once.amounts;
  }

  /** An amount written after /init survives a second /init. */
  lemma InitKeepsLaterAmounts(db: Db, user: UserId, id: ResourceId, amount: real)
    requires id in db.resources
    ensures var first := InitResources(db, user).db;
            var patched := PatchAmount(first, user, id, amount).db;
            InitResources(patched, user).db.amounts[(user, id)] == amount
  {
  }

  /** Reading a link just created returns what was stored. */
  lemma CreateThenGet(db: Db, user: UserId, id: ResourceId, amount: Option<real>)
    requires CreateLink(db, user, id, amount).reply.Ok?
    ensures GetAmount(CreateLink(db, user, id, amount).db, user, id)
         == Found(CreateLink(db, user, id, amount).reply.value)
  {
  }

  /** A missing or zero amount creates the link with 0. */
  lemma CreateDefaultsToZero(db: Db, user: UserId, id: ResourceId, amount: Option<real>)
    requires id in db.resources && (user, id) !in db.amounts
    requires amount.None? || amount == Some(0.0)
    ensures var s := CreateLink(db, user, id, amount);
            s.reply.Ok? && s.db.amounts[(user, id)] == 0.0
  {
  }

  /** Reading a link just patched returns the new amount. */
  lemma PatchThenGet(db: Db, user: UserId, id: ResourceId, amount: real)
    requires PatchAmount(db, user, id, amount).reply.Ok?
    ensures GetAmount(PatchAmount(db, user, id, amount).db, user, id).Found?
    ensures GetAmount(PatchAmount(db, user, id, amount).db, user, id).view.amount == amount
  {
  }

  /** Deleting a resource strands its links: reading one fails, and deleting
   *  again reports not-found. */
  lemma DeleteStrandsLinks(db: Db, user: UserId, id: ResourceId)
    requires id in db.resources && (user, id) in db.amounts
    ensures var s := DeleteResource(db, id);
            && s.reply.Ok?
            && GetAmount(s.db, user, id) == Failed(Broken)
            && UserResources(s.db, user) == Err(Broken)
            && DeleteResource(s.db, id) == Step(s.db, Err(NotFound))
  {
  }

  /** An amount update can leave a negative amount behind. */
  lemma PatchCanStoreNegative(user: UserId, id: ResourceId)
    ensures var db := Db(map[id := Resource(id, "Gold", 100.0)], map[], map[(user, id) := 0.0], {}, map[]);
            && AmountsNonNegative(db)
            && PatchAmount(db, user, id, -1.0).reply.Ok?
            && !AmountsNonNegative(PatchAmount(db, user, id, -1.0).db)
  {
    var db := Db(map[id := Resource(id, "Gold", 100.0)], map[], map[(user, id) := 0.0], {}, map[]);
    assert PatchAmount(db, user, id, -1.0).db.amounts[(user, id)] == -1.0;
  }
}
