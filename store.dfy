/** The progression store: the five collections the routes share, updated
 *  in place. Each route is a method whose new state and reply are those of
 *  the route's transition function (ResourceRoutes, UpgradeRoutes), so the
 *  laws proved there hold of every call. */
module ProgressionStore {
  import opened Common
  import ResourceModel
  import UpgradeModel
  import opened UserModel
  import opened UserResourceModel
  import opened UserUpgradeModel
  import opened Ledger
  import ResourceRoutes
  import UpgradeRoutes
  import ResourceStats
  import opened NameOrder

  class Store {
    var resources: map<ResourceId, ResourceModel.Resource>
    var upgrades: map<UpgradeId, UpgradeModel.Upgrade>
    var amounts: map<(UserId, ResourceId), real>
    var owned: set<(UserId, UpgradeId)>
    var users: map<UserId, User>

    function State(): Db
      reads this
    {
      Db(resources, upgrades, amounts, owned, users)
    }

    ghost predicate Valid()
      reads this
    {
      WellFormed(State())
    }

    /** An empty store over a seeded upgrade catalog; no route writes upgrades. */
    constructor (catalog: map<UpgradeId, UpgradeModel.Upgrade>)
      requires UpgradeModel.Keyed(catalog)
      ensures Valid()
      ensures State() == Db(map[], catalog, map[], {}, map[])
    {
      resources := map[];
      upgrades := catalog;
      amounts := map[];
      owned := {};
      users := map[];
    }

    /** POST /:id/buy of the upgrades router */
    method BuyUpgrade(user: UserId, id: UpgradeId) returns (reply: Result<UpgradeRoutes.UpgradeView>)
      requires Valid()
      modifies this
      ensures Valid()
      ensures State() == UpgradeRoutes.BuyUpgrade(old(State()), user, id).db
      ensures reply == UpgradeRoutes.BuyUpgrade(old(State()), user, id).reply
    {
      if id !in upgrades {
        return Err(NotFound);
      }
      if (user, id) in owned {
        return Err(AlreadyOwned);
      }
      var upgrade := upgrades[id];
      var prerequisite := UpgradeModel.Prerequisite(upgrade);
      if prerequisite.Some? && (user, prerequisite.value) !in owned {
        return Err(PrerequisitesNotMet);
      }
      var link := NewUpgradeLink(Some(user), Some(id));
      owned := owned + {(link.value.user, link.value.upgrade)};
      reply := Ok(UpgradeRoutes.ViewOfUpgrade(upgrades[id]));
    }

    /** GET /:id of the upgrades router */
    method GetUpgrade(id: UpgradeId) returns (reply: Result<UpgradeModel.Upgrade>)
      ensures reply.Ok? <==> id in upgrades
      ensures reply.Ok? ==> reply.value == upgrades[id]
      ensures reply == UpgradeRoutes.GetUpgrade(State(), id)
    {
      if id in upgrades {
        reply := Ok(upgrades[id]);
      } else {
        reply := Err(NotFound);
      }
    }

    /** GET / of the upgrades router: the catalog sorted by name. */
    method ListUpgrades() returns (list: seq<UpgradeModel.Upgrade>)
      requires Valid()
      ensures SortedByName(list, UpgradeModel.NameOf)
      ensures forall u :: multiset(list)[u] == (if u.id in upgrades && upgrades[u.id] == u then 1 else 0)
    {
      list := ListByName(upgrades, UpgradeModel.IdOf, UpgradeModel.NameOf);
    }

    /** GET /resources: the catalog sorted by name. */
    method ListResources() returns (list: seq<ResourceModel.Resource>)
      requires Valid()
      ensures SortedByName(list, ResourceModel.NameOf)
      ensures forall r :: multiset(list)[r] == (if r.id in resources && resources[r.id] == r then 1 else 0)
    {
      list := ListByName(resources, ResourceModel.IdOf, ResourceModel.NameOf);
    }

    /** POST /resources */
    method CreateResource(id: Option<ResourceId>, name: Option<string>, price: Option<real>)
      returns (reply: Result<ResourceModel.Resource>)
      requires Valid()
      modifies this
      ensures Valid()
      ensures State() == ResourceRoutes.CreateResource(old(State()), id, name, price).db
      ensures reply == ResourceRoutes.CreateResource(old(State()), id, name, price).reply
    {
      var made := ResourceModel.NewResource(id, name, price);
      if made.Err? {
        return Err(made.failure);
      }
      if made.value.id in resources {
        return Err(Duplicate);
      }
      resources := resources[made.value.id := made.value];
      reply := Ok(made.value);
    }

    /** GET /resources/:id */
    method GetResource(id: ResourceId) returns (reply: Result<ResourceModel.Resource>)
      ensures reply.Ok? <==> id in resources
      ensures reply.Ok? ==> reply.value == resources[id]
      ensures reply == ResourceRoutes.GetResource(State(), id)
    {
      if id in resources {
        reply := Ok(resources[id]);
      } else {
        reply := Err(NotFound);
      }
    }

    /** DELETE /resources/:id */
    method DeleteResource(id: ResourceId) returns (reply: Result<()>)
      requires Valid()
      modifies this
      ensures Valid()
      ensures State() == ResourceRoutes.DeleteResource(old(State()), id).db
      ensures reply == ResourceRoutes.DeleteResource(old(State()), id).reply
    {
      if id !in resources {
        return Err(NotFound);
      }
      resources := resources - {id};
      reply := Ok(());
    }

    /** PUT /resources/:id */
    method UpdateResource(id: ResourceId, name: Option<string>, price: Option<real>)
      returns (reply: Result<ResourceModel.Resource>)
      requires Valid()
      modifies this
      ensures Valid()
      ensures State() == ResourceRoutes.UpdateResource(old(State()), id, name, price).db
      ensures reply == ResourceRoutes.UpdateResource(old(State()), id, name, price).reply
    {
      if id !in resources {
        return Err(NotFound);
      }
      var current := resources[id];
      if name.Some? {
        current := current.(name := name.value);
      }
      if price.Some? {
        current := current.(price := price.value);
      }
      resources := resources[id := current];
      reply := Ok(current);
    }

    /** PATCH /resources/:id */
    method PatchPrice(id: ResourceId, price: Option<real>) returns (reply: Result<ResourceModel.Resource>)
      requires Valid()
      modifies this
      ensures Valid()
      ensures State() == ResourceRoutes.PatchPrice(old(State()), id, price).db
      ensures reply == ResourceRoutes.PatchPrice(old(State()), id, price).reply
    {
      if !Truthy(price) {
        return Err(PriceRequired);
      }
      reply := UpdateResource(id, None, price);
    }

    /** GET /resources/:id/resource */
    method GetAmount(user: UserId, id: ResourceId) returns (reply: ResourceRoutes.AmountReply)
      ensures reply.NotLinked? <==> (user, id) !in amounts
      ensures reply.Found? ==> reply.view.amount == amounts[(user, id)]
      ensures reply == ResourceRoutes.GetAmount(State(), user, id)
    {
      if (user, id) !in amounts {
        return ResourceRoutes.NotLinked(0.0);
      }
      if id !in resources {
        return ResourceRoutes.Failed(Broken);
      }
      reply := ResourceRoutes.Found(ViewOf(resources[id], amounts[(user, id)]));
    }

    /** POST /resources/:id/resource */
    method CreateLink(user: UserId, id: ResourceId, amount: Option<real>) returns (reply: Result<LinkView>)
      requires Valid()
      modifies this
      ensures Valid()
      ensures State() == ResourceRoutes.CreateLink(old(State()), user, id, amount).db
      ensures reply == ResourceRoutes.CreateLink(old(State()), user, id, amount).reply
    {
      if id !in resources {
        return Err(NotFound);
      }
      if (user, id) in amounts {
        return Err(AlreadyLinked);
      }
      var link := NewLink(user, id, Some(OrZero(amount)));
      if link.Err? {
        return Err(link.failure);
      }
      amounts := amounts[KeyOf(link.value) := link.value.amount];
      reply := Ok(ViewOf(resources[id], link.value.amount));
    }

    /** PATCH /resources/:id/resource */
    method PatchAmount(user: UserId, id: ResourceId, amount: real) returns (reply: Result<LinkView>)
      requires Valid()
      modifies this
      ensures Valid()
      ensures State() == ResourceRoutes.PatchAmount(old(State()), user, id, amount).db
      ensures reply == ResourceRoutes.PatchAmount(old(State()), user, id, amount).reply
    {
      if (user, id) !in amounts {
        return Err(NotFound);
      }
      amounts := amounts[(user, id) := amount];
      if id !in resources {
        return Err(Broken);
      }
      reply := Ok(ViewOf(resources[id], amount));
    }

    /** GET /resources/user/resources */
    method UserResources(user: UserId) returns (reply: Result<map<ResourceId, LinkView>>)
      ensures reply.Ok? ==> reply.value.Keys == LinkedResources(State(), user)
      ensures reply == ResourceRoutes.UserResources(State(), user)
    {
      reply := ResourceRoutes.UserResources(State(), user);
    }

    /** POST /resources/init: one insert-if-absent upsert per catalog resource. */
    method InitResources(user: UserId) returns (reply: Result<map<ResourceId, LinkView>>)
      requires Valid()
      modifies this
      ensures Valid()
      ensures State() == ResourceRoutes.InitResources(old(State()), user).db
      ensures reply == ResourceRoutes.InitResources(old(State()), user).reply
    {
      var pending := resources.Keys;
      while pending != {}
        invariant pending <= resources.Keys
        invariant resources == old(resources) && upgrades == old(upgrades)
        invariant owned == old(owned) && users == old(users)
        invariant forall k :: k in amounts <==> k in old(amounts) || (k.0 == user && k.1 in resources && k.1 !in pending)
        invariant forall k :: k in old(amounts) ==> amounts[k] == old(amounts)[k]
        invariant forall k :: k in amounts && k !in old(amounts) ==> amounts[k] == 0.0
        decreases pending
      {
        if forall id :: id !in pending {
          assert false;
        }
        var id :| id in pending;
        if (user, id) !in amounts {
          amounts := amounts[(user, id) := 0.0];
        }
        pending := pending - {id};
      }
      reply := ResourceRoutes.UserResources(State(), user);
    }

    /** GET /resources/stats. `docs` is the link collection in the order the
     *  scan met it: one document per ledger entry. */
    method Stats() returns (docs: seq<ResourceLink>, stats: map<UserId, ResourceStats.UserStats>)
      ensures UniqueLinks(docs) && Index(docs) == amounts
      ensures stats == ResourceStats.Stats(docs, resources, users)
    {
      docs := [];
      var pending := amounts.Keys;
      while pending != {}
        invariant pending <= amounts.Keys
        invariant UniqueLinks(docs)
        invariant Index(docs) == map k | k in amounts.Keys - pending :: amounts[k]
        decreases pending
      {
        if forall k :: k !in pending {
          assert false;
        }
        var k :| k in pending;
        var next := [ResourceLink(k.0, k.1, amounts[k])] + docs;
        forall i, j | 0 <= i < j < |next| ensures KeyOf(next[i]) != KeyOf(next[j]) {
          assert next[j] == docs[j - 1];
          if i > 0 {
            assert next[i] == docs[i - 1];
          } else {
            assert KeyOf(docs[j - 1]) in KeysOf(docs);
          }
        }
        assert next[1..] == docs;
        docs := next;
        pending := pending - {k};
      }
      stats := ResourceStats.Stats(docs, resources, users);
    }

    /** Saving a new user under a fresh `_id`: validation, then the unique
     *  index on `username`. */
    method SaveUser(
      id: UserId, username: Option<string>, password: Option<string>, admin: Option<bool>,
      positionType: Option<string>, coordinates: Option<seq<real>>, dynamo: Option<bool>)
      returns (reply: Result<User>)
      requires Valid() && id !in users
      modifies this
      ensures Valid()
      ensures var made := NewUser(username, password, admin, positionType, coordinates, dynamo);
              && (made.Err? ==> reply == Err(Invalid) && State() == old(State()))
              && (made.Ok? && UsernameTaken(old(users), made.value.username) ==>
                    reply == Err(Duplicate) && State() == old(State()))
              && (made.Ok? && !UsernameTaken(old(users), made.value.username) ==>
                    reply == made && State() == old(State()).(users := old(users)[id := made.value]))
    {
      var made := NewUser(username, password, admin, positionType, coordinates, dynamo);
      if made.Err? {
        return Err(made.failure);
      }
      var added := AddUser(users, id, made.value);
      if added.Err? {
        return Err(added.failure);
      }
      users := added.value;
      reply := made;
    }
  }
}
