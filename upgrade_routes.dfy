/** The upgrade routes (routes/upgrades.js): reading the catalog and a
 *  user's purchase of an upgrade, gated by its prerequisite. */
module UpgradeRoutes {
  import opened Common
  import opened UpgradeModel
  import opened Ledger

  /** What a purchase replies with: the upgrade's fields under `upgradeId`. */
  datatype UpgradeView = UpgradeView(upgradeId: UpgradeId, name: string, production: real, price: real)

  function ViewOfUpgrade(u: Upgrade): UpgradeView
  {
    UpgradeView(u.id, u.name, u.production, u.price)
  }

  /** GET /:id */
  function GetUpgrade(db: Db, id: UpgradeId): (r: Result<Upgrade>)
    ensures r.Ok? <==> id in db.upgrades
    ensures r.Ok? ==> r.value == db.upgrades[id]
    ensures r.Err? ==> r.failure == NotFound
  {
    if id in db.upgrades then Ok(db.upgrades[id]) else Err(NotFound)
  }

  /** The prerequisite check: an upgrade with no (or a falsy) unlockLevel is
   *  open to everyone; otherwise the user must own that upgrade. Whether the
   *  prerequisite still exists in the catalog is not looked at. */
  function PrerequisiteMet(db: Db, user: UserId, u: Upgrade): (met: bool)
    ensures met <==> u.unlockLevel.None? || u.unlockLevel == Some(0) || (user, u.unlockLevel.value) in db.owned
  {
    Prerequisite(u).None? || (user, Prerequisite(u).value) in db.owned
  }

  /** Every owned upgrade that is still in the catalog has its prerequisite
   *  owned by the same user. */
  ghost predicate PrerequisitesClosed(db: Db)
  {
    forall link :: link in db.owned && link.1 in db.upgrades ==> PrerequisiteMet(db, link.0, db.upgrades[link.1])
  }

  /** POST /:id/buy. The checks run in the route's order: the upgrade must
   *  exist, must not be owned yet, and its prerequisite must be owned. Only
   *  then is the link saved; no resource is debited for the price. */
  function BuyUpgrade(db: Db, user: UserId, id: UpgradeId): (s: Step<UpgradeView>)
    ensures s.reply.Ok? <==>
      id in db.upgrades && (user, id) !in db.owned && PrerequisiteMet(db, user, db.upgrades[id])
    ensures id !in db.upgrades ==> s.reply == Err(NotFound)
    ensures id in db.upgrades && (user, id) in db.owned ==> s.reply == Err(AlreadyOwned)
    ensures id in db.upgrades && (user, id) !in db.owned && !PrerequisiteMet(db, user, db.upgrades[id]) ==>
      s.reply == Err(PrerequisitesNotMet)
    ensures s.reply.Err? ==> s.db == db
    ensures s.reply.Ok? ==> s.db == db.(owned := db.owned + {(user, id)})
    ensures s.reply.Ok? ==> s.reply.value == ViewOfUpgrade(db.upgrades[id])
    ensures s.db.owned >= db.owned && s.db.amounts == db.amounts
    ensures PrerequisitesClosed(db) ==> PrerequisitesClosed(s.db)
  {
    if id !in db.upgrades then Step(db, Err(NotFound))
    else if (user, id) in db.owned then Step(db, Err(AlreadyOwned))
    else
      var u := db.upgrades[id];
      if !PrerequisiteMet(db, user, u) then Step(db, Err(PrerequisitesNotMet))
      else Step(db.(owned := db.owned + {(user, id)}), Ok(ViewOfUpgrade(u)))
  }

  /** A user can buy an upgrade at most once: buying it again right after a
   *  purchase is refused and changes nothing. */
  lemma BuyTwiceRefused(db: Db, user: UserId, id: UpgradeId)
    requires BuyUpgrade(db, user, id).reply.Ok?
    ensures var s := BuyUpgrade(db, user, id).db;
            BuyUpgrade(s, user, id) == Step(s, Err(AlreadyOwned))
  {
  }

  /** Buying an upgrade unlocks the upgrades that name it as prerequisite. */
  lemma BuyUnlocks(db: Db, user: UserId, id: UpgradeId, next: UpgradeId)
    requires BuyUpgrade(db, user, id).reply.Ok?
    requires next in db.upgrades && Prerequisite(db.upgrades[next]) == Some(id)
    requires (user, next) !in db.owned && next != id
    ensures BuyUpgrade(BuyUpgrade(db, user, id).db, user, next).reply.Ok?
  {
  }

  /** An unlockLevel of 0 behaves as no prerequisite at all. */
  lemma ZeroUnlockLevelIsOpen(db: Db, user: UserId, u: Upgrade)
    requires u.unlockLevel == Some(0)
    ensures PrerequisiteMet(db, user, u)
  {
  }

  /** A two-upgrade chain: upgrade 2 needs upgrade 1. Buying 2 first is
   *  refused; buying 1, then 1 again, then 2 gives success, AlreadyOwned and
   *  success. */
  lemma ChainScenario(user: UserId)
    ensures var db := Db(map[], map[1 := Upgrade(1, "Drill", 1.0, 10.0, None),
                                   2 := Upgrade(2, "Excavator", 5.0, 50.0, Some(1))], map[], {}, map[]);
            var s0 := BuyUpgrade(db, user, 2);
            var s1 := BuyUpgrade(s0.db, user, 1);
            var s2 := BuyUpgrade(s1.db, user, 1);
            var s3 := BuyUpgrade(s2.db, user, 2);
            && s0.reply == Err(PrerequisitesNotMet)
            && s1.reply == Ok(UpgradeView(1, "Drill", 1.0, 10.0))
            && s2.reply == Err(AlreadyOwned)
            && s3.reply == Ok(UpgradeView(2, "Excavator", 5.0, 50.0))
            && s3.db.owned == {(user, 1), (user, 2)}
  {
  }
}
