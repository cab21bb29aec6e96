/** The Upgrade document of the catalog (models/Upgrade.js). */
module UpgradeModel {
  import opened Common

  /** A catalog upgrade. `unlockLevel`, when set, names the `_id` of the
   *  upgrade that must be owned first; `None` is the schema's default null. */
  datatype Upgrade = Upgrade(
    id: UpgradeId,
    name: string,
    production: real,
    price: real,
    unlockLevel: Option<UpgradeId>)

  function IdOf(u: Upgrade): int { u.id }

  function NameOf(u: Upgrade): string { u.name }

  /** What saving an Upgrade document accepts: `_id`, `name`, `production`
   *  and `price` are required; a missing `unlockLevel` is stored as null. */
  function NewUpgrade(
    id: Option<UpgradeId>, name: Option<string>, production: Option<real>,
    price: Option<real>, unlockLevel: Option<UpgradeId>): (r: Result<Upgrade>)
    ensures r.Ok? <==> id.Some? && RequiredString(name) && production.Some? && price.Some?
    ensures r.Ok? ==> r.value == Upgrade(id.value, name.value, production.value, price.value, unlockLevel)
    ensures r.Err? ==> r.failure == Invalid
  {
    if id.Some? && RequiredString(name) && production.Some? && price.Some? then
      Ok(Upgrade(id.value, name.value, production.value, price.value, unlockLevel))
    else
      Err(Invalid)
  }

  /** The prerequisite the purchase route checks: `if (upgrade.unlockLevel)`
   *  is false for null and for 0, so neither is a prerequisite. */
  function Prerequisite(u: Upgrade): (p: Option<UpgradeId>)
    ensures p.Some? <==> u.unlockLevel.Some? && u.unlockLevel.value != 0
    ensures p.Some? ==> p.value == u.unlockLevel.value
  {
    match u.unlockLevel
    case None => None
    case Some(level) => if level != 0 then Some(level) else None
  }

  /** Every upgrade is stored under its own `_id`. */
  ghost predicate Keyed(catalog: map<UpgradeId, Upgrade>)
  {
    forall id :: id in catalog ==> catalog[id].id == id
  }
}
