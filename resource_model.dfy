/** The Resource document of the catalog (models/Resource.js). */
module ResourceModel {
  import opened Common

  /** A catalog resource. `_id` is required and supplied by the caller: the
   *  schema switches off ObjectId generation. `name` carries no unique index. */
  datatype Resource = Resource(id: ResourceId, name: string, price: real)

  function IdOf(r: Resource): int { r.id }

  function NameOf(r: Resource): string { r.name }

  /** What saving `new Resource(body)` accepts: `_id`, `name` and `price` are
   *  all required; any number, 0 and negative ones included, is a price. */
  function NewResource(id: Option<ResourceId>, name: Option<string>, price: Option<real>): (r: Result<Resource>)
    ensures r.Ok? <==> id.Some? && RequiredString(name) && price.Some?
    ensures r.Ok? ==> r.value.id == id.value && r.value.name == name.value && r.value.price == price.value
    ensures r.Err? ==> r.failure == Invalid
  {
    if id.Some? && RequiredString(name) && price.Some? then
      Ok(Resource(id.value, name.value, price.value))
    else
      Err(Invalid)
  }

  /** Every resource is stored under its own `_id`: the catalog is keyed by the primary key. */
  ghost predicate Keyed(catalog: map<ResourceId, Resource>)
  {
    forall id :: id in catalog ==> catalog[id].id == id
  }

  /** A stored resource is what validation makes of its own fields. */
  lemma NewResourceRoundTrip(r: Resource)
    requires r.name != ""
    ensures NewResource(Some(r.id), Some(r.name), Some(r.price)) == Ok(r)
  {
  }
}
