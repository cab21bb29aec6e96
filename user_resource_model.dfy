/** The UserResource link document (models/UserResource.js): one user's
 *  holding of one resource, unique per (user_id, resource_id). */
module UserResourceModel {
  import opened Common

  datatype ResourceLink = ResourceLink(user: UserId, resource: ResourceId, amount: real)

  /** The compound key of the unique index. */
  function KeyOf(d: ResourceLink): (UserId, ResourceId)
  {
    (d.user, d.resource)
  }

  /** What saving a new link accepts: a missing amount defaults to 0, and the
   *  `min: 0` validator rejects a negative one. */
  function NewLink(user: UserId, resource: ResourceId, amount: Option<real>): (r: Result<ResourceLink>)
    ensures r.Ok? <==> amount.None? || amount.value >= 0.0
    ensures r.Ok? ==> KeyOf(r.value) == (user, resource) && r.value.amount >= 0.0
    ensures r.Ok? && amount.None? ==> r.value.amount == 0.0
    ensures r.Ok? && amount.Some? ==> r.value.amount == amount.value
    ensures r.Err? ==> r.failure == Invalid
  {
    var a := if amount.Some? then amount.value else 0.0;
    if a >= 0.0 then Ok(ResourceLink(user, resource, a)) else Err(Invalid)
  }

  /** The unique index: no two documents share a (user_id, resource_id) key. */
  ghost predicate UniqueLinks(docs: seq<ResourceLink>)
  {
    forall i, j :: 0 <= i < j < |docs| ==> KeyOf(docs[i]) != KeyOf(docs[j])
  }

  ghost function KeysOf(docs: seq<ResourceLink>): set<(UserId, ResourceId)>
  {
    set i | 0 <= i < |docs| :: KeyOf(docs[i])
  }

  /** The amount a `findOne` by compound key reads: the first document in
   *  collection order with that key. */
  function Index(docs: seq<ResourceLink>): (m: map<(UserId, ResourceId), real>)
    ensures m.Keys == KeysOf(docs)
  {
    if docs == [] then map[]
    else
      var rest := Index(docs[1..]);
      assert KeysOf(docs) == KeysOf(docs[1..]) + {KeyOf(docs[0])} by {
        forall k | k in KeysOf(docs) ensures k in KeysOf(docs[1..]) + {KeyOf(docs[0])} {
          var i :| 0 <= i < |docs| && KeyOf(docs[i]) == k;
          if i > 0 { assert KeyOf(docs[1..][i - 1]) == k; }
        }
        forall k | k in KeysOf(docs[1..]) ensures k in KeysOf(docs) {
          var i :| 0 <= i < |docs[1..]| && KeyOf(docs[1..][i]) == k;
          assert KeyOf(docs[i + 1]) == k;
        }
      }
      rest[KeyOf(docs[0]) := docs[0].amount]
  }

  /** Under the unique index, the map keyed by (user, resource) loses nothing:
   *  it has one entry per document, holding that document's amount. This is
   *  why the ledger can be a map. */
  lemma {:induction false} UniqueIndexLossless(docs: seq<ResourceLink>)
    requires UniqueLinks(docs)
    ensures |Index(docs)| == |docs|
    ensures forall i :: 0 <= i < |docs| ==> Index(docs)[KeyOf(docs[i])] == docs[i].amount
  {
    if docs != [] {
      var rest := docs[1..];
      assert UniqueLinks(rest) by {
        forall i, j | 0 <= i < j < |rest| ensures KeyOf(rest[i]) != KeyOf(rest[j]) {
          assert rest[i] == docs[i + 1] && rest[j] == docs[j + 1];
        }
      }
      UniqueIndexLossless(rest);
      forall i | 0 <= i < |rest| ensures KeyOf(rest[i]) != KeyOf(docs[0]) {
        assert rest[i] == docs[i + 1];
      }
      assert KeyOf(docs[0]) !in Index(rest);
      forall i | 0 <= i < |docs| ensures Index(docs)[KeyOf(docs[i])] == docs[i].amount {
        if i > 0 {
          assert docs[i] == rest[i - 1];
        }
      }
    }
  }

  /** A lookup reads the first document in collection order with its key:
   *  the entry under a document's key is that document's amount whenever no
   *  earlier document has the same key. */
  lemma {:induction false} IndexFirstWins(docs: seq<ResourceLink>, i: nat)
    requires i < |docs|
    requires forall j :: 0 <= j < i ==> KeyOf(docs[j]) != KeyOf(docs[i])
    ensures KeyOf(docs[i]) in Index(docs) && Index(docs)[KeyOf(docs[i])] == docs[i].amount
  {
    if i > 0 {
      var rest := docs[1..];
      forall j | 0 <= j < i - 1 ensures KeyOf(rest[j]) != KeyOf(rest[i - 1]) {
        assert rest[j] == docs[j + 1] && rest[i - 1] == docs[i];
      }
      IndexFirstWins(rest, i - 1);
      assert rest[i - 1] == docs[i];
    }
  }

  /** A document appended to the collection is seen by a lookup only when no
   *  earlier document has its key. */
  lemma {:induction false} IndexAppend(docs: seq<ResourceLink>, d: ResourceLink)
    ensures Index(docs + [d]) ==
      if KeyOf(d) in KeysOf(docs) then Index(docs) else Index(docs)[KeyOf(d) := d.amount]
  {
    if docs == [] {
      assert docs + [d] == [d] && [d][1..] == [];
    } else {
      var rest := docs[1..];
      assert (docs + [d])[0] == docs[0] && (docs + [d])[1..] == rest + [d];
      IndexAppend(rest, d);
      assert Index(docs).Keys == Index(rest).Keys + {KeyOf(docs[0])};
    }
  }

  /** Without the unique index a second document under a key already in use
   *  is invisible to every lookup. */
  lemma DuplicateKeyShadowed(docs: seq<ResourceLink>, d: ResourceLink)
    requires KeyOf(d) in KeysOf(docs)
    ensures Index(docs + [d]) == Index(docs)
  {
    IndexAppend(docs, d);
  }
}
