/** The UserUpgrade link document (models/UserUpgrade.js): ownership of an
 *  upgrade is the existence of a (user_id, upgrade_id) document, which the
 *  unique index allows at most once. */
module UserUpgradeModel {
  import opened Common

  /** No payload beyond the two required keys; `upgrade_id` is a Number, as
   *  is an Upgrade's `_id`. */
  datatype UpgradeLink = UpgradeLink(user: UserId, upgrade: UpgradeId)

  /** Saving a link: both `user_id` and `upgrade_id` are required. */
  function NewUpgradeLink(user: Option<UserId>, upgrade: Option<UpgradeId>): (r: Result<UpgradeLink>)
    ensures r.Ok? <==> user.Some? && upgrade.Some?
    ensures r.Ok? ==> r.value.user == user.value && r.value.upgrade == upgrade.value
    ensures r.Err? ==> r.failure == Invalid
  {
    if user.Some? && upgrade.Some? then Ok(UpgradeLink(user.value, upgrade.value)) else Err(Invalid)
  }

  /** The unique index on (user_id, upgrade_id). */
  ghost predicate UniqueOwnership(docs: seq<UpgradeLink>)
  {
    forall i, j :: 0 <= i < j < |docs| ==> docs[i] != docs[j]
  }

  /** The ownership relation the documents describe. */
  ghost function Owned(docs: seq<UpgradeLink>): set<(UserId, UpgradeId)>
  {
    set i | 0 <= i < |docs| :: (docs[i].user, docs[i].upgrade)
  }

  /** Under the unique index each owned pair is exactly one document, so the
   *  collection is faithfully a set of pairs. */
  lemma {:induction false} OwnershipIsASet(docs: seq<UpgradeLink>)
    requires UniqueOwnership(docs)
    ensures |Owned(docs)| == |docs|
  {
    if docs != [] {
      var rest := docs[1..];
      var pair := (docs[0].user, docs[0].upgrade);
      assert UniqueOwnership(rest) by {
        forall i, j | 0 <= i < j < |rest| ensures rest[i] != rest[j] {
          assert rest[i] == docs[i + 1] && rest[j] == docs[j + 1];
        }
      }
      OwnershipIsASet(rest);
      assert Owned(docs) == Owned(rest) + {pair} by {
        forall k | k in Owned(docs) ensures k in Owned(rest) + {pair} {
          var i :| 0 <= i < |docs| && (docs[i].user, docs[i].upgrade) == k;
          if i > 0 { assert rest[i - 1] == docs[i]; }
        }
        forall k | k in Owned(rest) ensures k in Owned(docs) {
          var i :| 0 <= i < |rest| && (rest[i].user, rest[i].upgrade) == k;
          assert docs[i + 1] == rest[i];
        }
      }
      forall i | 0 <= i < |rest| ensures (rest[i].user, rest[i].upgrade) != pair {
        assert rest[i] == docs[i + 1];
      }
      assert pair !in Owned(rest);
    }
  }
}
