/** GET /stats (routes/resources.js): the aggregation pipeline over the
 *  UserResource collection. Each link is joined to its resource ($lookup,
 *  and $unwind drops a link whose resource is gone), links are grouped by
 *  user ($group), each group is joined to its user ($lookup, $unwind drops
 *  a group without one) and shaped with the username ($project). */
module ResourceStats {
  import opened Common
  import opened ResourceModel
  import opened UserModel
  import opened UserResourceModel

  /** One element of a summary's `resources` list. */
  datatype Entry = Entry(name: string, amount: real, value: real)

  /** The accumulators of the $group stage. */
  datatype Totals = Totals(totalResources: real, totalValue: real, resourceCount: nat, resources: seq<Entry>)

  /** One user's summary, as $project shapes it. */
  datatype UserStats = UserStats(
    username: string, totalResources: real, totalValue: real, resourceCount: nat, resources: seq<Entry>)

  /** A link of `user` that survives the join: `$lookup` on the resource's
   *  `_id` finds it in the catalog, so `$unwind` keeps the link. */
  predicate Joins(d: ResourceLink, catalog: map<ResourceId, Resource>, user: UserId)
  {
    d.user == user && d.resource in catalog
  }

  function EntryOf(d: ResourceLink, r: Resource): Entry
  {
    Entry(r.name, d.amount, d.amount * r.price)
  }

  /** The entries of `user`'s joined links, in collection order. A user has
   *  none exactly when none of the links is both theirs and to an existing
   *  resource. */
  function Entries(docs: seq<ResourceLink>, catalog: map<ResourceId, Resource>, user: UserId): (es: seq<Entry>)
    ensures |es| <= |docs|
    ensures es == [] <==> forall j :: 0 <= j < |docs| ==> !Joins(docs[j], catalog, user)
  {
    if docs == [] then []
    else
      var rest := Entries(docs[1..], catalog, user);
      assert (forall j :: 0 <= j < |docs| ==> !Joins(docs[j], catalog, user)) <==>
             !Joins(docs[0], catalog, user) && forall j :: 0 <= j < |docs[1..]| ==> !Joins(docs[1..][j], catalog, user) by {
        forall j | 0 < j < |docs| ensures docs[j] == docs[1..][j - 1] { }
      }
      if Joins(docs[0], catalog, user) then [EntryOf(docs[0], catalog[docs[0].resource])] + rest else rest
  }

  function SumAmounts(es: seq<Entry>): real
  {
    if es == [] then 0.0 else es[0].amount + SumAmounts(es[1..])
  }

  function SumValues(es: seq<Entry>): real
  {
    if es == [] then 0.0 else es[0].value + SumValues(es[1..])
  }

  const NoTotals := Totals(0.0, 0.0, 0, [])

  /** One link pushed through the accumulators: `$sum` of the amount, `$sum`
   *  of amount times price, `$sum: 1`, and `$push` of the entry. */
  function Add(acc: Totals, e: Entry): Totals
  {
    Totals(acc.totalResources + e.amount, acc.totalValue + e.value, acc.resourceCount + 1, acc.resources + [e])
  }

  /** The $group stage for one user: the links in collection order, folded
   *  into the accumulators. The fold only appends to the `$push` list, and
   *  the `$sum: 1` counter grows by exactly the number of entries pushed. */
  function Group(docs: seq<ResourceLink>, catalog: map<ResourceId, Resource>, user: UserId, acc: Totals): (t: Totals)
    ensures |acc.resources| <= |t.resources| && t.resources[..|acc.resources|] == acc.resources
    ensures t.resourceCount - acc.resourceCount == |t.resources| - |acc.resources|
  {
    if docs == [] then acc
    else
      var d := docs[0];
      var next := if Joins(d, catalog, user) then Add(acc, EntryOf(d, catalog[d.resource])) else acc;
      Group(docs[1..], catalog, user, next)
  }

  /** The totals a group reports on top of `acc`, by their definitions. */
  function Extend(acc: Totals, es: seq<Entry>): Totals
  {
    Totals(acc.totalResources + SumAmounts(es), acc.totalValue + SumValues(es),
           acc.resourceCount + |es|, acc.resources + es)
  }

  /** The fold agrees with the definitions: the total amount, the total value
   *  and the count are those of the user's joined entries, listed in order. */
  lemma {:induction false} GroupComputesTotals(
    docs: seq<ResourceLink>, catalog: map<ResourceId, Resource>, user: UserId, acc: Totals)
    ensures Group(docs, catalog, user, acc) == Extend(acc, Entries(docs, catalog, user))
  {
    if docs == [] {
      assert acc.resources + [] == acc.resources;
    } else {
      var d := docs[0];
      var rest := Entries(docs[1..], catalog, user);
      if Joins(d, catalog, user) {
        var e := EntryOf(d, catalog[d.resource]);
        GroupComputesTotals(docs[1..], catalog, user, Add(acc, e));
        assert ([e] + rest)[0] == e && ([e] + rest)[1..] == rest;
        assert acc.resources + [e] + rest == acc.resources + ([e] + rest);
      } else {
        GroupComputesTotals(docs[1..], catalog, user, acc);
      }
    }
  }

  /** The join keeps exactly the user's links to existing resources, and each
   *  entry's value is its amount times its resource's price. */
  lemma {:induction false} EntriesAreJoinedLinks(
    docs: seq<ResourceLink>, catalog: map<ResourceId, Resource>, user: UserId)
    ensures forall j :: 0 <= j < |docs| && Joins(docs[j], catalog, user) ==>
      EntryOf(docs[j], catalog[docs[j].resource]) in Entries(docs, catalog, user)
    ensures forall e :: e in Entries(docs, catalog, user) ==>
      exists j :: 0 <= j < |docs| && Joins(docs[j], catalog, user) && e == EntryOf(docs[j], catalog[docs[j].resource])
  {
    if docs != [] {
      var rest := docs[1..];
      EntriesAreJoinedLinks(rest, catalog, user);
      forall j | 0 <= j < |docs| && Joins(docs[j], catalog, user)
        ensures EntryOf(docs[j], catalog[docs[j].resource]) in Entries(docs, catalog, user)
      {
        if j > 0 { assert docs[j] == rest[j - 1]; }
      }
      forall e | e in Entries(docs, catalog, user)
        ensures exists j :: 0 <= j < |docs| && Joins(docs[j], catalog, user) && e == EntryOf(docs[j], catalog[docs[j].resource])
      {
        if e in Entries(rest, catalog, user) {
          var j :| 0 <= j < |rest| && Joins(rest[j], catalog, user) && e == EntryOf(rest[j], catalog[rest[j].resource]);
          assert docs[j + 1] == rest[j];
        } else {
          assert e == EntryOf(docs[0], catalog[docs[0].resource]);
        }
      }
    }
  }

  /** Entries follow collection order: the links of a longer scan append. */
  lemma {:induction false} EntriesInOrder(
    docs: seq<ResourceLink>, more: seq<ResourceLink>, catalog: map<ResourceId, Resource>, user: UserId)
    ensures Entries(docs + more, catalog, user) == Entries(docs, catalog, user) + Entries(more, catalog, user)
  {
    if docs == [] {
      assert docs + more == more;
    } else {
      assert (docs + more)[0] == docs[0] && (docs + more)[1..] == docs[1..] + more;
      EntriesInOrder(docs[1..], more, catalog, user);
      var head := if Joins(docs[0], catalog, user) then [EntryOf(docs[0], catalog[docs[0].resource])] else [];
      assert Entries(docs, catalog, user) == head + Entries(docs[1..], catalog, user);
      assert head + (Entries(docs[1..], catalog, user) + Entries(more, catalog, user))
          == head + Entries(docs[1..], catalog, user) + Entries(more, catalog, user);
    }
  }

  function Summary(username: string, t: Totals): UserStats
  {
    UserStats(username, t.totalResources, t.totalValue, t.resourceCount, t.resources)
  }

  /** The pipeline's output, keyed by the user `_id` that $project drops: one
   *  summary for each existing user with at least one joined link. */
  function Stats(docs: seq<ResourceLink>, catalog: map<ResourceId, Resource>, users: map<UserId, User>)
    : (r: map<UserId, UserStats>)
    ensures forall u :: u in r <==> u in users && Entries(docs, catalog, u) != []
    ensures forall u :: u in r ==> r[u].username == users[u].username
  {
    map u | u in users && Entries(docs, catalog, u) != [] :: Summary(users[u].username, Group(docs, catalog, u, NoTotals))
  }

  /** What each summary reports: totalResources is the sum of the amounts,
   *  totalValue the sum of amount times price, resourceCount the number of
   *  joined links, and `resources` their entries in collection order. */
  lemma StatsReportsSums(
    docs: seq<ResourceLink>, catalog: map<ResourceId, Resource>, users: map<UserId, User>, u: UserId)
    requires u in Stats(docs, catalog, users)
    ensures var s := Stats(docs, catalog, users)[u];
            var es := Entries(docs, catalog, u);
            && s.totalResources == SumAmounts(es)
            && s.totalValue == SumValues(es)
            && s.resourceCount == |es| > 0
            && s.resources == es
  {
    GroupComputesTotals(docs, catalog, u, NoTotals);
    assert [] + Entries(docs, catalog, u) == Entries(docs, catalog, u);
  }

  /** One user holding 10 Gold at price 100 gets 10, 1000 and 1. */
  lemma GoldExample(u: UserId)
    ensures var gold := Resource(1, "Gold", 100.0);
            var stats := Stats([ResourceLink(u, 1, 10.0)], map[1 := gold], map[u := User("adminLEL", false, None, [], false)]);
            && u in stats
            && stats[u] == UserStats("adminLEL", 10.0, 1000.0, 1, [Entry("Gold", 10.0, 1000.0)])
  {
    var docs := [ResourceLink(u, 1, 10.0)];
    var catalog := map[1 := Resource(1, "Gold", 100.0)];
    assert docs[1..] == [];
    assert Joins(docs[0], catalog, u) && catalog[docs[0].resource].name == "Gold";
    assert Entries(docs, catalog, u) == [Entry("Gold", 10.0, 1000.0)];
    StatsReportsSums(docs, catalog, map[u := User("adminLEL", false, None, [], false)], u);
    assert [Entry("Gold", 10.0, 1000.0)][1..] == [];
  }

  /** Two links, 10 Gold and 5 Energy, both at price 1: 15, 15 and 2. */
  lemma TwoResourceExample(u: UserId)
    ensures var catalog := map[1 := Resource(1, "Gold", 1.0), 2 := Resource(2, "Energy", 1.0)];
            var docs := [ResourceLink(u, 1, 10.0), ResourceLink(u, 2, 5.0)];
            var stats := Stats(docs, catalog, map[u := User("player", false, None, [], false)]);
            && u in stats
            && stats[u].totalResources == 15.0
            && stats[u].totalValue == 15.0
            && stats[u].resourceCount == 2
  {
    var catalog := map[1 := Resource(1, "Gold", 1.0), 2 := Resource(2, "Energy", 1.0)];
    var docs := [ResourceLink(u, 1, 10.0), ResourceLink(u, 2, 5.0)];
    assert docs[1..] == [ResourceLink(u, 2, 5.0)] && docs[1..][1..] == [];
    assert Entries(docs[1..], catalog, u) == [Entry("Energy", 5.0, 5.0)];
    var es := Entries(docs, catalog, u);
    assert es == [Entry("Gold", 10.0, 10.0), Entry("Energy", 5.0, 5.0)];
    var users := map[u := User("player", false, None, [], false)];
    assert u in Stats(docs, catalog, users);
    StatsReportsSums(docs, catalog, users, u);
    assert es[1..] == [Entry("Energy", 5.0, 5.0)] && es[1..][1..] == [];
    assert SumAmounts(es[1..]) == 5.0 && SumValues(es[1..]) == 5.0;
    assert SumAmounts(es) == 15.0 && SumValues(es) == 15.0;
  }

  /** A link whose resource was deleted contributes nothing. */
  lemma DanglingLinkDropped(docs: seq<ResourceLink>, catalog: map<ResourceId, Resource>, d: ResourceLink, user: UserId)
    requires d.resource !in catalog
    ensures Entries(docs + [d], catalog, user) == Entries(docs, catalog, user)
  {
    EntriesInOrder(docs, [d], catalog, user);
    assert [d][1..] == [];
  }
}
