/** The order `find().sort("name")` returns catalog documents in: names are
 *  compared character by character by code point (MongoDB's binary
 *  collation), a proper prefix first. Documents with equal names may come
 *  in either order. */
module NameOrder {

  /** `a` sorts no later than `b`. */
  predicate NameLe(a: string, b: string)
  {
    if a == [] then true
    else if b == [] then false
    else if a[0] != b[0] then a[0] < b[0]
    else NameLe(a[1..], b[1..])
  }

  lemma {:induction false} NameLeTotal(a: string, b: string)
    ensures NameLe(a, b) || NameLe(b, a)
  {
    if a != [] && b != [] && a[0] == b[0] {
      NameLeTotal(a[1..], b[1..]);
    }
  }

  lemma {:induction false} NameLeTransitive(a: string, b: string, c: string)
    requires NameLe(a, b) && NameLe(b, c)
    ensures NameLe(a, c)
  {
    if a != [] && b != [] && c != [] && a[0] == b[0] && b[0] == c[0] {
      NameLeTransitive(a[1..], b[1..], c[1..]);
    }
  }

  /** Only equal names tie: the order is a total order on strings. */
  lemma {:induction false} NameLeAntisymmetric(a: string, b: string)
    requires NameLe(a, b) && NameLe(b, a)
    ensures a == b
  {
    if a != [] && b != [] {
      NameLeAntisymmetric(a[1..], b[1..]);
      assert a == [a[0]] + a[1..] && b == [b[0]] + b[1..];
    }
  }

  ghost predicate SortedByName<T>(s: seq<T>, name: T -> string)
  {
    forall i, j :: 0 <= i < j < |s| ==> NameLe(name(s[i]), name(s[j]))
  }

  /** Where `x` goes in a sorted list: after every element whose name sorts
   *  no later than its own. */
  function InsertPos<T>(s: seq<T>, x: T, name: T -> string): (p: nat)
    ensures p <= |s|
    ensures forall i :: 0 <= i < p ==> NameLe(name(s[i]), name(x))
    ensures p < |s| ==> !NameLe(name(s[p]), name(x))
  {
    if s == [] || !NameLe(name(s[0]), name(x)) then 0
    else 1 + InsertPos(s[1..], x, name)
  }

  lemma AfterInsertPos<T>(s: seq<T>, x: T, name: T -> string)
    requires SortedByName(s, name)
    ensures forall i :: InsertPos(s, x, name) <= i < |s| ==> NameLe(name(x), name(s[i]))
  {
    var p := InsertPos(s, x, name);
    if p < |s| {
      NameLeTotal(name(x), name(s[p]));
      forall i | p <= i < |s| ensures NameLe(name(x), name(s[i])) {
        if i > p {
          NameLeTransitive(name(x), name(s[p]), name(s[i]));
        }
      }
    }
  }

  lemma InsertSorted<T>(s: seq<T>, x: T, name: T -> string)
    requires SortedByName(s, name)
    ensures var p := InsertPos(s, x, name); SortedByName(s[..p] + [x] + s[p..], name)
  {
    var p := InsertPos(s, x, name);
    AfterInsertPos(s, x, name);
    var r := s[..p] + [x] + s[p..];
    forall i, j | 0 <= i < j < |r| ensures NameLe(name(r[i]), name(r[j])) {
      var a := if i < p then s[i] else if i == p then x else s[i - 1];
      var b := if j < p then s[j] else if j == p then x else s[j - 1];
      assert r[i] == a && r[j] == b;
    }
  }

  /** Inserting into a sorted list keeps it sorted and adds exactly `x`. */
  function InsertByName<T>(s: seq<T>, x: T, name: T -> string): (r: seq<T>)
    requires SortedByName(s, name)
    ensures SortedByName(r, name)
    ensures multiset(r) == multiset(s) + multiset{x}
  {
    var p := InsertPos(s, x, name);
    InsertSorted(s, x, name);
    assert s == s[..p] + s[p..];
    s[..p] + [x] + s[p..]
  }

  /** How often the listing holds `x` once every key outside `pending` is
   *  listed: once if `x` is the entry stored under its key, never otherwise. */
  ghost function Listed<T>(catalog: map<int, T>, key: T -> int, pending: set<int>, x: T): nat
  {
    if key(x) in catalog && key(x) !in pending && catalog[key(x)] == x then 1 else 0
  }

  /** The catalog listing: every entry exactly once, nothing else, sorted by
   *  name. `key` is the primary key each entry is stored under. */
  method ListByName<T>(catalog: map<int, T>, key: T -> int, name: T -> string) returns (list: seq<T>)
    requires forall k :: k in catalog ==> key(catalog[k]) == k
    ensures SortedByName(list, name)
    ensures forall x :: multiset(list)[x] == Listed(catalog, key, {}, x)
  {
    list := [];
    var rest := catalog.Keys;
    while rest != {}
      invariant rest <= catalog.Keys
      invariant SortedByName(list, name)
      invariant forall x :: multiset(list)[x] == Listed(catalog, key, rest, x)
      decreases rest
    {
      if forall k :: k !in rest {
        assert false;
      }
      var k :| k in rest;
      assert multiset(InsertByName(list, catalog[k], name)) == multiset(list) + multiset{catalog[k]};
      list := InsertByName(list, catalog[k], name);
      rest := rest - {k};
    }
  }
}
