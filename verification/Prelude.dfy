/** Vocabulary shared by every module: optional values, Go's reading of a missing map key,
    and the arbitrary orders in which Go walks a map. */
module Prelude {

  datatype Option<+T> = None | Some(value: T)

  type StringMap = map<string, string>

  /** What Go yields for m[k]: the empty string when the key is missing. */
  function Get(m: StringMap, k: string): string {
    if k in m then m[k] else ""
  }

  function Lookup(m: StringMap, k: string): Option<string> {
    if k in m then Some(m[k]) else None
  }

  ghost predicate Distinct<T>(s: seq<T>) {
    forall i, j :: 0 <= i < j < |s| ==> s[i] != s[j]
  }

  /** One possible order of a walk over a map: every key exactly once. */
  ghost predicate Enumerates<T(!new)>(order: seq<T>, keys: set<T>) {
    && (forall k :: k in keys <==> k in order)
    && Distinct(order)
  }

  /** Every finite set of keys can be walked. */
  lemma {:induction false} SomeOrder<T(!new)>(keys: set<T>) returns (order: seq<T>)
    ensures Enumerates(order, keys)
    decreases |keys|
  {
    if keys == {} {
      order := [];
    } else {
      var k :| k in keys;
      var rest := SomeOrder(keys - {k});
      order := rest + [k];
    }
  }

  /** Any chosen key can come last in a walk. */
  lemma OrderEndingWith<T(!new)>(keys: set<T>, last: T) returns (order: seq<T>)
    requires last in keys
    ensures Enumerates(order, keys)
    ensures |order| > 0 && order[|order| - 1] == last
  {
    var rest := SomeOrder(keys - {last});
    order := rest + [last];
  }

  lemma TakeNext<T>(s: seq<T>, i: nat)
    requires i < |s|
    ensures s[..i + 1] == s[..i] + [s[i]]
  {
  }

  predicate SameAt<V(==)>(a: map<string, V>, b: map<string, V>, k: string) {
    (k in a <==> k in b) && (k in a ==> a[k] == b[k])
  }

  lemma SameEverywhere<V>(a: map<string, V>, b: map<string, V>)
    requires forall k :: SameAt(a, b, k)
    ensures a == b
  {
    assert forall k :: k in a ==> SameAt(a, b, k);
    assert forall k :: k in b ==> SameAt(a, b, k);
  }
}
