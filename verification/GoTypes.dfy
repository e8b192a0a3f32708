/** The fixed-width integers of the server, and stock helper types. */
module GoTypes {
  type int64 = x: int | -0x8000_0000_0000_0000 <= x < 0x8000_0000_0000_0000

  type uint32 = x: int | 0 <= x < 0x1_0000_0000

  type uint16 = x: int | 0 <= x < 0x1_0000

  type byte = x: int | 0 <= x < 0x100

  datatype Option<+T> = None | Some(value: T)

  datatype Result<+T, +E> = Success(value: T) | Failure(error: E)

  /** Look-up in a map that may not have the key. */
  function Find<K, V>(m: map<K, V>, k: K): Option<V> {
    if k in m then Some(m[k]) else None
  }

  ghost function Elements<T>(s: seq<T>): set<T> {
    set x | x in s
  }

  lemma ElementsOfPrefix<T>(s: seq<T>, k: nat)
    requires k < |s|
    ensures Elements(s[..k + 1]) == Elements(s[..k]) + {s[k]}
  {
    assert s[..k + 1] == s[..k] + [s[k]];
  }

  ghost predicate Distinct(ids: seq<int64>) {
    forall i, j | 0 <= i < j < |ids| :: ids[i] != ids[j]
  }

  /** ids lists exactly the members of s, each once. */
  ghost predicate Lists(ids: seq<int64>, s: set<int64>) {
    Distinct(ids) && (forall i | 0 <= i < |ids| :: ids[i] in s) && forall x: int64 | x in s :: x in ids
  }

  /** An arbitrary member: the order in which a map is ranged over is not specified. */
  method Pick<T>(s: set<T>) returns (x: T)
    requires s != {}
    ensures x in s
  {
    x :| x in s;
  }

  /** The members in an arbitrary order. */
  method InSomeOrder<T>(s: set<T>) returns (order: seq<T>)
    ensures forall x :: x in order <==> x in s
  {
    order := [];
    var rest := s;
    while rest != {}
      invariant rest <= s && forall x :: x in order <==> x in s && x !in rest
    {
      var x := Pick(rest);
      order, rest := order + [x], rest - {x};
    }
  }

  /** Every set can be listed, beginning with any member. */
  lemma {:induction false} SomeListing(cs: set<int64>) returns (order: seq<int64>)
    ensures Lists(order, cs)
    decreases cs, 1
  {
    if cs == {} {
      order := [];
    } else {
      var c: int64 :| c in cs;
      order := ListingFrom(cs, c);
    }
  }

  lemma {:induction false} ListingFrom(cs: set<int64>, c: int64) returns (order: seq<int64>)
    requires c in cs
    ensures Lists(order, cs) && order[0] == c
    decreases cs, 0
  {
    var rest := SomeListing(cs - {c});
    order := [c] + rest;
    assert forall x: int64 | x in cs && x != c :: x in rest;
  }
}
