/** Sets listed in ascending order, and the uniqueness of a sorted order. */
module SortedLists {

  ghost predicate Ascending(keys: seq<nat>) {
    forall i, j :: 0 <= i < j < |keys| ==> keys[i] < keys[j]
  }

  ghost predicate IsLeast(m: nat, s: set<nat>) {
    m in s && forall k :: k in s ==> m <= k
  }

  lemma LeastExists(s: set<nat>) returns (m: nat)
    requires s != {}
    ensures IsLeast(m, s)
    decreases |s|
  {
    var x: nat :| x in s;
    m := x;
    if s != {x} {
      var rest := s - {x};
      assert s == rest + {x};
      m := LeastExists(rest);
      if x < m {
        m := x;
      }
    }
  }

  function Least(s: set<nat>): (m: nat)
    requires s != {}
    ensures IsLeast(m, s)
  {
    assert exists m: nat :: m in s && forall k :: k in s ==> m <= k by {
      var m := LeastExists(s);
    }
    var m: nat :| m in s && forall k :: k in s ==> m <= k;
    m
  }

  /** The elements of s in ascending order. */
  function SortedKeys(s: set<nat>): seq<nat>
    decreases |s|
  {
    if s == {} then [] else [Least(s)] + SortedKeys(s - {Least(s)})
  }

  lemma {:induction false} SortedKeysAscend(s: set<nat>)
    ensures Ascending(SortedKeys(s))
    ensures forall k :: k in SortedKeys(s) <==> k in s
    decreases |s|
  {
    if s != {} {
      var m, rest := Least(s), SortedKeys(s - {Least(s)});
      SortedKeysAscend(s - {m});
      PutFirst(m, rest);
      assert SortedKeys(s) == [m] + rest;
    }
  }

  lemma PutFirst(m: nat, rest: seq<nat>)
    requires Ascending(rest) && forall k :: k in rest ==> m < k
    ensures Ascending([m] + rest)
    ensures forall k :: k in [m] + rest <==> k == m || k in rest
  {
    var all := [m] + rest;
    forall i, j | 0 <= i < j < |all| ensures all[i] < all[j] {
      assert all[j] == rest[j - 1];
      if i == 0 {
        assert rest[j - 1] in rest;
      } else {
        assert all[i] == rest[i - 1];
      }
    }
  }

  lemma SomeMember(a: seq<nat>)
    ensures a != [] ==> exists k :: k in a
  {
    if a != [] {
      assert a[0] in a;
    }
  }

  /** There is only one way to list a set in ascending order. */
  lemma {:induction false} AscendingIsUnique(a: seq<nat>, b: seq<nat>)
    requires Ascending(a) && Ascending(b)
    requires forall k :: k in a <==> k in b
    ensures a == b
  {
    SomeMember(a);
    SomeMember(b);
    if a != [] && b != [] {
      assert a[0] in b && b[0] in a;
      assert a[0] == b[0];
      forall k ensures k in a[1..] <==> k in b[1..] {
        TailMembers(a, k);
        TailMembers(b, k);
      }
      AscendingIsUnique(a[1..], b[1..]);
      assert a == [a[0]] + a[1..] && b == [b[0]] + b[1..];
    }
  }

  lemma TailMembers(a: seq<nat>, k: nat)
    requires Ascending(a) && a != []
    ensures k in a[1..] <==> k in a && k != a[0]
  {
    if k in a[1..] {
      var i :| 0 <= i < |a[1..]| && a[1..][i] == k;
      assert a[i + 1] == k;
    }
    if k in a && k != a[0] {
      var i :| 0 <= i < |a| && a[i] == k;
      assert a[1..][i - 1] == k;
    }
  }

  lemma PlacedAscends(keys: seq<nat>, t: nat, p: nat)
    requires Ascending(keys) && p <= |keys|
    requires forall i :: 0 <= i < p ==> keys[i] < t
    requires forall i :: p <= i < |keys| ==> t < keys[i]
    ensures Ascending(keys[..p] + [t] + keys[p..])
    ensures forall k :: k in keys[..p] + [t] + keys[p..] <==> k == t || k in keys
  {
    assert keys == keys[..p] + keys[p..];
  }

  /** The place of t in an ascending list without t. */
  method FindPlace(keys: seq<nat>, t: nat) returns (p: nat)
    requires Ascending(keys) && t !in keys
    ensures p <= |keys|
    ensures forall i :: 0 <= i < p ==> keys[i] < t
    ensures forall i :: p <= i < |keys| ==> t < keys[i]
  {
    p := 0;
    while p < |keys| && keys[p] < t
      invariant p <= |keys| && forall i :: 0 <= i < p ==> keys[i] < t
    {
      p := p + 1;
    }
  }

  method SortKeys(keys: seq<nat>) returns (sorted: seq<nat>)
    requires forall i, j :: 0 <= i < j < |keys| ==> keys[i] != keys[j]
    ensures Ascending(sorted) && forall k :: k in sorted <==> k in keys
  {
    sorted := [];
    for i := 0 to |keys|
      invariant Ascending(sorted)
      invariant forall k :: k in sorted <==> k in keys[..i]
    {
      assert keys[i] !in keys[..i];
      var p := FindPlace(sorted, keys[i]);
      PlacedAscends(sorted, keys[i], p);
      sorted := sorted[..p] + [keys[i]] + sorted[p..];
      assert keys[..i + 1] == keys[..i] + [keys[i]];
    }
    assert keys[..|keys|] == keys;
  }

  lemma PlaceExists(keys: seq<nat>, t: nat) returns (p: nat)
    requires Ascending(keys) && t !in keys
    ensures p <= |keys|
    ensures forall i :: 0 <= i < p ==> keys[i] < t
    ensures forall i :: p <= i < |keys| ==> t < keys[i]
  {
    p := 0;
    while p < |keys| && keys[p] < t
      invariant p <= |keys| && forall i :: 0 <= i < p ==> keys[i] < t
    {
      p := p + 1;
    }
  }

  /** A new element takes its place between the others. */
  lemma SortedKeysInsert(s: set<nat>, t: nat) returns (p: nat)
    requires t !in s
    ensures p <= |SortedKeys(s)|
    ensures SortedKeys(s + {t}) == SortedKeys(s)[..p] + [t] + SortedKeys(s)[p..]
  {
    SortedKeysAscend(s);
    SortedKeysAscend(s + {t});
    p := PlaceExists(SortedKeys(s), t);
    PlacedAscends(SortedKeys(s), t, p);
    AscendingIsUnique(SortedKeys(s + {t}), SortedKeys(s)[..p] + [t] + SortedKeys(s)[p..]);
  }
}
