/** The list operations the registries use: `IndexOf` and `Remove` of
    `List<T>`, which compare elements by identity for objects. */
module Lists {
  import opened Wrappers

  /** The index of the first element equal to `x`. */
  function IndexOfItem<T(==)>(s: seq<T>, x: T): (r: Option<nat>)
    ensures r.Some? ==> r.value < |s|
  {
    ItemFrom(s, x, 0)
  }

  function ItemFrom<T(==)>(s: seq<T>, x: T, i: nat): (r: Option<nat>)
    requires i <= |s|
    ensures r.Some? ==> i <= r.value < |s|
    decreases |s| - i
  {
    if i == |s| then None else if s[i] == x then Some(i) else ItemFrom(s, x, i + 1)
  }

  lemma {:induction false} ItemFromFirst<T>(s: seq<T>, x: T, i: nat)
    requires i <= |s|
    ensures ItemFrom(s, x, i).None? <==> forall j :: i <= j < |s| ==> s[j] != x
    ensures ItemFrom(s, x, i).Some? ==>
      s[ItemFrom(s, x, i).value] == x && forall j :: i <= j < ItemFrom(s, x, i).value ==> s[j] != x
    decreases |s| - i
  {
    if i < |s| && s[i] != x {
      ItemFromFirst(s, x, i + 1);
    }
  }

  /** `IndexOfItem` finds the first occurrence, and none only when there is none. */
  lemma IndexOfItemFirst<T>(s: seq<T>, x: T)
    ensures IndexOfItem(s, x).None? <==> x !in s
    ensures IndexOfItem(s, x).Some? ==> s[IndexOfItem(s, x).value] == x && x !in s[..IndexOfItem(s, x).value]
  {
    ItemFromFirst(s, x, 0);
  }

  /** `List<T>.Remove`: drops the first element equal to `x`, if any. */
  function RemoveFirst<T(==)>(s: seq<T>, x: T): (r: seq<T>)
    ensures x !in s ==> r == s
    ensures x in s ==> |r| == |s| - 1
  {
    IndexOfItemFirst(s, x);
    match IndexOfItem(s, x)
    case None => s
    case Some(i) => s[..i] + s[i + 1..]
  }

  predicate NoDuplicates<T(==)>(s: seq<T>) {
    forall i, j :: 0 <= i < j < |s| ==> s[i] != s[j]
  }

  /** Removing an absent element changes nothing. Removing a present one
      takes out exactly one copy, its first, and keeps the others in order. */
  lemma RemoveFirstSpec<T>(s: seq<T>, x: T)
    ensures x !in s ==> RemoveFirst(s, x) == s
    ensures x in s ==>
      && |RemoveFirst(s, x)| == |s| - 1
      && multiset(RemoveFirst(s, x)) == multiset(s) - multiset{x}
      && exists i :: 0 <= i < |s| && s[i] == x && x !in s[..i] && RemoveFirst(s, x) == s[..i] + s[i + 1..]
  {
    IndexOfItemFirst(s, x);
    if x in s {
      var i := IndexOfItem(s, x).value;
      assert s == s[..i] + [x] + s[i + 1..];
      assert multiset(s) == multiset(s[..i]) + multiset{x} + multiset(s[i + 1..]);
    }
  }

  /** Without duplicates the element is gone afterwards, and no duplicates
      appear. */
  lemma RemoveFirstGone<T>(s: seq<T>, x: T)
    requires NoDuplicates(s)
    ensures x !in RemoveFirst(s, x) && NoDuplicates(RemoveFirst(s, x))
  {
    IndexOfItemFirst(s, x);
    if x in s {
      var i := IndexOfItem(s, x).value;
      var r := s[..i] + s[i + 1..];
      assert forall p :: 0 <= p < |r| ==> r[p] == s[if p < i then p else p + 1];
    }
  }

  /** Without duplicates, what remains after removing `x` is everything but
      `x`. */
  lemma RemoveFirstMembers<T>(s: seq<T>, x: T)
    requires NoDuplicates(s)
    ensures forall y :: y in RemoveFirst(s, x) <==> y in s && y != x
  {
    RemoveFirstGone(s, x);
    IndexOfItemFirst(s, x);
    if x in s {
      var i := IndexOfItem(s, x).value;
      var r := s[..i] + s[i + 1..];
      assert RemoveFirst(s, x) == r;
      forall y | y in r
        ensures y in s
      {
        var p :| 0 <= p < |r| && r[p] == y;
        assert r[p] == s[if p < i then p else p + 1];
      }
      forall y | y in s && y != x
        ensures y in r
      {
        var j :| 0 <= j < |s| && s[j] == y;
        assert j != i;
        assert r[if j < i then j else j - 1] == y;
      }
    }
  }
}
