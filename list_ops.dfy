/** Python's list operations that server/project.py relies on: swapping two entries by way
    of a temporary, `del l[k]` and `l.remove(x)`. */
module ListOps {
  import opened Outcomes

  /** The list after `tmp = l[a]; l[a] = l[b]; l[b] = tmp`. */
  function SwapAt<T>(s: seq<T>, a: nat, b: nat): (r: seq<T>)
    requires a < |s| && b < |s|
    ensures |r| == |s| && r[a] == s[b] && r[b] == s[a]
    ensures forall i :: 0 <= i < |s| && i != a && i != b ==> r[i] == s[i]
  {
    s[a := s[b]][b := s[a]]
  }

  /** Swapping twice restores the list. */
  lemma SwapTwice<T>(s: seq<T>, a: nat, b: nat)
    requires a < |s| && b < |s|
    ensures SwapAt(SwapAt(s, a, b), a, b) == s
  {
  }

  /** A swap only reorders: the entries are the same, with the same multiplicities. */
  lemma SwapPermutes<T>(s: seq<T>, a: nat, b: nat)
    requires a < |s| && b < |s|
    ensures multiset(SwapAt(s, a, b)) == multiset(s)
  {
    var t := s[a := s[b]];
    if a != b {
      assert multiset(t) == multiset(s) - multiset{s[a]} + multiset{s[b]};
      assert t[b] == s[b];
      assert multiset(t[b := s[a]]) == multiset(t) - multiset{s[b]} + multiset{s[a]};
    }
  }

  /** `del l[k]`. */
  function DeleteAt<T>(s: seq<T>, k: nat): (r: seq<T>)
    requires k < |s|
    ensures |r| == |s| - 1
    ensures forall i :: 0 <= i < k ==> r[i] == s[i]
    ensures forall i :: k <= i < |r| ==> r[i] == s[i + 1]
  {
    s[..k] + s[k + 1..]
  }

  /** `l.remove(x)`: the list without its first occurrence of x; None where Python raises
      ValueError because x is absent. */
  function RemoveFirst<T(==)>(s: seq<T>, x: T): (r: Option<seq<T>>)
    ensures r.None? <==> x !in s
    ensures r.Some? ==> |r.value| == |s| - 1
  {
    if s == [] then None
    else if s[0] == x then Some(s[1..])
    else
      match RemoveFirst(s[1..], x)
      case None => None
      case Some(t) => Some([s[0]] + t)
  }

  /** What `remove` takes away is exactly one x. */
  lemma {:induction false} RemoveFirstCounts<T>(s: seq<T>, x: T)
    requires x in s
    ensures multiset(RemoveFirst(s, x).value) == multiset(s) - multiset{x}
  {
    assert s == [s[0]] + s[1..];
    if s[0] != x {
      RemoveFirstCounts(s[1..], x);
    }
  }

  /** Only the first occurrence goes: everything before it is kept, and so is everything
      after it, in order. */
  lemma {:induction false} RemoveFirstSplits<T>(a: seq<T>, x: T, b: seq<T>)
    requires x !in a
    ensures RemoveFirst(a + [x] + b, x) == Some(a + b)
  {
    var c := a + [x] + b;
    if a == [] {
      assert c == [x] + b;
      assert c[0] == x && c[1..] == b && a + b == b;
    } else {
      assert c[1..] == a[1..] + [x] + b;
      assert c[0] == a[0] && a[0] != x;
      RemoveFirstSplits(a[1..], x, b);
      assert RemoveFirst(c, x) == Some([a[0]] + RemoveFirst(c[1..], x).value);
      assert [a[0]] + (a[1..] + b) == a + b;
    }
  }

  /** Removing a subscriber just added, who was not subscribed before, restores the list. */
  lemma RemoveAfterAdd<T>(s: seq<T>, x: T)
    requires x !in s
    ensures RemoveFirst(s + [x], x) == Some(s)
  {
    RemoveFirstSplits(s, x, []);
    assert s + [x] + [] == s + [x];
    assert s + [] == s;
  }
}
