/** The reference-counted object pool of util/bookkeeping.py. Every `Pool` instance reads and
    writes one class-level dictionary from tag to (object, count); here that dictionary is an
    `ObjectTable` and each `Pool` holds a reference to the one table it shares. */
module Bookkeeping {
  import opened Outcomes

  /** A pooled object with the number of outstanding checkouts. */
  datatype Entry<T> = Entry(obj: T, count: int)

  /** No entry is stored with a count below one. */
  predicate Counted<K, T>(m: map<K, Entry<T>>) {
    forall k :: k in m ==> m[k].count >= 1
  }

  /** The table after `get(tag, ...)`, where `made` is what the constructor returns on a miss. */
  function Checkout<K, T>(m: map<K, Entry<T>>, tag: K, made: T): (r: map<K, Entry<T>>)
    ensures tag in r && r.Keys == m.Keys + {tag}
    ensures forall k :: k in m && k != tag ==> r[k] == m[k]
  {
    if tag in m then m[tag := Entry(m[tag].obj, m[tag].count + 1)] else m[tag := Entry(made, 1)]
  }

  /** The table after `put(tag)`. */
  function Release<K, T>(m: map<K, Entry<T>>, tag: K): (r: map<K, Entry<T>>)
    ensures r.Keys <= m.Keys && m.Keys - r.Keys <= {tag}
    ensures forall k :: k in m && k != tag ==> k in r && r[k] == m[k]
  {
    if tag !in m then m
    else if m[tag].count > 1 then m[tag := Entry(m[tag].obj, m[tag].count - 1)]
    else if m[tag].count == 1 then m - {tag}
    else m
  }

  /** What `put(tag)` returns: None for an absent tag, otherwise the count before the call. */
  function Released<K, T>(m: map<K, Entry<T>>, tag: K): (r: Option<int>)
    ensures r.Some? <==> tag in m
  {
    if tag in m then Some(m[tag].count) else None
  }

  // ---------------------------------------------------------------------------
  // Properties of the table operations
  // ---------------------------------------------------------------------------

  /** A checkout stores the constructed object with count one on a miss, and on a hit keeps
      the object and adds one to its count. */
  lemma CheckoutEntry<K, T>(m: map<K, Entry<T>>, tag: K, made: T)
    ensures tag !in m ==> Checkout(m, tag, made)[tag] == Entry(made, 1)
    ensures tag in m ==> Checkout(m, tag, made)[tag] == Entry(m[tag].obj, m[tag].count + 1)
  {
  }

  /** A release of a count above one keeps the object with one less; a release of the last
      checkout deletes the entry; a release of an absent tag changes nothing. */
  lemma ReleaseEntry<K, T>(m: map<K, Entry<T>>, tag: K)
    ensures tag !in m ==> Release(m, tag) == m
    ensures tag in m && m[tag].count > 1 ==>
      tag in Release(m, tag) && Release(m, tag)[tag] == Entry(m[tag].obj, m[tag].count - 1)
    ensures tag in m && m[tag].count == 1 ==> tag !in Release(m, tag)
  {
  }

  /** Both operations keep every stored count at one or more. */
  lemma CountedPreserved<K, T>(m: map<K, Entry<T>>, tag: K, made: T)
    requires Counted(m)
    ensures Counted(Checkout(m, tag, made))
    ensures Counted(Release(m, tag))
  {
  }

  /** A release right after a checkout restores the table. */
  lemma ReleaseUndoesCheckout<K, T>(m: map<K, Entry<T>>, tag: K, made: T)
    requires Counted(m)
    ensures Release(Checkout(m, tag, made), tag) == m
    ensures Released(Checkout(m, tag, made), tag) == Some(if tag in m then m[tag].count + 1 else 1)
  {
    if tag in m {
      assert Release(Checkout(m, tag, made), tag) == m[tag := Entry(m[tag].obj, m[tag].count)];
      assert m[tag := Entry(m[tag].obj, m[tag].count)] == m;
    } else {
      assert Checkout(m, tag, made) - {tag} == m;
    }
  }

  /** The table after n checkouts of one tag. */
  function Checkouts<K, T>(m: map<K, Entry<T>>, tag: K, made: T, n: nat): map<K, Entry<T>> {
    if n == 0 then m else Checkout(Checkouts(m, tag, made, n - 1), tag, made)
  }

  /** The table after n releases of one tag. */
  function Releases<K, T>(m: map<K, Entry<T>>, tag: K, n: nat): map<K, Entry<T>> {
    if n == 0 then m else Releases(Release(m, tag), tag, n - 1)
  }

  /** What n successive releases of one tag return, in order. */
  function ReleaseReturns<K, T>(m: map<K, Entry<T>>, tag: K, n: nat): seq<Option<int>> {
    if n == 0 then [] else [Released(m, tag)] + ReleaseReturns(Release(m, tag), tag, n - 1)
  }

  /** The returns n, n-1, ..., 1. */
  function CountDown(n: nat): (r: seq<Option<int>>)
    ensures |r| == n
    ensures forall i :: 0 <= i < n ==> r[i] == Some(n - i)
  {
    if n == 0 then [] else [Some(n)] + CountDown(n - 1)
  }

  /** n checkouts of an absent tag construct once and leave (made, n) stored; the other tags
      are untouched. */
  lemma {:induction false} CheckoutsOfAbsent<K, T>(m: map<K, Entry<T>>, tag: K, made: T, n: nat)
    requires tag !in m && n >= 1
    ensures Checkouts(m, tag, made, n) == m[tag := Entry(made, n)]
  {
    if n > 1 {
      CheckoutsOfAbsent(m, tag, made, n - 1);
    }
  }

  /** From an entry with count n, n releases return n, n-1, ..., 1 and leave the tag absent
      with everything else as it was. */
  lemma {:induction false} ReleasesToAbsent<K, T>(m: map<K, Entry<T>>, tag: K, made: T, n: nat)
    requires tag !in m && n >= 1
    ensures Releases(m[tag := Entry(made, n)], tag, n) == m
    ensures ReleaseReturns(m[tag := Entry(made, n)], tag, n) == CountDown(n)
  {
    var t := m[tag := Entry(made, n)];
    if n == 1 {
      assert Release(t, tag) == m;
      assert ReleaseReturns(t, tag, 1) == [Some(1)] == CountDown(1);
    } else {
      assert Release(t, tag) == m[tag := Entry(made, n - 1)];
      ReleasesToAbsent(m, tag, made, n - 1);
      var rest := ReleaseReturns(m[tag := Entry(made, n - 1)], tag, n - 1);
      assert ReleaseReturns(t, tag, n) == [Some(n)] + rest;
    }
  }

  /** n checkouts followed by n releases of a tag that was absent leave it absent again, and
      only the last release sees count one. */
  lemma BalancedUse<K, T>(m: map<K, Entry<T>>, tag: K, made: T, n: nat)
    requires tag !in m && n >= 1
    ensures Releases(Checkouts(m, tag, made, n), tag, n) == m
    ensures ReleaseReturns(Checkouts(m, tag, made, n), tag, n) == CountDown(n)
  {
    CheckoutsOfAbsent(m, tag, made, n);
    ReleasesToAbsent(m, tag, made, n);
  }

  // ---------------------------------------------------------------------------
  // The shared table and the Pool over it
  // ---------------------------------------------------------------------------

  /** The class-level dictionary `Pool.__objects`. */
  class ObjectTable<K(==), T> {
    var objects: map<K, Entry<T>>

    ghost predicate Valid()
      reads this
    {
      Counted(objects)
    }

    constructor ()
      ensures objects == map[] && Valid()
    {
      objects := map[];
    }
  }

  /** A `Pool` instance; constructing one does nothing to the shared table. */
  class Pool<K(==), T> {
    const table: ObjectTable<K, T>

    constructor (shared: ObjectTable<K, T>)
      ensures table == shared
    {
      table := shared;
    }

    /** `get(tag, constructor)` with the constructor parameter spelled as it is called.
        `made` is the outcome of calling the constructor, which happens only on a miss; a
        constructor that raises leaves the table as it was. */
    method Get(tag: K, made: Result<T>) returns (r: Result<Entry<T>>)
      requires table.Valid()
      modifies table
      ensures table.Valid()
      ensures (r, table.objects) == Got(old(table.objects), tag, made)
    {
      if tag !in table.objects {
        if made.Raise? {
          return Raise(made.exc);
        }
        table.objects := table.objects[tag := Entry(made.value, 1)];
      } else {
        var have := table.objects[tag];
        table.objects := table.objects[tag := Entry(have.obj, have.count + 1)];
      }
      r := Ok(table.objects[tag]);
    }

    /** `get` as written: the parameter is named `contructor` but the body calls
        `constructor`, so a miss raises NameError before anything is stored. */
    method GetAsWritten(tag: K, made: Result<T>) returns (r: Result<Entry<T>>)
      requires table.Valid()
      modifies table
      ensures table.Valid()
      ensures (r, table.objects) == GotAsWritten(old(table.objects), tag, made)
    {
      if tag !in table.objects {
        return Raise(NameError);
      }
      var have := table.objects[tag];
      table.objects := table.objects[tag := Entry(have.obj, have.count + 1)];
      r := Ok(table.objects[tag]);
    }

    /** `put(tag)`: releases one checkout and returns the count it found. */
    method Put(tag: K) returns (r: Option<int>)
      requires table.Valid()
      modifies table
      ensures table.Valid()
      ensures table.objects == Release(old(table.objects), tag)
      ensures r == Released(old(table.objects), tag)
    {
      if tag !in table.objects {
        return None;
      }
      var have := table.objects[tag];
      if have.count > 1 {
        table.objects := table.objects[tag := Entry(have.obj, have.count - 1)];
      } else if have.count == 1 {
        table.objects := table.objects - {tag};
      }
      r := Some(have.count);
    }
  }

  /** The outcome of the intended `get`: what it returns and the table it leaves. */
  function Got<K, T>(m: map<K, Entry<T>>, tag: K, made: Result<T>): (Result<Entry<T>>, map<K, Entry<T>>) {
    if tag in m then (Ok(Entry(m[tag].obj, m[tag].count + 1)), Checkout(m, tag, m[tag].obj))
    else if made.Raise? then (Raise(made.exc), m)
    else (Ok(Entry(made.value, 1)), Checkout(m, tag, made.value))
  }

  /** The outcome of `get` as written. */
  function GotAsWritten<K, T>(m: map<K, Entry<T>>, tag: K, made: Result<T>): (Result<Entry<T>>, map<K, Entry<T>>) {
    if tag in m then (Ok(Entry(m[tag].obj, m[tag].count + 1)), Checkout(m, tag, m[tag].obj))
    else (Raise(NameError), m)
  }

  /** The two agree on every hit; on a miss with a working constructor the written `get`
      raises NameError and stores nothing where the intended one stores (made, 1). */
  lemma GetTypo<K, T>(m: map<K, Entry<T>>, tag: K, made: Result<T>)
    ensures tag in m ==> GotAsWritten(m, tag, made) == Got(m, tag, made)
    ensures tag !in m && made.Ok? ==>
      GotAsWritten(m, tag, made) == (Raise(NameError), m) &&
      Got(m, tag, made).0 == Ok(Entry(made.value, 1)) && tag in Got(m, tag, made).1
  {
  }
}
