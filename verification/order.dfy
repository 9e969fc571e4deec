/** Python's stable `sorted`/`list.sort` in the two forms the engine uses:
    a boolean key, which moves the items whose key is true behind the others,
    and a name key, which orders by code points. */
module Order {
  import opened Text

  /** The items whose key is `b`, in their original order. */
  function Where<T>(xs: seq<T>, key: T -> bool, b: bool): (r: seq<T>)
    ensures |r| <= |xs|
    ensures forall i :: 0 <= i < |r| ==> key(r[i]) == b
  {
    if |xs| == 0 then []
    else (if key(xs[0]) == b then [xs[0]] else []) + Where(xs[1..], key, b)
  }

  /** `sorted(xs, key=key)` for a boolean key: False sorts before True and
      the sort is stable. */
  function FalseFirst<T>(xs: seq<T>, key: T -> bool): (r: seq<T>)
  {
    Where(xs, key, false) + Where(xs, key, true)
  }

  lemma {:induction false} WhereSplits<T>(xs: seq<T>, key: T -> bool)
    ensures multiset(Where(xs, key, false)) + multiset(Where(xs, key, true)) == multiset(xs)
  {
    if |xs| > 0 {
      WhereSplits(xs[1..], key);
      assert xs == [xs[0]] + xs[1..];
    }
  }

  lemma {:induction false} WhereAll<T>(xs: seq<T>, key: T -> bool, b: bool)
    requires forall i :: 0 <= i < |xs| ==> key(xs[i]) == b
    ensures Where(xs, key, b) == xs
    ensures Where(xs, key, !b) == []
  {
    if |xs| > 0 {
      WhereAll(xs[1..], key, b);
      assert xs == [xs[0]] + xs[1..];
    }
  }

  lemma {:induction false} WhereConcat<T>(a: seq<T>, c: seq<T>, key: T -> bool, b: bool)
    ensures Where(a + c, key, b) == Where(a, key, b) + Where(c, key, b)
  {
    if |a| == 0 {
      assert a + c == c;
    } else {
      assert (a + c)[1..] == a[1..] + c;
      WhereConcat(a[1..], c, key, b);
    }
  }

  /** An item is kept exactly when it has the key asked for. */
  lemma {:induction false} WhereMember<T>(xs: seq<T>, key: T -> bool, b: bool, x: T)
    ensures x in Where(xs, key, b) <==> x in xs && key(x) == b
  {
    if |xs| > 0 {
      WhereMember(xs[1..], key, b, x);
      assert xs == [xs[0]] + xs[1..];
    }
  }

  /** The sort is a permutation. */
  lemma FalseFirstPermutes<T>(xs: seq<T>, key: T -> bool)
    ensures multiset(FalseFirst(xs, key)) == multiset(xs)
  {
    WhereSplits(xs, key);
  }

  /** Every item with a false key comes before every item with a true key. */
  lemma FalseFirstOrders<T>(xs: seq<T>, key: T -> bool)
    ensures forall i, j :: 0 <= i < j < |FalseFirst(xs, key)| && key(FalseFirst(xs, key)[i]) ==>
      key(FalseFirst(xs, key)[j])
  {
    var f := Where(xs, key, false);
    var r := FalseFirst(xs, key);
    forall i, j | 0 <= i < j < |r| && key(r[i]) ensures key(r[j]) {
      assert r[j] == Where(xs, key, true)[j - |f|];
    }
  }

  /** Stability: each group keeps the order the items had. */
  lemma FalseFirstStable<T>(xs: seq<T>, key: T -> bool, b: bool)
    ensures Where(FalseFirst(xs, key), key, b) == Where(xs, key, b)
  {
    WhereConcat(Where(xs, key, false), Where(xs, key, true), key, b);
    WhereAll(Where(xs, key, false), key, false);
    WhereAll(Where(xs, key, true), key, true);
    if b {
      assert Where(xs, key, false) == [] + Where(xs, key, false);
    } else {
      assert Where(xs, key, false) + [] == Where(xs, key, false);
    }
  }

  /** With no true key, the sort changes nothing. */
  lemma FalseFirstIdentity<T>(xs: seq<T>, key: T -> bool)
    requires forall i :: 0 <= i < |xs| ==> !key(xs[i])
    ensures FalseFirst(xs, key) == xs
  {
    WhereAll(xs, key, false);
  }

  // ---- sorting by name ----

  predicate SortedBy<T>(xs: seq<T>, name: T -> string)
  {
    forall i, j :: 0 <= i < j < |xs| ==> !Less(name(xs[j]), name(xs[i]))
  }

  /** Keeping some of the items of a sorted sequence keeps it sorted. */
  lemma {:induction false} WhereSorted<T>(xs: seq<T>, key: T -> bool, b: bool, name: T -> string)
    requires SortedBy(xs, name)
    ensures SortedBy(Where(xs, key, b), name)
  {
    if |xs| > 0 {
      var rest := Where(xs[1..], key, b);
      assert SortedBy(xs[1..], name) by {
        forall i, j | 0 <= i < j < |xs[1..]| ensures !Less(name(xs[1..][j]), name(xs[1..][i])) {
          assert xs[1..][j] == xs[j + 1] && xs[1..][i] == xs[i + 1];
        }
      }
      WhereSorted(xs[1..], key, b, name);
      if key(xs[0]) == b {
        var r := [xs[0]] + rest;
        forall i, j | 0 <= i < j < |r| ensures !Less(name(r[j]), name(r[i])) {
          if i == 0 {
            assert r[j] == rest[j - 1];
            WhereMember(xs[1..], key, b, r[j]);
            var k :| 0 <= k < |xs[1..]| && xs[1..][k] == r[j];
            assert xs[k + 1] == r[j];
          } else {
            assert r[i] == rest[i - 1] && r[j] == rest[j - 1];
          }
        }
      }
    }
  }

  /** Insert `x` before the first item whose name sorts after it. */
  function Insert<T>(x: T, xs: seq<T>, name: T -> string): (r: seq<T>)
    requires SortedBy(xs, name)
    ensures multiset(r) == multiset(xs) + multiset{x}
    ensures SortedBy(r, name)
    decreases |xs|
  {
    if |xs| == 0 then [x]
    else if Less(name(x), name(xs[0])) then
      NotLessAll(x, xs, name);
      [x] + xs
    else
      var t := Insert(x, xs[1..], name);
      assert xs == [xs[0]] + xs[1..];
      InsertedAfter(x, xs, t, name);
      [xs[0]] + t
  }

  lemma NotLessAll<T>(x: T, xs: seq<T>, name: T -> string)
    requires SortedBy(xs, name) && |xs| > 0 && Less(name(x), name(xs[0]))
    ensures SortedBy([x] + xs, name)
  {
    var r := [x] + xs;
    forall i, j | 0 <= i < j < |r| ensures !Less(name(r[j]), name(r[i])) {
      if i == 0 {
        assert r[j] == xs[j - 1];
        if j > 1 {
          assert !Less(name(xs[j - 1]), name(xs[0]));
          LessTotal(name(xs[j - 1]), name(xs[0]));
          if name(xs[j - 1]) != name(xs[0]) {
            LessTransitive(name(x), name(xs[0]), name(xs[j - 1]));
          }
        }
        if Less(name(r[j]), name(x)) {
          LessTransitive(name(x), name(r[j]), name(x));
          LessIrreflexive(name(x));
        }
      }
    }
  }

  lemma InsertedAfter<T>(x: T, xs: seq<T>, t: seq<T>, name: T -> string)
    requires SortedBy(xs, name) && |xs| > 0 && !Less(name(x), name(xs[0]))
    requires SortedBy(t, name) && multiset(t) == multiset(xs[1..]) + multiset{x}
    ensures SortedBy([xs[0]] + t, name)
  {
    var r := [xs[0]] + t;
    forall j | 0 < j < |r| ensures !Less(name(r[j]), name(xs[0])) {
      assert r[j] == t[j - 1];
      assert r[j] in multiset(t);
      if r[j] != x {
        assert r[j] in multiset(xs[1..]);
        var k :| 0 <= k < |xs[1..]| && xs[1..][k] == r[j];
        assert xs[k + 1] == r[j];
      }
    }
  }

  /** `list.sort(key=name)`: a permutation, ordered by name. */
  function SortByName<T>(xs: seq<T>, name: T -> string): (r: seq<T>)
    ensures multiset(r) == multiset(xs)
    ensures SortedBy(r, name)
  {
    if |xs| == 0 then []
    else
      assert xs == xs[..|xs| - 1] + [xs[|xs| - 1]];
      Insert(xs[|xs| - 1], SortByName(xs[..|xs| - 1], name), name)
  }
}
