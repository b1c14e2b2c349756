/** Python's order on strings (by code point) and its stable sort by a string key. */
module Order {

  predicate StrLe(a: string, b: string) {
    if a == "" then true
    else if b == "" then false
    else if a[0] == b[0] then StrLe(a[1..], b[1..])
    else a[0] < b[0]
  }

  /** A string is at most another when it is a prefix of it, or smaller at the first place where they differ. */
  lemma {:induction false} StrLeMeans(a: string, b: string)
    ensures StrLe(a, b) <==>
            a <= b || exists i :: 0 <= i < |a| && i < |b| && a[..i] == b[..i] && a[i] < b[i]
  {
    if a != "" && b != "" && a[0] == b[0] {
      StrLeMeans(a[1..], b[1..]);
      assert a == [a[0]] + a[1..] && b == [b[0]] + b[1..];
      if i :| 0 <= i < |a[1..]| && i < |b[1..]| && a[1..][..i] == b[1..][..i] && a[1..][i] < b[1..][i] {
        assert a[..i + 1] == [a[0]] + a[1..][..i] && b[..i + 1] == [b[0]] + b[1..][..i] && a[i + 1] < b[i + 1];
      }
      if i :| 0 <= i < |a| && i < |b| && a[..i] == b[..i] && a[i] < b[i] {
        assert a[1..][..i - 1] == a[..i][1..] && b[1..][..i - 1] == b[..i][1..] && a[1..][i - 1] < b[1..][i - 1];
      }
    } else if a != "" && b != "" && a[0] < b[0] {
      assert a[..0] == b[..0];
    }
  }

  lemma StrLeTotal(a: string, b: string)
    ensures StrLe(a, b) || StrLe(b, a)
  {
  }

  lemma StrLeAntisymmetric(a: string, b: string)
    requires StrLe(a, b) && StrLe(b, a)
    ensures a == b
  {
    if a != "" {
      StrLeAntisymmetric(a[1..], b[1..]);
      assert a == [a[0]] + a[1..] && b == [b[0]] + b[1..];
    }
  }

  lemma StrLeTransitive(a: string, b: string, c: string)
    requires StrLe(a, b) && StrLe(b, c)
    ensures StrLe(a, c)
  {
  }

  function Insert<T>(x: T, s: seq<T>, key: T -> string): seq<T> {
    if s == [] then [x]
    else if StrLe(key(x), key(s[0])) then [x] + s
    else [s[0]] + Insert(x, s[1..], key)
  }

  function SortBy<T>(s: seq<T>, key: T -> string): seq<T> {
    if s == [] then [] else Insert(s[0], SortBy(s[1..], key), key)
  }

  /** Every element is at most each later one. */
  ghost predicate Sorted<T>(s: seq<T>, key: T -> string) {
    s == [] || ((forall y :: y in s[1..] ==> StrLe(key(s[0]), key(y))) && Sorted(s[1..], key))
  }

  /** Elements with equal keys are equal. */
  ghost predicate KeyedApart<T(!new)>(s: seq<T>, key: T -> string) {
    forall x, y :: x in s && y in s && key(x) == key(y) ==> x == y
  }

  lemma Uncons<T>(s: seq<T>)
    requires s != []
    ensures s == [s[0]] + s[1..]
    ensures multiset(s[1..]) == multiset(s) - multiset{s[0]}
    ensures forall y :: y in s <==> y == s[0] || y in s[1..]
  {
    assert s == [s[0]] + s[1..];
  }

  lemma {:induction false} InsertPermutes<T>(x: T, s: seq<T>, key: T -> string)
    ensures multiset(Insert(x, s, key)) == multiset(s) + multiset{x}
    ensures forall y :: y in Insert(x, s, key) <==> y == x || y in s
  {
    hide StrLe;
    if s != [] {
      Uncons(s);
      InsertPermutes(x, s[1..], key);
    }
    forall y ensures y in Insert(x, s, key) <==> y == x || y in s {
      assert y in Insert(x, s, key) <==> y in multiset(Insert(x, s, key));
    }
  }

  lemma {:induction false} InsertSorts<T>(x: T, s: seq<T>, key: T -> string)
    requires Sorted(s, key)
    ensures Sorted(Insert(x, s, key), key)
  {
    hide StrLe;
    var r := Insert(x, s, key);
    if s == [] {
    } else if StrLe(key(x), key(s[0])) {
      assert r[1..] == s;
      Uncons(s);
      forall y | y in s ensures StrLe(key(x), key(y)) {
        if y in s[1..] {
          StrLeTransitive(key(x), key(s[0]), key(y));
        }
      }
    } else {
      var t := Insert(x, s[1..], key);
      InsertSorts(x, s[1..], key);
      InsertPermutes(x, s[1..], key);
      StrLeTotal(key(x), key(s[0]));
      forall y | y in t ensures StrLe(key(s[0]), key(y)) {
        assert y in multiset(t);
        assert y in multiset(s[1..]) + multiset{x};
        assert y == x || y in s[1..];
      }
      ConsSorted(s[0], t, key);
    }
  }

  lemma ConsSorted<T>(x: T, t: seq<T>, key: T -> string)
    requires Sorted(t, key) && forall y :: y in t ==> StrLe(key(x), key(y))
    ensures Sorted([x] + t, key)
  {
    assert ([x] + t)[1..] == t;
  }

  /** The sort is a permutation in key order. */
  lemma {:induction false} SortByPermutes<T>(s: seq<T>, key: T -> string)
    ensures multiset(SortBy(s, key)) == multiset(s)
    ensures Sorted(SortBy(s, key), key)
    ensures |SortBy(s, key)| == |s|
    ensures forall x :: x in SortBy(s, key) <==> x in s
  {
    hide StrLe, Insert, Sorted;
    if s == [] {
      EmptySorted(s, key);
    } else {
      SortByPermutes(s[1..], key);
      InsertPermutes(s[0], SortBy(s[1..], key), key);
      InsertSorts(s[0], SortBy(s[1..], key), key);
      Uncons(s);
    }
    assert |multiset(SortBy(s, key))| == |multiset(s)|;
    forall x ensures x in SortBy(s, key) <==> x in s {
      assert x in SortBy(s, key) <==> x in multiset(SortBy(s, key));
    }
  }

  lemma EmptySorted<T>(s: seq<T>, key: T -> string)
    requires s == []
    ensures Sorted(s, key)
  {
  }

  lemma SortedHeads<T(!new)>(a: seq<T>, b: seq<T>, key: T -> string)
    requires Sorted(a, key) && Sorted(b, key) && KeyedApart(a, key)
    requires multiset(a) == multiset(b) && a != [] && b != []
    ensures a[0] == b[0]
  {
    hide StrLe;
    assert a[0] in multiset(b) && b[0] in multiset(a);
    Uncons(a);
    Uncons(b);
    if a[0] in b[1..] && b[0] in a[1..] {
      StrLeAntisymmetric(key(a[0]), key(b[0]));
    }
  }

  lemma {:induction false} SortedIsUnique<T(!new)>(a: seq<T>, b: seq<T>, key: T -> string)
    requires Sorted(a, key) && Sorted(b, key) && KeyedApart(a, key)
    requires multiset(a) == multiset(b)
    ensures a == b
    decreases |a|
  {
    hide StrLe;
    assert |a| == |multiset(a)| == |multiset(b)| == |b|;
    if a != [] {
      SortedHeads(a, b, key);
      Uncons(a);
      Uncons(b);
      SortedIsUnique(a[1..], b[1..], key);
    }
  }

  /** Sorting forgets the order of its input. */
  lemma SortForgetsOrder<T(!new)>(a: seq<T>, b: seq<T>, key: T -> string)
    requires multiset(a) == multiset(b) && KeyedApart(a, key)
    ensures SortBy(a, key) == SortBy(b, key)
  {
    SortByPermutes(a, key);
    SortByPermutes(b, key);
    SortedIsUnique(SortBy(a, key), SortBy(b, key), key);
  }
}
