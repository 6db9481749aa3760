/**
 * Python's `sorted(xs, key=...)` and `list.sort(key=...)`: a stable sort by a
 * key. Keys are tuples of numbers and strings, compared lexicographically as
 * Python compares tuples; the order is proved to be a strict total order once,
 * so that every sort in the model is sorted and a permutation of its input.
 */
module Sorting {
  import opened Text

  /** One component of a sort key: a number or a string. */
  datatype Atom = Num(r: real) | Str(s: string)

  type Key = seq<Atom>

  predicate AtomLt(a: Atom, b: Atom) {
    match a
    case Num(x) => (match b case Num(y) => x < y case Str(_) => true)
    case Str(x) => (match b case Num(_) => false case Str(y) => StrLt(x, y))
  }

  /** Python's `<` on tuples: lexicographic, a proper prefix first. */
  predicate KeyLt(a: Key, b: Key)
    decreases |a|
  {
    if |a| == 0 then |b| > 0
    else if |b| == 0 then false
    else if a[0] != b[0] then AtomLt(a[0], b[0])
    else KeyLt(a[1..], b[1..])
  }

  lemma AtomLtIrreflexive(a: Atom)
    ensures !AtomLt(a, a)
  {
    if a.Str? { StrLtIrreflexive(a.s); }
  }

  lemma AtomLtTransitive(a: Atom, b: Atom, c: Atom)
    requires AtomLt(a, b) && AtomLt(b, c)
    ensures AtomLt(a, c)
  {
    if a.Str? && b.Str? && c.Str? { StrLtTransitive(a.s, b.s, c.s); }
  }

  lemma AtomLtTotal(a: Atom, b: Atom)
    requires a != b
    ensures AtomLt(a, b) || AtomLt(b, a)
  {
    if a.Str? && b.Str? { StrLtTotal(a.s, b.s); }
  }

  lemma {:induction false} KeyLtIrreflexive(a: Key)
    ensures !KeyLt(a, a)
    decreases |a|
  {
    if |a| > 0 { KeyLtIrreflexive(a[1..]); }
  }

  lemma {:induction false} KeyLtTransitive(a: Key, b: Key, c: Key)
    requires KeyLt(a, b) && KeyLt(b, c)
    ensures KeyLt(a, c)
    decreases |a|
  {
    if |a| > 0 && |b| > 0 && |c| > 0 {
      if a[0] == b[0] && b[0] == c[0] {
        KeyLtTransitive(a[1..], b[1..], c[1..]);
      } else if a[0] != b[0] && b[0] != c[0] {
        AtomLtTransitive(a[0], b[0], c[0]);
        if a[0] == c[0] { AtomLtIrreflexive(a[0]); }
      }
    }
  }

  lemma {:induction false} KeyLtTotal(a: Key, b: Key)
    requires a != b
    ensures KeyLt(a, b) || KeyLt(b, a)
    decreases |a|
  {
    if |a| > 0 && |b| > 0 {
      if a[0] == b[0] {
        assert a == [a[0]] + a[1..] && b == [b[0]] + b[1..];
        KeyLtTotal(a[1..], b[1..]);
      } else {
        AtomLtTotal(a[0], b[0]);
      }
    }
  }

  /** `!(key(y) < key(x))`: x may stand before y in a sorted list. */
  predicate KeyLe(a: Key, b: Key) {
    !KeyLt(b, a)
  }

  lemma KeyLeTransitive(a: Key, b: Key, c: Key)
    requires KeyLe(a, b) && KeyLe(b, c)
    ensures KeyLe(a, c)
  {
    if KeyLt(c, a) {
      if a == b { } else if b == c { } else {
        KeyLtTotal(a, b);
        if KeyLt(a, b) { KeyLtTransitive(c, a, b); } else { }
      }
    }
  }

  lemma KeyLtAsymmetric(a: Key, b: Key)
    requires KeyLt(a, b)
    ensures !KeyLt(b, a)
  {
    if KeyLt(b, a) { KeyLtTransitive(a, b, a); KeyLtIrreflexive(a); }
  }

  ghost predicate SortedBy<T>(s: seq<T>, key: T -> Key) {
    forall i, j :: 0 <= i < j < |s| ==> KeyLe(key(s[i]), key(s[j]))
  }

  /**
   * Insert x before the first element whose key is not smaller, so before its
   * equals; `SortBy` inserts from the back, so equal keys keep their order.
   */
  function Insert<T>(x: T, ys: seq<T>, key: T -> Key): (r: seq<T>)
    ensures multiset(r) == multiset(ys) + multiset{x}
    ensures |r| == |ys| + 1
  {
    if ys == [] || !KeyLt(key(ys[0]), key(x)) then [x] + ys
    else
      assert ys == [ys[0]] + ys[1..];
      [ys[0]] + Insert(x, ys[1..], key)
  }

  /** Python's stable `sorted(s, key=key)`. */
  function SortBy<T>(s: seq<T>, key: T -> Key): (r: seq<T>)
    ensures multiset(r) == multiset(s)
    ensures |r| == |s|
  {
    if s == [] then []
    else
      assert s == [s[0]] + s[1..];
      Insert(s[0], SortBy(s[1..], key), key)
  }

  lemma {:induction false} InsertSorted<T>(x: T, ys: seq<T>, key: T -> Key)
    requires SortedBy(ys, key)
    ensures SortedBy(Insert(x, ys, key), key)
    decreases |ys|
  {
    var r := Insert(x, ys, key);
    if ys == [] {
    } else if !KeyLt(key(ys[0]), key(x)) {
      forall i, j | 0 <= i < j < |r| ensures KeyLe(key(r[i]), key(r[j])) {
        if i == 0 && j > 1 { KeyLeTransitive(key(x), key(ys[0]), key(ys[j - 1])); }
      }
    } else {
      var tail := Insert(x, ys[1..], key);
      InsertSorted(x, ys[1..], key);
      KeyLtAsymmetric(key(ys[0]), key(x));
      assert r == [ys[0]] + tail;
      forall j | 0 <= j < |tail| ensures KeyLe(key(ys[0]), key(tail[j])) {
        assert tail[j] in multiset(tail);
        assert tail[j] == x || tail[j] in multiset(ys[1..]);
        if tail[j] != x {
          var k :| 0 <= k < |ys[1..]| && ys[1..][k] == tail[j];
          assert ys[k + 1] == tail[j];
        }
      }
    }
  }

  lemma {:induction false} SortBySorted<T>(s: seq<T>, key: T -> Key)
    ensures SortedBy(SortBy(s, key), key)
    decreases |s|
  {
    if s != [] {
      SortBySorted(s[1..], key);
      InsertSorted(s[0], SortBy(s[1..], key), key);
    }
  }

  /** A prefix of a sorted sequence is sorted, part of it, and ranks no lower than what follows it. */
  lemma SortedPrefix<T>(s: seq<T>, n: nat, key: T -> Key)
    requires SortedBy(s, key) && n <= |s|
    ensures SortedBy(s[..n], key)
    ensures multiset(s[..n]) <= multiset(s)
    ensures forall i, j :: 0 <= i < n <= j < |s| ==> KeyLe(key(s[..n][i]), key(s[j]))
  {
    assert s == s[..n] + s[n..];
    assert multiset(s) == multiset(s[..n]) + multiset(s[n..]);
  }

  lemma SortedTailBy<T>(s: seq<T>, key: T -> Key)
    requires SortedBy(s, key) && s != []
    ensures SortedBy(s[1..], key)
  {
    forall i, j | 0 <= i < j < |s[1..]| ensures KeyLe(key(s[1..][i]), key(s[1..][j])) {
      assert s[1..][i] == s[i + 1] && s[1..][j] == s[j + 1];
    }
  }

  /** The head of a sorted list ranks no higher than any of its elements. */
  lemma HeadIsLeastBy<T>(s: seq<T>, x: T, key: T -> Key)
    requires SortedBy(s, key) && x in multiset(s)
    ensures s != [] && KeyLe(key(s[0]), key(x))
  {
    var k :| 0 <= k < |s| && s[k] == x;
    if k == 0 {
      KeyLtIrreflexive(key(x));
    }
  }

  /**
   * With a key that tells all values apart, two sorted lists holding the same
   * values are equal: the sorted order does not depend on the input order.
   */
  lemma {:induction false} SortedUniqueBy<T>(a: seq<T>, b: seq<T>, key: T -> Key)
    requires SortedBy(a, key) && SortedBy(b, key) && multiset(a) == multiset(b)
    requires forall x, y :: key(x) == key(y) ==> x == y
    ensures a == b
    decreases |a|
  {
    assert |a| == |multiset(a)| == |multiset(b)| == |b|;
    if a != [] {
      SortedHeadsEqual(a, b, key);
      TailPermutation(a, b);
      SortedTailBy(a, key);
      SortedTailBy(b, key);
      SortedUniqueBy(a[1..], b[1..], key);
    }
  }

  lemma SortedHeadsEqual<T>(a: seq<T>, b: seq<T>, key: T -> Key)
    requires SortedBy(a, key) && SortedBy(b, key) && multiset(a) == multiset(b) && a != [] && b != []
    requires forall x, y :: key(x) == key(y) ==> x == y
    ensures a[0] == b[0]
  {
    assert a[0] in multiset(b) && b[0] in multiset(a);
    HeadIsLeastBy(a, b[0], key);
    HeadIsLeastBy(b, a[0], key);
    if key(a[0]) != key(b[0]) {
      KeyLtTotal(key(a[0]), key(b[0]));
    }
  }

  /** Equal heads leave tails that are rearrangements of each other. */
  lemma TailPermutation<T>(a: seq<T>, b: seq<T>)
    requires multiset(a) == multiset(b) && a != [] && b != [] && a[0] == b[0]
    ensures multiset(a[1..]) == multiset(b[1..])
  {
    assert a == [a[0]] + a[1..] && b == [b[0]] + b[1..];
    assert multiset(a[1..]) == multiset(a) - multiset{a[0]};
    assert multiset(b[1..]) == multiset(b) - multiset{b[0]};
  }

  /** `[f(x) for x in s]`. */
  function MapSeq<T, U>(s: seq<T>, f: T -> U): (r: seq<U>)
    ensures |r| == |s| && forall i :: 0 <= i < |s| ==> r[i] == f(s[i])
  {
    seq(|s|, i requires 0 <= i < |s| => f(s[i]))
  }

  lemma MapAppend<T, U>(u: seq<T>, v: seq<T>, f: T -> U)
    ensures MapSeq(u + v, f) == MapSeq(u, f) + MapSeq(v, f)
  {
    assert forall i :: 0 <= i < |u + v| ==> MapSeq(u + v, f)[i] == (MapSeq(u, f) + MapSeq(v, f))[i];
  }

  /** Mapping a rearranged list gives a rearranged list. */
  lemma {:induction false} MapPermutation<T, U>(a: seq<T>, b: seq<T>, f: T -> U)
    requires multiset(a) == multiset(b)
    ensures multiset(MapSeq(a, f)) == multiset(MapSeq(b, f))
    decreases |a|
  {
    assert |a| == |multiset(a)| == |multiset(b)| == |b|;
    if a != [] {
      var n := |a| - 1;
      assert a[n] in multiset(b);
      var k :| 0 <= k < |b| && b[k] == a[n];
      PermutationRemove(a, b, k);
      MapPermutation(a[..n], b[..k] + b[k + 1..], f);
      MapPermutationStep(a, b, k, f);
    }
  }

  /** Taking the last value of `a` out of `b` leaves a rearrangement of the rest of `a`. */
  lemma PermutationRemove<T>(a: seq<T>, b: seq<T>, k: nat)
    requires multiset(a) == multiset(b) && a != [] && k < |b| && b[k] == a[|a| - 1]
    ensures multiset(a[..|a| - 1]) == multiset(b[..k] + b[k + 1..])
  {
    var n, x := |a| - 1, a[|a| - 1];
    assert a == a[..n] + [x];
    assert b == b[..k] + [x] + b[k + 1..];
    assert multiset(a[..n]) == multiset(a) - multiset{x};
    assert multiset(b[..k] + b[k + 1..]) == multiset(b) - multiset{x};
  }

  lemma MapPermutationStep<T, U>(a: seq<T>, b: seq<T>, k: nat, f: T -> U)
    requires a != [] && k < |b| && b[k] == a[|a| - 1]
    requires multiset(MapSeq(a[..|a| - 1], f)) == multiset(MapSeq(b[..k] + b[k + 1..], f))
    ensures multiset(MapSeq(a, f)) == multiset(MapSeq(b, f))
  {
    var n, x := |a| - 1, a[|a| - 1];
    var u, v := b[..k], b[k + 1..];
    assert a == a[..n] + [x];
    assert b == u + [x] + v;
    MapAppend(a[..n], [x], f);
    MapAppend(u + [x], v, f);
    MapAppend(u, [x], f);
    MapAppend(u, v, f);
  }

  /** Strictly increasing keys: sorted, and no two entries share a key. */
  ghost predicate StrictlySortedBy<T>(s: seq<T>, key: T -> Key) {
    forall i, j :: 0 <= i < j < |s| ==> KeyLt(key(s[i]), key(s[j]))
  }

  /** Sorting a list whose keys already increase strictly changes nothing. */
  lemma {:induction false} SortByStrictlySorted<T>(s: seq<T>, key: T -> Key)
    requires StrictlySortedBy(s, key)
    ensures SortBy(s, key) == s
    decreases |s|
  {
    if s != [] {
      var t := s[1..];
      assert StrictlySortedBy(t, key) by {
        forall i, j | 0 <= i < j < |t| ensures KeyLt(key(t[i]), key(t[j])) { assert t[i] == s[i + 1] && t[j] == s[j + 1]; }
      }
      SortByStrictlySorted(t, key);
      if t != [] {
        KeyLtAsymmetric(key(s[0]), key(t[0]));
      }
      assert s == [s[0]] + t;
    }
  }

  /** No value occurs twice. */
  ghost predicate Distinct<T>(s: seq<T>) {
    forall i, j :: 0 <= i < j < |s| ==> s[i] != s[j]
  }

  /** A list without repetitions counts every value at most once. */
  lemma {:induction false} DistinctCounts<T>(s: seq<T>)
    requires Distinct(s)
    ensures forall x :: multiset(s)[x] <= 1
    decreases |s|
  {
    if s != [] {
      var t := s[1..];
      assert s == [s[0]] + t;
      assert Distinct(t) by {
        forall i, j | 0 <= i < j < |t| ensures t[i] != t[j] { assert t[i] == s[i + 1] && t[j] == s[j + 1]; }
      }
      DistinctCounts(t);
      forall j | 0 <= j < |t| ensures t[j] != s[0] { assert t[j] == s[j + 1]; }
    }
  }

  /** A value at two places of a list is counted twice. */
  lemma TwiceCounted<T>(t: seq<T>, i: nat, j: nat)
    requires i < j < |t| && t[i] == t[j]
    ensures multiset(t)[t[i]] >= 2
  {
    assert t == t[..i] + [t[i]] + t[i + 1..j] + [t[j]] + t[j + 1..];
  }

  /** A rearrangement of a list without repetitions has none either. */
  lemma DistinctPermutation<T>(s: seq<T>, t: seq<T>)
    requires Distinct(s) && multiset(t) == multiset(s)
    ensures Distinct(t)
  {
    DistinctCounts(s);
    forall i, j | 0 <= i < j < |t| ensures t[i] != t[j] {
      if t[i] == t[j] { TwiceCounted(t, i, j); }
    }
  }

  /** A sorted list without repetitions, under a key that tells values apart, is strictly sorted. */
  lemma SortedDistinctStrict<T>(s: seq<T>, key: T -> Key)
    requires SortedBy(s, key) && Distinct(s)
    requires forall x, y :: x != y ==> key(x) != key(y)
    ensures StrictlySortedBy(s, key)
  {
    forall i, j | 0 <= i < j < |s| ensures KeyLt(key(s[i]), key(s[j])) {
      KeyLtTotal(key(s[i]), key(s[j]));
    }
  }

  /** `sorted` of string values. */
  function StrKey(s: string): Key {
    [Str(s)]
  }

  lemma StrKeyLe(a: string, b: string)
    ensures KeyLe(StrKey(a), StrKey(b)) <==> !StrLt(b, a)
  {
    var x, y := StrKey(a), StrKey(b);
    if a != b {
      assert KeyLt(y, x) == AtomLt(y[0], x[0]);
    } else {
      KeyLtIrreflexive(x);
      StrLtIrreflexive(a);
    }
  }

  /** Strictly increasing strings: sorted and duplicate-free. */
  ghost predicate StrictlySorted(s: seq<string>) {
    forall i, j :: 0 <= i < j < |s| ==> StrLt(s[i], s[j])
  }

  /** The set of a list's elements (`set(xs)`). */
  function Elems(s: seq<string>): set<string> {
    set x | x in s
  }

  /** Walking one more entry of a list adds that entry to the elements walked. */
  lemma ElemsPrefixStep(s: seq<string>, j: nat)
    requires j < |s|
    ensures Elems(s[..j + 1]) == Elems(s[..j]) + {s[j]}
    ensures j + 1 == |s| ==> Elems(s[..j + 1]) == Elems(s)
  {
    assert s[..j + 1] == s[..j] + [s[j]];
    assert j + 1 == |s| ==> s[..j + 1] == s;
  }

  /** A strictly sorted list has as many distinct elements as entries. */
  lemma {:induction false} SortedCard(s: seq<string>)
    requires StrictlySorted(s)
    ensures |Elems(s)| == |s|
    decreases |s|
  {
    if s != [] {
      var t := s[1..];
      assert StrictlySorted(t) by {
        forall i, j | 0 <= i < j < |t| ensures StrLt(t[i], t[j]) { assert t[i] == s[i + 1] && t[j] == s[j + 1]; }
      }
      SortedCard(t);
      assert Elems(s) == Elems(t) + {s[0]} by {
        forall x | x in s ensures x in t || x == s[0] {
          var i :| 0 <= i < |s| && s[i] == x;
          if i > 0 { assert t[i - 1] == x; }
        }
      }
      assert s[0] !in t by {
        if s[0] in t {
          var j :| 0 <= j < |t| && t[j] == s[0];
          assert StrLt(s[0], s[j + 1]);
          StrLtIrreflexive(s[0]);
        }
      }
    }
  }

  /** Two lists sorted by string order with the same elements (counted) are equal: `sorted` ignores input order. */
  lemma {:induction false} StrSortedUnique(a: seq<string>, b: seq<string>)
    requires SortedBy(a, StrKey) && SortedBy(b, StrKey)
    requires multiset(a) == multiset(b)
    ensures a == b
    decreases |a|
  {
    assert |a| == |multiset(a)| == |multiset(b)| == |b|;
    if a != [] {
      assert a[0] == b[0] by {
        FirstIsLeast(a, b[0]);
        FirstIsLeast(b, a[0]);
        if a[0] != b[0] { StrLtTotal(a[0], b[0]); }
      }
      MultisetTail(a);
      MultisetTail(b);
      SortedTail(a);
      SortedTail(b);
      StrSortedUnique(a[1..], b[1..]);
    }
  }

  lemma FirstIsLeast(s: seq<string>, x: string)
    requires SortedBy(s, StrKey) && x in multiset(s)
    ensures s != [] && !StrLt(x, s[0])
  {
    var k :| 0 <= k < |s| && s[k] == x;
    if k > 0 {
      assert KeyLe(StrKey(s[0]), StrKey(s[k]));
      StrKeyLe(s[0], s[k]);
    } else {
      StrLtIrreflexive(x);
    }
  }

  lemma MultisetTail(s: seq<string>)
    requires s != []
    ensures multiset(s[1..]) == multiset(s) - multiset{s[0]}
  {
    assert s == [s[0]] + s[1..];
  }

  lemma SortedTail(s: seq<string>)
    requires SortedBy(s, StrKey) && s != []
    ensures SortedBy(s[1..], StrKey)
  {
    forall i, j | 0 <= i < j < |s[1..]| ensures KeyLe(StrKey(s[1..][i]), StrKey(s[1..][j])) {
      assert s[1..][i] == s[i + 1] && s[1..][j] == s[j + 1];
    }
  }

  /** Sorting keeps the set of elements. */
  lemma SortByElems(ids: seq<string>)
    ensures Elems(SortBy(ids, StrKey)) == Elems(ids)
  {
    var s := SortBy(ids, StrKey);
    forall x ensures x in s <==> x in ids {
      assert x in s <==> x in multiset(s);
      assert x in ids <==> x in multiset(ids);
    }
  }

  lemma StrictTail(s: seq<string>)
    requires StrictlySorted(s) && s != []
    ensures StrictlySorted(s[1..]) && Elems(s[1..]) == Elems(s) - {s[0]}
  {
    forall i, j | 0 <= i < j < |s| - 1 ensures StrLt(s[1..][i], s[1..][j]) {
      assert s[1..][i] == s[i + 1] && s[1..][j] == s[j + 1];
    }
    forall x | x in s[1..] ensures x != s[0] {
      var j :| 0 <= j < |s| - 1 && s[1..][j] == x;
      assert s[j + 1] == x;
      StrLtIrreflexive(s[0]);
    }
    assert s == [s[0]] + s[1..];
  }

  /** Two strictly sorted lists with the same elements are equal: a set has one sorted listing. */
  lemma {:induction false} StrictlySortedUnique(a: seq<string>, b: seq<string>)
    requires StrictlySorted(a) && StrictlySorted(b) && Elems(a) == Elems(b)
    ensures a == b
    decreases |a|
  {
    SortedCard(a);
    SortedCard(b);
    if a != [] {
      assert a[0] == b[0] by {
        if a[0] != b[0] {
          assert a[0] in Elems(b);
          var i :| 0 <= i < |b| && b[i] == a[0];
          assert StrLt(b[0], a[0]);
          assert b[0] in Elems(a);
          var j :| 0 <= j < |a| && a[j] == b[0];
          assert StrLt(a[0], b[0]);
          StrLtTransitive(a[0], b[0], a[0]);
          StrLtIrreflexive(a[0]);
        }
      }
      StrictTail(a);
      StrictTail(b);
      StrictlySortedUnique(a[1..], b[1..]);
      assert a == [a[0]] + a[1..] && b == [b[0]] + b[1..];
    }
  }

  /** A non-empty set of strings has a largest element. */
  lemma {:induction false} MaxExists(xs: set<string>)
    requires xs != {}
    ensures exists m :: m in xs && forall x :: x in xs && x != m ==> StrLt(x, m)
    decreases |xs|
  {
    var y :| y in xs;
    var rest := xs - {y};
    if rest == {} {
      assert xs == {y} by { assert forall x :: x in xs && x != y ==> x in rest; }
    } else {
      MaxExists(rest);
      var m :| m in rest && forall x :: x in rest && x != m ==> StrLt(x, m);
      StrLtTotal(y, m);
      if StrLt(m, y) {
        forall x | x in xs && x != y ensures StrLt(x, y) {
          if x != m { StrLtTransitive(x, m, y); }
        }
      } else {
        assert forall x :: x in xs && x != m ==> StrLt(x, m);
      }
    }
  }

  /** Python's `sorted(xs)` of a set of strings, as a specification: the largest goes last. */
  ghost function SortedSet(xs: set<string>): (r: seq<string>)
    ensures StrictlySorted(r) && Elems(r) == xs
    decreases |xs|
  {
    if xs == {} then []
    else
      MaxExists(xs);
      var m :| m in xs && forall x :: x in xs && x != m ==> StrLt(x, m);
      var rest := SortedSet(xs - {m});
      assert forall i :: 0 <= i < |rest| ==> StrLt(rest[i], m) by {
        forall i | 0 <= i < |rest| ensures StrLt(rest[i], m) { assert rest[i] in Elems(rest); }
      }
      assert Elems(rest + [m]) == xs by {
        forall x | x in rest + [m] ensures x in xs { if x != m { assert x in Elems(rest); } }
        forall x | x in xs ensures x in rest + [m] { if x != m { assert x in Elems(rest); } }
      }
      rest + [m]
  }

  /** `sorted(some_set)` of strings, written as the loop a caller would write. */
  method SortedFromSet(xs: set<string>) returns (r: seq<string>)
    ensures StrictlySorted(r)
    ensures |r| == |xs|
    ensures forall x :: x in r <==> x in xs
  {
    r := [];
    var rest := xs;
    while rest != {}
      invariant StrictlySorted(r)
      invariant rest !! (set x | x in r)
      invariant forall x :: x in xs <==> x in rest || x in r
      invariant |r| + |rest| == |xs|
      invariant forall x, j :: x in rest && 0 <= j < |r| ==> StrLt(x, r[j])
      decreases |rest|
    {
      // the largest element still to place is smaller than all placed ones
      var m := PickMax(rest);
      r := [m] + r;
      rest := rest - {m};
    }
  }

  method PickMax(xs: set<string>) returns (m: string)
    requires xs != {}
    ensures m in xs && forall x :: x in xs && x != m ==> StrLt(x, m)
  {
    m :| m in xs;
    var rest := xs - {m};
    while rest != {}
      invariant m in xs && rest <= xs
      invariant forall x :: x in xs && x !in rest && x != m ==> StrLt(x, m)
      decreases |rest|
    {
      var y :| y in rest;
      if y != m {
        StrLtTotal(y, m);
        if StrLt(m, y) {
          forall x | x in xs && x !in rest && x != m && x != y ensures StrLt(x, y) {
            StrLtTransitive(x, m, y);
          }
          m := y;
        }
      }
      rest := rest - {y};
    }
  }
}
