/**
 * Column sorting of the admin tables. The pages sort a copy of their list with
 * `Array.prototype.sort`, which is stable, and a comparator that answers -1, 1
 * or 0 from `<` and `>` on one key per row. Keys of a column are all numbers or
 * all strings; strings compare by UTF-16 code unit, as JavaScript's `<`
 * does, so a character beyond U+FFFF sorts by its high surrogate.
 */
module Sorting {
  import opened Lists

  datatype SortKey = Num(n: int) | Text(s: string)
  datatype Direction = Asc | Desc

  /** `{ key, direction }`, the state behind the sort arrows. */
  datatype SortConfig<C> = SortConfig(key: C, direction: Direction)

  /** The UTF-16 code units of one character: itself below U+10000, otherwise its surrogate pair. */
  function CodeUnits(c: char): (r: seq<int>)
    ensures |r| == 1 <==> c as int < 0x1_0000
    ensures |r| == 2 <==> c as int >= 0x1_0000
    ensures |r| == 2 ==> 0xD800 <= r[0] < 0xDC00 && 0xDC00 <= r[1] < 0xE000
    ensures |r| == 1 ==> r[0] == c as int && !(0xD800 <= r[0] < 0xE000)
  {
    if c as int < 0x1_0000 then [c as int]
    else [0xD800 + (c as int - 0x1_0000) / 0x400, 0xDC00 + (c as int - 0x1_0000) % 0x400]
  }

  /** The UTF-16 encoding of a string, which is what JavaScript's strings hold. */
  function Utf16(s: string): (r: seq<int>)
    ensures s == [] <==> r == []
  {
    if s == [] then [] else CodeUnits(s[0]) + Utf16(s[1..])
  }

  /** Two characters with the same code units are the same character. */
  lemma {:induction false} CodeUnitsInjective(c: char, d: char)
    requires CodeUnits(c) == CodeUnits(d)
    ensures c == d
  {
    if c as int >= 0x1_0000 {
      var x, y := c as int - 0x1_0000, d as int - 0x1_0000;
      assert x / 0x400 == y / 0x400 && x % 0x400 == y % 0x400;
      assert x == 0x400 * (x / 0x400) + x % 0x400;
      assert y == 0x400 * (y / 0x400) + y % 0x400;
    }
  }

  /** Different strings have different UTF-16 encodings. */
  lemma {:induction false} Utf16Injective(a: string, b: string)
    requires Utf16(a) == Utf16(b)
    ensures a == b
  {
    if a != [] {
      var ua, ub := CodeUnits(a[0]), CodeUnits(b[0]);
      assert Utf16(a) == ua + Utf16(a[1..]) && Utf16(b) == ub + Utf16(b[1..]);
      assert Utf16(a)[0] == ua[0] && Utf16(b)[0] == ub[0];
      assert |ua| == |ub|;
      assert ua == Utf16(a)[..|ua|] && ub == Utf16(b)[..|ub|];
      CodeUnitsInjective(a[0], b[0]);
      assert Utf16(a[1..]) == Utf16(a)[|ua|..] && Utf16(b[1..]) == Utf16(b)[|ub|..];
      Utf16Injective(a[1..], b[1..]);
      assert a == [a[0]] + a[1..] && b == [b[0]] + b[1..];
    }
  }

  /** Lexicographic order on code-unit sequences. */
  predicate UnitsLess(a: seq<int>, b: seq<int>) {
    if b == [] then false
    else if a == [] then true
    else if a[0] != b[0] then a[0] < b[0]
    else UnitsLess(a[1..], b[1..])
  }

  /** JavaScript's `<` on two strings: lexicographic order on their UTF-16 code units. */
  predicate TextLess(a: string, b: string) {
    UnitsLess(Utf16(a), Utf16(b))
  }

  /** A character beyond U+FFFF sorts before U+FF01, as its high surrogate does, though its code point is larger. */
  lemma {:induction false} SurrogatesSortLow()
    ensures TextLess("\U{1F600}", "\U{FF01}") && !TextLess("\U{FF01}", "\U{1F600}")
  {
    assert Utf16("\U{1F600}") == [0xD83D, 0xDE00] by {
      assert CodeUnits('\U{1F600}') == [0xD83D, 0xDE00];
    }
    assert Utf16("\U{FF01}") == [0xFF01];
  }

  lemma {:induction false} UnitsLessIrreflexive(a: seq<int>)
    ensures !UnitsLess(a, a)
  {
    if a != [] { UnitsLessIrreflexive(a[1..]); }
  }

  lemma {:induction false} UnitsLessTransitive(a: seq<int>, b: seq<int>, c: seq<int>)
    requires UnitsLess(a, b) && UnitsLess(b, c)
    ensures UnitsLess(a, c)
  {
    if a != [] && a[0] == b[0] && b[0] == c[0] {
      UnitsLessTransitive(a[1..], b[1..], c[1..]);
    }
  }

  lemma {:induction false} UnitsLessTotal(a: seq<int>, b: seq<int>)
    ensures a == b || UnitsLess(a, b) || UnitsLess(b, a)
  {
    if a != [] && b != [] && a[0] == b[0] {
      UnitsLessTotal(a[1..], b[1..]);
      if a[1..] == b[1..] {
        assert a == [a[0]] + a[1..] && b == [b[0]] + b[1..];
      }
    }
  }

  lemma {:induction false} TextLessIrreflexive(a: string)
    ensures !TextLess(a, a)
  {
    UnitsLessIrreflexive(Utf16(a));
  }

  lemma {:induction false} TextLessTransitive(a: string, b: string, c: string)
    requires TextLess(a, b) && TextLess(b, c)
    ensures TextLess(a, c)
  {
    UnitsLessTransitive(Utf16(a), Utf16(b), Utf16(c));
  }

  lemma {:induction false} TextLessTotal(a: string, b: string)
    ensures a == b || TextLess(a, b) || TextLess(b, a)
  {
    UnitsLessTotal(Utf16(a), Utf16(b));
    if Utf16(a) == Utf16(b) { Utf16Injective(a, b); }
  }

  /** `v1 < v2` on two keys of one column; across kinds numbers come first, which no column needs. */
  predicate KeyLess(a: SortKey, b: SortKey) {
    if a.Num? && b.Num? then a.n < b.n
    else if a.Text? && b.Text? then TextLess(a.s, b.s)
    else a.Num?
  }

  /** KeyLess is a strict total order. */
  lemma {:induction false} KeyLessOrder(a: SortKey, b: SortKey, c: SortKey)
    ensures !KeyLess(a, a)
    ensures a == b || KeyLess(a, b) || KeyLess(b, a)
    ensures KeyLess(a, b) && KeyLess(b, c) ==> KeyLess(a, c)
  {
    if a.Text? { TextLessIrreflexive(a.s); }
    if a.Text? && b.Text? {
      TextLessTotal(a.s, b.s);
      if c.Text? && KeyLess(a, b) && KeyLess(b, c) { TextLessTransitive(a.s, b.s, c.s); }
    }
  }

  /** The comparator handed to `sort`. */
  function Compare(a: SortKey, b: SortKey, d: Direction): (r: int)
    ensures r == -1 || r == 0 || r == 1
  {
    if KeyLess(a, b) then (if d == Asc then -1 else 1)
    else if KeyLess(b, a) then (if d == Asc then 1 else -1)
    else 0
  }

  /** The comparator is consistent: antisymmetric, zero exactly on equal keys, transitive. */
  lemma {:induction false} CompareConsistent(a: SortKey, b: SortKey, c: SortKey, d: Direction)
    ensures Compare(a, b, d) == 0 - Compare(b, a, d)
    ensures Compare(a, b, d) == 0 <==> a == b
    ensures Compare(a, b, d) <= 0 && Compare(b, c, d) <= 0 ==> Compare(a, c, d) <= 0
    ensures Compare(a, b, d) < 0 && Compare(b, c, d) <= 0 ==> Compare(a, c, d) < 0
  {
    KeyLessOrder(a, b, a);
    KeyLessOrder(a, b, c);
    KeyLessOrder(b, a, c);
    KeyLessOrder(c, b, a);
    KeyLessOrder(a, c, b);
    KeyLessOrder(b, c, a);
    KeyLessOrder(c, a, b);
  }

  /** No pair of rows is out of the comparator's order. */
  predicate Sorted<T>(s: seq<T>, key: T -> SortKey, d: Direction) {
    forall i, j :: 0 <= i < j < |s| ==> Compare(key(s[i]), key(s[j]), d) <= 0
  }

  /** Place `x` before the first row that must follow it, so after every row it ties with. */
  function Insert<T>(x: T, s: seq<T>, key: T -> SortKey, d: Direction): (r: seq<T>)
    ensures |r| == |s| + 1
  {
    if s == [] then [x]
    else if Compare(key(x), key(s[0]), d) < 0 then [x] + s
    else [s[0]] + Insert(x, s[1..], key, d)
  }

  /** The stable sort `[...list].sort(comparator)` computes: rows taken in order, each inserted. */
  function SortByKey<T>(s: seq<T>, key: T -> SortKey, d: Direction): (r: seq<T>)
    ensures |r| == |s|
  {
    if s == [] then [] else Insert(s[|s| - 1], SortByKey(s[..|s| - 1], key, d), key, d)
  }

  /** The rows whose key is `k`, in order. */
  function HasKey<T>(key: T -> SortKey, k: SortKey): T -> bool {
    x => key(x) == k
  }

  lemma {:induction false} InsertMultiset<T>(x: T, s: seq<T>, key: T -> SortKey, d: Direction)
    ensures multiset(Insert(x, s, key, d)) == multiset(s) + multiset{x}
  {
    if s != [] && Compare(key(x), key(s[0]), d) >= 0 {
      InsertMultiset(x, s[1..], key, d);
      assert s == [s[0]] + s[1..];
    }
  }

  /** A row placed in front of sorted rows it precedes keeps them sorted. */
  lemma {:induction false} SortedCons<T>(h: T, t: seq<T>, key: T -> SortKey, d: Direction)
    requires Sorted(t, key, d)
    requires forall j :: 0 <= j < |t| ==> Compare(key(h), key(t[j]), d) <= 0
    ensures Sorted([h] + t, key, d)
  {
    var r := [h] + t;
    forall i, j | 0 <= i < j < |r|
      ensures Compare(key(r[i]), key(r[j]), d) <= 0
    {
      assert r[j] == t[j - 1];
      if i > 0 {
        assert r[i] == t[i - 1];
      }
    }
  }

  lemma {:induction false} InsertSorted<T>(x: T, s: seq<T>, key: T -> SortKey, d: Direction)
    requires Sorted(s, key, d)
    ensures Sorted(Insert(x, s, key, d), key, d)
  {
    if s == [] {
    } else if Compare(key(x), key(s[0]), d) < 0 {
      forall j | 0 <= j < |s|
        ensures Compare(key(x), key(s[j]), d) <= 0
      {
        CompareConsistent(key(x), key(s[0]), key(s[j]), d);
      }
      SortedCons(x, s, key, d);
    } else {
      SortedTail(s, key, d);
      InsertSorted(x, s[1..], key, d);
      HeadBeforeInserted(x, s, key, d);
      SortedCons(s[0], Insert(x, s[1..], key, d), key, d);
    }
  }

  /** The first row stays ahead of everything inserted after it. */
  lemma {:induction false} HeadBeforeInserted<T>(x: T, s: seq<T>, key: T -> SortKey, d: Direction)
    requires Sorted(s, key, d) && s != [] && Compare(key(x), key(s[0]), d) >= 0
    ensures forall j :: 0 <= j < |Insert(x, s[1..], key, d)| ==> Compare(key(s[0]), key(Insert(x, s[1..], key, d)[j]), d) <= 0
  {
    InsertMultiset(x, s[1..], key, d);
    var t := Insert(x, s[1..], key, d);
    CompareConsistent(key(x), key(s[0]), key(x), d);
    forall j | 0 <= j < |t|
      ensures Compare(key(s[0]), key(t[j]), d) <= 0
    {
      assert t[j] in multiset(t);
      if t[j] != x {
        assert t[j] in multiset(s[1..]);
        var k :| 0 <= k < |s[1..]| && s[1..][k] == t[j];
        assert s[k + 1] == t[j];
      }
    }
  }

  /** Rows that all come strictly after `x` hold none of the rows with `x`'s key. */
  lemma {:induction false} InsertFrontStable<T>(x: T, s: seq<T>, key: T -> SortKey, d: Direction)
    requires Sorted(s, key, d) && s != [] && Compare(key(x), key(s[0]), d) < 0
    ensures Keep(s, HasKey(key, key(x))) == []
  {
    forall j | 0 <= j < |s|
      ensures !HasKey(key, key(x))(s[j])
    {
      CompareConsistent(key(x), key(s[0]), key(s[j]), d);
    }
    KeepNone(s, HasKey(key, key(x)));
  }

  /** Among the rows with key `k`, insertion changes nothing unless `x` has that key; then it lands last. */
  lemma {:induction false} InsertStable<T>(x: T, s: seq<T>, key: T -> SortKey, d: Direction, k: SortKey)
    requires Sorted(s, key, d)
    ensures Keep(Insert(x, s, key, d), HasKey(key, k))
         == Keep(s, HasKey(key, k)) + (if key(x) == k then [x] else [])
  {
    if s == [] {
      assert Insert(x, s, key, d)[1..] == [];
    } else if Compare(key(x), key(s[0]), d) < 0 {
      InsertFrontStable(x, s, key, d);
      InsertInFront(x, s, key, d, k);
    } else {
      SortedTail(s, key, d);
      InsertStable(x, s[1..], key, d, k);
      InsertFurther(x, s, key, d, k);
    }
  }

  lemma {:induction false} InsertInFront<T>(x: T, s: seq<T>, key: T -> SortKey, d: Direction, k: SortKey)
    requires s != [] && Compare(key(x), key(s[0]), d) < 0
    requires Keep(s, HasKey(key, key(x))) == []
    ensures Keep(Insert(x, s, key, d), HasKey(key, k))
         == Keep(s, HasKey(key, k)) + (if key(x) == k then [x] else [])
  {
    assert Insert(x, s, key, d)[1..] == s;
  }

  lemma {:induction false} InsertFurther<T>(x: T, s: seq<T>, key: T -> SortKey, d: Direction, k: SortKey)
    requires s != [] && Compare(key(x), key(s[0]), d) >= 0
    requires Keep(Insert(x, s[1..], key, d), HasKey(key, k))
          == Keep(s[1..], HasKey(key, k)) + (if key(x) == k then [x] else [])
    ensures Keep(Insert(x, s, key, d), HasKey(key, k))
         == Keep(s, HasKey(key, k)) + (if key(x) == k then [x] else [])
  {
    var f := HasKey(key, k);
    var t := Insert(x, s[1..], key, d);
    var head: seq<T> := if f(s[0]) then [s[0]] else [];
    var tail: seq<T> := if key(x) == k then [x] else [];
    assert Insert(x, s, key, d) == [s[0]] + t;
    KeepCons(s[0], t, f);
    assert s == [s[0]] + s[1..];
    KeepCons(s[0], s[1..], f);
    assert head + (Keep(s[1..], f) + tail) == (head + Keep(s[1..], f)) + tail;
  }

  lemma {:induction false} SortedTail<T>(s: seq<T>, key: T -> SortKey, d: Direction)
    requires Sorted(s, key, d) && s != []
    ensures Sorted(s[1..], key, d)
  {
    forall i, j | 0 <= i < j < |s| - 1
      ensures Compare(key(s[1..][i]), key(s[1..][j]), d) <= 0
    {
      assert s[1..][i] == s[i + 1] && s[1..][j] == s[j + 1];
    }
  }

  lemma {:induction false} SortByKeyPermutes<T>(s: seq<T>, key: T -> SortKey, d: Direction)
    ensures multiset(SortByKey(s, key, d)) == multiset(s)
  {
    if s != [] {
      var p, x := s[..|s| - 1], s[|s| - 1];
      assert s == p + [x];
      SortByKeyPermutes(p, key, d);
      InsertMultiset(x, SortByKey(p, key, d), key, d);
    }
  }

  lemma {:induction false} SortByKeySorts<T>(s: seq<T>, key: T -> SortKey, d: Direction)
    ensures Sorted(SortByKey(s, key, d), key, d)
  {
    if s != [] {
      var p := s[..|s| - 1];
      SortByKeySorts(p, key, d);
      InsertSorted(s[|s| - 1], SortByKey(p, key, d), key, d);
    }
  }

  lemma {:induction false} SortByKeyStable<T>(s: seq<T>, key: T -> SortKey, d: Direction, k: SortKey)
    ensures Keep(SortByKey(s, key, d), HasKey(key, k)) == Keep(s, HasKey(key, k))
  {
    if s != [] {
      var p, x := s[..|s| - 1], s[|s| - 1];
      assert s == p + [x];
      SortByKeyStable(p, key, d, k);
      SortByKeySorts(p, key, d);
      InsertStable(x, SortByKey(p, key, d), key, d, k);
      KeepAppend(p, [x], HasKey(key, k));
      assert [x][1..] == [];
    }
  }

  /** The sort keeps the rows, puts them in the comparator's order, and keeps tied rows in their old order. */
  lemma {:induction false} SortByKeyCorrect<T>(s: seq<T>, key: T -> SortKey, d: Direction)
    ensures multiset(SortByKey(s, key, d)) == multiset(s)
    ensures Sorted(SortByKey(s, key, d), key, d)
    ensures forall k :: Keep(SortByKey(s, key, d), HasKey(key, k)) == Keep(s, HasKey(key, k))
  {
    SortByKeyPermutes(s, key, d);
    SortByKeySorts(s, key, d);
    forall k
      ensures Keep(SortByKey(s, key, d), HasKey(key, k)) == Keep(s, HasKey(key, k))
    {
      SortByKeyStable(s, key, d, k);
    }
  }

  /** Clicking a column: the same column already ascending turns descending, anything else starts ascending. */
  function NextConfig<C(==)>(current: SortConfig<C>, key: C): (r: SortConfig<C>)
    ensures r.key == key
    ensures r.direction == Desc <==> current == SortConfig(key, Asc)
  {
    SortConfig(key, if current.key == key && current.direction == Asc then Desc else Asc)
  }

  /** Repeated clicks on one column alternate its direction, starting from ascending. */
  lemma {:induction false} ClicksAlternate<C>(current: SortConfig<C>, key: C)
    ensures NextConfig(NextConfig(current, key), key).direction != NextConfig(current, key).direction
    ensures current.key != key ==> NextConfig(current, key).direction == Asc
  {
  }

  function Reverse<T>(s: seq<T>): (r: seq<T>)
    ensures |r| == |s| && forall i :: 0 <= i < |s| ==> r[i] == s[|s| - 1 - i]
  {
    seq(|s|, i requires 0 <= i < |s| => s[|s| - 1 - i])
  }

  /** Descending order is not ascending order reversed once two rows tie: the tied rows keep their order in both. */
  lemma {:induction false} DescendingIsNotReversedOnTies()
    ensures var key := (x: int) => Num(x / 10);
            SortByKey([10, 11], key, Desc) != Reverse(SortByKey([10, 11], key, Asc))
  {
    var key := (x: int) => Num(x / 10);
    assert [10, 11][..1] == [10] && [10][..0] == [];
    assert SortByKey([10], key, Asc) == [10] && SortByKey([10], key, Desc) == [10];
    assert [10][1..] == [];
    assert SortByKey([10, 11], key, Asc) == Insert(11, [10], key, Asc) == [10, 11];
    assert SortByKey([10, 11], key, Desc) == Insert(11, [10], key, Desc) == [10, 11];
  }

  /** Rows whose keys are all different. */
  predicate DistinctKeys<T>(s: seq<T>, key: T -> SortKey) {
    forall i, j :: 0 <= i < j < |s| ==> key(s[i]) != key(s[j])
  }

  /** The same, counted per key: no key is held by two rows. */
  ghost predicate UniqueKeys<T>(s: seq<T>, key: T -> SortKey) {
    forall k :: |Keep(s, HasKey(key, k))| <= 1
  }

  lemma {:induction false} DistinctKeysAreUnique<T>(s: seq<T>, key: T -> SortKey)
    requires DistinctKeys(s, key)
    ensures UniqueKeys(s, key)
  {
    if s != [] {
      assert DistinctKeys(s[1..], key);
      DistinctKeysAreUnique(s[1..], key);
      forall k
        ensures |Keep(s, HasKey(key, k))| <= 1
      {
        if key(s[0]) == k {
          forall j | 0 <= j < |s[1..]|
            ensures !HasKey(key, k)(s[1..][j])
          {
            assert s[1..][j] == s[j + 1];
          }
          KeepNone(s[1..], HasKey(key, k));
        }
      }
    }
  }

  lemma {:induction false} UniqueKeysAreDistinct<T>(s: seq<T>, key: T -> SortKey)
    requires UniqueKeys(s, key)
    ensures DistinctKeys(s, key)
  {
    forall i, j | 0 <= i < j < |s|
      ensures key(s[i]) != key(s[j])
    {
      if key(s[i]) == key(s[j]) {
        TwoWithKey(s, key, i, j);
      }
    }
  }

  /** Two rows with the same key are both kept by the filter on that key. */
  lemma {:induction false} TwoWithKey<T>(s: seq<T>, key: T -> SortKey, i: int, j: int)
    requires 0 <= i < j < |s| && key(s[i]) == key(s[j])
    ensures |Keep(s, HasKey(key, key(s[i])))| >= 2
  {
    var f := HasKey(key, key(s[i]));
    assert s == s[..j] + s[j..];
    KeepAppend(s[..j], s[j..], f);
    KeepMembers(s[..j], f);
    KeepMembers(s[j..], f);
    assert s[..j][i] == s[i] && s[j..][0] == s[j];
  }

  /** The first rows of two sorted arrangements of the same rows coincide when keys are distinct. */
  lemma {:induction false} SortedHeads<T>(a: seq<T>, b: seq<T>, key: T -> SortKey, d: Direction)
    requires multiset(a) == multiset(b) && DistinctKeys(a, key) && a != []
    requires Sorted(a, key, d) && Sorted(b, key, d)
    ensures b != [] && a[0] == b[0]
  {
    assert a[0] in multiset(a);
    assert b != [];
    assert b[0] in multiset(b);
    var i :| 0 <= i < |b| && b[i] == a[0];
    var j :| 0 <= j < |a| && a[j] == b[0];
    CompareConsistent(key(a[0]), key(b[0]), key(a[0]), d);
    assert Compare(key(a[0]), key(a[j]), d) <= 0;
    assert Compare(key(b[0]), key(b[i]), d) <= 0;
    assert j == 0;
  }

  lemma {:induction false} SameTails<T>(a: seq<T>, b: seq<T>)
    requires multiset(a) == multiset(b) && a != [] && b != [] && a[0] == b[0]
    ensures multiset(a[1..]) == multiset(b[1..])
  {
    assert a == [a[0]] + a[1..] && b == [b[0]] + b[1..];
    assert multiset(a[1..]) == multiset(a) - multiset{a[0]};
    assert multiset(b[1..]) == multiset(b) - multiset{b[0]};
  }

  /** With all keys different there is one sorted arrangement of a multiset of rows. */
  lemma {:induction false} SortedUnique<T>(a: seq<T>, b: seq<T>, key: T -> SortKey, d: Direction)
    requires multiset(a) == multiset(b) && DistinctKeys(a, key)
    requires Sorted(a, key, d) && Sorted(b, key, d)
    ensures a == b
  {
    if a == [] {
      assert |b| == |multiset(b)| == 0;
    } else {
      SortedHeads(a, b, key, d);
      SameTails(a, b);
      SortedTail(a, key, d);
      SortedTail(b, key, d);
      assert DistinctKeys(a[1..], key);
      SortedUnique(a[1..], b[1..], key, d);
    }
  }

  lemma {:induction false} ReverseFlipsOrder<T>(s: seq<T>, key: T -> SortKey, d: Direction, e: Direction)
    requires Sorted(s, key, d) && e != d
    ensures Sorted(Reverse(s), key, e)
  {
    var r := Reverse(s);
    forall i, j | 0 <= i < j < |r|
      ensures Compare(key(r[i]), key(r[j]), e) <= 0
    {
      CompareConsistent(key(r[j]), key(r[i]), key(r[j]), d);
      CompareConsistent(key(r[i]), key(r[j]), key(r[i]), e);
    }
  }

  lemma {:induction false} ReverseMultiset<T>(s: seq<T>)
    ensures multiset(Reverse(s)) == multiset(s)
  {
    if s != [] {
      var p := s[..|s| - 1];
      ReverseMultiset(p);
      assert Reverse(s) == [s[|s| - 1]] + Reverse(p);
      assert s == p + [s[|s| - 1]];
    }
  }

  /** When no two rows tie, sorting descending is exactly sorting ascending and reading backwards. */
  lemma {:induction false} DescendingIsReversedWithoutTies<T>(s: seq<T>, key: T -> SortKey)
    requires DistinctKeys(s, key)
    ensures SortByKey(s, key, Desc) == Reverse(SortByKey(s, key, Asc))
  {
    var up, down := SortByKey(s, key, Asc), SortByKey(s, key, Desc);
    SortByKeyCorrect(s, key, Asc);
    SortByKeyCorrect(s, key, Desc);
    ReverseFlipsOrder(up, key, Asc, Desc);
    ReverseMultiset(up);
    DistinctKeysAreUnique(s, key);
    assert UniqueKeys(down, key) by {
      forall k
        ensures |Keep(down, HasKey(key, k))| <= 1
      {
        assert Keep(down, HasKey(key, k)) == Keep(s, HasKey(key, k));
      }
    }
    UniqueKeysAreDistinct(down, key);
    SortedUnique(down, Reverse(up), key, Desc);
  }
}
