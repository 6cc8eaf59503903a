/** Sequence operations that the pages perform with `filter`, `includes` and `splice`. */
module Lists {

  /** `a` is `b` with some elements left out, the rest in their original order. */
  predicate IsSubsequence<T(==)>(a: seq<T>, b: seq<T>)
    decreases |b|
  {
    a == [] || (b != [] && ((a[0] == b[0] && IsSubsequence(a[1..], b[1..])) || IsSubsequence(a, b[1..])))
  }

  /** `Array.prototype.filter`: the elements satisfying `f`, in order. */
  function Keep<T>(s: seq<T>, f: T -> bool): (r: seq<T>)
    ensures |r| <= |s|
    ensures forall i :: 0 <= i < |r| ==> f(r[i])
  {
    if s == [] then []
    else if f(s[0]) then [s[0]] + Keep(s[1..], f) else Keep(s[1..], f)
  }

  lemma {:induction false} SubsequenceOfItself<T>(s: seq<T>)
    ensures IsSubsequence(s, s)
  {
    if s != [] {
      SubsequenceOfItself(s[1..]);
    }
  }

  /** `filter` keeps exactly the elements satisfying `f`, each as often as before at most. */
  lemma {:induction false} KeepMembers<T>(s: seq<T>, f: T -> bool)
    ensures forall i :: 0 <= i < |Keep(s, f)| ==> Keep(s, f)[i] in s
    ensures forall i :: 0 <= i < |s| && f(s[i]) ==> s[i] in Keep(s, f)
    ensures multiset(Keep(s, f)) <= multiset(s)
  {
    if s != [] {
      KeepMembers(s[1..], f);
      assert s == [s[0]] + s[1..];
    }
  }

  /** Nothing is kept when `f` holds nowhere. */
  lemma {:induction false} KeepNone<T>(s: seq<T>, f: T -> bool)
    requires forall i :: 0 <= i < |s| ==> !f(s[i])
    ensures Keep(s, f) == []
  {
    if s != [] {
      KeepNone(s[1..], f);
    }
  }

  /** What `filter` keeps is an order-preserving subsequence of its input. */
  lemma {:induction false} KeepIsSubsequence<T>(s: seq<T>, f: T -> bool)
    ensures IsSubsequence(Keep(s, f), s)
  {
    if s != [] {
      KeepIsSubsequence(s[1..], f);
      if f(s[0]) {
        assert ([s[0]] + Keep(s[1..], f))[1..] == Keep(s[1..], f);
      }
    }
  }

  /** `filter` on a sequence with a known first element. */
  lemma {:induction false} KeepCons<T>(h: T, t: seq<T>, f: T -> bool)
    ensures Keep([h] + t, f) == (if f(h) then [h] else []) + Keep(t, f)
  {
    assert ([h] + t)[0] == h && ([h] + t)[1..] == t;
  }

  lemma {:induction false} KeepAppend<T>(a: seq<T>, b: seq<T>, f: T -> bool)
    ensures Keep(a + b, f) == Keep(a, f) + Keep(b, f)
  {
    if a != [] {
      assert (a + b)[1..] == a[1..] + b;
      KeepAppend(a[1..], b, f);
    } else {
      assert a + b == b;
    }
  }

  /** Two successive filters are one filter by the conjunction `h` of their predicates. */
  lemma {:induction false} KeepKeep<T>(s: seq<T>, f: T -> bool, g: T -> bool, h: T -> bool)
    requires forall i :: 0 <= i < |s| ==> h(s[i]) == (f(s[i]) && g(s[i]))
    ensures Keep(Keep(s, f), g) == Keep(s, h)
  {
    if s != [] {
      KeepKeep(s[1..], f, g, h);
      if f(s[0]) {
        assert Keep(s, f)[0] == s[0] && Keep(s, f)[1..] == Keep(s[1..], f);
      }
    }
  }

  /** Filters by predicates that agree on the elements give the same result. */
  lemma {:induction false} KeepSame<T>(s: seq<T>, f: T -> bool, g: T -> bool)
    requires forall i :: 0 <= i < |s| ==> f(s[i]) == g(s[i])
    ensures Keep(s, f) == Keep(s, g)
  {
    if s != [] {
      KeepSame(s[1..], f, g);
    }
  }

  /** A filter whose predicate holds everywhere changes nothing. */
  lemma {:induction false} KeepAll<T>(s: seq<T>, f: T -> bool)
    requires forall x :: x in s ==> f(x)
    ensures Keep(s, f) == s
  {
    if s != [] {
      KeepAll(s[1..], f);
      assert [s[0]] + s[1..] == s;
    }
  }

  /** Number of elements of `s` satisfying `f`. */
  function CountWhere<T>(s: seq<T>, f: T -> bool): nat {
    |Keep(s, f)|
  }

  /** No value occurs twice. */
  predicate NoDup<T(==)>(s: seq<T>) {
    forall i, j :: 0 <= i < j < |s| ==> s[i] != s[j]
  }

  lemma {:induction false} KeepNoDup<T>(s: seq<T>, f: T -> bool)
    requires NoDup(s)
    ensures NoDup(Keep(s, f))
  {
    if s != [] {
      assert NoDup(s[1..]);
      KeepNoDup(s[1..], f);
      if f(s[0]) {
        assert s[0] !in s[1..];
        KeepMembers(s[1..], f);
        assert s[0] !in Keep(s[1..], f);
      }
    }
  }

  /** The predicate `x => x !== id`. */
  function Other<T(==)>(id: T): T -> bool {
    x => x != id
  }

  /** `ids.filter(x => x !== id)`: every occurrence of `id` removed. */
  function Without<T(==)>(s: seq<T>, id: T): (r: seq<T>)
    ensures forall i :: 0 <= i < |r| ==> r[i] != id && r[i] in s
    ensures forall i :: 0 <= i < |s| && s[i] != id ==> s[i] in r
    ensures id !in r
    ensures id !in s ==> r == s
  {
    assert id !in s ==> Keep(s, Other(id)) == s by {
      if id !in s { KeepAll(s, Other(id)); }
    }
    KeepMembers(s, Other(id));
    Keep(s, Other(id))
  }

  /** `s.filter((_, j) => j !== i)`: the element at index `i` dropped. */
  function RemoveAt<T>(s: seq<T>, i: int): (r: seq<T>)
    ensures 0 <= i < |s| ==> |r| == |s| - 1
    ensures 0 <= i < |s| ==> forall j :: 0 <= j < |r| ==> r[j] == if j < i then s[j] else s[j + 1]
    ensures !(0 <= i < |s|) ==> r == s
  {
    if 0 <= i < |s| then s[..i] + s[i + 1..] else s
  }

  /** `s.splice(i, 0, x)`: `x` inserted before index `i`. */
  function InsertAt<T>(s: seq<T>, i: nat, x: T): seq<T>
    requires i <= |s|
  {
    s[..i] + [x] + s[i..]
  }

  lemma {:induction false} InsertAtFacts<T>(s: seq<T>, i: nat, x: T)
    requires i <= |s|
    ensures |InsertAt(s, i, x)| == |s| + 1
    ensures InsertAt(s, i, x)[i] == x
    ensures multiset(InsertAt(s, i, x)) == multiset(s) + multiset{x}
    ensures RemoveAt(InsertAt(s, i, x), i) == s
  {
    var r := InsertAt(s, i, x);
    assert s == s[..i] + s[i..];
    assert r[..i] == s[..i] && r[i + 1..] == s[i..];
  }

  lemma {:induction false} RemoveAtMultiset<T>(s: seq<T>, i: int)
    requires 0 <= i < |s|
    ensures multiset(RemoveAt(s, i)) + multiset{s[i]} == multiset(s)
  {
    assert s == s[..i] + [s[i]] + s[i + 1..];
  }

  /**
   * The drag-and-drop reorder: `arr.splice(from, 1)` takes the element out,
   * `arr.splice(to, 0, moved)` puts it back at index `to`.
   */
  function Move<T>(s: seq<T>, from: int, to: int): (r: seq<T>)
    requires 0 <= from < |s| && 0 <= to < |s|
    ensures |r| == |s| && multiset(r) == multiset(s)
    ensures r[to] == s[from]
    ensures RemoveAt(r, to) == RemoveAt(s, from)
  {
    var rest := RemoveAt(s, from);
    RemoveAtMultiset(s, from);
    InsertAtFacts(rest, to, s[from]);
    InsertAt(rest, to, s[from])
  }
}
