/** Lists without repeats, and keeping some of a list's elements. */
module Lists {

  lemma Grouped<T>(a: seq<T>, b: seq<T>, c: seq<T>)
    ensures (a + b) + c == a + (b + c)
  {
  }

  lemma Nothing<T>(a: seq<T>)
    ensures a + [] == a && [] + a == a
  {
  }

  predicate NoDup<T(==)>(s: seq<T>) {
    forall i, j :: 0 <= i < j < |s| ==> s[i] != s[j]
  }

  lemma NoDupAppend<T>(s: seq<T>, x: T)
    requires NoDup(s) && x !in s
    ensures NoDup(s + [x])
  {
  }

  ghost function Elements<T>(s: seq<T>): set<T> {
    set x | x in s
  }

  function Filter<T(!new)>(s: seq<T>, p: T -> bool): (r: seq<T>)
    ensures forall x :: x in r <==> x in s && p(x)
    ensures |r| <= |s|
  {
    if s == [] then []
    else
      assert s == [s[0]] + s[1..];
      (if p(s[0]) then [s[0]] else []) + Filter(s[1..], p)
  }

  lemma {:induction false} FilterNoDup<T(!new)>(s: seq<T>, p: T -> bool)
    requires NoDup(s)
    ensures NoDup(Filter(s, p))
  {
    if s == [] {
    } else {
      FilterNoDup(s[1..], p);
    }
  }

  lemma {:induction false} FilterConcat<T(!new)>(a: seq<T>, b: seq<T>, p: T -> bool)
    ensures Filter(a + b, p) == Filter(a, p) + Filter(b, p)
  {
    if a == [] {
      assert a + b == b;
    } else {
      assert (a + b)[1..] == a[1..] + b;
      FilterConcat(a[1..], b, p);
    }
  }

  lemma FilterAppend<T(!new)>(s: seq<T>, x: T, p: T -> bool)
    ensures Filter(s + [x], p) == Filter(s, p) + if p(x) then [x] else []
  {
    FilterConcat(s, [x], p);
    assert [x][1..] == [];
  }

  /** `s[-n:]` for positive n */
  function LastN<T>(s: seq<T>, n: nat): (r: seq<T>)
    ensures |r| == if n <= |s| then n else |s|
  {
    if n < |s| then s[|s| - n..] else s
  }

  lemma LastHasNext<T>(s: seq<T>, n: nat, i: nat, j: nat)
    requires NoDup(s) && i < j < |s| && s[i] in LastN(s, n)
    ensures s[j] in LastN(s, n)
  {
    var d := |s| - |LastN(s, n)|;
    var k :| 0 <= k < |s| - d && LastN(s, n)[k] == s[i];
    assert s[d + k] == s[i];
    assert LastN(s, n)[j - d] == s[j];
  }

  lemma {:induction false} SizeOfElements<T>(s: seq<T>)
    requires NoDup(s)
    ensures |Elements(s)| == |s|
  {
    if s == [] {
    } else {
      SizeOfElements(s[1..]);
      assert s[0] !in Elements(s[1..]);
      assert Elements(s) == {s[0]} + Elements(s[1..]);
    }
  }

  lemma SubsetOfSameSize<T>(a: set<T>, b: set<T>)
    requires a <= b && |a| == |b|
    ensures a == b
  {
    assert b == a + (b - a);
  }

  lemma LargerThanSubset<T>(a: set<T>, b: set<T>)
    requires a <= b
    ensures |a| <= |b|
  {
    assert b == a + (b - a);
  }

  lemma Member<T>(s: set<T>) returns (x: T)
    requires s != {}
    ensures x in s
  {
    x :| x in s;
  }

  lemma Outside<T>(a: set<T>, b: set<T>) returns (x: T)
    requires !(a <= b)
    ensures x in a && x !in b
  {
    x :| x in a && x !in b;
  }

  lemma MultisetNoDup<T>(a: seq<T>, b: seq<T>)
    requires NoDup(a) && multiset(a) == multiset(b)
    ensures NoDup(b) && Elements(a) == Elements(b)
  {
    forall x ensures multiset(b)[x] <= 1 {
      CountsAtMostOne(a, x);
    }
    forall i, j | 0 <= i < j < |b| ensures b[i] != b[j] {
      if b[i] == b[j] {
        RepeatIsCounted(b, i, j);
        assert false;
      }
    }
    forall x ensures x in a <==> x in b {
      assert x in multiset(a) <==> x in multiset(b);
    }
  }

  lemma {:induction false} CountsAtMostOne<T>(s: seq<T>, x: T)
    requires NoDup(s)
    ensures multiset(s)[x] <= 1
  {
    if s == [] {
    } else {
      CountsAtMostOne(s[1..], x);
      assert s == [s[0]] + s[1..];
      assert s[0] !in s[1..];
    }
  }

  lemma RepeatIsCounted<T>(s: seq<T>, i: nat, j: nat)
    requires i < j < |s| && s[i] == s[j]
    ensures multiset(s)[s[j]] >= 2
  {
    assert s == s[..j] + [s[j]] + s[j + 1..];
    assert s[..j][i] == s[j];
  }

  ghost predicate TwoPlaces<T(!new)>(s: seq<T>, p: T -> bool) {
    exists i, j :: 0 <= i < j < |s| && p(s[i]) && p(s[j])
  }

  lemma TwoPlacesCons<T(!new)>(x: T, s: seq<T>, p: T -> bool)
    ensures TwoPlaces([x] + s, p) <==> TwoPlaces(s, p) || (p(x) && exists j :: 0 <= j < |s| && p(s[j]))
  {
    var t := [x] + s;
    if i, j :| 0 <= i < j < |s| && p(s[i]) && p(s[j]) {
      assert p(t[i + 1]) && p(t[j + 1]);
    } else if j :| 0 <= j < |s| && p(x) && p(s[j]) {
      assert p(t[0]) && p(t[j + 1]);
    }
  }

  /** Two elements are kept if and only if two places hold such elements. */
  lemma {:induction false} KeepsTwo<T(!new)>(s: seq<T>, p: T -> bool)
    ensures |Filter(s, p)| > 1 <==> TwoPlaces(s, p)
  {
    if s == [] {
    } else {
      KeepsTwo(s[1..], p);
      KeepsOne(s[1..], p);
      TwoPlacesCons(s[0], s[1..], p);
      assert s == [s[0]] + s[1..];
      hide TwoPlaces;
    }
  }

  lemma KeepsOne<T(!new)>(s: seq<T>, p: T -> bool)
    ensures Filter(s, p) != [] <==> exists j :: 0 <= j < |s| && p(s[j])
  {
    if Filter(s, p) != [] {
      assert Filter(s, p)[0] in Filter(s, p);
    }
    if j :| 0 <= j < |s| && p(s[j]) {
      assert s[j] in Filter(s, p);
    }
  }
}
