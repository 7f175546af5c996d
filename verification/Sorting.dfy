/** Lexicographic orders, and why an unstable sort under a strict total order has one answer. */
module Sorting {
  /** Go's `<` on strings, and `lessStrings` on slices of them, given the order of the elements. */
  predicate Lex<T(==)>(less: (T, T) -> bool, a: seq<T>, b: seq<T>) {
    if a == [] || b == [] then |a| < |b|
    else if a[0] != b[0] then less(a[0], b[0])
    else Lex(less, a[1..], b[1..])
  }

  predicate CharLess(a: char, b: char) {
    a < b
  }

  predicate StringLess(a: string, b: string) {
    Lex(CharLess, a, b)
  }

  predicate StringsLess(a: seq<string>, b: seq<string>) {
    Lex(StringLess, a, b)
  }

  // ---------- which order it is ----------

  /** The two agree before position `i`, and there the first ends or has the smaller element. */
  ghost predicate FirstAt<T>(less: (T, T) -> bool, a: seq<T>, b: seq<T>, i: nat) {
    i <= |a| && i < |b| && a[..i] == b[..i] && (i == |a| || less(a[i], b[i]))
  }

  lemma {:induction false} LexFinds<T>(less: (T, T) -> bool, a: seq<T>, b: seq<T>) returns (i: nat)
    requires Lex(less, a, b)
    ensures FirstAt(less, a, b, i)
    decreases |a|
  {
    if a == [] || b == [] || a[0] != b[0] {
      i := 0;
    } else {
      var j := LexFinds(less, a[1..], b[1..]);
      i := j + 1;
      assert a[..i] == [a[0]] + a[1..][..j] && b[..i] == [b[0]] + b[1..][..j];
    }
  }

  lemma {:induction false} LexFound<T(!new)>(less: (T, T) -> bool, a: seq<T>, b: seq<T>, i: nat)
    requires FirstAt(less, a, b, i) && Irreflexive(less)
    ensures Lex(less, a, b)
    decreases |a|
  {
    if i > 0 {
      assert a[0] == a[..i][0] == b[..i][0] == b[0];
      assert a[1..][..i - 1] == a[..i][1..] && b[1..][..i - 1] == b[..i][1..];
      LexFound(less, a[1..], b[1..], i - 1);
    }
  }

  /** Strings in dictionary order: at the first difference the smaller character comes first, or the string that ends. */
  lemma StringLessIff(a: string, b: string)
    ensures StringLess(a, b) <==>
            exists i :: 0 <= i <= |a| && i < |b| && a[..i] == b[..i] && (i == |a| || a[i] < b[i])
  {
    if StringLess(a, b) {
      var i := LexFinds(CharLess, a, b);
    }
    if i :| 0 <= i <= |a| && i < |b| && a[..i] == b[..i] && (i == |a| || a[i] < b[i]) {
      assert FirstAt(CharLess, a, b, i);
      LexFound(CharLess, a, b, i);
    }
  }

  /** ... and slices of strings the same, element by element. */
  lemma StringsLessIff(a: seq<string>, b: seq<string>)
    ensures StringsLess(a, b) <==>
            exists i :: 0 <= i <= |a| && i < |b| && a[..i] == b[..i] && (i == |a| || StringLess(a[i], b[i]))
  {
    StringOrders();
    if StringsLess(a, b) {
      var i := LexFinds(StringLess, a, b);
    }
    if i :| 0 <= i <= |a| && i < |b| && a[..i] == b[..i] && (i == |a| || StringLess(a[i], b[i])) {
      assert FirstAt(StringLess, a, b, i);
      LexFound(StringLess, a, b, i);
    }
  }

  /** The two laws that, with totality, leave no other order of strings. */
  lemma StringLaws(p: string, c: char, d: char, x: string, y: string)
    ensures c < d ==> StringLess(p + [c] + x, p + [d] + y)
    ensures StringLess(p, p + [c] + x)
  {
    var a, b := p + [c] + x, p + [d] + y;
    assert a[..|p|] == p && b[..|p|] == p && p[..|p|] == p;
    StringLessIff(a, b);
    StringLessIff(p, a);
  }

  lemma StringsLaws(p: seq<string>, c: string, d: string, x: seq<string>, y: seq<string>)
    ensures StringLess(c, d) ==> StringsLess(p + [c] + x, p + [d] + y)
    ensures StringsLess(p, p + [c] + x)
  {
    var a, b := p + [c] + x, p + [d] + y;
    assert a[..|p|] == p && b[..|p|] == p && p[..|p|] == p;
    StringsLessIff(a, b);
    StringsLessIff(p, a);
  }

  /** `lessStrings`. */
  method LessStrings(a: seq<string>, b: seq<string>) returns (less: bool)
    ensures less == StringsLess(a, b)
    ensures less <==> exists i :: 0 <= i <= |a| && i < |b| && a[..i] == b[..i] && (i == |a| || StringLess(a[i], b[i]))
  {
    StringsLessIff(a, b);
    var i := 0;
    while i < |a| && i < |b|
      invariant i <= |a| && i <= |b|
      invariant StringsLess(a[i..], b[i..]) == StringsLess(a, b)
    {
      if a[i] != b[i] {
        return StringLess(a[i], b[i]);
      }
      i := i + 1;
    }
    return |a| < |b|;
  }

  ghost predicate Irreflexive<T(!new)>(less: (T, T) -> bool) {
    forall x :: !less(x, x)
  }

  ghost predicate Transitive<T(!new)>(less: (T, T) -> bool) {
    forall x, y, z :: less(x, y) && less(y, z) ==> less(x, z)
  }

  ghost predicate Trichotomous<T(!new)>(less: (T, T) -> bool) {
    forall x, y :: x == y || less(x, y) || less(y, x)
  }

  ghost predicate StrictTotalOrder<T(!new)>(less: (T, T) -> bool) {
    Irreflexive(less) && Transitive(less) && Trichotomous(less)
  }

  lemma {:induction false} LexIrreflexive<T(!new)>(less: (T, T) -> bool, a: seq<T>)
    ensures !Lex(less, a, a)
    decreases |a|
  {
    if a != [] {
      LexIrreflexive(less, a[1..]);
    }
  }

  lemma {:induction false} LexTransitive<T(!new)>(less: (T, T) -> bool, a: seq<T>, b: seq<T>, c: seq<T>)
    requires StrictTotalOrder(less) && Lex(less, a, b) && Lex(less, b, c)
    ensures Lex(less, a, c)
    decreases |a|
  {
    if a != [] && b != [] && c != [] {
      if a[0] == b[0] == c[0] {
        LexTransitive(less, a[1..], b[1..], c[1..]);
      }
    }
  }

  lemma {:induction false} LexTrichotomous<T(!new)>(less: (T, T) -> bool, a: seq<T>, b: seq<T>)
    requires Trichotomous(less)
    ensures a == b || Lex(less, a, b) || Lex(less, b, a)
    decreases |a|
  {
    if a != [] && b != [] && a[0] == b[0] {
      LexTrichotomous(less, a[1..], b[1..]);
      assert a == [a[0]] + a[1..] && b == [b[0]] + b[1..];
    }
  }

  /** The lexicographic order over a strict total order is a strict total order. */
  lemma LexIsTotal<T(!new)>(less: (T, T) -> bool)
    requires StrictTotalOrder(less)
    ensures StrictTotalOrder((a: seq<T>, b: seq<T>) => Lex(less, a, b))
  {
    var lex := (a: seq<T>, b: seq<T>) => Lex(less, a, b);
    forall a
      ensures !lex(a, a)
    {
      LexIrreflexive(less, a);
    }
    forall a, b, c | lex(a, b) && lex(b, c)
      ensures lex(a, c)
    {
      LexTransitive(less, a, b, c);
    }
    forall a, b
      ensures a == b || lex(a, b) || lex(b, a)
    {
      LexTrichotomous(less, a, b);
    }
  }

  lemma StringTrichotomy(a: string, b: string)
    ensures a == b || StringLess(a, b) || StringLess(b, a)
  {
    LexTrichotomous(CharLess, a, b);
  }

  lemma StringOrders()
    ensures StrictTotalOrder(StringLess) && StrictTotalOrder(StringsLess)
  {
    assert StrictTotalOrder(CharLess);
    LexIsTotal(CharLess);
    var chars := (a: string, b: string) => Lex(CharLess, a, b);
    assert forall a, b :: StringLess(a, b) == chars(a, b);
    LexIsTotal(StringLess);
    var strings := (a: seq<string>, b: seq<string>) => Lex(StringLess, a, b);
    assert forall a, b :: strings(a, b) == StringsLess(a, b);
  }

  // ---------- sorting ----------

  ghost predicate Sorted<T>(less: (T, T) -> bool, s: seq<T>) {
    forall i, j :: 0 <= i < j < |s| ==> !less(s[j], s[i])
  }

  function Insert<T>(less: (T, T) -> bool, x: T, s: seq<T>): (r: seq<T>)
    ensures multiset(r) == multiset{x} + multiset(s)
  {
    if s == [] || !less(s[0], x) then [x] + s
    else
      assert s == [s[0]] + s[1..];
      [s[0]] + Insert(less, x, s[1..])
  }

  /** One sort among the many that `sort.Slice` may be. */
  function Sort<T>(less: (T, T) -> bool, s: seq<T>): (r: seq<T>)
    ensures multiset(r) == multiset(s)
  {
    if s == [] then []
    else
      assert s == [s[0]] + s[1..];
      Insert(less, s[0], Sort(less, s[1..]))
  }

  lemma {:induction false} InsertSorted<T(!new)>(less: (T, T) -> bool, x: T, s: seq<T>)
    requires Irreflexive(less) && Transitive(less) && Weak(less) && Sorted(less, s)
    ensures Sorted(less, Insert(less, x, s))
    decreases |s|
  {
    if s != [] {
      if less(s[0], x) {
        InsertSorted(less, x, s[1..]);
        var rest := Insert(less, x, s[1..]);
        forall j | 0 <= j < |rest|
          ensures !less(rest[j], s[0])
        {
          assert rest[j] in multiset(rest);
          assert rest[j] == x || rest[j] in s[1..];
        }
      } else {
        forall j | 0 <= j < |s|
          ensures !less(s[j], x)
        {
          assert j == 0 || !less(s[j], s[0]);
        }
      }
    }
  }

  /** Not being less is transitive: what a comparator needs for sorting to make sense. */
  ghost predicate Weak<T(!new)>(less: (T, T) -> bool) {
    forall x, y, z :: !less(y, x) && !less(z, y) ==> !less(z, x)
  }

  lemma {:induction false} SortSorts<T(!new)>(less: (T, T) -> bool, s: seq<T>)
    requires Irreflexive(less) && Transitive(less) && Weak(less)
    ensures Sorted(less, Sort(less, s))
    decreases |s|
  {
    if s != [] {
      SortSorts(less, s[1..]);
      InsertSorted(less, s[0], Sort(less, s[1..]));
    }
  }

  lemma TotalIsWeak<T(!new)>(less: (T, T) -> bool)
    requires StrictTotalOrder(less)
    ensures Weak(less)
  {
  }

  /** Distinct elements of the sequence are ordered one way or the other. */
  ghost predicate OrdersAll<T>(less: (T, T) -> bool, s: seq<T>) {
    forall x, y :: x in s && y in s ==> x == y || less(x, y) || less(y, x)
  }

  lemma TailBag<T>(s: seq<T>)
    requires s != []
    ensures multiset(s[1..]) == multiset(s) - multiset{s[0]}
  {
    assert s == [s[0]] + s[1..];
  }

  lemma FirstUnique<T>(less: (T, T) -> bool, a: seq<T>, b: seq<T>)
    requires OrdersAll(less, a) && Sorted(less, a) && Sorted(less, b) && multiset(a) == multiset(b) && a != [] && b != []
    ensures a[0] == b[0]
  {
    assert a[0] in multiset(b) && b[0] in multiset(a);
    var i :| 0 <= i < |b| && b[i] == a[0];
    var j :| 0 <= j < |a| && a[j] == b[0];
    assert i == 0 || !less(b[i], b[0]);
    assert j == 0 || !less(a[j], a[0]);
  }

  lemma TailKeeps<T>(less: (T, T) -> bool, a: seq<T>)
    requires a != [] && Sorted(less, a)
    ensures Sorted(less, a[1..]) && (OrdersAll(less, a) ==> OrdersAll(less, a[1..]))
  {
    assert forall i :: 0 <= i < |a| - 1 ==> a[1..][i] == a[i + 1];
    assert forall x :: x in a[1..] ==> x in a;
  }

  lemma SameTails<T>(less: (T, T) -> bool, a: seq<T>, b: seq<T>)
    requires OrdersAll(less, a) && Sorted(less, a) && Sorted(less, b) && multiset(a) == multiset(b) && a != [] && b != []
    ensures a[0] == b[0] && multiset(a[1..]) == multiset(b[1..])
  {
    FirstUnique(less, a, b);
    TailBag(a);
    TailBag(b);
  }

  lemma SameSize<T>(a: seq<T>, b: seq<T>)
    requires multiset(a) == multiset(b)
    ensures |a| == |b|
  {
    assert |a| == |multiset(a)| && |b| == |multiset(b)|;
  }

  /** Two sorted arrangements of the same elements are equal. */
  lemma {:induction false} SortedUnique<T>(less: (T, T) -> bool, a: seq<T>, b: seq<T>)
    requires OrdersAll(less, a) && Sorted(less, a) && Sorted(less, b) && multiset(a) == multiset(b)
    ensures a == b
    decreases |a|
  {
    SameSize(a, b);
    if a != [] {
      SameTails(less, a, b);
      TailKeeps(less, a);
      TailKeeps(less, b);
      SortedUnique(less, a[1..], b[1..]);
      assert a == [a[0]] + a[1..] && b == [b[0]] + b[1..];
    }
  }

  /** Whatever sort is used, stable or not, it returns this. */
  lemma AnySortAgrees<T(!new)>(less: (T, T) -> bool, s: seq<T>, r: seq<T>)
    requires StrictTotalOrder(less) && Sorted(less, r) && multiset(r) == multiset(s)
    ensures r == Sort(less, s)
  {
    TotalIsWeak(less);
    SortSorts(less, s);
    SortedUnique(less, r, Sort(less, s));
  }

  /** Sorting forgets exactly the order. */
  lemma SortEqualIff<T(!new)>(less: (T, T) -> bool, s: seq<T>, t: seq<T>)
    requires StrictTotalOrder(less)
    ensures Sort(less, s) == Sort(less, t) <==> multiset(s) == multiset(t)
  {
    TotalIsWeak(less);
    SortSorts(less, s);
    if multiset(s) == multiset(t) {
      AnySortAgrees(less, t, Sort(less, s));
    }
  }

  // ---------- mapping over a bag ----------

  function Map<A, B>(f: A -> B, s: seq<A>): (r: seq<B>)
    ensures |r| == |s| && forall i :: 0 <= i < |s| ==> r[i] == f(s[i])
  {
    seq(|s|, i requires 0 <= i < |s| => f(s[i]))
  }

  function RemoveAt<T>(s: seq<T>, j: nat): (r: seq<T>)
    requires j < |s|
    ensures multiset(r) == multiset(s) - multiset{s[j]}
    ensures |r| == |s| - 1 && forall i :: 0 <= i < |r| ==> r[i] == s[if i < j then i else i + 1]
  {
    BagWithout(s, j);
    s[..j] + s[j + 1..]
  }

  lemma BagWithout<T>(s: seq<T>, j: nat)
    requires j < |s|
    ensures multiset(s[..j] + s[j + 1..]) == multiset(s) - multiset{s[j]}
  {
    assert s == s[..j] + [s[j]] + s[j + 1..];
  }

  lemma MapRemoveAt<A, B>(f: A -> B, s: seq<A>, j: nat)
    requires j < |s|
    ensures multiset(Map(f, RemoveAt(s, j))) == multiset(Map(f, s)) - multiset{f(s[j])}
  {
    assert Map(f, RemoveAt(s, j)) == RemoveAt(Map(f, s), j);
  }

  /** The first image has a match on the other side, and the rest still agree. */
  lemma FindMatch<A, B>(f: A -> B, s: seq<A>, t: seq<A>) returns (j: nat)
    requires multiset(Map(f, s)) == multiset(Map(f, t)) && s != []
    ensures |s| == |t| && j < |t| && f(t[j]) == f(s[0])
    ensures multiset(Map(f, RemoveAt(s, 0))) == multiset(Map(f, RemoveAt(t, j)))
  {
    assert |s| == |multiset(Map(f, s))| == |multiset(Map(f, t))| == |t|;
    assert Map(f, s)[0] in multiset(Map(f, t));
    j :| 0 <= j < |t| && Map(f, t)[j] == f(s[0]);
    MapRemoveAt(f, s, 0);
    MapRemoveAt(f, t, j);
  }

  /** If `f` decides `g` then equal bags of `f` give equal bags of `g`. */
  lemma {:induction false} MapBags<A(!new), B(!new), C>(f: A -> B, g: A -> C, s: seq<A>, t: seq<A>)
    requires forall x, y :: f(x) == f(y) ==> g(x) == g(y)
    requires multiset(Map(f, s)) == multiset(Map(f, t))
    ensures multiset(Map(g, s)) == multiset(Map(g, t))
    decreases |s|
  {
    if s == [] {
      assert |t| == |multiset(Map(f, t))| == 0;
    } else {
      var j := FindMatch(f, s, t);
      MapBags(f, g, RemoveAt(s, 0), RemoveAt(t, j));
      MapRemoveAt(g, s, 0);
      MapRemoveAt(g, t, j);
      assert g(s[0]) in multiset(Map(g, s)) by {
        assert Map(g, s)[0] == g(s[0]);
      }
      assert g(t[j]) in multiset(Map(g, t)) by {
        assert Map(g, t)[j] == g(t[j]);
      }
      AddBack(multiset(Map(g, s)), multiset(Map(g, t)), g(s[0]));
    }
  }

  lemma AddBack<T>(a: multiset<T>, b: multiset<T>, x: T)
    requires x in a && x in b && a - multiset{x} == b - multiset{x}
    ensures a == b
  {
    assert a == (a - multiset{x}) + multiset{x};
    assert b == (b - multiset{x}) + multiset{x};
  }

  lemma MapPermuted<A(!new), B>(f: A -> B, s: seq<A>, t: seq<A>)
    requires multiset(s) == multiset(t)
    ensures multiset(Map(f, s)) == multiset(Map(f, t))
  {
    var same := (x: A) => x;
    assert Map(same, s) == s && Map(same, t) == t;
    MapBags(same, f, s, t);
  }

  ghost predicate LinedUp<A, B>(f: A -> B, s: seq<A>, t: seq<A>) {
    |t| == |s| && forall i :: 0 <= i < |s| ==> f(s[i]) == f(t[i])
  }

  /** Equal bags of images can be lined up. */
  lemma {:induction false} PairUp<A, B>(f: A -> B, s: seq<A>, t: seq<A>) returns (t': seq<A>)
    requires multiset(Map(f, s)) == multiset(Map(f, t))
    ensures multiset(t') == multiset(t) && LinedUp(f, s, t')
    decreases |s|
  {
    if s == [] {
      assert |t| == |multiset(Map(f, t))| == 0;
      t' := [];
    } else {
      var j := FindMatch(f, s, t);
      var rest := PairUp(f, RemoveAt(s, 0), RemoveAt(t, j));
      t' := [t[j]] + rest;
      PutBack(t, j, rest);
      LineUpFirst(f, s, t[j], rest);
    }
  }

  lemma LineUpFirst<A, B>(f: A -> B, s: seq<A>, x: A, rest: seq<A>)
    requires s != [] && f(x) == f(s[0]) && LinedUp(f, RemoveAt(s, 0), rest)
    ensures LinedUp(f, s, [x] + rest)
  {
    forall i | 0 <= i < |s|
      ensures f(s[i]) == f(([x] + rest)[i])
    {
      assert i == 0 || s[i] == RemoveAt(s, 0)[i - 1];
    }
  }

  lemma PutBack<T>(t: seq<T>, j: nat, rest: seq<T>)
    requires j < |t| && multiset(rest) == multiset(RemoveAt(t, j))
    ensures multiset([t[j]] + rest) == multiset(t)
  {
    assert t[j] in multiset(t);
  }
}
