/** Stable sorting by a total preorder, and the lexicographic order on node ids.

    Every library sort of the modelled code goes through `SortBy`. The facts that matter are that
    sorting permutes, sorts, and depends on the contents only. */
module Sorting {

  ghost predicate TotalPreorder<T(!new)>(leq: (T, T) -> bool) {
    && (forall a, b :: leq(a, b) || leq(b, a))
    && (forall a, b, c :: leq(a, b) && leq(b, c) ==> leq(a, c))
  }

  ghost predicate SortedBy<T>(s: seq<T>, leq: (T, T) -> bool) {
    forall i, j :: 0 <= i < j < |s| ==> leq(s[i], s[j])
  }

  /** Puts `x` in front of the first element it does not exceed. */
  function Insert<T>(x: T, s: seq<T>, leq: (T, T) -> bool): seq<T> {
    if s == [] then [x]
    else if leq(x, s[0]) then [x] + s
    else [s[0]] + Insert(x, s[1..], leq)
  }

  /** The stable sort of `s`. */
  function SortBy<T>(s: seq<T>, leq: (T, T) -> bool): seq<T> {
    if s == [] then [] else Insert(s[0], SortBy(s[1..], leq), leq)
  }

  lemma {:induction false} InsertPermutes<T>(x: T, s: seq<T>, leq: (T, T) -> bool)
    ensures multiset(Insert(x, s, leq)) == multiset(s) + multiset{x}
  {
    if s != [] {
      assert s == [s[0]] + s[1..];
      if leq(x, s[0]) {
        assert multiset([x] + s) == multiset{x} + multiset(s);
      } else {
        InsertPermutes(x, s[1..], leq);
      }
    }
  }

  lemma {:induction false} SortByPermutes<T>(s: seq<T>, leq: (T, T) -> bool)
    ensures multiset(SortBy(s, leq)) == multiset(s)
    ensures |SortBy(s, leq)| == |s|
    ensures forall x :: x in SortBy(s, leq) <==> x in s
  {
    if s != [] {
      assert s == [s[0]] + s[1..];
      SortByPermutes(s[1..], leq);
      InsertPermutes(s[0], SortBy(s[1..], leq), leq);
    }
    assert |SortBy(s, leq)| == |multiset(SortBy(s, leq))| == |multiset(s)| == |s|;
    forall x ensures x in SortBy(s, leq) <==> x in s { assert x in multiset(SortBy(s, leq)) <==> x in multiset(s); }
  }

  lemma {:induction false} InsertSorted<T(!new)>(x: T, s: seq<T>, leq: (T, T) -> bool)
    requires TotalPreorder(leq)
    requires SortedBy(s, leq)
    ensures SortedBy(Insert(x, s, leq), leq)
  {
    if s != [] && !leq(x, s[0]) {
      var t := Insert(x, s[1..], leq);
      InsertSorted(x, s[1..], leq);
      InsertPermutes(x, s[1..], leq);
      forall y | y in t ensures leq(s[0], y) {
        assert y in multiset(t);
        if y != x { assert y in multiset(s[1..]); assert y in s[1..]; }
      }
    }
  }

  lemma {:induction false} SortBySorted<T(!new)>(s: seq<T>, leq: (T, T) -> bool)
    requires TotalPreorder(leq)
    ensures SortedBy(SortBy(s, leq), leq)
  {
    if s != [] {
      SortBySorted(s[1..], leq);
      InsertSorted(s[0], SortBy(s[1..], leq), leq);
    }
  }

  lemma SameHead<T>(s: seq<T>, t: seq<T>, leq: (T, T) -> bool)
    requires SortedBy(s, leq) && SortedBy(t, leq) && s != [] && t != []
    requires s[0] in t && t[0] in s
    requires forall a, b :: a in s && b in s && leq(a, b) && leq(b, a) ==> a == b
    ensures s[0] == t[0]
  {
    var i :| 0 <= i < |t| && t[i] == s[0];
    var j :| 0 <= j < |s| && s[j] == t[0];
    assert i > 0 ==> leq(t[0], t[i]);
    assert j > 0 ==> leq(s[0], s[j]);
  }

  /** A sorted arrangement is determined by its contents, as soon as no two
      different members compare equal. */
  lemma {:induction false} SortedUnique<T(!new)>(s: seq<T>, t: seq<T>, leq: (T, T) -> bool)
    requires SortedBy(s, leq) && SortedBy(t, leq)
    requires multiset(s) == multiset(t)
    requires forall a, b :: a in s && b in s && leq(a, b) && leq(b, a) ==> a == b
    ensures s == t
  {
    assert |s| == |multiset(s)| == |multiset(t)| == |t|;
    if s != [] {
      assert s[0] in multiset(t) && t[0] in multiset(s);
      SameHead(s, t, leq);
      HeadOut(s);
      HeadOut(t);
      Cancel(multiset(s[1..]), multiset(t[1..]), s[0]);
      SortedUnique(s[1..], t[1..], leq);
      assert s == [s[0]] + s[1..] && t == [t[0]] + t[1..];
    }
  }

  /** Sorting depends on the contents only. */
  lemma SortCanonical<T(!new)>(s: seq<T>, t: seq<T>, leq: (T, T) -> bool)
    requires TotalPreorder(leq)
    requires multiset(s) == multiset(t)
    requires forall a, b :: a in s && b in s && leq(a, b) && leq(b, a) ==> a == b
    ensures SortBy(s, leq) == SortBy(t, leq)
  {
    SortBySorted(s, leq);
    SortBySorted(t, leq);
    SortByPermutes(s, leq);
    SortByPermutes(t, leq);
    SortedUnique(SortBy(s, leq), SortBy(t, leq), leq);
  }

  function Map<T, U>(f: T -> U, s: seq<T>): (r: seq<U>)
    ensures |r| == |s|
    ensures forall i :: 0 <= i < |s| ==> r[i] == f(s[i])
  {
    seq(|s|, i requires 0 <= i < |s| => f(s[i]))
  }

  lemma MapAgrees<T, U>(f: T -> U, g: T -> U, s: seq<T>)
    requires forall i :: 0 <= i < |s| ==> f(s[i]) == g(s[i])
    ensures Map(f, s) == Map(g, s)
  {
  }

  lemma {:induction false} InsertMap<T, U>(x: T, s: seq<T>, f: T -> U, leqT: (T, T) -> bool, leqU: (U, U) -> bool)
    requires forall a, b :: (a == x || a in s) && (b == x || b in s) ==> leqT(a, b) == leqU(f(a), f(b))
    ensures Map(f, Insert(x, s, leqT)) == Insert(f(x), Map(f, s), leqU)
  {
    if s == [] {
    } else if leqT(x, s[0]) {
      assert Map(f, [x] + s) == [f(x)] + Map(f, s);
    } else {
      InsertMap(x, s[1..], f, leqT, leqU);
      assert Map(f, s)[1..] == Map(f, s[1..]);
      var rest := Insert(x, s[1..], leqT);
      assert Map(f, [s[0]] + rest) == [f(s[0])] + Map(f, rest);
    }
  }

  /** Sorting elements by a key and then projecting is sorting the keys. */
  lemma {:induction false} SortMap<T, U>(s: seq<T>, f: T -> U, leqT: (T, T) -> bool, leqU: (U, U) -> bool)
    requires forall a, b :: a in s && b in s ==> leqT(a, b) == leqU(f(a), f(b))
    ensures Map(f, SortBy(s, leqT)) == SortBy(Map(f, s), leqU)
  {
    if s != [] {
      SortMap(s[1..], f, leqT, leqU);
      assert Map(f, s)[1..] == Map(f, s[1..]);
      var t := SortBy(s[1..], leqT);
      SortByPermutes(s[1..], leqT);
      InsertMap(s[0], t, f, leqT, leqU);
    }
  }

  lemma MapSplit<T, U>(a: seq<T>, x: T, b: seq<T>, f: T -> U)
    ensures multiset(Map(f, a + [x] + b)) == multiset(Map(f, a + b)) + multiset{f(x)}
  {
    assert Map(f, a + [x] + b) == Map(f, a) + [f(x)] + Map(f, b);
    assert Map(f, a + b) == Map(f, a) + Map(f, b);
  }

  lemma Middle<T>(a: seq<T>, x: T, b: seq<T>)
    ensures multiset(a + [x] + b) == multiset(a + b) + multiset{x}
  {
    assert multiset(a + [x] + b) == multiset(a) + multiset{x} + multiset(b);
    assert multiset(a + b) == multiset(a) + multiset(b);
  }

  lemma Cancel<T(!new)>(m: multiset<T>, m': multiset<T>, x: T)
    requires m + multiset{x} == m' + multiset{x}
    ensures m == m'
  {
    forall y ensures m[y] == m'[y] { assert (m + multiset{x})[y] == (m' + multiset{x})[y]; }
  }

  /** Two arrangements of one multiset: the second one with the head of the first taken out. */
  lemma TakeOut<T(!new)>(s: seq<T>, t: seq<T>) returns (k: nat)
    requires s != [] && multiset(s) == multiset(t)
    ensures k < |t| && t[k] == s[0]
    ensures multiset(s[1..]) == multiset(t[..k] + t[k+1..])
  {
    assert s[0] in multiset(t);
    k :| 0 <= k < |t| && t[k] == s[0];
    TakenOut(s, t, k);
  }

  lemma TakenOut<T(!new)>(s: seq<T>, t: seq<T>, k: nat)
    requires s != [] && multiset(s) == multiset(t) && k < |t| && t[k] == s[0]
    ensures multiset(s[1..]) == multiset(t[..k] + t[k+1..])
  {
    HeadOut(s);
    OneOut(t, k);
    Cancel(multiset(s[1..]), multiset(t[..k] + t[k+1..]), s[0]);
  }

  lemma Cut<T>(s: seq<T>, i: nat, j: nat)
    requires i < j < |s|
    ensures s == s[..i] + [s[i]] + s[i+1..j] + [s[j]] + s[j+1..]
  {
    assert s == s[..j] + [s[j]] + s[j+1..];
    assert s[..j] == s[..i] + [s[i]] + s[i+1..j];
  }

  lemma TwiceIn<T>(s: seq<T>, i: nat, j: nat)
    requires i < j < |s| && s[i] == s[j]
    ensures multiset(s)[s[i]] >= 2
  {
    Cut(s, i, j);
  }

  lemma HeadOut<T>(s: seq<T>)
    requires s != []
    ensures multiset(s) == multiset(s[1..]) + multiset{s[0]}
  {
    assert s == [s[0]] + s[1..];
  }

  lemma OneOut<T>(t: seq<T>, k: nat)
    requires k < |t|
    ensures multiset(t) == multiset(t[..k] + t[k+1..]) + multiset{t[k]}
  {
    Middle(t[..k], t[k], t[k+1..]);
    assert t[..k] + [t[k]] + t[k+1..] == t;
  }

  lemma {:induction false} MultisetMap<T(!new), U>(s: seq<T>, t: seq<T>, f: T -> U)
    requires multiset(s) == multiset(t)
    ensures multiset(Map(f, s)) == multiset(Map(f, t))
  {
    if s == [] {
      assert |t| == |multiset(t)|;
      assert Map(f, s) == Map(f, t);
    } else {
      var k := TakeOut(s, t);
      MultisetMap(s[1..], t[..k] + t[k+1..], f);
      assert [] + [s[0]] + s[1..] == s && [] + s[1..] == s[1..];
      MapSplit([], s[0], s[1..], f);
      assert t[..k] + [t[k]] + t[k+1..] == t;
      MapSplit(t[..k], t[k], t[k+1..], f);
    }
  }

  lemma {:induction false} Smallest(s: set<nat>) returns (m: nat)
    requires s != {}
    ensures m in s && forall k :: k in s ==> m <= k
    decreases s
  {
    var x :| x in s;
    var rest := s - {x};
    m := x;
    if rest != {} {
      var k := Smallest(rest);
      if k < x { m := k; }
    }
    assert s == rest + {x};
  }

  /** Node ids are strings compared character by character. */
  type NodeId = string

  predicate LexLeq(a: string, b: string) {
    a == [] || (b != [] && (a[0] < b[0] || (a[0] == b[0] && LexLeq(a[1..], b[1..]))))
  }

  lemma {:induction false} LexTotal(a: string, b: string)
    ensures LexLeq(a, b) || LexLeq(b, a)
    ensures LexLeq(a, b) && LexLeq(b, a) ==> a == b
  {
    if a != [] && b != [] {
      LexTotal(a[1..], b[1..]);
      assert a == [a[0]] + a[1..] && b == [b[0]] + b[1..];
    }
  }

  lemma {:induction false} LexTransitive(a: string, b: string, c: string)
    requires LexLeq(a, b) && LexLeq(b, c)
    ensures LexLeq(a, c)
  {
    if a != [] && a[0] == b[0] && b[0] == c[0] { LexTransitive(a[1..], b[1..], c[1..]); }
  }

  /** The strings agree up to some character, and there the first has the smaller one. */
  ghost predicate FirstLower(a: string, b: string) {
    exists k :: 0 <= k < |a| && k < |b| && a[..k] == b[..k] && a[k] < b[k]
  }

  lemma LowerBehind(c: char, a: string, b: string)
    requires FirstLower(a, b)
    ensures FirstLower([c] + a, [c] + b)
  {
    var k :| 0 <= k < |a| && k < |b| && a[..k] == b[..k] && a[k] < b[k];
    var x, y := [c] + a, [c] + b;
    assert x[..k+1] == [c] + a[..k] && y[..k+1] == [c] + b[..k];
    assert x[k+1] == a[k] && y[k+1] == b[k];
  }

  lemma LowerAfter(c: char, a: string, b: string)
    requires FirstLower([c] + a, [c] + b)
    ensures FirstLower(a, b)
  {
    var x, y := [c] + a, [c] + b;
    var k :| 0 <= k < |x| && k < |y| && x[..k] == y[..k] && x[k] < y[k];
    assert x[0] == y[0] == c;
    assert a == x[1..] && b == y[1..] && k > 0;
    assert a[..k-1] == x[..k][1..] && b[..k-1] == y[..k][1..];
    assert a[k-1] == x[k] && b[k-1] == y[k];
  }

  lemma PrefixBehind(c: char, a: string, b: string)
    ensures [c] + a <= [c] + b <==> a <= b
  {
    var x, y := [c] + a, [c] + b;
    assert a == x[1..] && b == y[1..];
    if x <= y { assert x == y[..|x|] && a == y[..|x|][1..]; }
  }

  lemma HeadsDiffer(a: string, b: string)
    requires a != [] && b != [] && a[0] != b[0]
    ensures !(a <= b) && (FirstLower(a, b) <==> a[0] < b[0])
  {
    assert a[..0] == b[..0];
    assert forall k :: 0 < k < |a| && k < |b| && a[..k] == b[..k] ==> a[..k][0] == b[..k][0];
  }

  /** Dictionary order: a prefix comes first, else the first character that differs decides. */
  lemma {:induction false} LexIff(a: string, b: string)
    ensures LexLeq(a, b) <==> a <= b || FirstLower(a, b)
  {
    if a != [] && b != [] {
      if a[0] == b[0] {
        LexIff(a[1..], b[1..]);
        var c, x, y := a[0], a[1..], b[1..];
        assert a == [c] + x && b == [c] + y;
        PrefixBehind(c, x, y);
        if FirstLower(x, y) { LowerBehind(c, x, y); }
        if FirstLower(a, b) { LowerAfter(c, x, y); }
      } else {
        HeadsDiffer(a, b);
      }
    }
  }

  lemma LexOrder()
    ensures TotalPreorder(LexLeq)
    ensures forall a, b :: LexLeq(a, b) && LexLeq(b, a) ==> a == b
  {
    forall a, b ensures LexLeq(a, b) || LexLeq(b, a) { LexTotal(a, b); }
    forall a, b | LexLeq(a, b) && LexLeq(b, a) ensures a == b { LexTotal(a, b); }
    forall a, b, c | LexLeq(a, b) && LexLeq(b, c) ensures LexLeq(a, c) { LexTransitive(a, b, c); }
  }
}
