/** Strings in the order the server lists them in, and the sort it lists them with. */
module Ordering {

  /** Character by character, a prefix before what it begins. */
  predicate AtMost(a: string, b: string) {
    a == "" || (b != "" && (a[0] < b[0] || (a[0] == b[0] && AtMost(a[1..], b[1..]))))
  }

  lemma {:induction false} Total(a: string, b: string)
    ensures AtMost(a, b) || AtMost(b, a)
    ensures AtMost(a, b) && AtMost(b, a) ==> a == b
  {
    if a == "" || b == "" {
    } else {
      Total(a[1..], b[1..]);
      assert a == [a[0]] + a[1..] && b == [b[0]] + b[1..];
    }
  }

  lemma {:induction false} Transitive(a: string, b: string, c: string)
    requires AtMost(a, b) && AtMost(b, c)
    ensures AtMost(a, c)
  {
    if a == "" {
    } else if a[0] == b[0] && b[0] == c[0] {
      Transitive(a[1..], b[1..], c[1..]);
    }
  }

  /** They agree up to here, and here the first has the smaller character. */
  ghost predicate FirstDiffer(a: string, b: string, i: nat) {
    i < |a| && i < |b| && a[i] < b[i] && forall j | 0 <= j < i :: a[j] == b[j]
  }

  /** Where two strings first differ the smaller character comes first, and what one begins with comes before it. */
  lemma {:induction false} AtMostIs(a: string, b: string)
    ensures AtMost(a, b) <==> a <= b || exists i: nat :: FirstDiffer(a, b, i)
  {
    if a == "" || b == "" {
    } else if a[0] == b[0] {
      AtMostIs(a[1..], b[1..]);
      assert a == [a[0]] + a[1..] && b == [b[0]] + b[1..];
      OneFurther(a, b);
    } else if a[0] < b[0] {
      assert FirstDiffer(a, b, 0);
    }
  }

  lemma OneFurther(a: string, b: string)
    requires a != "" && b != "" && a[0] == b[0]
    ensures (exists i: nat :: FirstDiffer(a[1..], b[1..], i)) <==> exists i: nat :: FirstDiffer(a, b, i)
  {
    if i: nat :| FirstDiffer(a[1..], b[1..], i) {
      forall j | 0 <= j < i + 1 ensures a[j] == b[j] {
        if j > 0 { assert a[1..][j - 1] == b[1..][j - 1]; }
      }
      assert FirstDiffer(a, b, i + 1);
    }
    if i: nat :| FirstDiffer(a, b, i) {
      assert i > 0 && FirstDiffer(a[1..], b[1..], i - 1);
    }
  }

  ghost predicate Ascending(s: seq<string>) {
    forall i, j | 0 <= i < j < |s| :: AtMost(s[i], s[j])
  }

  ghost predicate Distinct<T>(s: seq<T>) {
    forall i, j | 0 <= i < j < |s| :: s[i] != s[j]
  }

  function Insert(s: seq<string>, x: string): seq<string> {
    if s == [] then [x] else if AtMost(x, s[0]) then [x] + s else [s[0]] + Insert(s[1..], x)
  }

  function Sort(s: seq<string>): seq<string> {
    if s == [] then [] else Insert(Sort(s[1..]), s[0])
  }

  lemma {:induction false} Inserted(s: seq<string>, x: string)
    requires Ascending(s)
    ensures Ascending(Insert(s, x)) && multiset(Insert(s, x)) == multiset(s) + multiset{x}
  {
    if s == [] {
    } else if AtMost(x, s[0]) {
      forall j | 0 <= j < |s| ensures AtMost(x, s[j]) {
        if j > 0 { Transitive(x, s[0], s[j]); }
      }
    } else {
      Total(x, s[0]);
      Inserted(s[1..], x);
      var rest := Insert(s[1..], x);
      assert s == [s[0]] + s[1..];
      forall j | 0 <= j < |rest| ensures AtMost(s[0], rest[j]) {
        assert rest[j] in multiset(rest);
        assert rest[j] == x || rest[j] in s[1..];
      }
    }
  }

  /** The same strings, in order. */
  lemma {:induction false} Sorted(s: seq<string>)
    ensures Ascending(Sort(s)) && multiset(Sort(s)) == multiset(s)
  {
    if s != [] {
      Sorted(s[1..]);
      Inserted(Sort(s[1..]), s[0]);
      assert s == [s[0]] + s[1..];
    }
  }

  lemma {:induction false} DistinctCounts<T>(s: seq<T>, x: T)
    ensures Distinct(s) ==> multiset(s)[x] <= 1
    ensures x in s <==> multiset(s)[x] >= 1
  {
    if s == [] {
    } else {
      assert s == [s[0]] + s[1..];
      assert multiset(s) == multiset{s[0]} + multiset(s[1..]);
      DistinctCounts(s[1..], x);
    }
  }

  lemma RepeatCounts<T>(s: seq<T>, i: nat, j: nat)
    requires i < j < |s| && s[i] == s[j]
    ensures multiset(s)[s[i]] >= 2
  {
    assert s == s[..j] + s[j..];
    assert s[i] in s[..j] && s[j] in s[j..];
  }

  lemma CountsDistinct<T>(s: seq<T>)
    requires forall x :: multiset(s)[x] <= 1
    ensures Distinct(s)
  {
    forall i, j | 0 <= i < j < |s| ensures s[i] != s[j] {
      if s[i] == s[j] {
        RepeatCounts(s, i, j);
      }
    }
  }

  lemma HasFirst<T>(s: seq<T>)
    ensures s != [] ==> exists x :: x in s
  {
    if s != [] { assert s[0] in s; }
  }

  lemma SortKeepsDistinct(s: seq<string>)
    requires Distinct(s)
    ensures Distinct(Sort(s)) && (forall x :: x in Sort(s) <==> x in s) && |Sort(s)| == |s|
  {
    Sorted(s);
    forall x: string ensures multiset(Sort(s))[x] <= 1 && (x in Sort(s) <==> x in s) {
      DistinctCounts(s, x);
      DistinctCounts(Sort(s), x);
    }
    CountsDistinct(Sort(s));
    assert |multiset(Sort(s))| == |multiset(s)|;
  }

  lemma TailOf<T>(s: seq<T>)
    requires Distinct(s) && s != []
    ensures forall x :: x in s[1..] <==> x in s && x != s[0]
  {
    assert s == [s[0]] + s[1..];
  }

  /** One order only: ascending lists of the same strings, none twice, are the same list. */
  lemma {:induction false} OneOrder(a: seq<string>, b: seq<string>)
    requires Ascending(a) && Ascending(b) && Distinct(a) && Distinct(b)
    requires forall x :: x in a <==> x in b
    ensures a == b
  {
    if a == [] {
      HasFirst(b);
    } else {
      assert a[0] in a && a[0] in b;
      assert b[0] in b && b[0] in a;
      Total(a[0], b[0]);
      var i :| 0 <= i < |b| && b[i] == a[0];
      var j :| 0 <= j < |a| && a[j] == b[0];
      assert a[0] == b[0];
      TailOf(a);
      TailOf(b);
      OneOrder(a[1..], b[1..]);
      assert a == [a[0]] + a[1..] && b == [b[0]] + b[1..];
    }
  }
}
