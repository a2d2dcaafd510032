/** The lexicographic order of Python strings and tuples of strings, and sorted listings of sets. */
module Ordering {

  predicate Less(a: string, b: string) {
    if b == "" then false
    else if a == "" then true
    else a[0] < b[0] || (a[0] == b[0] && Less(a[1..], b[1..]))
  }

  predicate TupleLess(a: seq<string>, b: seq<string>) {
    if b == [] then false
    else if a == [] then true
    else Less(a[0], b[0]) || (a[0] == b[0] && TupleLess(a[1..], b[1..]))
  }

  lemma {:induction false} LessTotal(a: string, b: string)
    ensures a == b || Less(a, b) || Less(b, a)
    ensures !(Less(a, b) && Less(b, a)) && !Less(a, a)
  {
    if a != "" && b != "" {
      LessTotal(a[1..], b[1..]);
      LessTotal(a[1..], a[1..]);
      assert a == [a[0]] + a[1..] && b == [b[0]] + b[1..];
    } else if a != "" {
      LessTotal(a[1..], a[1..]);
    }
  }

  lemma {:induction false} LessTransitive(a: string, b: string, c: string)
    requires Less(a, b) && Less(b, c)
    ensures Less(a, c)
  {
    if a != "" && a[0] == b[0] == c[0] {
      LessTransitive(a[1..], b[1..], c[1..]);
    }
  }

  lemma {:induction false} TupleLessTotal(a: seq<string>, b: seq<string>)
    ensures a == b || TupleLess(a, b) || TupleLess(b, a)
    ensures !(TupleLess(a, b) && TupleLess(b, a)) && !TupleLess(a, a)
  {
    if a != [] {
      LessTotal(a[0], a[0]);
      TupleLessTotal(a[1..], a[1..]);
      if b != [] {
        LessTotal(a[0], b[0]);
        TupleLessTotal(a[1..], b[1..]);
        assert a == [a[0]] + a[1..] && b == [b[0]] + b[1..];
      }
    }
  }

  lemma {:induction false} TupleLessTransitive(a: seq<string>, b: seq<string>, c: seq<string>)
    requires TupleLess(a, b) && TupleLess(b, c)
    ensures TupleLess(a, c)
  {
    if a != [] {
      if Less(a[0], b[0]) && Less(b[0], c[0]) {
        LessTransitive(a[0], b[0], c[0]);
      } else if a[0] == b[0] && b[0] == c[0] {
        TupleLessTransitive(a[1..], b[1..], c[1..]);
      }
    }
  }

  predicate StrictlySorted(xs: seq<seq<string>>) {
    forall i, j :: 0 <= i < j < |xs| ==> TupleLess(xs[i], xs[j])
  }

  predicate IsLeast(m: seq<string>, s: set<seq<string>>) {
    m in s && forall x <- s :: x == m || TupleLess(m, x)
  }

  lemma {:induction false} LeastExists(s: set<seq<string>>) returns (m: seq<string>)
    requires s != {}
    ensures IsLeast(m, s)
    decreases s
  {
    m :| m in s;
    if s != {m} {
      var n := LeastExists(s - {m});
      TupleLessTotal(m, n);
      if TupleLess(n, m) {
        forall x | x in s ensures x == n || TupleLess(n, x) {
          assert x == m || x in s - {m};
        }
        m := n;
      } else {
        forall x | x in s ensures x == m || TupleLess(m, x) {
          if x != m {
            assert x in s - {m};
            if x != n { TupleLessTransitive(m, n, x); }
          }
        }
      }
    }
  }

  /** The elements of `s` in ascending order: what sorted() lists. */
  function Sorted(s: set<seq<string>>): (xs: seq<seq<string>>)
    ensures forall x :: x in xs <==> x in s
    ensures StrictlySorted(xs)
    decreases s
  {
    if s == {} then
      []
    else
      assert exists m :: IsLeast(m, s) by { var m := LeastExists(s); }
      LeastUnique(s);
      var m :| m in s && IsLeast(m, s);
      [m] + Sorted(s - {m})
  }

  lemma LeastUnique(s: set<seq<string>>)
    ensures forall m, n :: IsLeast(m, s) && IsLeast(n, s) ==> m == n
  {
    forall m, n | IsLeast(m, s) && IsLeast(n, s) ensures m == n {
      TupleLessTotal(m, n);
    }
  }

  /** Keeping some elements of a sorted listing is the sorted listing of those elements. */
  function Filter(xs: seq<seq<string>>, keep: set<seq<string>>): (ys: seq<seq<string>>)
    ensures forall x :: x in ys <==> x in xs && x in keep
  {
    if xs == [] then []
    else Filter(xs[..|xs| - 1], keep) + if xs[|xs| - 1] in keep then [xs[|xs| - 1]] else []
  }

  lemma {:induction false} FilterSorted(xs: seq<seq<string>>, keep: set<seq<string>>)
    requires StrictlySorted(xs)
    ensures StrictlySorted(Filter(xs, keep))
  {
    if xs != [] {
      var front := xs[..|xs| - 1];
      FilterSorted(front, keep);
      var ys := Filter(front, keep);
      forall i | 0 <= i < |ys| ensures TupleLess(ys[i], xs[|xs| - 1]) {
        assert ys[i] in front;
      }
    }
  }

  lemma FilterOfSorted(s: set<seq<string>>, keep: set<seq<string>>)
    ensures Filter(Sorted(s), keep) == Sorted(s * keep)
  {
    FilterSorted(Sorted(s), keep);
    SortedUnique(Filter(Sorted(s), keep), Sorted(s * keep));
  }

  /** A strictly ascending list is determined by its elements. */
  lemma {:induction false} SortedUnique(xs: seq<seq<string>>, ys: seq<seq<string>>)
    requires StrictlySorted(xs) && StrictlySorted(ys)
    requires forall x :: x in xs <==> x in ys
    ensures xs == ys
    decreases |xs|
  {
    assert ys != [] ==> ys[0] in ys;
    if xs != [] {
      assert xs[0] in ys;
      assert ys[0] in xs;
      var i :| 0 <= i < |ys| && ys[i] == xs[0];
      var j :| 0 <= j < |xs| && xs[j] == ys[0];
      if i > 0 {
        assert TupleLess(ys[0], xs[0]);
        if j > 0 { assert TupleLess(xs[0], ys[0]); }
        TupleLessTotal(xs[0], ys[0]);
      }
      assert xs[0] == ys[0];
      forall x ensures x in xs[1..] <==> x in ys[1..] {
        TupleLessTotal(xs[0], xs[0]);
        if x in xs[1..] {
          var k :| 1 <= k < |xs| && xs[k] == x;
          assert TupleLess(xs[0], x);
          assert x in ys;
        }
        if x in ys[1..] {
          var k :| 1 <= k < |ys| && ys[k] == x;
          assert TupleLess(ys[0], x);
          assert x in xs;
        }
      }
      SortedUnique(xs[1..], ys[1..]);
    }
  }

  lemma {:induction false} SortedDistinct(xs: seq<seq<string>>)
    requires StrictlySorted(xs)
    ensures forall i, j :: 0 <= i < j < |xs| ==> xs[i] != xs[j]
  {
    forall i, j | 0 <= i < j < |xs| ensures xs[i] != xs[j] {
      TupleLessTotal(xs[i], xs[j]);
    }
  }

  predicate NoRepeats(xs: seq<seq<string>>) {
    xs == [] || (xs[|xs| - 1] !in xs[..|xs| - 1] && NoRepeats(xs[..|xs| - 1]))
  }

  lemma {:induction false} SortedNoRepeats(xs: seq<seq<string>>)
    requires StrictlySorted(xs)
    ensures NoRepeats(xs)
  {
    if xs != [] {
      SortedDistinct(xs);
      SortedNoRepeats(xs[..|xs| - 1]);
    }
  }

  lemma NoRepeatsFront(xs: seq<seq<string>>)
    requires xs != [] && NoRepeats(xs)
    ensures NoRepeats(xs[..|xs| - 1]) && xs[|xs| - 1] !in xs[..|xs| - 1]
  {
  }

  lemma EmptyListing(s: set<seq<string>>)
    ensures Sorted(s) == [] <==> s == {}
  {
    if s != {} {
      var x :| x in s;
      assert x in Sorted(s);
    }
  }

  lemma FilterNone(xs: seq<seq<string>>)
    ensures forall keep :: Filter(xs[..0], keep) == []
  {
  }

  lemma FilterNext(xs: seq<seq<string>>, i: nat, keep: set<seq<string>>)
    requires i < |xs|
    ensures Filter(xs[..i + 1], keep) == Filter(xs[..i], keep) + if xs[i] in keep then [xs[i]] else []
  {
    assert xs[..i + 1][..i] == xs[..i];
  }
}
