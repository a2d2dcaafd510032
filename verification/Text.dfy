/** Strings as sequences of characters: splitting, joining, and the two-part keys built from them. */
module Text {

  datatype Option<+T> = None | Some(value: T)

  /** The parts of `s` between occurrences of `sep`; one empty part for the empty string. */
  function Split(s: string, sep: char): (parts: seq<string>)
    ensures |parts| >= 1
  {
    if s == "" then
      [""]
    else
      var rest := Split(s[1..], sep);
      if s[0] == sep then [""] + rest else [[s[0]] + rest[0]] + rest[1..]
  }

  function Join(parts: seq<string>, sep: char): string {
    if |parts| == 0 then ""
    else if |parts| == 1 then parts[0]
    else parts[0] + [sep] + Join(parts[1..], sep)
  }

  lemma {:induction false} SplitPartsFree(s: string, sep: char)
    ensures forall p <- Split(s, sep) :: sep !in p
  {
    if s != "" {
      SplitPartsFree(s[1..], sep);
      assert Split(s[1..], sep)[0] in Split(s[1..], sep);
    }
  }

  lemma {:induction false} SplitAtFirst(a: string, sep: char, b: string)
    requires sep !in a
    ensures Split(a + [sep] + b, sep) == [a] + Split(b, sep)
    decreases a
  {
    var s := a + [sep] + b;
    if a == "" {
      assert s[1..] == b;
    } else {
      assert s[1..] == a[1..] + [sep] + b;
      SplitAtFirst(a[1..], sep, b);
      assert [a[0]] + a[1..] == a;
    }
  }

  lemma {:induction false} SplitConcat(a: string, sep: char, b: string)
    ensures Split(a + [sep] + b, sep) == Split(a, sep) + Split(b, sep)
    decreases a
  {
    if a == "" {
      SplitAtFirst("", sep, b);
    } else {
      var s := a + [sep] + b;
      assert s[0] == a[0] && s[1..] == a[1..] + [sep] + b;
      SplitConcat(a[1..], sep, b);
      var x, y := Split(a[1..], sep), Split(b, sep);
      assert Split(s[1..], sep) == x + y;
      if a[0] == sep {
        assert Split(s, sep) == [""] + (x + y);
        assert Split(a, sep) == [""] + x;
        assert [""] + (x + y) == ([""] + x) + y;
      } else {
        HeadOfConcat(x, y);
        var head := [[a[0]] + x[0]];
        assert Split(s, sep) == head + (x[1..] + y);
        assert Split(a, sep) == head + x[1..];
        assert head + (x[1..] + y) == (head + x[1..]) + y;
      }
    }
  }

  lemma HeadOfConcat(a: seq<string>, b: seq<string>)
    requires a != []
    ensures (a + b)[0] == a[0] && (a + b)[1..] == a[1..] + b
  {
  }

  lemma {:induction false} SplitWithout(a: string, sep: char)
    requires sep !in a
    ensures Split(a, sep) == [a]
    decreases a
  {
    if a != "" {
      SplitWithout(a[1..], sep);
      assert [a[0]] + a[1..] == a;
    }
  }

  lemma {:induction false} SplitAfterJoin(parts: seq<string>, sep: char)
    requires parts != []
    requires forall p <- parts :: sep !in p
    ensures Split(Join(parts, sep), sep) == parts
  {
    if |parts| == 1 {
      SplitWithout(parts[0], sep);
    } else {
      SplitAfterJoin(parts[1..], sep);
      SplitAtFirst(parts[0], sep, Join(parts[1..], sep));
    }
  }

  /** Of two non-empty part lists, only equal ones join to the same string. */
  lemma JoinInjective(a: seq<string>, b: seq<string>, sep: char)
    requires a != [] && b != []
    requires forall p <- a + b :: sep !in p
    requires Join(a, sep) == Join(b, sep)
    ensures a == b
  {
    forall p | p in a ensures sep !in p { assert p in a + b; }
    forall p | p in b ensures sep !in p { assert p in a + b; }
    SplitAfterJoin(a, sep);
    SplitAfterJoin(b, sep);
  }

  lemma {:induction false} JoinWithout(parts: seq<string>, sep: char, c: char)
    requires c != sep
    requires forall p <- parts :: c !in p
    ensures c !in Join(parts, sep)
  {
    if |parts| > 1 {
      JoinWithout(parts[1..], sep, c);
    }
  }

  lemma SeparatorFurtherRight(a: string, x: string, b: string, y: string, sep: char)
    requires |a| < |b|
    requires a + [sep] + x == b + [sep] + y
    ensures sep in x
  {
    assert (a + [sep] + x)[|b|] == sep == x[|b| - |a| - 1];
  }

  lemma SeparatorInside(a: string, x: string, b: string, y: string, sep: char)
    requires |a| < |b|
    requires a + [sep] + x == b + [sep] + y
    ensures sep in b
  {
    assert (b + [sep] + y)[|a|] == sep == b[|a|];
  }

  /** A separator absent from the left-hand sides pins down where each string splits. */
  lemma FirstSeparator(a: string, x: string, b: string, y: string, sep: char)
    requires sep !in a && sep !in b
    requires a + [sep] + x == b + [sep] + y
    ensures a == b && x == y
  {
    if |a| < |b| { SeparatorInside(a, x, b, y, sep); }
    if |b| < |a| { SeparatorInside(b, y, a, x, sep); }
    var s := a + [sep] + x;
    assert a == s[..|a|] == b;
    assert x == s[|a| + 1..] == y;
  }

  /** A separator absent from the right-hand sides pins down where each string splits. */
  lemma LastSeparator(a: string, x: string, b: string, y: string, sep: char)
    requires sep !in x && sep !in y
    requires a + [sep] + x == b + [sep] + y
    ensures a == b && x == y
  {
    var s := a + [sep] + x;
    if |a| < |b| { SeparatorFurtherRight(a, x, b, y, sep); }
    if |b| < |a| { SeparatorFurtherRight(b, y, a, x, sep); }
    assert a == s[..|a|] == b;
    assert x == s[|a| + 1..] == y;
  }

  /** Decimal digits, as String(n) prints them. */
  function Decimal(n: nat): (s: string)
    ensures s != ""
    ensures forall c <- s :: '0' <= c <= '9'
  {
    var digit := [('0' as int + n % 10) as char];
    if n < 10 then digit else Decimal(n / 10) + digit
  }

  lemma {:induction false} DecimalInjective(m: nat, n: nat)
    requires Decimal(m) == Decimal(n)
    ensures m == n
  {
    var s, t := Decimal(m), Decimal(n);
    assert s[|s| - 1] == ('0' as int + m % 10) as char;
    assert t[|t| - 1] == ('0' as int + n % 10) as char;
    assert m % 10 == n % 10;
    assert |s| == 1 <==> m < 10;
    assert |t| == 1 <==> n < 10;
    if m >= 10 {
      assert Decimal(m / 10) == s[..|s| - 1] == Decimal(n / 10);
      DecimalInjective(m / 10, n / 10);
    }
  }
}
