/**
 * The vector index behind the rubbish and blocked lists (desktop/similarity.js).
 *
 * Vectors hold the trigram counts before normalisation, and similarities are carried as the square
 * of the cosine, an exact rational. All cosines here are non-negative, so squaring keeps their order
 * and the thresholds 0.85 and 0.90 become 0.7225 and 0.81.
 */
module Similarity {
  import opened Text

  const DIM: nat := 256
  const THRESHOLD: real := 0.7225
  const STRICT_THRESHOLD: real := 0.81

  /** The white space of JavaScript's \s and trim(). */
  predicate IsSpace(c: char) {
    var n := c as int;
    9 <= n <= 13 || n == 32 || n == 0xA0 || n == 0x1680 || 0x2000 <= n <= 0x200A || n == 0x2028 || n == 0x2029
    || n == 0x202F || n == 0x205F || n == 0x3000 || n == 0xFEFF
  }

  function LowerChar(c: char): char {
    if 'A' <= c <= 'Z' then (c as int + 32) as char else c
  }

  function SkipSpaces(s: string): (t: string)
    ensures |t| <= |s|
  {
    if s != "" && IsSpace(s[0]) then SkipSpaces(s[1..]) else s
  }

  /** Lower case, every run of white space made one blank. */
  function Fold(s: string): string
    decreases |s|
  {
    if s == "" then ""
    else if IsSpace(s[0]) then " " + Fold(SkipSpaces(s[1..]))
    else [LowerChar(s[0])] + Fold(s[1..])
  }

  function Normalize(text: string): string {
    " " + Fold(text) + " "
  }

  /** One step of FNV-1a over UTF-16 code units, 32 bits wide. */
  function Mix(h: bv32, c: char): bv32 {
    (h ^ (c as int % 0x10000) as bv32) * 16777619
  }

  function Fnv(h: bv32, s: string): bv32
    decreases s
  {
    if s == "" then h
    else Fnv(Mix(h, s[0]), s[1..])
  }

  function Slot(h: bv32): (b: nat)
    ensures b < DIM
  {
    h as nat % DIM
  }

  function Bucket(trigram: string): (b: nat)
    ensures b < DIM
  {
    Slot(Fnv(2166136261, trigram))
  }

  /** How many of the first `n` trigrams of `s` fall in bucket `k`. */
  function CountIn(s: string, k: nat, n: nat): nat
    requires n == 0 || n + 2 <= |s|
  {
    if n == 0 then 0
    else CountIn(s, k, n - 1) + if Bucket(s[n - 1..n + 2]) == k then 1 else 0
  }

  function Trigrams(s: string): nat {
    if |s| < 3 then 0 else |s| - 2
  }

  /** The count vector of `text`. */
  ghost function Counts(text: string): (v: seq<nat>)
    ensures |v| == DIM
  {
    var s := Normalize(text);
    seq(DIM, k requires 0 <= k => CountIn(s, k, Trigrams(s)))
  }

  method HashTrigram(trigram: string) returns (b: nat)
    requires |trigram| == 3
    ensures b == Bucket(trigram)
  {
    var h: bv32 := 2166136261;
    for j := 0 to 3
      invariant Fnv(h, trigram[j..]) == Fnv(2166136261, trigram)
    {
      assert trigram[j..][1..] == trigram[j + 1..];
      h := Mix(h, trigram[j]);
    }
    b := Slot(h);
  }

  method Embed(text: string) returns (v: seq<nat>)
    ensures v == Counts(text)
  {
    hide Bucket, Normalize;
    var s := Normalize(text);
    var a := new nat[DIM](_ => 0);
    for i := 0 to Trigrams(s)
      invariant forall k :: 0 <= k < DIM ==> a[k] == CountIn(s, k, i)
    {
      var b := HashTrigram(s[i..i + 3]);
      a[b] := a[b] + 1;
    }
    v := a[..];
  }

  function Dot(a: seq<nat>, b: seq<nat>, n: nat): nat
    requires n <= |a| && n <= |b|
  {
    if n == 0 then 0 else Dot(a, b, n - 1) + a[n - 1] * b[n - 1]
  }

  /** The squared cosine; zero when a vector is zero, whose norm the source replaces by 1. */
  function Sim(a: seq<nat>, b: seq<nat>): real
    requires |a| == |b|
  {
    var d, x, y := Dot(a, b, |a|), Dot(a, a, |a|), Dot(b, b, |b|);
    if x == 0 || y == 0 then 0.0 else (d * d) as real / (x * y) as real
  }

  lemma {:induction false} DotSymmetric(a: seq<nat>, b: seq<nat>, n: nat)
    requires n <= |a| && n <= |b|
    ensures Dot(a, b, n) == Dot(b, a, n)
  {
    if n > 0 {
      DotSymmetric(a, b, n - 1);
    }
  }

  lemma SquareStrict(p: nat, q: nat)
    requires p < q
    ensures p * p < q * q
  {
    assert p * p <= p * q;
    assert p * q < q * q;
  }

  lemma SquareOrder(p: nat, q: nat)
    requires p * p <= q * q
    ensures p <= q
  {
    if q < p {
      SquareStrict(q, p);
    }
  }

  lemma ArithmeticMean(u: nat, v: nat)
    ensures 4 * (u * v) <= (u + v) * (u + v)
  {
    assert (u + v) * (u + v) - 4 * (u * v) == (u - v) * (u - v);
  }

  /** The step of the inequality: adding a product `x * y` to the dot product adds squares to the norms. */
  lemma CauchySchwarzStep(d: nat, p: nat, q: nat, x: nat, y: nat)
    requires d * d <= p * q
    ensures (d + x * y) * (d + x * y) <= (p + x * x) * (q + y * y)
  {
    var u, v := p * (y * y), q * (x * x);
    var w := x * y;
    calc {
      (2 * d * w) * (2 * d * w);
      4 * ((d * d) * (w * w));
    <= { assert (d * d) * (w * w) <= (p * q) * (w * w); }
      4 * ((p * q) * (w * w));
      { assert w * w == (x * x) * (y * y); Regroup(p, q, x * x, y * y); }
      4 * (u * v);
    <= { ArithmeticMean(u, v); }
      (u + v) * (u + v);
    }
    SquareOrder(2 * d * w, u + v);
    calc {
      (d + w) * (d + w);
      d * d + 2 * d * w + w * w;
    <=
      p * q + (u + v) + w * w;
      { assert w * w == (x * x) * (y * y); }
      p * q + p * (y * y) + q * (x * x) + (x * x) * (y * y);
      (p + x * x) * (q + y * y);
    }
  }

  lemma Regroup(p: nat, q: nat, r: nat, s: nat)
    ensures (p * q) * (r * s) == (p * s) * (q * r)
  {
    calc {
      (p * q) * (r * s);
      p * (q * (r * s));
      p * (s * (q * r));
      (p * s) * (q * r);
    }
  }

  lemma {:induction false} CauchySchwarz(a: seq<nat>, b: seq<nat>, n: nat)
    requires n <= |a| && n <= |b|
    ensures Dot(a, b, n) * Dot(a, b, n) <= Dot(a, a, n) * Dot(b, b, n)
  {
    if n > 0 {
      CauchySchwarz(a, b, n - 1);
      CauchySchwarzStep(Dot(a, b, n - 1), Dot(a, a, n - 1), Dot(b, b, n - 1), a[n - 1], b[n - 1]);
    }
  }

  lemma SimSymmetric(a: seq<nat>, b: seq<nat>)
    requires |a| == |b|
    ensures Sim(a, b) == Sim(b, a)
  {
    DotSymmetric(a, b, |a|);
  }

  lemma Quotient(p: nat, q: nat)
    requires 0 < q
    ensures 0.0 <= p as real / q as real
    ensures p <= q ==> p as real / q as real <= 1.0
    ensures p == q ==> p as real / q as real == 1.0
  {
  }

  lemma SimBounds(a: seq<nat>, b: seq<nat>)
    requires |a| == |b|
    ensures 0.0 <= Sim(a, b) <= 1.0
  {
    var d, x, y := Dot(a, b, |a|), Dot(a, a, |a|), Dot(b, b, |b|);
    CauchySchwarz(a, b, |a|);
    if x != 0 && y != 0 {
      assert x * y > 0;
      Quotient(d * d, x * y);
    }
  }

  // ----- the cosine of the normalised vectors -----

  /** What the counts are divided by: their Euclidean norm, or 1 for the zero vector. */
  ghost predicate IsNorm(a: seq<nat>, norm: real) {
    norm > 0.0 && if Dot(a, a, |a|) == 0 then norm == 1.0 else norm * norm == Dot(a, a, |a|) as real
  }

  /** The dot product of `a` divided by `x` and `b` divided by `y`. */
  function Cosine(a: seq<nat>, x: real, b: seq<nat>, y: real, n: nat): real
    requires n <= |a| && n <= |b| && x > 0.0 && y > 0.0
  {
    if n == 0 then 0.0 else Cosine(a, x, b, y, n - 1) + (a[n - 1] as real / x) * (b[n - 1] as real / y)
  }

  lemma {:induction false} CosineIsScaledDot(a: seq<nat>, x: real, b: seq<nat>, y: real, n: nat)
    requires n <= |a| && n <= |b| && x > 0.0 && y > 0.0
    ensures Cosine(a, x, b, y, n) * (x * y) == Dot(a, b, n) as real
  {
    if n > 0 {
      CosineIsScaledDot(a, x, b, y, n - 1);
      var p, q := a[n - 1] as real, b[n - 1] as real;
      ScaledProduct(p, x, q, y);
      ProductAsReal(a[n - 1], b[n - 1]);
      ScaledSum(Cosine(a, x, b, y, n), Cosine(a, x, b, y, n - 1), (p / x) * (q / y), x * y, Dot(a, b, n - 1) as real, p * q);
    }
  }

  lemma ProductAsReal(p: nat, q: nat)
    ensures (p * q) as real == p as real * q as real
  {
  }

  lemma ScaledSum(sum: real, c: real, d: real, z: real, p: real, q: real)
    requires sum == c + d && c * z == p && d * z == q
    ensures sum * z == p + q
  {
  }

  lemma ScaledProduct(p: real, x: real, q: real, y: real)
    requires x > 0.0 && y > 0.0
    ensures ((p / x) * (q / y)) * (x * y) == p * q
  {
    var u, v := p / x, q / y;
    assert u * x == p && v * y == q;
    assert (u * v) * (x * y) == (u * x) * (v * y);
  }

  lemma DotOfZero(a: seq<nat>, b: seq<nat>, n: nat)
    requires n <= |a| && n <= |b| && (Dot(a, a, n) == 0 || Dot(b, b, n) == 0)
    ensures Dot(a, b, n) == 0
  {
    hide Dot;
    CauchySchwarz(a, b, n);
    SquareOrder(Dot(a, b, n), 0);
  }

  /**
   * The similarity of this model is the square of the program's cosine, and a threshold is reached by
   * the one exactly when its square is reached by the other.
   */
  lemma CosineSquared(a: seq<nat>, x: real, b: seq<nat>, y: real, threshold: real)
    requires |a| == |b| && IsNorm(a, x) && IsNorm(b, y) && threshold >= 0.0
    ensures
      var c := Cosine(a, x, b, y, |a|);
      && c >= 0.0 && c * c == Sim(a, b)
      && (c >= threshold <==> Sim(a, b) >= threshold * threshold)
  {
    hide Dot, Cosine;
    var n := |a|;
    var c, d := Cosine(a, x, b, y, n), Dot(a, b, n) as real;
    CosineIsScaledDot(a, x, b, y, n);
    PositiveProduct(x, y);
    NotNegative(c, x * y, d);
    if Dot(a, a, n) == 0 || Dot(b, b, n) == 0 {
      DotOfZero(a, b, n);
      ZeroFactor(c, x * y);
    } else {
      SquareIsSim(a, x, b, y, c);
    }
    hide Sim, IsNorm;
    SquaresCompare(c, Sim(a, b), threshold);
  }

  lemma SquareIsSim(a: seq<nat>, x: real, b: seq<nat>, y: real, c: real)
    requires |a| == |b| && IsNorm(a, x) && IsNorm(b, y)
    requires Dot(a, a, |a|) != 0 && Dot(b, b, |b|) != 0 && c * (x * y) == Dot(a, b, |a|) as real
    ensures c * c == Sim(a, b)
  {
    hide Dot, Sim, IsNorm;
    IsNormMeans(a, x);
    IsNormMeans(b, y);
    SimIs(a, b);
    var p, q, r := Dot(a, a, |a|), Dot(b, b, |b|), Dot(a, b, |a|);
    ProductAsReal(p, q);
    ProductAsReal(r, r);
    ScaledSquares(c, x, y, r as real, p as real, q as real);
  }

  lemma IsNormMeans(a: seq<nat>, x: real)
    requires IsNorm(a, x) && Dot(a, a, |a|) != 0
    ensures x > 0.0 && x * x == Dot(a, a, |a|) as real && Dot(a, a, |a|) as real > 0.0
  {
    hide Dot;
  }

  lemma SimIs(a: seq<nat>, b: seq<nat>)
    requires |a| == |b| && Dot(a, a, |a|) != 0 && Dot(b, b, |b|) != 0
    ensures
      var d, x, y := Dot(a, b, |a|), Dot(a, a, |a|), Dot(b, b, |b|);
      (x * y) as real > 0.0 && Sim(a, b) == (d * d) as real / (x * y) as real
  {
    hide Dot;
  }

  lemma NotNegative(c: real, z: real, d: real)
    requires z > 0.0 && d >= 0.0 && c * z == d
    ensures c >= 0.0
  {
  }

  lemma ZeroFactor(c: real, z: real)
    requires z > 0.0 && c * z == 0.0
    ensures c == 0.0
  {
  }

  lemma ScaledSquares(c: real, x: real, y: real, d: real, p: real, q: real)
    requires c * (x * y) == d && x * x == p && y * y == q && p > 0.0 && q > 0.0
    ensures c * c == (d * d) / (p * q)
  {
    PositiveProduct(p, q);
    assert (x * y) * (x * y) == p * q by {
      Squares(x, y);
      Substitute(x * x, p, y * y, q);
    }
    SquaredQuotient(c, x * y, d, p * q);
  }

  lemma SquaredQuotient(c: real, z: real, d: real, w: real)
    requires c * z == d && z * z == w && w > 0.0
    ensures c * c == (d * d) / w
  {
    Squares(c, z);
    Same(c * z, d);
    Times(c * c, z * z, w);
    Divide(c * c, w, d * d);
  }

  lemma Substitute(p: real, q: real, r: real, t: real)
    requires p == q && r == t
    ensures p * r == q * t
  {
  }

  lemma Same(p: real, q: real)
    requires p == q
    ensures p * p == q * q
  {
  }

  lemma Times(k: real, p: real, q: real)
    requires p == q
    ensures k * p == k * q
  {
  }

  lemma PositiveProduct(p: real, q: real)
    requires p > 0.0 && q > 0.0
    ensures p * q > 0.0
  {
  }

  lemma Squares(p: real, q: real)
    ensures (p * q) * (p * q) == (p * p) * (q * q)
  {
  }

  lemma Divide(p: real, q: real, r: real)
    requires q > 0.0 && p * q == r
    ensures p == r / q
  {
  }

  lemma SquaresCompare(c: real, square: real, t: real)
    requires c >= 0.0 && t >= 0.0 && square == c * c
    ensures c >= t <==> square >= t * t
  {
    assert square - t * t == (c - t) * (c + t);
    if c < t {
      PositiveProduct(t - c, c + t);
      assert (c - t) * (c + t) == -((t - c) * (c + t));
    }
  }

  lemma {:induction false} DotSelfPositive(a: seq<nat>, n: nat, k: nat)
    requires k < n <= |a| && a[k] > 0
    ensures Dot(a, a, n) > 0
  {
    assert a[n - 1] * a[n - 1] >= 0;
    if k < n - 1 {
      DotSelfPositive(a, n - 1, k);
    }
  }

  lemma {:induction false} CountInPositive(s: string, n: nat)
    requires 0 < n && n + 2 <= |s|
    ensures CountIn(s, Bucket(s[0..3]), n) > 0
  {
    if n > 1 {
      CountInPositive(s, n - 1);
    }
  }

  lemma CountsPositive(text: string)
    requires text != ""
    ensures Dot(Counts(text), Counts(text), DIM) > 0
  {
    hide Bucket;
    var s, v := Normalize(text), Counts(text);
    assert |s| >= 3;
    CountInPositive(s, Trigrams(s));
    var k := Bucket(s[0..3]);
    assert v[k] == CountIn(s, k, Trigrams(s));
    DotSelfPositive(v, DIM, k);
  }

  /** Every non-empty text has a trigram, so it is fully similar to itself. */
  lemma SelfSimilarity(text: string)
    ensures Sim(Counts(text), Counts(text)) == if text == "" then 0.0 else 1.0
  {
    var v := Counts(text);
    if text == "" {
      forall k | 0 <= k < DIM ensures v[k] == 0 {}
      DotZero(v, DIM);
    } else {
      CountsPositive(text);
      hide Counts;
      var x := Dot(v, v, DIM);
      assert x * x > 0;
      Quotient(x * x, x * x);
    }
  }

  lemma {:induction false} DotZero(a: seq<nat>, n: nat)
    requires n <= |a|
    requires forall k :: 0 <= k < |a| ==> a[k] == 0
    ensures Dot(a, a, n) == 0
  {
    if n > 0 {
      DotZero(a, n - 1);
    }
  }

  // ----- searching the index -----

  /** The similarity of two texts. */
  ghost function TextSim(q: string, t: string): real {
    Sim(Counts(q), Counts(t))
  }

  ghost function Sims(q: string, texts: seq<string>): (r: seq<real>)
    ensures |r| == |texts|
  {
    seq(|texts|, i requires 0 <= i < |texts| => TextSim(q, texts[i]))
  }

  /** Some value reaches the threshold. */
  predicate Reaches(sims: seq<real>, threshold: real) {
    exists i :: 0 <= i < |sims| && sims[i] >= threshold
  }

  /** Value `i` is the earliest of the largest values and reaches the threshold. */
  predicate IsFirstMaximum(sims: seq<real>, threshold: real, i: int) {
    && 0 <= i < |sims|
    && sims[i] >= threshold
    && (forall j :: 0 <= j < |sims| ==> sims[j] <= sims[i])
    && (forall j :: 0 <= j < i ==> sims[j] < sims[i])
  }

  /** Whether match() answers at all. */
  ghost predicate Hits(texts: seq<string>, q: string, threshold: real) {
    Reaches(Sims(q, texts), threshold)
  }

  /** One more value: it becomes the answer only when it beats the answer so far. */
  lemma FirstMaximumStep(sims: seq<real>, threshold: real, n: nat, found: bool, i: int)
    requires n < |sims|
    requires found ==> IsFirstMaximum(sims[..n], threshold, i)
    requires !found ==> forall j :: 0 <= j < n ==> sims[j] < threshold
    ensures sims[n] >= threshold && (!found || sims[n] > sims[i]) ==> IsFirstMaximum(sims[..n + 1], threshold, n)
    ensures found && sims[n] <= sims[i] ==> IsFirstMaximum(sims[..n + 1], threshold, i)
  {
    var next := sims[..n + 1];
    assert forall j :: 0 <= j < n ==> next[j] == sims[..n][j] == sims[j];
    assert next[n] == sims[n];
  }

  /** match() has at most one answer, and a stricter threshold that still answers gives the same one. */
  lemma SameAtBothThresholds(sims: seq<real>, low: real, high: real, i: int, j: int)
    requires low <= high
    requires IsFirstMaximum(sims, low, i) && IsFirstMaximum(sims, high, j)
    ensures i == j
  {
    assert sims[i] == sims[j];
  }

  /** A remembered text is always found again, at either threshold, exactly when it is not empty. */
  lemma IndexedTextHits(texts: seq<string>, t: string, threshold: real)
    requires t in texts && 0.0 < threshold <= 1.0
    ensures t != "" ==> Hits(texts, t, threshold)
    ensures t == "" ==> TextSim(t, t) < threshold
  {
    SelfSimilarity(t);
    var i :| 0 <= i < |texts| && texts[i] == t;
    assert Sims(t, texts)[i] == TextSim(t, t);
  }

  // ----- the store -----

  predicate Distinct(texts: seq<string>) {
    forall i, j :: 0 <= i < j < |texts| ==> texts[i] != texts[j]
  }

  function Added(texts: seq<string>, t: string): (r: seq<string>)
    ensures t in r
    ensures forall u :: u in r <==> u in texts || u == t
    ensures Distinct(texts) ==> Distinct(r)
  {
    if t in texts then texts else texts + [t]
  }

  function Removed(texts: seq<string>, t: string): (r: seq<string>)
    ensures forall u :: u in texts && u != t ==> u in r
    ensures forall u :: u in r ==> u in texts
    ensures |r| == if t in texts then |texts| - 1 else |texts|
  {
    if texts == [] then []
    else if texts[0] == t then texts[1..]
    else
      var r := Removed(texts[1..], t);
      assert forall u :: u in texts ==> u == texts[0] || u in texts[1..];
      [texts[0]] + r
  }

  lemma {:induction false} RemovedDistinct(texts: seq<string>, t: string)
    requires Distinct(texts)
    ensures Distinct(Removed(texts, t)) && t !in Removed(texts, t)
  {
    if texts != [] && texts[0] != t {
      RemovedDistinct(texts[1..], t);
      assert texts[0] !in texts[1..];
      assert texts[0] !in Removed(texts[1..], t);
    } else if texts != [] {
      assert t !in texts[1..];
    }
  }

  datatype Change = Add(t: string) | Remove(t: string)

  function Apply(texts: seq<string>, changes: seq<Change>): seq<string>
    decreases |changes|
  {
    if changes == [] then texts
    else
      var next := match changes[0] case Add(t) => Added(texts, t) case Remove(t) => Removed(texts, t);
      Apply(next, changes[1..])
  }

  /** Any sequence of additions and removals keeps the texts pairwise distinct. */
  lemma {:induction false} TextsStayDistinct(texts: seq<string>, changes: seq<Change>)
    requires Distinct(texts)
    ensures Distinct(Apply(texts, changes))
    decreases |changes|
  {
    if changes != [] {
      match changes[0]
      case Add(t) =>
        TextsStayDistinct(Added(texts, t), changes[1..]);
      case Remove(t) =>
        RemovedDistinct(texts, t);
        TextsStayDistinct(Removed(texts, t), changes[1..]);
    }
  }

  datatype Entry = Entry(text: string, vec: seq<nat>)
  datatype Found = Found(sim: real, text: string)

  ghost function TextsOf(entries: seq<Entry>): (r: seq<string>)
    ensures |r| == |entries|
    ensures forall i :: 0 <= i < |r| ==> r[i] == entries[i].text
  {
    seq(|entries|, i requires 0 <= i < |entries| => entries[i].text)
  }

  /** createRubbishStore: the entries, each carrying the vector of its own text. */
  class RubbishStore {
    var entries: seq<Entry>

    ghost predicate Valid()
      reads this
    {
      forall e <- entries :: e.vec == Counts(e.text)
    }

    ghost function Texts(): seq<string>
      reads this
    {
      TextsOf(entries)
    }

    constructor (saved: seq<Entry>)
      requires forall e <- saved :: e.vec == Counts(e.text)
      ensures Valid() && Texts() == TextsOf(saved)
    {
      entries := saved;
    }

    method AddText(text: string) returns (size: nat)
      requires Valid()
      modifies this
      ensures Valid()
      ensures Texts() == Added(old(Texts()), text) && size == |Texts()|
    {
      for i := 0 to |entries|
        invariant forall k :: 0 <= k < i ==> entries[k].text != text
        invariant entries == old(entries)
      {
        if entries[i].text == text {
          assert Texts()[i] == text;
          return |entries|;
        }
      }
      var vec := Embed(text);
      entries := entries + [Entry(text, vec)];
      assert Texts() == old(Texts()) + [text];
      size := |entries|;
    }

    method Match(text: string, threshold: real) returns (best: Option<Found>)
      requires Valid()
      ensures best.None? <==> !Hits(Texts(), text, threshold)
      ensures best.Some? ==> exists i ::
        && IsFirstMaximum(Sims(text, Texts()), threshold, i)
        && best.value == Found(Sims(text, Texts())[i], Texts()[i])
    {
      hide Sim, Counts;
      var q := Embed(text);
      best := None;
      ghost var at := 0;
      ghost var sims := Sims(text, Texts());
      for i := 0 to |entries|
        invariant best.None? ==> forall j :: 0 <= j < i ==> sims[j] < threshold
        invariant best.Some? ==> at < i && IsFirstMaximum(sims[..i], threshold, at)
        invariant best.Some? ==> best.value == Found(sims[at], Texts()[at])
      {
        assert entries[i] in entries;
        var sim := Sim(q, entries[i].vec);
        assert sim == sims[i];
        FirstMaximumStep(sims, threshold, i, best.Some?, at);
        if sim >= threshold && (best.None? || sim > best.value.sim) {
          best := Some(Found(sim, entries[i].text));
          at := i;
        }
      }
      assert sims[..|entries|] == sims;
    }

    method RemoveText(text: string) returns (removed: bool)
      requires Valid()
      modifies this
      ensures Valid()
      ensures Texts() == Removed(old(Texts()), text)
      ensures removed <==> text in old(Texts())
    {
      hide Removed, Counts, TextsOf;
      for i := 0 to |entries|
        invariant forall k :: 0 <= k < i ==> entries[k].text != text
        invariant entries == old(entries)
      {
        if entries[i].text == text {
          EntryRemoved(entries, text, i);
          entries := entries[..i] + entries[i + 1..];
          return true;
        }
      }
      TextAbsent(entries, text);
      removed := false;
    }
  }

  lemma EntryRemoved(entries: seq<Entry>, text: string, i: nat)
    requires i < |entries| && entries[i].text == text && forall k :: 0 <= k < i ==> entries[k].text != text
    ensures
      var rest := entries[..i] + entries[i + 1..];
      && TextsOf(rest) == Removed(TextsOf(entries), text) && text in TextsOf(entries)
      && forall e <- rest :: e in entries
  {
    hide Removed;
    var texts, rest := TextsOf(entries), entries[..i] + entries[i + 1..];
    assert texts[i] == text;
    RemovedAt(texts, text, i);
    assert TextsOf(rest) == texts[..i] + texts[i + 1..];
  }

  lemma TextAbsent(entries: seq<Entry>, text: string)
    requires forall k :: 0 <= k < |entries| ==> entries[k].text != text
    ensures Removed(TextsOf(entries), text) == TextsOf(entries) && text !in TextsOf(entries)
  {
    RemovedAbsent(TextsOf(entries), text);
  }

  lemma {:induction false} RemovedAt(texts: seq<string>, t: string, i: nat)
    requires i < |texts| && texts[i] == t && forall k :: 0 <= k < i ==> texts[k] != t
    ensures Removed(texts, t) == texts[..i] + texts[i + 1..]
  {
    if i > 0 {
      RemovedAt(texts[1..], t, i - 1);
      assert texts[1..][..i - 1] == texts[1..i];
      assert [texts[0]] + texts[1..i] == texts[..i];
      assert texts[1..][i..] == texts[i + 1..];
    }
  }

  lemma {:induction false} RemovedAbsent(texts: seq<string>, t: string)
    requires t !in texts
    ensures Removed(texts, t) == texts
  {
    if texts != [] {
      RemovedAbsent(texts[1..], t);
    }
  }
}
