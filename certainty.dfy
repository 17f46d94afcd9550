/**
  MYCIN-style certainty-factor combination, left-folded over the certainties
  of the activated rules in their ranked order.
*/
module Certainty {
  import opened Wrappers

  function Abs(x: real): real { if x < 0.0 then -x else x }

  function Min(a: real, b: real): real { if a <= b then a else b }

  /**
    One combination step. The branches test strictly positive and strictly
    negative values, so a zero certainty falls into the mixed-sign formula.
    None is the ZeroDivisionError that formula raises when the smaller
    magnitude is exactly 1.
  */
  function Combine(cf: real, next: real): (r: Option<real>)
    ensures r.None? <==> !(cf > 0.0 && next > 0.0) && !(cf < 0.0 && next < 0.0)
                         && Min(Abs(cf), Abs(next)) == 1.0
  {
    if cf > 0.0 && next > 0.0 then Some(cf + next * (1.0 - cf))
    else if cf < 0.0 && next < 0.0 then Some(cf + next * (1.0 + cf))
    else MixedSign(cf, next)
  }

  /** (cf + next) / (1 - min(|cf|, |next|)), or None where the divisor is zero. */
  function MixedSign(cf: real, next: real): (r: Option<real>)
    ensures r.None? <==> Min(Abs(cf), Abs(next)) == 1.0
  {
    var m := Min(Abs(cf), Abs(next));
    if m == 1.0 then None else Some((cf + next) / (1.0 - m))
  }

  /** The running value `cf` combined with every certainty of `rest`, left to right. */
  function FoldFrom(cf: real, rest: seq<real>): Option<real>
    decreases |rest|
  {
    if rest == [] then Some(cf)
    else
      match Combine(cf, rest[0])
      case None => None
      case Some(next) => FoldFrom(next, rest[1..])
  }

  /** The combined certainty: 0.5 when nothing fired, else the fold seeded with the first. */
  function CombineAll(cs: seq<real>): (r: Option<real>)
    ensures cs == [] ==> r == Some(0.5)
    ensures |cs| == 1 ==> r == Some(cs[0])
  {
    if cs == [] then Some(0.5) else FoldFrom(cs[0], cs[1..])
  }

  predicate InUnit(cs: seq<real>) {
    forall i :: 0 <= i < |cs| ==> 0.0 < cs[i] <= 1.0
  }

  /** The product of (1 - c) over `cs`: the evidence left unexplained. */
  function Residual(cs: seq<real>): real {
    if cs == [] then 1.0 else (1.0 - cs[0]) * Residual(cs[1..])
  }

  lemma ProductNonNegative(a: real, b: real)
    requires 0.0 <= a && 0.0 <= b
    ensures 0.0 <= a * b
  {
  }

  lemma ScaleDown(a: real, b: real)
    requires 0.0 <= a <= 1.0 && 0.0 <= b
    ensures a * b <= b
  {
    ProductNonNegative(1.0 - a, b);
  }

  lemma ResidualCons(cs: seq<real>)
    requires cs != []
    ensures Residual(cs) == (1.0 - cs[0]) * Residual(cs[1..])
  {
  }

  lemma {:induction false} ResidualInUnit(cs: seq<real>)
    requires InUnit(cs)
    ensures 0.0 <= Residual(cs) <= 1.0
  {
    if cs != [] {
      ResidualInUnit(cs[1..]);
      var r := Residual(cs[1..]);
      ProductNonNegative(1.0 - cs[0], r);
      ScaleDown(1.0 - cs[0], r);
    }
  }

  /** Two positive certainties in (0, 1] combine to a value in (0, 1] at least as large as either. */
  lemma CombinePositive(cf: real, next: real)
    requires 0.0 < cf <= 1.0 && 0.0 < next <= 1.0
    ensures Combine(cf, next).Some?
    ensures var r := Combine(cf, next).value;
      && r == 1.0 - (1.0 - cf) * (1.0 - next)
      && cf <= r <= 1.0 && next <= r
  {
    var r := cf + next * (1.0 - cf);
    ProductNonNegative(next, 1.0 - cf);
    ProductNonNegative(cf, 1.0 - next);
    ProductNonNegative(1.0 - cf, 1.0 - next);
    assert r - next == cf * (1.0 - next);
    assert 1.0 - r == (1.0 - cf) * (1.0 - next);
  }

  /** Folding certainties of (0, 1] into a running value of (0, 1] stays in (0, 1] and never decreases. */
  lemma {:induction false} FoldFromBounds(cf: real, rest: seq<real>)
    requires 0.0 < cf <= 1.0 && InUnit(rest)
    ensures FoldFrom(cf, rest).Some?
    ensures cf <= FoldFrom(cf, rest).value <= 1.0
    ensures forall i :: 0 <= i < |rest| ==> rest[i] <= FoldFrom(cf, rest).value
    decreases |rest|
  {
    if rest != [] {
      CombinePositive(cf, rest[0]);
      var next := Combine(cf, rest[0]).value;
      assert InUnit(rest[1..]);
      FoldFromBounds(next, rest[1..]);
      var r := FoldFrom(next, rest[1..]).value;
      assert FoldFrom(cf, rest) == FoldFrom(next, rest[1..]);
      forall i | 0 <= i < |rest| ensures rest[i] <= r {
        if i > 0 { assert rest[i] == rest[1..][i - 1]; }
      }
    }
  }

  /** The same fold has the closed form 1 - (1 - cf) * Residual(rest). */
  lemma {:induction false} FoldFromClosedForm(cf: real, rest: seq<real>)
    requires 0.0 < cf <= 1.0 && InUnit(rest)
    ensures FoldFrom(cf, rest).Some?
    ensures 1.0 - FoldFrom(cf, rest).value == (1.0 - cf) * Residual(rest)
    decreases |rest|
  {
    if rest == [] {
      assert Residual(rest) == 1.0;
    } else {
      CombinePositive(cf, rest[0]);
      var next := Combine(cf, rest[0]).value;
      assert InUnit(rest[1..]);
      FoldFromClosedForm(next, rest[1..]);
      var tail := Residual(rest[1..]);
      assert FoldFrom(cf, rest) == FoldFrom(next, rest[1..]);
      ClosedFormStep(cf, rest[0], next, tail);
      ResidualCons(rest);
    }
  }

  /** One combination step multiplies the residual by one more factor. */
  lemma ClosedFormStep(cf: real, c: real, next: real, tail: real)
    requires 1.0 - next == (1.0 - cf) * (1.0 - c)
    ensures (1.0 - next) * tail == (1.0 - cf) * ((1.0 - c) * tail)
  {
    var a, b := 1.0 - cf, 1.0 - c;
    assert (a * b) * tail == a * (b * tail);
  }

  /**
    For certainties in (0, 1] the combined certainty exists, lies in (0, 1]
    and is at least the largest certainty.
  */
  lemma CombineAllPositive(cs: seq<real>)
    requires InUnit(cs) && cs != []
    ensures CombineAll(cs).Some?
    ensures 0.0 < CombineAll(cs).value <= 1.0
    ensures forall i :: 0 <= i < |cs| ==> cs[i] <= CombineAll(cs).value
  {
    assert InUnit(cs[1..]);
    FoldFromBounds(cs[0], cs[1..]);
    assert CombineAll(cs) == FoldFrom(cs[0], cs[1..]);
    var r := CombineAll(cs).value;
    forall i | 0 <= i < |cs| ensures cs[i] <= r {
      if i > 0 { assert cs[i] == cs[1..][i - 1]; }
    }
  }

  /**
    For certainties in (0, 1] the combined certainty is 1 - Residual(cs):
    since a product does not depend on the order of its factors, neither
    does the combined certainty.
  */
  lemma CombineAllClosedForm(cs: seq<real>)
    requires InUnit(cs) && cs != []
    ensures CombineAll(cs).Some?
    ensures 1.0 - CombineAll(cs).value == Residual(cs)
  {
    assert InUnit(cs[1..]);
    FoldFromClosedForm(cs[0], cs[1..]);
    assert CombineAll(cs) == FoldFrom(cs[0], cs[1..]);
    var r := CombineAll(cs).value;
    calc {
      1.0 - r;
      (1.0 - cs[0]) * Residual(cs[1..]);
      { ResidualCons(cs); }
      Residual(cs);
    }
  }

  lemma Swap(a: real, b: real, p: real)
    ensures a * (b * p) == b * (a * p)
  {
    assert a * (b * p) == (a * b) * p;
  }

  /** Taking out the factor at index i leaves the product of the others. */
  lemma {:induction false} ResidualRemove(cs: seq<real>, i: nat)
    requires i < |cs|
    ensures Residual(cs) == (1.0 - cs[i]) * Residual(cs[..i] + cs[i + 1..])
    decreases i
  {
    if i == 0 {
      assert cs[..0] + cs[1..] == cs[1..];
    } else {
      var t := cs[1..];
      var rest := cs[..i] + cs[i + 1..];
      ResidualRemove(t, i - 1);
      assert rest[0] == cs[0];
      assert rest[1..] == t[..i - 1] + t[i..];
      assert t[i - 1] == cs[i];
      var a, b, p := 1.0 - cs[0], 1.0 - cs[i], Residual(rest[1..]);
      calc {
        Residual(cs);
        a * Residual(t);
        a * (b * p);
        { Swap(a, b, p); }
        b * (a * p);
        { ResidualCons(rest); }
        b * Residual(rest);
      }
    }
  }

  /** Taking out the element at index i takes one copy of it out of the multiset. */
  lemma MultisetRemove<T>(s: seq<T>, i: nat)
    requires i < |s|
    ensures multiset(s[..i] + s[i + 1..]) == multiset(s) - multiset{s[i]}
  {
    assert s == s[..i] + [s[i]] + s[i + 1..];
  }

  /** The first element of cs occurs in its permutation ds, and what is left of the two are permutations too. */
  lemma MatchFirst<T>(cs: seq<T>, ds: seq<T>) returns (i: nat)
    requires cs != [] && multiset(cs) == multiset(ds)
    ensures i < |ds| && ds[i] == cs[0]
    ensures multiset(cs[1..]) == multiset(ds[..i] + ds[i + 1..])
  {
    assert cs[0] in multiset(ds);
    i :| 0 <= i < |ds| && ds[i] == cs[0];
    assert cs[..0] + cs[1..] == cs[1..];
    calc {
      multiset(cs[1..]);
      { MultisetRemove(cs, 0); }
      multiset(cs) - multiset{cs[0]};
      multiset(ds) - multiset{ds[i]};
      { MultisetRemove(ds, i); }
      multiset(ds[..i] + ds[i + 1..]);
    }
  }

  /** The residual is a product, so it does not depend on the order of the certainties. */
  lemma {:induction false} ResidualPermutation(cs: seq<real>, ds: seq<real>)
    requires multiset(cs) == multiset(ds)
    ensures Residual(cs) == Residual(ds)
    decreases |cs|
  {
    if cs == [] {
      assert |ds| == |multiset(ds)| == 0;
    } else {
      var i := MatchFirst(cs, ds);
      var rest := ds[..i] + ds[i + 1..];
      ResidualPermutation(cs[1..], rest);
      ResidualCons(cs);
      ResidualRemove(ds, i);
    }
  }

  /**
    Certainties of (0, 1] combine to the same value in any order: the
    ranking of the activated rules does not change the combined certainty.
  */
  lemma CombineAllPermutation(cs: seq<real>, ds: seq<real>)
    requires InUnit(cs) && cs != [] && multiset(cs) == multiset(ds)
    ensures CombineAll(cs).Some? && CombineAll(ds).Some?
    ensures CombineAll(cs).value == CombineAll(ds).value
  {
    assert |ds| == |multiset(ds)| == |cs|;
    forall j | 0 <= j < |ds| ensures 0.0 < ds[j] <= 1.0 {
      assert ds[j] in multiset(cs);
      var i :| 0 <= i < |cs| && cs[i] == ds[j];
    }
    CombineAllClosedForm(cs);
    CombineAllClosedForm(ds);
    ResidualPermutation(cs, ds);
  }

  /** Folding one more certainty is one more combination step on the previous result. */
  lemma {:induction false} FoldFromSnoc(cf: real, rest: seq<real>, c: real)
    ensures FoldFrom(cf, rest + [c]) ==
      match FoldFrom(cf, rest)
      case None => None
      case Some(v) => Combine(v, c)
    decreases |rest|
  {
    if rest == [] {
      assert FoldFrom(cf, [c]) == match Combine(cf, c) case None => None case Some(n) => FoldFrom(n, []);
    } else {
      assert (rest + [c])[0] == rest[0];
      assert (rest + [c])[1..] == rest[1..] + [c];
      match Combine(cf, rest[0])
      case None =>
      case Some(next) => FoldFromSnoc(next, rest[1..], c);
    }
  }

  /**
    The running value never decreases: combining one more certainty of
    (0, 1] gives a result at least the previous one.
  */
  lemma CombineAllNeverDecreases(cs: seq<real>, c: real)
    requires InUnit(cs) && cs != [] && 0.0 < c <= 1.0
    ensures CombineAll(cs).Some? && CombineAll(cs + [c]).Some?
    ensures CombineAll(cs).value <= CombineAll(cs + [c]).value
  {
    CombineAllPositive(cs);
    assert (cs + [c])[0] == cs[0];
    assert (cs + [c])[1..] == cs[1..] + [c];
    FoldFromSnoc(cs[0], cs[1..], c);
    CombinePositive(CombineAll(cs).value, c);
  }

  /** With certainty 1 on one side and -1 on the other the mixed formula divides by zero. */
  lemma MixedSignDivisionByZero()
    ensures Combine(1.0, -1.0) == None
    ensures Combine(0.0, 0.5) == Some(0.5)
  {
    var m := Min(Abs(0.0), Abs(0.5));
    assert m == 0.0;
    assert MixedSign(0.0, 0.5) == Some((0.0 + 0.5) / (1.0 - m));
    assert (0.0 + 0.5) / (1.0 - m) == (0.0 + 0.5) / 1.0;
    assert (0.0 + 0.5) / 1.0 == 0.5;
  }

  // Rounding to two decimals, as the reported certainty is

  /**
    round(x, 2) on an exact real: to the nearest multiple of 0.01. An exact
    tie goes down, as it does for the binary value just below a decimal tie.
  */
  /**
    The exact ties of this rule table whose floating-point sum lies above
    the tie, so that `round` sends them up: 0.75 + 0.70 * 0.25 and
    0.78 + 0.75 * 0.22 come out as 0.92500000000000004 and
    0.94500000000000006. The other ties the table can reach (0.955, 0.975,
    0.985 and 0.995) come out just below and round down.
  */
  predicate TieRoundsUp(x: real) {
    x == 0.925 || x == 0.945
  }

  /**
    `round(cf, 2)`: the nearest hundredth; at an exact tie the side the
    floating-point sum falls on decides.
  */
  function Round2(x: real): (r: real)
    ensures -0.005 <= r - x <= 0.005
    ensures r - x == 0.005 ==> TieRoundsUp(x)
    ensures r - x == -0.005 ==> !TieRoundsUp(x)
    ensures TwoDecimals(r)
    ensures 0.0 <= x <= 1.0 ==> 0.0 <= r <= 1.0
  {
    var scaled := x * 100.0;
    var n := scaled.Floor;
    var frac := scaled - n as real;
    var m := if frac > 0.5 || (frac == 0.5 && TieRoundsUp(x)) then n + 1 else n;
    assert m as real / 100.0 * 100.0 == m as real;
    m as real / 100.0
  }

  lemma Round2Monotone(x: real, y: real)
    requires x <= y
    ensures Round2(x) <= Round2(y)
  {
    var nx, ny := (x * 100.0).Floor, (y * 100.0).Floor;
    assert nx <= ny;
  }

  /** A value that already has two decimals is left as it is. */
  lemma Round2Keeps(x: real)
    requires TwoDecimals(x)
    ensures Round2(x) == x
  {
    var n := (x * 100.0).Floor;
    assert n as real / 100.0 == x;
  }

  /** x is a whole number of hundredths. */
  predicate TwoDecimals(x: real) {
    (x * 100.0).Floor as real == x * 100.0
  }

  /**
    The reported certainty: 0.5 when nothing fired, else the combined
    certainty rounded to two decimals; None where the combination divides
    by zero.
  */
  function Reported(cs: seq<real>): (r: Option<real>)
    ensures cs == [] ==> r == Some(0.5)
    ensures cs != [] ==> (r.Some? <==> CombineAll(cs).Some?)
    ensures cs != [] && r.Some? ==> r.value == Round2(CombineAll(cs).value)
  {
    if cs == [] then Some(0.5)
    else match CombineAll(cs)
      case None => None
      case Some(v) => Some(Round2(v))
  }

  /**
    For certainties in (0, 1] with two decimals each, the reported value
    exists; it is 0.5 when there are none, and otherwise 1 - Residual
    rounded, in (0, 1] and no smaller than any of them.
  */
  lemma ReportedShape(cs: seq<real>)
    requires InUnit(cs)
    requires forall i :: 0 <= i < |cs| ==> TwoDecimals(cs[i])
    ensures var r := Reported(cs);
      r.Some? &&
      (cs == [] ==> r.value == 0.5) &&
      (cs != [] ==>
        r.value == Round2(1.0 - Residual(cs)) &&
        0.0 < r.value <= 1.0 &&
        (forall i :: 0 <= i < |cs| ==> cs[i] <= r.value))
  {
    if cs != [] {
      CombineAllPositive(cs);
      CombineAllClosedForm(cs);
      var v := CombineAll(cs).value;
      forall i | 0 <= i < |cs| ensures cs[i] <= Round2(v) {
        Round2Keeps(cs[i]);
        Round2Monotone(cs[i], v);
      }
    }
  }
}
