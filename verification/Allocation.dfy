/**
 * Exact allocation of an integer budget by largest remainders (flex/domain/allocation.py).
 * Fractions are exact rationals there and reals here.
 */
module Allocation {
  import opened Wrappers
  import opened Strings
  import opened Sorting

  type Digit = n: nat | n < 10

  const MAX_SHARE_EXPONENT := 300
  const MAX_SHARE_SIGNIFICANT_DIGITS := 50

  /** What parsing a share as a decimal number gives. */
  datatype ShareInput =
    | Boolean
    | NotADecimal
    | NotFinite
    | Finite(negative: bool, digits: seq<Digit>, exponent: int)

  datatype AllocationError =
    | TotalNotPositive | NoShares | BlankRecipient
    | ShareIsBool | ShareInvalid | ShareNotFinite | ShareNotPositive | ShareOutOfRange | ShareTooLong

  function Coefficient(digits: seq<Digit>): nat {
    if digits == [] then 0 else 10 * Coefficient(digits[..|digits| - 1]) + digits[|digits| - 1]
  }

  function PowerOfTen(e: int): real
    decreases if e < 0 then -e else e
  {
    if e == 0 then 1.0 else if e > 0 then 10.0 * PowerOfTen(e - 1) else PowerOfTen(e + 1) / 10.0
  }

  function Magnitude(s: ShareInput): real
    requires s.Finite?
  {
    (if s.negative then -1.0 else 1.0) * Coefficient(s.digits) as real * PowerOfTen(s.exponent)
  }

  /** The exponent of the most significant digit. */
  function Adjusted(s: ShareInput): int
    requires s.Finite?
  {
    s.exponent + |s.digits| - 1
  }

  /** A decimal number is positive when it has no minus sign and some digit other than 0. */
  predicate IsPositive(s: ShareInput)
    requires s.Finite?
  {
    !s.negative && exists d :: d in s.digits && d != 0
  }

  predicate FitsExponent(s: ShareInput)
    requires s.Finite?
  {
    -MAX_SHARE_EXPONENT <= Adjusted(s) <= MAX_SHARE_EXPONENT
  }

  predicate FitsLength(s: ShareInput)
    requires s.Finite?
  {
    |s.digits| <= MAX_SHARE_SIGNIFICANT_DIGITS
  }

  lemma {:induction false} CoefficientPositive(digits: seq<Digit>)
    ensures Coefficient(digits) > 0 <==> exists d :: d in digits && d != 0
  {
    if digits != [] {
      var front, last := digits[..|digits| - 1], digits[|digits| - 1];
      assert digits == front + [last];
      CoefficientPositive(front);
      assert last in digits;
      assert forall d :: d in digits <==> d in front || d == last;
    }
  }

  lemma {:induction false} PowerOfTenPositive(e: int)
    ensures PowerOfTen(e) > 0.0
    decreases if e < 0 then -e else e
  {
    if e > 0 {
      PowerOfTenPositive(e - 1);
    } else if e < 0 {
      PowerOfTenPositive(e + 1);
    }
  }

  lemma PositiveExactly(s: ShareInput)
    requires s.Finite?
    ensures Magnitude(s) > 0.0 <==> IsPositive(s)
  {
    hide Coefficient, PowerOfTen;
    CoefficientPositive(s.digits);
    PowerOfTenPositive(s.exponent);
    SignOfProduct(Coefficient(s.digits), PowerOfTen(s.exponent), s.negative);
  }

  lemma SignOfProduct(n: nat, p: real, negative: bool)
    requires p > 0.0
    ensures (if negative then -1.0 else 1.0) * n as real * p > 0.0 <==> !negative && n > 0
  {
    if n > 0 {
      assert n as real * p > 0.0;
    }
  }

  function PositiveDecimal(s: ShareInput): (r: Result<real, AllocationError>)
    ensures r.Success? ==> r.value > 0.0 && s.Finite? && r.value == Magnitude(s)
    ensures r.Success? <==> s.Finite? && IsPositive(s) && FitsExponent(s) && FitsLength(s)
    // A share is refused for its first fault: its kind, its sign, its size, its length.
    ensures s.Boolean? ==> r == Failure(ShareIsBool)
    ensures s.NotADecimal? ==> r == Failure(ShareInvalid)
    ensures s.NotFinite? ==> r == Failure(ShareNotFinite)
    ensures s.Finite? && !IsPositive(s) ==> r == Failure(ShareNotPositive)
    ensures s.Finite? && IsPositive(s) && !FitsExponent(s) ==> r == Failure(ShareOutOfRange)
    ensures s.Finite? && IsPositive(s) && FitsExponent(s) && !FitsLength(s) ==> r == Failure(ShareTooLong)
  {
    match s
    case Boolean => Failure(ShareIsBool)
    case NotADecimal => Failure(ShareInvalid)
    case NotFinite => Failure(ShareNotFinite)
    case Finite(_, digits, _) =>
      PositiveExactly(s);
      if Magnitude(s) <= 0.0 then Failure(ShareNotPositive)
      else if Adjusted(s) > MAX_SHARE_EXPONENT || -Adjusted(s) > MAX_SHARE_EXPONENT then Failure(ShareOutOfRange)
      else if |digits| > MAX_SHARE_SIGNIFICANT_DIGITS then Failure(ShareTooLong)
      else Success(Magnitude(s))
  }

  predicate IsSpace(c: char) {
    ('\t' <= c <= '\r') || ('\U{1C}' <= c <= ' ') || c == '\U{85}' || c == '\U{A0}' || c == '\U{1680}'
    || ('\U{2000}' <= c <= '\U{200A}') || c == '\U{2028}' || c == '\U{2029}' || c == '\U{202F}' || c == '\U{205F}'
    || c == '\U{3000}'
  }

  /** `not s.strip()` */
  predicate IsBlank(s: string) {
    forall c <- s :: IsSpace(c)
  }

  type Shares = seq<(string, ShareInput)>
  type Weights = map<string, real>

  /** The recipients of a mapping are pairwise different. */
  ghost predicate IsMapping(shares: Shares) {
    forall i, j | 0 <= i < j < |shares| :: shares[i].0 != shares[j].0
  }

  function Weigh1(share: (string, ShareInput)): (r: Result<real, AllocationError>)
    ensures r.Success? ==> r.value > 0.0
  {
    if IsBlank(share.0) then Failure(BlankRecipient) else PositiveDecimal(share.1)
  }

  /** The weights of the shares, or the error of the first share that is refused. */
  function Weigh(shares: Shares): (r: Result<Weights, AllocationError>)
    ensures r.Success? ==> forall x | x in r.value :: r.value[x] > 0.0
  {
    if shares == [] then Success(map[])
    else
      var before :- Weigh(shares[..|shares| - 1]);
      var weight :- Weigh1(shares[|shares| - 1]);
      Success(before[shares[|shares| - 1].0 := weight])
  }

  /** What the arguments come to before anything is distributed. */
  function Accepted(total: int, shares: Shares): Result<Weights, AllocationError> {
    if total <= 0 then Failure(TotalNotPositive)
    else if shares == [] then Failure(NoShares)
    else Weigh(shares)
  }

  // ---- sums over recipients ----

  ghost function Sum(m: map<string, real>): real {
    if m == map[] then 0.0
    else
      var x :| x in m;
      m[x] + Sum(m - {x})
  }

  /** Any recipient may be counted first. */
  lemma {:induction false} SumRemove(m: map<string, real>, x: string)
    requires x in m
    ensures Sum(m) == m[x] + Sum(m - {x})
  {
    var y :| y in m && Sum(m) == m[y] + Sum(m - {y});
    if x != y {
      SumRemove(m - {y}, x);
      SumRemove(m - {x}, y);
      assert m - {y} - {x} == m - {x} - {y};
    }
  }

  lemma SumInsert(m: map<string, real>, x: string, v: real)
    requires x !in m
    ensures Sum(m[x := v]) == Sum(m) + v
  {
    SumRemove(m[x := v], x);
    assert m[x := v] - {x} == m;
  }

  lemma SumUpdate(m: map<string, real>, x: string, v: real)
    requires x in m
    ensures Sum(m[x := v]) == Sum(m) - m[x] + v
  {
    SumRemove(m, x);
    SumRemove(m[x := v], x);
    assert m[x := v] - {x} == m - {x};
  }

  /** A product whose factors the solver need not look into. */
  function Times(a: real, b: real): real {
    a * b
  }

  lemma Distribute(c: real, a: real, b: real)
    ensures Times(c, a + b) == Times(c, a) + Times(c, b)
  {
  }

  lemma TimesOrder(c: real, a: real, b: real)
    requires c > 0.0 && a > b
    ensures Times(c, a) > Times(c, b)
  {
    TimesPositive(c, a - b);
    Distribute(c, b, a - b);
  }

  lemma {:induction false} SumScaled(m: map<string, real>, n: map<string, real>, c: real)
    requires n.Keys == m.Keys && forall x | x in m :: n[x] == Times(c, m[x])
    ensures Sum(n) == Times(c, Sum(m))
  {
    if m == map[] {
      assert n == map[];
    } else {
      hide Times;
      var x :| x in m;
      SumRemove(m, x);
      SumRemove(n, x);
      SumScaled(m - {x}, n - {x}, c);
      Distribute(c, m[x], Sum(m - {x}));
    }
  }

  lemma {:induction false} SumPositive(m: map<string, real>)
    requires m != map[] && forall x | x in m :: m[x] > 0.0
    ensures Sum(m) > 0.0
  {
    var x :| x in m;
    SumRemove(m, x);
    if m - {x} != map[] {
      SumPositive(m - {x});
    }
  }

  /** Pointwise at most, and less somewhere, is a smaller sum. */
  lemma {:induction false} SumOrder(a: map<string, real>, b: map<string, real>)
    requires a.Keys == b.Keys && forall x | x in a :: a[x] <= b[x]
    ensures Sum(a) <= Sum(b)
    ensures (exists x :: x in a && a[x] < b[x]) ==> Sum(a) < Sum(b)
  {
    if a != map[] {
      var y :| y in a;
      SumRemove(a, y);
      SumRemove(b, y);
      SumOrder(a - {y}, b - {y});
      forall x | x in a && a[x] < b[x] ensures Sum(a) < Sum(b) {
        if x != y {
          assert x in a - {y} && (a - {y})[x] < (b - {y})[x];
        }
      }
    }
  }

  ghost function AsReals(m: map<string, int>): map<string, real> {
    map x | x in m :: m[x] as real
  }

  // ---- the largest-remainder rule ----

  ghost predicate Positive(w: Weights) {
    w != map[] && forall x | x in w :: w[x] > 0.0
  }

  /** A recipient's share of the total before rounding. */
  ghost function Exact(total: nat, w: Weights, x: string): real
    requires x in w && Sum(w) != 0.0
  {
    Times(total as real, w[x]) / Sum(w)
  }

  ghost function Remainder(total: nat, w: Weights, x: string): real
    requires x in w && Sum(w) != 0.0
  {
    Exact(total, w, x) - Exact(total, w, x).Floor as real
  }

  /** Larger remainders first, then smaller recipient IDs. */
  predicate RankedBefore(a: (real, string), b: (real, string)) {
    a.0 > b.0 || (a.0 == b.0 && Less(a.1, b.1))
  }

  /** Recipient `x` has been rounded up only if it ranks before every `y` that has not. */
  ghost predicate Fair(total: nat, w: Weights, a: map<string, int>, x: string, y: string)
    requires x in w && y in w && x in a && y in a && Sum(w) != 0.0
  {
    a[x] > Exact(total, w, x).Floor && a[y] <= Exact(total, w, y).Floor ==>
      RankedBefore((Remainder(total, w, x), x), (Remainder(total, w, y), y))
  }

  ghost predicate FloorOrOneMore(total: nat, w: Weights, a: map<string, int>, x: string)
    requires x in w && x in a && Sum(w) != 0.0
  {
    Exact(total, w, x).Floor <= a[x] <= Exact(total, w, x).Floor + 1
  }

  ghost predicate LargestRemainder(total: nat, w: Weights, a: map<string, int>) {
    && Positive(w) && a.Keys == w.Keys && Sum(w) != 0.0
    && (forall x | x in w :: FloorOrOneMore(total, w, a, x))
    && (forall x, y | x in w && y in w :: Fair(total, w, a, x, y))
    && Sum(AsReals(a)) == total as real
  }

  // ---- what the rule means ----

  lemma ExactScaled(total: nat, w: Weights, x: string)
    requires x in w && Sum(w) != 0.0
    ensures Exact(total, w, x) == Times(total as real / Sum(w), w[x])
  {
    Quotient(total as real, w[x], Sum(w));
  }

  lemma Quotient(t: real, a: real, s: real)
    requires s != 0.0
    ensures Times(t, a) / s == Times(t / s, a)
    ensures Times(t / s, s) == t
  {
    assert t / s * s == t;
    assert (t / s * a) * s == (t / s * s) * a;
  }

  ghost function ExactShares(total: nat, w: Weights): map<string, real>
    requires Sum(w) != 0.0
  {
    map x | x in w :: Exact(total, w, x)
  }

  /** The exact shares add up to the total. */
  lemma ExactSum(total: nat, w: Weights)
    requires Sum(w) != 0.0
    ensures Sum(ExactShares(total, w)) == total as real
  {
    hide Times;
    forall x | x in w ensures ExactShares(total, w)[x] == Times(total as real / Sum(w), w[x]) {
      ExactScaled(total, w, x);
    }
    SumScaled(w, ExactShares(total, w), total as real / Sum(w));
    Quotient(total as real, 0.0, Sum(w));
  }

  lemma RankingIsStrict(a: (real, string), b: (real, string))
    requires RankedBefore(a, b)
    ensures !RankedBefore(b, a)
  {
    if a.0 == b.0 && Less(b.1, a.1) {
      LessTransitive(a.1, b.1, a.1);
      LessIrreflexive(a.1);
    }
  }

  /** The weights alone decide the allocation. */
  lemma Unique(total: nat, w: Weights, a: map<string, int>, b: map<string, int>)
    requires LargestRemainder(total, w, a) && LargestRemainder(total, w, b)
    ensures a == b
  {
    forall x | x in w ensures a[x] == b[x] {
      if a[x] > b[x] {
        Inverted(total, w, a, b, x);
      } else if a[x] < b[x] {
        Inverted(total, w, b, a, x);
      }
    }
  }

  lemma Inverted(total: nat, w: Weights, a: map<string, int>, b: map<string, int>, x: string)
    requires LargestRemainder(total, w, a) && LargestRemainder(total, w, b) && x in w
    ensures a[x] <= b[x]
  {
    if a[x] > b[x] {
      var y := Compensated(w, a, b, x);
      assert FloorOrOneMore(total, w, a, x) && FloorOrOneMore(total, w, b, x);
      assert FloorOrOneMore(total, w, a, y) && FloorOrOneMore(total, w, b, y);
      assert Fair(total, w, a, x, y) && Fair(total, w, b, y, x);
      RankingIsStrict((Remainder(total, w, x), x), (Remainder(total, w, y), y));
    }
  }

  /** With equal sums, who gets less in one place gets more in another. */
  lemma Compensated(w: Weights, a: map<string, int>, b: map<string, int>, x: string) returns (y: string)
    requires a.Keys == b.Keys == w.Keys && Sum(AsReals(a)) == Sum(AsReals(b)) && x in w && a[x] > b[x]
    ensures y in w && b[y] > a[y]
  {
    assert AsReals(b)[x] < AsReals(a)[x];
    if forall z | z in w :: b[z] <= a[z] {
      SumOrder(AsReals(b), AsReals(a));
      assert false;
    }
    y :| y in w && b[y] > a[y];
  }

  /** Multiplying all shares by one factor changes nothing. */
  lemma ScaleDoesNotMatter(total: nat, w: Weights, c: real, v: Weights, a: map<string, int>)
    requires Positive(w) && c > 0.0 && v.Keys == w.Keys && forall x | x in w :: v[x] == Times(c, w[x])
    ensures LargestRemainder(total, w, a) <==> LargestRemainder(total, v, a)
  {
    hide LargestRemainder, Times;
    SumScaled(w, v, c);
    SumPositive(w);
    forall x | x in w ensures v[x] > 0.0 {
      TimesPositive(c, w[x]);
    }
    TimesPositive(c, Sum(w));
    forall x | x in w ensures Exact(total, v, x) == Exact(total, w, x) {
      Cancel(c, total as real, w[x], Sum(w));
    }
    assert Positive(v) by { var x :| x in w; assert x in v; }
    SameShares(total, w, v, a);
    SameShares(total, v, w, a);
  }

  lemma TimesPositive(a: real, b: real)
    requires a > 0.0 && b > 0.0
    ensures Times(a, b) > 0.0
  {
  }

  lemma Cancel(c: real, t: real, w: real, s: real)
    requires c > 0.0 && s > 0.0 && Times(c, s) > 0.0
    ensures Times(t, Times(c, w)) / Times(c, s) == Times(t, w) / s
  {
    var q := t * w / s;
    assert q * s == t * w;
    calc {
      q * (c * s);
      c * (q * s);
      c * (t * w);
      t * (c * w);
    }
  }

  lemma SameShares(total: nat, w: Weights, v: Weights, a: map<string, int>)
    requires Positive(v) && w.Keys == v.Keys && Sum(w) != 0.0 && Sum(v) != 0.0
    requires forall x | x in w :: Exact(total, v, x) == Exact(total, w, x)
    ensures LargestRemainder(total, w, a) ==> LargestRemainder(total, v, a)
  {
    if LargestRemainder(total, w, a) {
      forall x | x in v ensures FloorOrOneMore(total, v, a, x) {
        assert FloorOrOneMore(total, w, a, x);
      }
      forall x, y | x in v && y in v ensures Fair(total, v, a, x, y) {
        assert Fair(total, w, a, x, y);
      }
    }
  }

  /** A larger share never gets less than a smaller one. */
  lemma Monotone(total: nat, w: Weights, a: map<string, int>, x: string, y: string)
    requires total > 0 && LargestRemainder(total, w, a) && x in w && y in w && w[x] > w[y]
    ensures a[x] >= a[y]
  {
    hide Times;
    SumPositive(w);
    assert FloorOrOneMore(total, w, a, x) && FloorOrOneMore(total, w, a, y) && Fair(total, w, a, y, x);
    ExactScaled(total, w, x);
    ExactScaled(total, w, y);
    Ratio(total, Sum(w));
    TimesOrder(total as real / Sum(w), w[x], w[y]);
    assert Exact(total, w, x) > Exact(total, w, y);
  }

  lemma Ratio(t: nat, s: real)
    requires t > 0 && s > 0.0
    ensures t as real / s > 0.0
  {
    var q := t as real / s;
    assert q * s == t as real;
    if q <= 0.0 {
      NonNegativeProduct(-q, s);
    }
  }

  // ---- optimality ----

  function Abs(x: real): real {
    if x < 0.0 then -x else x
  }

  /** How far an allocation is from the exact shares, summed over the recipients. */
  ghost function Deviation(total: nat, w: Weights, a: map<string, int>): real
    requires a.Keys == w.Keys && Sum(w) != 0.0
  {
    Sum(Distances(total, w, a))
  }

  ghost function Distances(total: nat, w: Weights, a: map<string, int>): map<string, real>
    requires a.Keys == w.Keys && Sum(w) != 0.0
  {
    map x | x in w :: Abs(a[x] as real - Exact(total, w, x))
  }

  /** A level between the remainders that were rounded up and those that were not. */
  ghost predicate Separates(total: nat, w: Weights, a: map<string, int>, t: real)
    requires a.Keys == w.Keys && Sum(w) != 0.0
  {
    0.0 <= t <= 1.0
    && forall x | x in w ::
         if a[x] > Exact(total, w, x).Floor then t <= Remainder(total, w, x) else Remainder(total, w, x) <= t
  }

  lemma {:induction false} SomeLevelSeparates(total: nat, w: Weights, a: map<string, int>) returns (t: real)
    requires LargestRemainder(total, w, a)
    ensures Separates(total, w, a, t)
  {
    t := LowestRoundedUp(total, w, a, w.Keys);
    forall x | x in w
      ensures if a[x] > Exact(total, w, x).Floor then t <= Remainder(total, w, x) else Remainder(total, w, x) <= t
    {
      if a[x] <= Exact(total, w, x).Floor && t < 1.0 {
        var y :| y in w && a[y] > Exact(total, w, y).Floor && t == Remainder(total, w, y);
        assert Fair(total, w, a, y, x);
      }
    }
  }

  /** The smallest remainder among those that were rounded up, or 1. */
  lemma {:induction false} LowestRoundedUp(total: nat, w: Weights, a: map<string, int>, xs: set<string>) returns (t: real)
    requires a.Keys == w.Keys && Sum(w) != 0.0 && xs <= w.Keys
    ensures 0.0 <= t <= 1.0
    ensures forall x | x in xs && a[x] > Exact(total, w, x).Floor :: t <= Remainder(total, w, x)
    ensures t < 1.0 ==> exists x :: x in xs && a[x] > Exact(total, w, x).Floor && t == Remainder(total, w, x)
    decreases xs
  {
    if xs == {} {
      t := 1.0;
    } else {
      var x :| x in xs;
      t := LowestRoundedUp(total, w, a, xs - {x});
      if a[x] > Exact(total, w, x).Floor && Remainder(total, w, x) < t {
        t := Remainder(total, w, x);
      }
    }
  }

  /** The price of moving one recipient from its rounded share to any other integer. */
  lemma MovingCosts(exact: real, a: int, b: int, t: real)
    requires exact.Floor <= a <= exact.Floor + 1 && 0.0 <= t <= 1.0
    requires if a > exact.Floor then t <= exact - exact.Floor as real else exact - exact.Floor as real <= t
    ensures Abs(b as real - exact) >= Abs(a as real - exact) + Times(1.0 - 2.0 * t, (b - a) as real)
  {
    hide Times;
    var k := (b - a) as real;
    if b > a {
      assert k >= 1.0;
    } else if b < a {
      assert k <= -1.0;
    }
    CostOfUnits(k, t);
  }

  lemma CostOfUnits(k: real, t: real)
    requires 0.0 <= t <= 1.0
    ensures k == 0.0 ==> Times(1.0 - 2.0 * t, k) == 0.0
    ensures k >= 1.0 ==> Times(1.0 - 2.0 * t, k) <= k - 2.0 * t
    ensures k <= -1.0 ==> Times(1.0 - 2.0 * t, k) <= -k - 2.0 * (1.0 - t)
  {
    if k >= 1.0 {
      NonNegativeProduct(t, k - 1.0);
    } else if k <= -1.0 {
      NonNegativeProduct(1.0 - t, -k - 1.0);
    }
  }

  lemma NonNegativeProduct(a: real, b: real)
    requires a >= 0.0 && b >= 0.0
    ensures a * b >= 0.0
  {
  }

  lemma {:induction false} SumOfCosts(d: map<string, real>, e: map<string, real>, a: map<string, real>, b: map<string, real>, c: real)
    requires d.Keys == e.Keys == a.Keys == b.Keys
    requires forall x | x in d :: d[x] >= e[x] + Times(c, b[x] - a[x])
    ensures Sum(d) >= Sum(e) + Times(c, Sum(b) - Sum(a))
  {
    if d == map[] {
      assert e == map[] && a == map[] && b == map[];
    } else {
      hide Times, Sum;
      var x :| x in d;
      SumRemove(d, x);
      SumRemove(e, x);
      SumRemove(a, x);
      SumRemove(b, x);
      SumOfCosts(d - {x}, e - {x}, a - {x}, b - {x}, c);
      CostsAdd(c, a[x], Sum(a - {x}), b[x], Sum(b - {x}));
    }
  }

  lemma CostsAdd(c: real, a: real, restOfA: real, b: real, restOfB: real)
    ensures Times(c, b - a) + Times(c, restOfB - restOfA) == Times(c, (b + restOfB) - (a + restOfA))
  {
    hide Times;
    Distribute(c, b - a, restOfB - restOfA);
    assert (b - a) + (restOfB - restOfA) == (b + restOfB) - (a + restOfA);
  }

  /** No other integer allocation of the same total is closer to the exact shares. */
  lemma Optimal(total: nat, w: Weights, a: map<string, int>, b: map<string, int>)
    requires LargestRemainder(total, w, a)
    requires b.Keys == w.Keys && Sum(AsReals(b)) == total as real
    ensures Deviation(total, w, a) <= Deviation(total, w, b)
  {
    hide Times, Fair, Exact, Remainder, FloorOrOneMore, Separates, Distances, Dearer, AsReals;
    var t := SomeLevelSeparates(total, w, a);
    MovesCost(total, w, a, b, t);
    OptimalFromCosts(Distances(total, w, b), Distances(total, w, a), AsReals(a), AsReals(b), 1.0 - 2.0 * t);
  }

  /** In each place, the first allocation is farther off than the second by at least the price of the difference. */
  ghost predicate Dearer(d: map<string, real>, e: map<string, real>, a: map<string, real>, b: map<string, real>, c: real) {
    d.Keys == e.Keys == a.Keys == b.Keys && forall x | x in d :: d[x] >= e[x] + Times(c, b[x] - a[x])
  }

  lemma OptimalFromCosts(d: map<string, real>, e: map<string, real>, a: map<string, real>, b: map<string, real>, c: real)
    requires Dearer(d, e, a, b, c) && Sum(a) == Sum(b)
    ensures Sum(d) >= Sum(e)
  {
    SumOfCosts(d, e, a, b, c);
  }

  lemma MovesCost(total: nat, w: Weights, a: map<string, int>, b: map<string, int>, t: real)
    requires LargestRemainder(total, w, a) && Separates(total, w, a, t) && b.Keys == w.Keys
    ensures Dearer(Distances(total, w, b), Distances(total, w, a), AsReals(a), AsReals(b), 1.0 - 2.0 * t)
  {
    hide Times, Fair, Exact, Remainder, FloorOrOneMore, Separates, Abs, Sum, Positive;
    forall x | x in w
      ensures Distances(total, w, b)[x]
              >= Distances(total, w, a)[x] + Times(1.0 - 2.0 * t, AsReals(b)[x] - AsReals(a)[x])
    {
      MoveAt(total, w, a, b, x, t);
    }
  }

  lemma MoveAt(total: nat, w: Weights, a: map<string, int>, b: map<string, int>, x: string, t: real)
    requires LargestRemainder(total, w, a) && Separates(total, w, a, t) && b.Keys == w.Keys && x in w
    ensures Distances(total, w, b)[x] >= Distances(total, w, a)[x] + Times(1.0 - 2.0 * t, AsReals(b)[x] - AsReals(a)[x])
  {
    hide Times, Fair, Exact;
    assert FloorOrOneMore(total, w, a, x);
    MovingCosts(Exact(total, w, x), a[x], b[x], t);
  }

  // ---- the order of the shares ----

  /** These are the weights of exactly these shares. */
  ghost predicate Lists(w: Weights, shares: Shares) {
    && (forall s | s in shares :: s.0 in w && Success(w[s.0]) == Weigh1(s))
    && (forall x | x in w :: exists s :: s in shares && s.0 == x)
  }

  lemma {:induction false} WeighHolds(shares: Shares)
    requires IsMapping(shares)
    ensures Weigh(shares).Success? <==> forall s | s in shares :: Weigh1(s).Success?
    ensures Weigh(shares).Success? ==> Lists(Weigh(shares).value, shares)
  {
    hide Weigh1;
    if shares != [] {
      var last := |shares| - 1;
      var front := shares[..last];
      assert shares == front + [shares[last]];
      WeighHolds(front);
      if Weigh(shares).Success? {
        ListsNext(Weigh(front).value, shares);
      }
    }
  }

  lemma ListsNext(before: Weights, shares: Shares)
    requires IsMapping(shares) && shares != []
    requires var last := |shares| - 1; Lists(before, shares[..last]) && Weigh1(shares[last]).Success?
    ensures var last := shares[|shares| - 1]; Lists(before[last.0 := Weigh1(last).value], shares)
  {
    hide Weigh1;
    var last := |shares| - 1;
    var front := shares[..last];
    assert shares == front + [shares[last]];
    forall s | s in front ensures s.0 != shares[last].0 {
      var i :| 0 <= i < last && shares[i] == s;
    }
    var w := before[shares[last].0 := Weigh1(shares[last]).value];
    forall x | x in w ensures exists s :: s in shares && s.0 == x {
      if x == shares[last].0 {
        assert shares[last] in shares;
      } else {
        var s :| s in front && s.0 == x;
        assert s in shares;
      }
    }
  }

  lemma SameLists(v: Weights, w: Weights, a: Shares, b: Shares)
    requires Lists(v, a) && Lists(w, b) && forall s :: s in a <==> s in b
    ensures v == w
  {
    hide Weigh1;
    forall x | x in v ensures x in w && v[x] == w[x] {
      var s :| s in a && s.0 == x;
      assert s in b;
    }
    forall x | x in w ensures x in v {
      var s :| s in b && s.0 == x;
      assert s in a;
    }
  }

  lemma SameWeights(a: Shares, b: Shares)
    requires IsMapping(a) && IsMapping(b) && multiset(a) == multiset(b)
    ensures Weigh(a).Success? <==> Weigh(b).Success?
    ensures Weigh(a).Success? ==> Weigh(a) == Weigh(b)
  {
    hide Weigh, Weigh1, Lists, IsMapping;
    SameElements(a, b);
    WeighHolds(a);
    WeighHolds(b);
    if Weigh(a).Success? {
      SameLists(Weigh(a).value, Weigh(b).value, a, b);
    }
  }

  lemma SameElements<T>(a: seq<T>, b: seq<T>)
    requires multiset(a) == multiset(b)
    ensures forall s :: s in a <==> s in b
    ensures |a| == |b|
  {
    assert |multiset(a)| == |a| && |multiset(b)| == |b|;
    forall s | true ensures s in a <==> s in b {
      InMultiset(a, s);
      InMultiset(b, s);
    }
  }

  /** Whether shares are accepted, and the allocation if they are, do not depend on their order. */
  lemma OrderDoesNotMatter(total: int, shares: Shares, permuted: Shares, a: map<string, int>, b: map<string, int>)
    requires IsMapping(shares) && IsMapping(permuted) && multiset(shares) == multiset(permuted)
    ensures Accepted(total, shares).Success? <==> Accepted(total, permuted).Success?
    ensures (&& Accepted(total, shares).Success?
             && LargestRemainder(total, Accepted(total, shares).value, a)
             && LargestRemainder(total, Accepted(total, permuted).value, b)) ==> a == b
  {
    hide LargestRemainder, Weigh, IsMapping;
    SameElements(shares, permuted);
    SameWeights(shares, permuted);
    if Accepted(total, shares).Success?
       && LargestRemainder(total, Accepted(total, shares).value, a)
       && LargestRemainder(total, Accepted(total, permuted).value, b) {
      Unique(total, Accepted(total, shares).value, a, b);
    }
  }

  // ---- the allocator ----

  lemma {:induction false} WeighStops(shares: Shares, n: nat)
    requires n <= |shares| && Weigh(shares[..n]).Failure?
    ensures Weigh(shares) == Weigh(shares[..n])
  {
    if n == |shares| {
      assert shares[..n] == shares;
    } else {
      var front := shares[..|shares| - 1];
      assert front[..n] == shares[..n];
      WeighStops(front, n);
    }
  }

  /** Check each share and turn it into its weight. */
  method WeighAll(shares: Shares) returns (r: Result<Weights, AllocationError>, ids: seq<string>)
    requires IsMapping(shares)
    ensures r == Weigh(shares)
    ensures r.Success? ==> Distinct(ids) && |ids| == |shares| && r.value.Keys == Members(ids)
  {
    var weights: Weights := map[];
    ids := [];
    var i := 0;
    while i < |shares|
      invariant 0 <= i <= |shares|
      invariant Weigh(shares[..i]) == Success(weights)
      invariant |ids| == i && forall k | 0 <= k < i :: ids[k] == shares[k].0
      invariant weights.Keys == Members(ids)
    {
      assert shares[..i + 1][..i] == shares[..i];
      var weight := Weigh1(shares[i]);
      if weight.Failure? {
        WeighStops(shares, i + 1);
        return Failure(weight.error), ids;
      }
      weights := weights[shares[i].0 := weight.value];
      ids := ids + [shares[i].0];
      i := i + 1;
    }
    assert shares[..i] == shares;
    return Success(weights), ids;
  }

  ghost function Within(w: Weights, ids: seq<string>): Weights {
    map x | x in w && x in ids :: w[x]
  }

  lemma SumNext(w: Weights, ids: seq<string>, i: nat)
    requires Distinct(ids) && i < |ids| && ids[i] in w
    ensures Sum(Within(w, ids[..i + 1])) == Sum(Within(w, ids[..i])) + w[ids[i]]
  {
    hide Sum;
    SumInsert(Within(w, ids[..i]), ids[i], w[ids[i]]);
    assert ids[..i + 1] == ids[..i] + [ids[i]];
    assert Within(w, ids[..i + 1]) == Within(w, ids[..i])[ids[i] := w[ids[i]]];
  }

  /** `sum(weights.values())` */
  method TotalWeight(w: Weights, ids: seq<string>) returns (sum: real)
    requires Distinct(ids) && w.Keys == Members(ids)
    ensures sum == Sum(w)
  {
    hide Sum, Distinct;
    SumOfNone();
    assert Within(w, ids[..0]) == map[];
    sum := 0.0;
    for i := 0 to |ids|
      invariant sum == Sum(Within(w, ids[..i]))
    {
      assert ids[i] in w;
      SumNext(w, ids, i);
      sum := sum + w[ids[i]];
    }
    assert ids[..|ids|] == ids;
    assert Within(w, ids) == w;
  }

  lemma SumOfNone()
    ensures Sum(map[]) == 0.0
  {
  }

  ghost function Members(ids: seq<string>): set<string> {
    set x | x in ids
  }

  ghost predicate Floored(total: nat, w: Weights, allocations: map<string, int>)
    requires Sum(w) != 0.0
  {
    forall x | x in allocations :: x in w && allocations[x] == Exact(total, w, x).Floor
  }

  ghost predicate Remains(total: nat, w: Weights, remainders: seq<(real, string)>, recipients: seq<string>)
    requires Sum(w) != 0.0
  {
    && |remainders| <= |recipients|
    && forall k | 0 <= k < |remainders| ::
         recipients[k] in w && remainders[k] == (Remainder(total, w, recipients[k]), recipients[k])
  }

  lemma FloorNext(allocations: map<string, int>, x: string, v: int)
    requires x !in allocations
    ensures Sum(AsReals(allocations[x := v])) == Sum(AsReals(allocations)) + v as real
  {
    SumInsert(AsReals(allocations), x, v as real);
    assert AsReals(allocations[x := v]) == AsReals(allocations)[x := v as real];
  }

  lemma FloorLast(allocations: map<string, int>, x: string)
    requires x in allocations
    ensures Sum(AsReals(allocations[x := allocations[x] + 1])) == Sum(AsReals(allocations)) + 1.0
  {
    SumUpdate(AsReals(allocations), x, (allocations[x] + 1) as real);
    assert AsReals(allocations[x := allocations[x] + 1]) == AsReals(allocations)[x := (allocations[x] + 1) as real];
  }

  /** Give each recipient the floor of its exact share and note what was cut off. */
  method TakeFloors(total: nat, w: Weights, totalWeight: real, recipients: seq<string>)
    returns (allocations: map<string, int>, distributed: int, remainders: seq<(real, string)>)
    requires totalWeight == Sum(w) != 0.0 && Distinct(recipients) && w.Keys == Members(recipients)
    ensures allocations.Keys == w.Keys && Floored(total, w, allocations) && Sum(AsReals(allocations)) == distributed as real
    ensures |remainders| == |recipients| && Remains(total, w, remainders, recipients)
  {
    hide Sum, AsReals, Times, Exact, Remainder, Floored, Remains, Distinct;
    allocations, distributed, remainders := map[], 0, [];
    NothingYet(total, w, recipients);
    for i := 0 to |recipients|
      invariant allocations.Keys == Members(recipients[..i])
      invariant Floored(total, w, allocations)
      invariant Sum(AsReals(allocations)) == distributed as real
      invariant |remainders| == i && Remains(total, w, remainders, recipients)
    {
      var recipient := recipients[i];
      assert recipient in w;
      var exactAmount := Times(total as real, w[recipient]) / totalWeight;
      ShareOf(total, w, recipient);
      var floorAmount := exactAmount.Floor;
      NextFloor(total, w, recipients, i, allocations, remainders);
      FloorNext(allocations, recipient, floorAmount);
      allocations := allocations[recipient := floorAmount];
      distributed := distributed + floorAmount;
      remainders := remainders + [(exactAmount - floorAmount as real, recipient)];
    }
    assert recipients[..|recipients|] == recipients;
  }

  lemma NothingYet(total: nat, w: Weights, recipients: seq<string>)
    requires Sum(w) != 0.0
    ensures Floored(total, w, map[]) && Remains(total, w, [], recipients) && Sum(AsReals(map[])) == 0.0
  {
    assert AsReals(map[]) == map[];
  }

  lemma NextFloor(total: nat, w: Weights, recipients: seq<string>, i: nat, allocations: map<string, int>,
                  remainders: seq<(real, string)>)
    requires Sum(w) != 0.0 && Distinct(recipients) && i < |recipients| && recipients[i] in w
    requires allocations.Keys == Members(recipients[..i]) && Floored(total, w, allocations)
    requires |remainders| == i && Remains(total, w, remainders, recipients)
    ensures recipients[i] !in allocations
    ensures var next := allocations[recipients[i] := Exact(total, w, recipients[i]).Floor];
            next.Keys == Members(recipients[..i + 1]) && Floored(total, w, next)
    ensures Remains(total, w, remainders + [(Remainder(total, w, recipients[i]), recipients[i])], recipients)
  {
    hide Exact, Remainder, Sum;
    assert recipients[..i + 1] == recipients[..i] + [recipients[i]];
  }

  lemma ShareOf(total: nat, w: Weights, x: string)
    requires Sum(w) != 0.0 && x in w
    ensures Exact(total, w, x) == Times(total as real, w[x]) / Sum(w)
    ensures Remainder(total, w, x) == Exact(total, w, x) - Exact(total, w, x).Floor as real
  {
  }

  /** The recipients among the first `n` of a ranking. */
  ghost predicate AmongFirst(ranked: seq<(real, string)>, n: nat, x: string) {
    exists k :: 0 <= k < n && k < |ranked| && ranked[k].1 == x
  }

  /** One more unit for each of the first recipients of the ranking. */
  method HandOut(floors: map<string, int>, ranked: seq<(real, string)>, undistributed: nat)
    returns (allocations: map<string, int>)
    requires undistributed <= |ranked|
    requires forall i | 0 <= i < |ranked| :: ranked[i].1 in floors
    requires forall i, j | 0 <= i < j < |ranked| :: ranked[i].1 != ranked[j].1
    ensures allocations.Keys == floors.Keys
    ensures forall x | x in floors :: allocations[x] == floors[x] + if AmongFirst(ranked, undistributed, x) then 1 else 0
    ensures Sum(AsReals(allocations)) == Sum(AsReals(floors)) + undistributed as real
  {
    hide Sum, AsReals;
    allocations := floors;
    var k := 0;
    while k < undistributed
      invariant 0 <= k <= undistributed
      invariant allocations.Keys == floors.Keys
      invariant forall x | x in floors :: allocations[x] == floors[x] + if AmongFirst(ranked, k, x) then 1 else 0
      invariant Sum(AsReals(allocations)) == Sum(AsReals(floors)) + k as real
    {
      var recipient := ranked[k].1;
      forall x | x in floors
        ensures AmongFirst(ranked, k + 1, x) <==> AmongFirst(ranked, k, x) || x == recipient
      {
        if x == recipient {
          assert ranked[k].1 == x;
        } else if AmongFirst(ranked, k, x) {
          var j :| 0 <= j < k && ranked[j].1 == x;
          assert j < k + 1;
        }
      }
      assert !AmongFirst(ranked, k, recipient);
      FloorLast(allocations, recipient);
      allocations := allocations[recipient := allocations[recipient] + 1];
      k := k + 1;
    }
  }

  lemma {:induction false} SumWithinOne(a: map<string, real>, b: map<string, real>)
    requires a.Keys == b.Keys && forall x | x in a :: b[x] < a[x] + 1.0
    ensures Sum(b) <= Sum(a) + |a| as real
    ensures a != map[] ==> Sum(b) < Sum(a) + |a| as real
  {
    if a == map[] {
      assert b == map[];
    } else {
      var x :| x in a;
      SumRemove(a, x);
      SumRemove(b, x);
      assert |a - {x}| == |a| - 1 by { assert (a - {x}).Keys == a.Keys - {x}; }
      SumWithinOne(a - {x}, b - {x});
    }
  }

  /** What is left after rounding down is not negative and less than one unit per recipient. */
  lemma Leftover(total: nat, w: Weights, floors: map<string, int>)
    requires Positive(w) && Sum(w) != 0.0 && floors.Keys == w.Keys && Floored(total, w, floors)
    ensures 0.0 <= total as real - Sum(AsReals(floors)) < |w| as real
  {
    hide Times;
    ExactSum(total, w);
    SumOrder(AsReals(floors), ExactShares(total, w));
    SumWithinOne(AsReals(floors), ExactShares(total, w));
    assert AsReals(floors) != map[] by { var x :| x in w; assert x in AsReals(floors); }
    assert |AsReals(floors)| == |w| by { assert AsReals(floors).Keys == w.Keys; }
  }

  lemma {:induction false} DistinctSize(ids: seq<string>)
    requires Distinct(ids)
    ensures |Members(ids)| == |ids|
  {
    if ids != [] {
      var front, last := ids[..|ids| - 1], ids[|ids| - 1];
      DistinctSize(front);
      assert Members(ids) == Members(front) + {last};
    }
  }

  lemma SortedIds(ids: seq<string>) returns (sorted: seq<string>)
    requires Distinct(ids)
    ensures sorted == Sort(Less, ids) && Distinct(sorted) && |sorted| == |ids|
    ensures forall x :: x in sorted <==> x in ids
  {
    sorted := Sort(Less, ids);
    forall a, b | a in ids && b in ids && a != b ensures Less(a, b) || Less(b, a) {
      LessTotal(a, b);
    }
    forall a, b, c | a in ids && b in ids && c in ids && Less(a, b) && Less(b, c) ensures Less(a, c) {
      LessTransitive(a, b, c);
    }
    SortSorted(Less, ids);
    forall i, j | 0 <= i < j < |sorted| ensures sorted[i] != sorted[j] {
      LessIrreflexive(sorted[i]);
    }
    assert |multiset(sorted)| == |multiset(ids)|;
    forall x ensures x in sorted <==> x in ids {
      InMultiset(sorted, x);
      InMultiset(ids, x);
    }
  }

  lemma RankingOrders(s: seq<(real, string)>)
    ensures OrdersAll(RankedBefore, s)
  {
    forall a, b | a in s && b in s && a != b ensures RankedBefore(a, b) || RankedBefore(b, a) {
      LessTotal(a.1, b.1);
    }
    forall a, b, c | a in s && b in s && c in s && RankedBefore(a, b) && RankedBefore(b, c) ensures RankedBefore(a, c) {
      if a.0 == b.0 == c.0 {
        LessTransitive(a.1, b.1, c.1);
      }
    }
  }

  /** A ranking of the remainders lists each recipient once, in order. */
  ghost predicate IsRanking(total: nat, w: Weights, ranked: seq<(real, string)>)
    requires Sum(w) != 0.0
  {
    && |ranked| == |w|
    && Sorted(RankedBefore, ranked)
    && (forall i | 0 <= i < |ranked| :: ranked[i].1 in w && ranked[i].0 == Remainder(total, w, ranked[i].1))
    && (forall i, j | 0 <= i < j < |ranked| :: ranked[i].1 != ranked[j].1)
    && (forall x | x in w :: (Remainder(total, w, x), x) in ranked)
  }

  lemma Ranking(total: nat, w: Weights, remainders: seq<(real, string)>, recipients: seq<string>)
    requires Sum(w) != 0.0 && |remainders| == |recipients| && Remains(total, w, remainders, recipients)
    requires Distinct(recipients) && w.Keys == Members(recipients)
    ensures IsRanking(total, w, Sort(RankedBefore, remainders))
  {
    hide Remainder, Sum, Remains, RankedBefore, Sorted, Distinct, Sort;
    var ranked := Sort(RankedBefore, remainders);
    RemaindersApart(total, w, remainders, recipients);
    RankingOrders(remainders);
    SortSorted(RankedBefore, remainders);
    SameElements(ranked, remainders);
    DistinctSize(recipients);
    assert Sorted(RankedBefore, ranked);
    assert forall s :: s in ranked <==> s in remainders;
    RankedOnce(total, w, remainders, recipients, ranked);
    RankedAll(total, w, remainders, recipients, ranked);
  }

  lemma RemaindersApart(total: nat, w: Weights, remainders: seq<(real, string)>, recipients: seq<string>)
    requires Sum(w) != 0.0 && |remainders| == |recipients| && Remains(total, w, remainders, recipients)
    requires Distinct(recipients)
    ensures Distinct(remainders)
  {
    hide Remainder, Sum;
  }

  lemma RankedAll(total: nat, w: Weights, remainders: seq<(real, string)>, recipients: seq<string>, ranked: seq<(real, string)>)
    requires Sum(w) != 0.0 && |remainders| == |recipients| && Remains(total, w, remainders, recipients)
    requires w.Keys == Members(recipients)
    requires forall s :: s in ranked <==> s in remainders
    ensures forall x | x in w :: (Remainder(total, w, x), x) in ranked
  {
    hide Remainder, Sum;
    forall x | x in w ensures (Remainder(total, w, x), x) in ranked {
      var k :| 0 <= k < |recipients| && recipients[k] == x;
      assert remainders[k] == (Remainder(total, w, x), x);
    }
  }

  lemma RankedOnce(total: nat, w: Weights, remainders: seq<(real, string)>, recipients: seq<string>, ranked: seq<(real, string)>)
    requires Sum(w) != 0.0 && |remainders| == |recipients| && Remains(total, w, remainders, recipients)
    requires Sorted(RankedBefore, ranked) && forall s :: s in ranked <==> s in remainders
    ensures forall i | 0 <= i < |ranked| :: ranked[i].1 in w && ranked[i].0 == Remainder(total, w, ranked[i].1)
    ensures forall i, j | 0 <= i < j < |ranked| :: ranked[i].1 != ranked[j].1
  {
    hide Remainder, Sum;
    forall i | 0 <= i < |ranked| ensures ranked[i].1 in w && ranked[i].0 == Remainder(total, w, ranked[i].1) {
      assert ranked[i] in remainders;
      var k :| 0 <= k < |remainders| && remainders[k] == ranked[i];
    }
    forall i, j | 0 <= i < j < |ranked| ensures ranked[i].1 != ranked[j].1 {
      assert RankedBefore(ranked[i], ranked[j]);
      LessIrreflexive(ranked[i].1);
    }
  }

  /** Rounding up the first of a ranking is the largest-remainder rule. */
  lemma HandedOut(total: nat, w: Weights, floors: map<string, int>, ranked: seq<(real, string)>, n: nat, a: map<string, int>)
    requires Positive(w) && Sum(w) != 0.0 && IsRanking(total, w, ranked)
    requires floors.Keys == w.Keys == a.Keys && Floored(total, w, floors)
    requires forall x | x in w :: a[x] == floors[x] + if AmongFirst(ranked, n, x) then 1 else 0
    requires Sum(AsReals(a)) == total as real
    ensures LargestRemainder(total, w, a)
  {
    hide Exact, Sum, Remainder, RankedBefore, IsRanking, AsReals;
    forall x | x in w ensures FloorOrOneMore(total, w, a, x) {
    }
    forall x, y | x in w && y in w ensures Fair(total, w, a, x, y) {
      if AmongFirst(ranked, n, x) && !AmongFirst(ranked, n, y) {
        RankedApart(total, w, ranked, n, x, y);
      }
    }
  }

  lemma RankedApart(total: nat, w: Weights, ranked: seq<(real, string)>, n: nat, x: string, y: string)
    requires Sum(w) != 0.0 && IsRanking(total, w, ranked) && x in w && y in w
    requires AmongFirst(ranked, n, x) && !AmongFirst(ranked, n, y)
    ensures RankedBefore((Remainder(total, w, x), x), (Remainder(total, w, y), y))
  {
    hide Remainder, Sum, RankedBefore;
    var i :| 0 <= i < n && i < |ranked| && ranked[i].1 == x;
    var j :| 0 <= j < |ranked| && ranked[j] == (Remainder(total, w, y), y);
    assert !(j < n);
    assert RankedBefore(ranked[i], ranked[j]);
  }

  /** Allocate the whole budget exactly, by the largest-remainder rule, or report the first fault of the arguments. */
  method AllocateProportionally(total: int, shares: Shares) returns (r: Result<map<string, int>, AllocationError>)
    requires IsMapping(shares)
    ensures match Accepted(total, shares)
            case Failure(error) => r == Failure(error)
            case Success(w) => r.Success? && total > 0 && LargestRemainder(total, w, r.value)
  {
    hide LargestRemainder, Floored, Remains, IsRanking, Sum, Weigh;
    if total <= 0 {
      return Failure(TotalNotPositive);
    }
    if shares == [] {
      return Failure(NoShares);
    }
    var weighed, ids := WeighAll(shares);
    if weighed.Failure? {
      return Failure(weighed.error);
    }
    var w := weighed.value;
    assert Positive(w) by { assert ids[0] in w; }
    SumPositive(w);
    var totalWeight := TotalWeight(w, ids);
    ghost var sorted := SortedIds(ids);
    var recipients := Sort(Less, ids);
    var floors, distributed, remainders := TakeFloors(total, w, totalWeight, recipients);
    Leftover(total, w, floors);
    Ranking(total, w, remainders, recipients);
    RankingShape(total, w, Sort(RankedBefore, remainders));
    var undistributed := total - distributed;
    var ranked := Sort(RankedBefore, remainders);
    var allocations := HandOut(floors, ranked, undistributed);
    HandedOut(total, w, floors, ranked, undistributed, allocations);
    return Success(allocations);
  }

  lemma RankingShape(total: nat, w: Weights, ranked: seq<(real, string)>)
    requires Sum(w) != 0.0 && IsRanking(total, w, ranked)
    ensures |ranked| == |w|
    ensures forall i | 0 <= i < |ranked| :: ranked[i].1 in w
    ensures forall i, j | 0 <= i < j < |ranked| :: ranked[i].1 != ranked[j].1
  {
  }
}
