/** Cohen's kappa between human and judge labels, over exact arithmetic. */
module Calibration {
  import opened Prelude
  import opened LabelTable

  datatype KappaError = UnequalOrEmpty

  function Share(count: nat, size: nat): real
    requires size > 0
  {
    count as real / size as real
  }

  /** The chance that two independent raters with these positive rates agree. */
  function Chance(human: real, judge: real): real {
    human * judge + (1.0 - human) * (1.0 - judge)
  }

  function KappaOf(observed: real, expected: real): real {
    if expected == 1.0 then (if observed == 1.0 then 1.0 else 0.0)
    else (observed - expected) / (1.0 - expected)
  }

  function CohensKappa(human: seq<bool>, judge: seq<bool>): Result<real, KappaError> {
    if human == [] || |human| != |judge| then Err(UnequalOrEmpty)
    else
      var n := |human|;
      Ok(KappaOf(Share(CountEqual(human, judge), n), Chance(Share(CountTrue(human), n), Share(CountTrue(judge), n))))
  }

  // ---- Arithmetic on the table: a both, b only the human, c only the judge, d neither ----

  lemma Scaling(h: real, j: real, n: real)
    ensures Chance(h, j) * (n * n) == (h * n) * (j * n) + (n - h * n) * (n - j * n)
  {}

  lemma SquareSplit(a: real, b: real, c: real, d: real)
    ensures (a + b + c + d) * (a + b + c + d) - ((a + b) * (a + c) + (c + d) * (b + d))
         == (a + b) * (b + d) + (c + d) * (a + c)
    ensures (a + d) * (a + b + c + d) - ((a + b) * (a + c) + (c + d) * (b + d))
         == (a + b) * (b + d) + (c + d) * (a + c) - (a + b + c + d) * (b + c)
  {}

  lemma ScaledChance(a: real, b: real, c: real, d: real, n: real, h: real, j: real)
    requires n == a + b + c + d && h * n == a + b && j * n == a + c
    ensures Chance(h, j) * (n * n) == (a + b) * (a + c) + (c + d) * (b + d)
  {
    Scaling(h, j, n);
    assert n - h * n == c + d && n - j * n == b + d;
  }

  lemma Distribute(x: real, y: real, s: real)
    ensures (x - y) * s == x * s - y * s
  {}

  /** Chance disagreement and excess agreement, cleared of denominators. */
  lemma ClearedFractions(a: real, b: real, c: real, d: real, n: real, o: real, e: real)
    requires n == a + b + c + d && o * n == a + d
    requires e * (n * n) == (a + b) * (a + c) + (c + d) * (b + d)
    ensures (1.0 - e) * (n * n) == (a + b) * (b + d) + (c + d) * (a + c)
    ensures (o - e) * (n * n) == (a + b) * (b + d) + (c + d) * (a + c) - n * (b + c)
  {
    SquareSplit(a, b, c, d);
    Distribute(1.0, e, n * n);
    Distribute(o, e, n * n);
    assert o * (n * n) == (o * n) * n;
  }

  lemma CancelSquare(kappa: real, below: real, above: real, square: real)
    requires kappa * below == above
    ensures kappa * (below * square) == above * square
  {
    assert kappa * (below * square) == (kappa * below) * square;
  }

  /** Kappa times the chance disagreement is the chance disagreement less the observed one. */
  lemma KappaCleared(o: real, e: real, square: real, scatter: real, disagreement: real)
    requires square > 0.0 && (1.0 - e) * square == scatter && (o - e) * square == scatter - disagreement
    ensures e == 1.0 <==> scatter == 0.0
    ensures e == 1.0 ==> (o - 1.0) * square == -disagreement
    ensures e != 1.0 ==> KappaOf(o, e) * scatter == scatter - disagreement
  {
    if e != 1.0 {
      Quotient(o - e, 1.0 - e);
      CancelSquare(KappaOf(o, e), 1.0 - e, o - e, square);
    }
  }

  lemma Quotient(above: real, below: real)
    requires below != 0.0
    ensures (above / below) * below == above
  {}

  lemma ProductSign(x: real, y: real)
    requires y > 0.0
    ensures x * y >= 0.0 <==> x >= 0.0
    ensures x * y == 0.0 <==> x == 0.0
  {}

  lemma RatioBounds(kappa: real, whole: real, part: real)
    requires whole > 0.0 && kappa * whole == whole - part && 0.0 <= part <= 2.0 * whole
    ensures -1.0 <= kappa <= 1.0
    ensures kappa == 1.0 <==> part == 0.0
    ensures kappa == -1.0 <==> part == 2.0 * whole
  {
    assert (1.0 - kappa) * whole == part;
    assert (kappa + 1.0) * whole == 2.0 * whole - part;
    ProductSign(1.0 - kappa, whole);
    ProductSign(kappa + 1.0, whole);
  }

  /** Twice the chance disagreement is at least the observed one; equality means balanced opposition. */
  lemma SlackIdentity(a: real, b: real, c: real, d: real)
    ensures 2.0 * ((a + b) * (b + d) + (c + d) * (a + c)) - (a + b + c + d) * (b + c)
         == (a + d) * (b + c) + 4.0 * (a * d) + (b - c) * (b - c)
  {}

  lemma NonNegativeProduct(x: real, y: real)
    requires x >= 0.0 && y >= 0.0
    ensures x * y >= 0.0
    ensures x * y == 0.0 <==> x == 0.0 || y == 0.0
  {}

  lemma SquareSign(x: real)
    ensures x * x >= 0.0
    ensures x * x == 0.0 <==> x == 0.0
  {
    if x > 0.0 { ProductSign(x, x); }
    if x < 0.0 { ProductSign(-x, -x); }
  }

  lemma ScatterBound(a: real, b: real, c: real, d: real, scatter: real, disagreement: real)
    requires a >= 0.0 && b >= 0.0 && c >= 0.0 && d >= 0.0
    requires scatter == (a + b) * (b + d) + (c + d) * (a + c)
    requires disagreement == (a + b + c + d) * (b + c)
    ensures 0.0 <= disagreement <= 2.0 * scatter
    ensures disagreement == 2.0 * scatter
       <==> (a + d == 0.0 || b + c == 0.0) && (a == 0.0 || d == 0.0) && b == c
  {
    SlackIdentity(a, b, c, d);
    NonNegativeProduct(a + b + c + d, b + c);
    NonNegativeProduct(a + d, b + c);
    NonNegativeProduct(a, d);
    SquareSign(b - c);
  }

  /** Chance disagreement vanishes exactly when one cell on the diagonal holds everything. */
  lemma ScatterZero(a: real, b: real, c: real, d: real)
    requires a >= 0.0 && b >= 0.0 && c >= 0.0 && d >= 0.0
    ensures (a + b) * (b + d) + (c + d) * (a + c) >= 0.0
    ensures (a + b) * (b + d) + (c + d) * (a + c) == 0.0 <==>
            (a + b == 0.0 || b + d == 0.0) && (c + d == 0.0 || a + c == 0.0)
  {
    NonNegativeProduct(a + b, b + d);
    NonNegativeProduct(c + d, a + c);
  }

  /** Everything the theorems below say of kappa, said of the four cells. */
  lemma TableKappa(a: real, b: real, c: real, d: real, n: real, o: real, h: real, j: real)
    requires a >= 0.0 && b >= 0.0 && c >= 0.0 && d >= 0.0 && n == a + b + c + d && n > 0.0
    requires o * n == a + d && h * n == a + b && j * n == a + c
    ensures -1.0 <= KappaOf(o, Chance(h, j)) <= 1.0
    ensures KappaOf(o, Chance(h, j)) == 1.0 <==> b + c == 0.0
    ensures KappaOf(o, Chance(h, j)) == -1.0 <==> a + d == 0.0 && b == c
    ensures Chance(h, j) == 1.0 ==> o == 1.0
  {
    var e := Chance(h, j);
    var scatter := (a + b) * (b + d) + (c + d) * (a + c);
    var disagreement := n * (b + c);
    ScaledChance(a, b, c, d, n, h, j);
    ClearedFractions(a, b, c, d, n, o, e);
    ScatterBound(a, b, c, d, scatter, disagreement);
    ScatterZero(a, b, c, d);
    FromCleared(a, b, c, d, n, o, e, scatter, disagreement);
  }

  lemma FromCleared(a: real, b: real, c: real, d: real, n: real, o: real, e: real, scatter: real, disagreement: real)
    requires a >= 0.0 && b >= 0.0 && c >= 0.0 && d >= 0.0 && n == a + b + c + d && n > 0.0
    requires (1.0 - e) * (n * n) == scatter && (o - e) * (n * n) == scatter - disagreement
    requires disagreement == n * (b + c) && 0.0 <= disagreement <= 2.0 * scatter
    requires disagreement == 2.0 * scatter
        <==> (a + d == 0.0 || b + c == 0.0) && (a == 0.0 || d == 0.0) && b == c
    requires scatter == 0.0 <==> (a + b == 0.0 || b + d == 0.0) && (c + d == 0.0 || a + c == 0.0)
    ensures -1.0 <= KappaOf(o, e) <= 1.0
    ensures KappaOf(o, e) == 1.0 <==> b + c == 0.0
    ensures KappaOf(o, e) == -1.0 <==> a + d == 0.0 && b == c
    ensures e == 1.0 ==> o == 1.0
  {
    NonNegativeProduct(n, n);
    NonNegativeProduct(n, b + c);
    KappaCleared(o, e, n * n, scatter, disagreement);
    if e == 1.0 {
      ProductSign(o - 1.0, n * n);
    } else {
      RatioBounds(KappaOf(o, e), scatter, disagreement);
    }
  }

  lemma ShareTimesSize(count: nat, size: nat)
    requires size > 0
    ensures Share(count, size) * size as real == count as real
  {
    Quotient(count as real, size as real);
  }

  lemma CountedKappa(t: Table, n: nat, equal: nat, human: nat, judge: nat)
    requires t.Size() == n > 0 && t.both + t.neither == equal
    requires t.both + t.humanOnly == human && t.both + t.judgeOnly == judge
    ensures -1.0 <= KappaOf(Share(equal, n), Chance(Share(human, n), Share(judge, n))) <= 1.0
    ensures KappaOf(Share(equal, n), Chance(Share(human, n), Share(judge, n))) == 1.0
       <==> t.humanOnly == 0 == t.judgeOnly
    ensures KappaOf(Share(equal, n), Chance(Share(human, n), Share(judge, n))) == -1.0 <==> equal == 0 && human == judge
    ensures Chance(Share(human, n), Share(judge, n)) == 1.0 ==> Share(equal, n) == 1.0
  {
    ShareTimesSize(equal, n);
    ShareTimesSize(human, n);
    ShareTimesSize(judge, n);
    TableKappa(t.both as real, t.humanOnly as real, t.judgeOnly as real, t.neither as real, n as real,
               Share(equal, n), Share(human, n), Share(judge, n));
  }

  // ---- Theorems ----

  lemma CountedLabels(human: seq<bool>, judge: seq<bool>)
    requires |human| == |judge|
    ensures var t := Tabulate(human, judge);
            && t.Size() == |human| && t.both + t.neither == CountEqual(human, judge)
            && t.both + t.humanOnly == CountTrue(human) && t.both + t.judgeOnly == CountTrue(judge)
  {
    TableSize(human, judge);
    HumanRow(human, judge);
    JudgeColumn(human, judge);
    Diagonal(human, judge);
  }

  /** Kappa fits its contract on every input. */
  lemma KappaBounds(human: seq<bool>, judge: seq<bool>)
    requires |human| == |judge| && human != []
    ensures CohensKappa(human, judge).Ok? && -1.0 <= CohensKappa(human, judge).value <= 1.0
  {
    CountedLabels(human, judge);
    CountedKappa(Tabulate(human, judge), |human|, CountEqual(human, judge), CountTrue(human), CountTrue(judge));
  }

  /** Kappa is 1 exactly on full agreement. */
  lemma KappaIsOneExactly(human: seq<bool>, judge: seq<bool>)
    requires |human| == |judge| && human != []
    ensures CohensKappa(human, judge) == Ok(1.0) <==> human == judge
  {
    CountedLabels(human, judge);
    NoDisagreement(human, judge);
    CountedKappa(Tabulate(human, judge), |human|, CountEqual(human, judge), CountTrue(human), CountTrue(judge));
  }

  /** Kappa is -1 exactly when the raters never agree and say yes equally often. */
  lemma KappaIsMinusOneExactly(human: seq<bool>, judge: seq<bool>)
    requires |human| == |judge| && human != []
    ensures CohensKappa(human, judge) == Ok(-1.0)
       <==> CountEqual(human, judge) == 0 && CountTrue(human) == CountTrue(judge)
  {
    CountedLabels(human, judge);
    CountedKappa(Tabulate(human, judge), |human|, CountEqual(human, judge), CountTrue(human), CountTrue(judge));
  }

  /** When chance agreement is total the observed one is too, so the zero fallback is never returned. */
  lemma ZeroFallbackIsUnreachable(human: seq<bool>, judge: seq<bool>)
    requires |human| == |judge| && human != []
    requires Chance(Share(CountTrue(human), |human|), Share(CountTrue(judge), |judge|)) == 1.0
    ensures Share(CountEqual(human, judge), |human|) == 1.0
  {
    CountedLabels(human, judge);
    CountedKappa(Tabulate(human, judge), |human|, CountEqual(human, judge), CountTrue(human), CountTrue(judge));
  }

  lemma CrossProducts(a: real, b: real, c: real, d: real)
    ensures (a + b) * (b + d) + (c + d) * (a + c) - (a + b + c + d) * (b + c) == 2.0 * (a * d - b * c)
  {}

  /**
   * The textbook form: with a items that both accept, b only the human, c only the judge and d neither, kappa is
   * 2(ad - bc) over (a + b)(b + d) + (c + d)(a + c), and 1 if that is nothing.
   */
  predicate IsKappa(kappa: real, a: real, b: real, c: real, d: real) {
    var scatter := (a + b) * (b + d) + (c + d) * (a + c);
    if scatter == 0.0 then kappa == 1.0 else kappa * scatter == 2.0 * (a * d - b * c)
  }

  lemma ClearedIsKappa(kappa: real, a: real, b: real, c: real, d: real, scatter: real, disagreement: real)
    requires scatter == (a + b) * (b + d) + (c + d) * (a + c) && disagreement == (a + b + c + d) * (b + c)
    requires if scatter == 0.0 then kappa == 1.0 else kappa * scatter == scatter - disagreement
    ensures IsKappa(kappa, a, b, c, d)
  {
    CrossProducts(a, b, c, d);
  }

  lemma KappaFromCleared(o: real, e: real, n: real, scatter: real, disagreement: real)
    requires n > 0.0 && (1.0 - e) * (n * n) == scatter && (o - e) * (n * n) == scatter - disagreement
    requires e == 1.0 ==> o == 1.0
    ensures if scatter == 0.0 then KappaOf(o, e) == 1.0 else KappaOf(o, e) * scatter == scatter - disagreement
  {
    NonNegativeProduct(n, n);
    KappaCleared(o, e, n * n, scatter, disagreement);
  }

  lemma CellKappa(a: real, b: real, c: real, d: real, n: real, o: real, h: real, j: real)
    requires a >= 0.0 && b >= 0.0 && c >= 0.0 && d >= 0.0 && n == a + b + c + d && n > 0.0
    requires o * n == a + d && h * n == a + b && j * n == a + c
    ensures IsKappa(KappaOf(o, Chance(h, j)), a, b, c, d)
  {
    var e, scatter := Chance(h, j), (a + b) * (b + d) + (c + d) * (a + c);
    ScaledChance(a, b, c, d, n, h, j);
    ClearedFractions(a, b, c, d, n, o, e);
    TableKappa(a, b, c, d, n, o, h, j);
    KappaFromCleared(o, e, n, scatter, n * (b + c));
    ClearedIsKappa(KappaOf(o, e), a, b, c, d, scatter, n * (b + c));
  }

  lemma CountedCellKappa(t: Table, n: nat, equal: nat, human: nat, judge: nat, kappa: real)
    requires t.Size() == n > 0 && t.both + t.neither == equal
    requires t.both + t.humanOnly == human && t.both + t.judgeOnly == judge
    requires kappa == KappaOf(Share(equal, n), Chance(Share(human, n), Share(judge, n)))
    ensures IsKappa(kappa, t.both as real, t.humanOnly as real, t.judgeOnly as real, t.neither as real)
  {
    ShareTimesSize(equal, n);
    ShareTimesSize(human, n);
    ShareTimesSize(judge, n);
    CellKappa(t.both as real, t.humanOnly as real, t.judgeOnly as real, t.neither as real, n as real, Share(equal, n),
              Share(human, n), Share(judge, n));
  }

  lemma KappaOfTable(human: seq<bool>, judge: seq<bool>, t: Table)
    requires |human| == |judge| && human != [] && t == Tabulate(human, judge)
    ensures IsKappa(CohensKappa(human, judge).value, t.both as real, t.humanOnly as real, t.judgeOnly as real,
                    t.neither as real)
  {
    CountedLabels(human, judge);
    CountedCellKappa(t, |human|, CountEqual(human, judge), CountTrue(human), CountTrue(judge),
                     CohensKappa(human, judge).value);
  }

  /** Kappa is what the textbook makes of how often the raters said what. */
  lemma KappaOfCounts(human: seq<bool>, judge: seq<bool>)
    requires |human| == |judge| && human != []
    ensures var items := multiset(Pairs(human, judge));
            IsKappa(CohensKappa(human, judge).value, items[(true, true)] as real, items[(true, false)] as real,
                    items[(false, true)] as real, items[(false, false)] as real)
  {
    CellsCountPairs(human, judge);
    KappaOfTable(human, judge, Tabulate(human, judge));
  }

  lemma ChanceIsMutual(h: real, j: real)
    ensures Chance(h, j) == Chance(j, h)
  {}

  /** Exchanging the raters changes nothing, errors included. */
  lemma KappaIsSymmetric(human: seq<bool>, judge: seq<bool>)
    ensures CohensKappa(human, judge) == CohensKappa(judge, human)
  {
    if |human| == |judge| && human != [] {
      EqualIsMutual(human, judge);
      ChanceIsMutual(Share(CountTrue(human), |human|), Share(CountTrue(judge), |judge|));
    }
  }
}
