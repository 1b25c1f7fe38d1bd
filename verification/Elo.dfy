/**
 Rating arithmetic of src/user/user.c: expected scores, banded K factors, the truncating update,
 and the rating of one finished game, which applies that update twice with the same factors.

 Reals stand for C doubles. The power 10^(r/400) enters only through two facts, positivity and
 strict growth in r, so every statement holds for any weight with these two facts.
 */
module Elo {

  ghost predicate IsWeight(q: int -> real) {
    && (forall r :: q(r) > 0.0)
    && (forall a, b :: a < b ==> q(a) < q(b))
  }

  /** A weight: what pow(10, r / 400) is used for. */
  type Weight = q: int -> real | IsWeight(q) ghost witness SampleWeight()

  // One such weight, only to show that the type is inhabited.
  ghost function SampleWeight(): (q: int -> real)
    ensures IsWeight(q)
  {
    var q := (r: int) => if r >= 0 then 1.0 + r as real else 1.0 / (1.0 - r as real);
    assert forall r :: q(r) > 0.0;
    assert IsWeight(q) by {
      forall a, b | a < b ensures q(a) < q(b) {
        if b < 0 { ReciprocalShrinks(1.0 - b as real, 1.0 - a as real); }
        else if a < 0 { ReciprocalShrinks(1.0, 1.0 - a as real); }
      }
    }
    q
  }

  lemma ReciprocalShrinks(x: real, y: real)
    requires 0.0 < x < y
    ensures 1.0 / y < 1.0 / x
  {
    QuotientOrder(1.0, y, 1.0, x);
  }

  // ---------- the functions of user.c ----------

  function ExpectedA(q: Weight, ra: int, rb: int): real {
    q(ra) / (q(ra) + q(rb))
  }

  function ExpectedB(q: Weight, ra: int, rb: int): real {
    q(rb) / (q(ra) + q(rb))
  }

  function DynamicK(elo: int): int {
    if elo < 1600 then 25 else if elo < 2000 then 20 else if elo < 2400 then 15 else 10
  }

  /** C's conversion of a double to an int: towards zero. */
  function Trunc(x: real): int {
    if x >= 0.0 then x.Floor else -((-x).Floor)
  }

  /** The change one player sees per updateElo call, before truncation. */
  function Swing(k: int, score: real, expected: real): real {
    k as real * (score - expected)
  }

  /** The pair that one call of updateElo leaves in *Ra and *Rb. */
  function Updated(ra: int, rb: int, ka: int, kb: int, ea: real, eb: real, result: real): (int, int) {
    (Trunc(ra as real + Swing(ka, result, ea)), Trunc(rb as real + Swing(kb, 1.0 - result, eb)))
  }

  /** The two ratings after a game: updateElo runs twice with factors of the ratings before the game. */
  function RateGame(q: Weight, winner: int, loser: int, result: real): (int, int) {
    var kw, kl := DynamicK(winner), DynamicK(loser);
    var ea, eb := ExpectedA(q, winner, loser), ExpectedB(q, winner, loser);
    var once := Updated(winner, loser, kw, kl, ea, eb, result);
    Updated(once.0, once.1, kw, kl, ea, eb, result)
  }

  // ---------- expected scores ----------

  lemma QuotientOrder(x: real, s: real, x': real, s': real)
    requires s > 0.0 && s' > 0.0
    ensures x * s' <= x' * s ==> x / s <= x' / s'
    ensures x * s' < x' * s ==> x / s < x' / s'
  {
    var e, e', d := x / s, x' / s', s * s';
    assert d > 0.0;
    assert x * s' == e * d by { assert x == e * s; }
    assert x' * s == e' * d by { assert x' == e' * s'; }
    assert x' * s - x * s' == (e' - e) * d;
    SignOfProduct(e' - e, d);
  }

  // Products are passed in by name, so that callers keep to linear arithmetic.
  lemma Scale(x: real, y: real, t: real, xt: real, yt: real)
    requires t >= 0.0 && x <= y && xt == x * t && yt == y * t
    ensures xt <= yt
    ensures x < y && t > 0.0 ==> xt < yt
  {
    var d := y - x;
    assert yt - xt == d * t;
    assert d * t >= 0.0;
    if x < y && t > 0.0 { assert d * t > 0.0; }
  }

  lemma SignOfProduct(t: real, d: real)
    requires d > 0.0
    ensures t * d >= 0.0 ==> t >= 0.0
    ensures t * d > 0.0 ==> t > 0.0
  {}

  lemma ExpectedScores(q: Weight, a: int, b: int)
    ensures 0.0 < ExpectedA(q, a, b) < 1.0
    ensures ExpectedA(q, a, b) + ExpectedB(q, a, b) == 1.0
    ensures ExpectedB(q, a, b) == ExpectedA(q, b, a)
    ensures a == b ==> ExpectedA(q, a, b) == 0.5
  {
    var x, y := q(a), q(b);
    QuotientOrder(0.0, 1.0, x, x + y);
    QuotientOrder(x, x + y, 1.0, 1.0);
    SharesAddUp(x / (x + y), y / (x + y), x, y);
  }

  lemma SharesAddUp(e: real, f: real, x: real, y: real)
    requires x + y > 0.0 && e * (x + y) == x && f * (x + y) == y
    ensures e + f == 1.0
  {
    var t, sum := e + f - 1.0, x + y;
    assert t * sum == e * sum + f * sum - sum == 0.0;
    assert t >= 0.0 by { SignOfProduct(t, sum); }
    assert -t >= 0.0 by { assert -t * sum == -(t * sum); SignOfProduct(-t, sum); }
  }

  // A larger own weight, or a smaller one of the opponent, means a larger expected score.
  lemma ShareGrows(x: real, y: real, x': real, y': real)
    requires 0.0 < x <= x' && 0.0 < y' <= y
    ensures x / (x + y) <= x' / (x' + y')
    ensures x < x' || y' < y ==> x / (x + y) < x' / (x' + y')
  {
    assert x * (x' + y') == x * x' + x * y' && x' * (x + y) == x * x' + x' * y;
    ProductGrows(x, y', x', y, x * y', x' * y);
    QuotientOrder(x, x + y, x', x' + y');
  }

  lemma ProductGrows(a: real, b: real, a': real, b': real, ab: real, ab': real)
    requires 0.0 < a <= a' && 0.0 < b <= b' && ab == a * b && ab' == a' * b'
    ensures ab <= ab'
    ensures a < a' || b < b' ==> ab < ab'
  {
    var mid := a * b';
    Scale(a, a', b', mid, ab');
    Scale(b, b', a, ab, mid);
  }

  lemma ExpectedMonotone(q: Weight, a: int, b: int, a': int, b': int)
    requires a <= a' && b' <= b
    ensures ExpectedA(q, a, b) <= ExpectedA(q, a', b')
    ensures a < a' || b' < b ==> ExpectedA(q, a, b) < ExpectedA(q, a', b')
  {
    assert a == a' || q(a) < q(a');
    assert b == b' || q(b') < q(b);
    ShareGrows(q(a), q(b), q(a'), q(b'));
  }

  // ---------- the double update ----------

  function TwoUpdates(r: int, x: real): int {
    Trunc(Trunc(r as real + x) as real + x)
  }

  lemma GameAsUpdates(q: Weight, w: int, l: int, result: real)
    ensures RateGame(q, w, l, result)
         == (TwoUpdates(w, Swing(DynamicK(w), result, ExpectedA(q, w, l))),
             TwoUpdates(l, Swing(DynamicK(l), 1.0 - result, ExpectedB(q, w, l))))
  {
    hide Swing, DynamicK, ExpectedA, ExpectedB, Trunc;
  }

  // Away from zero, two truncated updates add twice the floor of one swing.
  lemma TwoFloors(r: int, x: real)
    requires r + 2 * x.Floor >= 0 && (r >= 0 || x < 0.0)
    ensures TwoUpdates(r, x) == r + 2 * x.Floor
  {
    var f := x.Floor;
    assert f as real <= x < f as real + 1.0;
    assert r as real + x >= 0.0;
    assert Trunc(r as real + x) == r + f;
    assert (r + f) as real + x >= 0.0;
    assert Trunc((r + f) as real + x) == r + f + f;
  }

  lemma SwingRange(k: int, score: real, expected: real)
    requires 10 <= k <= 25 && 0.0 <= score <= 1.0 && 0.0 < expected < 1.0
    ensures -(k as real) < Swing(k, score, expected) < k as real
    ensures -k <= Swing(k, score, expected).Floor <= k - 1
    ensures score > expected ==> Swing(k, score, expected) > 0.0
    ensures score == expected ==> Swing(k, score, expected) == 0.0
    ensures score < expected ==> Swing(k, score, expected) < 0.0
  {
    var x := Swing(k, score, expected);
    ProductWithin(k as real, score - expected, k as real, x);
    FloorRange(x, k);
  }

  lemma FloorRange(x: real, k: int)
    requires -(k as real) < x < k as real
    ensures -k <= x.Floor <= k - 1
  {
    assert x.Floor as real <= x < x.Floor as real + 1.0;
  }

  lemma ProductWithin(d: real, t: real, bound: real, dt: real)
    requires -bound <= d <= bound && -1.0 < t < 1.0 && bound > 0.0 && dt == d * t
    ensures -bound < dt < bound
    ensures d > 0.0 && t > 0.0 ==> dt > 0.0
    ensures t == 0.0 ==> dt == 0.0
    ensures d > 0.0 && t < 0.0 ==> dt < 0.0
  {
    var u := if t >= 0.0 then t else -t;
    var du, bu := d * u, bound * u;
    Scale(d, bound, u, du, bu);
    Scale(-bound, d, u, -bu, du);
    Scale(u, 1.0, bound, bu, bound);
    if d > 0.0 { Scale(0.0, d, u, 0.0, du); }
  }

  lemma Factors(elo: int)
    ensures 10 <= DynamicK(elo) <= 25
  {}

  // With ratings of at least 50 a game moves each player by twice the floor of that player's swing.
  lemma GameInFloors(q: Weight, w: int, l: int, result: real)
    requires w >= 50 && l >= 50 && 0.0 <= result <= 1.0
    ensures var (w', l') := RateGame(q, w, l, result);
            && w' == w + 2 * Swing(DynamicK(w), result, ExpectedA(q, w, l)).Floor
            && l' == l + 2 * Swing(DynamicK(l), 1.0 - result, ExpectedB(q, w, l)).Floor
  {
    hide RateGame, Swing, ExpectedA, ExpectedB, TwoUpdates, DynamicK;
    GameAsUpdates(q, w, l, result);
    ExpectedScores(q, w, l);
    Factors(w);
    Factors(l);
    SwingRange(DynamicK(w), result, ExpectedA(q, w, l));
    SwingRange(DynamicK(l), 1.0 - result, ExpectedB(q, w, l));
    TwoFloors(w, Swing(DynamicK(w), result, ExpectedA(q, w, l)));
    TwoFloors(l, Swing(DynamicK(l), 1.0 - result, ExpectedB(q, w, l)));
  }

  // ---------- decisive games ----------

  /** A win is worth twice the floor of the swing, in [0, 2*K-2]; a loss costs an even amount in [2, 2*K]. */
  lemma DecisiveGame(q: Weight, w: int, l: int)
    requires w >= 50 && l >= 50
    ensures var (w', l') := RateGame(q, w, l, 1.0);
            && w' - w == 2 * Swing(DynamicK(w), 1.0, ExpectedA(q, w, l)).Floor
            && 0 <= w' - w <= 2 * DynamicK(w) - 2
            && l' - l == 2 * Swing(DynamicK(l), 0.0, ExpectedA(q, l, w)).Floor
            && 2 <= l - l' <= 2 * DynamicK(l)
  {
    hide RateGame, Swing, ExpectedA, ExpectedB, DynamicK;
    GameInFloors(q, w, l, 1.0);
    ExpectedScores(q, w, l);
    Factors(w);
    Factors(l);
    SwingRange(DynamicK(w), 1.0, ExpectedA(q, w, l));
    SwingRange(DynamicK(l), 0.0, ExpectedB(q, w, l));
  }

  // ---------- games in numbers ----------

  /**
   What a win of w over l moves when the loser's share is this: twice the floor of 25, 20, 15 or 10 times it, by
   band.
   */
  predicate WonAt(share: real, w: int, l: int, w': int, l': int) {
    && (w < 1600 ==> w' == w + 2 * (25.0 * share).Floor && 0 <= w' - w <= 48)
    && (1600 <= w < 2000 ==> w' == w + 2 * (20.0 * share).Floor && 0 <= w' - w <= 38)
    && (2000 <= w < 2400 ==> w' == w + 2 * (15.0 * share).Floor && 0 <= w' - w <= 28)
    && (2400 <= w ==> w' == w + 2 * (10.0 * share).Floor && 0 <= w' - w <= 18)
    && (l < 1600 ==> l' == l + 2 * (-25.0 * share).Floor && 2 <= l - l' <= 50)
    && (1600 <= l < 2000 ==> l' == l + 2 * (-20.0 * share).Floor && 2 <= l - l' <= 40)
    && (2000 <= l < 2400 ==> l' == l + 2 * (-15.0 * share).Floor && 2 <= l - l' <= 30)
    && (2400 <= l ==> l' == l + 2 * (-10.0 * share).Floor && 2 <= l - l' <= 20)
  }

  /** A win of w over l in numbers; the share is the loser's expected score. */
  predicate WonBy(q: Weight, w: int, l: int, w': int, l': int) {
    WonAt(q(l) / (q(w) + q(l)), w, l, w', l')
  }

  /** One side of a draw when its expected score is this. */
  predicate DrewAt(share: real, a: int, a': int) {
    && (a < 1600 ==> a' == a + 2 * (25.0 * (0.5 - share)).Floor)
    && (1600 <= a < 2000 ==> a' == a + 2 * (20.0 * (0.5 - share)).Floor)
    && (2000 <= a < 2400 ==> a' == a + 2 * (15.0 * (0.5 - share)).Floor)
    && (2400 <= a ==> a' == a + 2 * (10.0 * (0.5 - share)).Floor)
  }

  /** One side of a draw in numbers: a against b. */
  predicate DrewTo(q: Weight, a: int, b: int, a': int) {
    DrewAt(q(a) / (q(a) + q(b)), a, a')
  }

  lemma WinInNumbers(q: Weight, w: int, l: int)
    requires w >= 50 && l >= 50
    ensures var (w', l') := RateGame(q, w, l, 1.0); WonBy(q, w, l, w', l')
  {
    hide RateGame, ExpectedA, WonAt, Swing, DynamicK;
    DecisiveGame(q, w, l);
    ExpectedScores(q, w, l);
    ExpectedScores(q, l, w);
    var (w', l') := RateGame(q, w, l, 1.0);
    WinAmounts(w, l, ExpectedB(q, w, l), w', l');
  }

  lemma WinAmounts(w: int, l: int, share: real, w': int, l': int)
    requires w' - w == 2 * Swing(DynamicK(w), 1.0, 1.0 - share).Floor && 0 <= w' - w <= 2 * DynamicK(w) - 2
    requires l' - l == 2 * Swing(DynamicK(l), 0.0, share).Floor && 2 <= l - l' <= 2 * DynamicK(l)
    ensures WonAt(share, w, l, w', l')
  {
    hide Swing, DynamicK;
    SwingInBand(w, 1.0, 1.0 - share);
    SwingInBand(l, 0.0, share);
  }

  lemma SwingInBand(elo: int, score: real, expected: real)
    ensures elo < 1600 ==> DynamicK(elo) == 25 && Swing(DynamicK(elo), score, expected) == 25.0 * (score - expected)
    ensures 1600 <= elo < 2000 ==>
              DynamicK(elo) == 20 && Swing(DynamicK(elo), score, expected) == 20.0 * (score - expected)
    ensures 2000 <= elo < 2400 ==>
              DynamicK(elo) == 15 && Swing(DynamicK(elo), score, expected) == 15.0 * (score - expected)
    ensures 2400 <= elo ==> DynamicK(elo) == 10 && Swing(DynamicK(elo), score, expected) == 10.0 * (score - expected)
  {}

  lemma DrawInNumbers(q: Weight, w: int, l: int)
    requires w >= 50 && l >= 50
    ensures var (w', l') := RateGame(q, w, l, 0.5); DrewTo(q, w, l, w') && DrewTo(q, l, w, l')
  {
    hide RateGame, Swing, DynamicK, ExpectedA, ExpectedB, DrewTo;
    assert ExpectedB(q, w, l) == ExpectedA(q, l, w) by { ExpectedScores(q, w, l); }
    GameInFloors(q, w, l, 0.5);
    DrawSide(q, w, l, RateGame(q, w, l, 0.5).0);
    DrawSide(q, l, w, RateGame(q, w, l, 0.5).1);
  }

  lemma DrawSide(q: Weight, a: int, b: int, a': int)
    requires a' == a + 2 * Swing(DynamicK(a), 0.5, ExpectedA(q, a, b)).Floor
    ensures DrewTo(q, a, b, a')
  {
    assert DrewTo(q, a, b, a') <==> DrewAt(ExpectedA(q, a, b), a, a') by { hide DrewAt; }
    hide ExpectedA, DrewTo, Swing, DynamicK;
    SwingInBand(a, 0.5, ExpectedA(q, a, b));
  }

  /** Two players of the same rating r from 50 up: what a win moves in each band; a draw moves nothing. */
  lemma EqualRatings(q: Weight, r: int)
    requires r >= 50
    ensures r < 1600 ==> RateGame(q, r, r, 1.0) == (r + 24, r - 26)
    ensures 1600 <= r < 2000 ==> RateGame(q, r, r, 1.0) == (r + 20, r - 20)
    ensures 2000 <= r < 2400 ==> RateGame(q, r, r, 1.0) == (r + 14, r - 16)
    ensures 2400 <= r ==> RateGame(q, r, r, 1.0) == (r + 10, r - 10)
    ensures RateGame(q, r, r, 0.5) == (r, r)
  {
    assert q(r) / (q(r) + q(r)) == 0.5 by { ExpectedScores(q, r, r); }
    hide RateGame;
    var (w', l') := RateGame(q, r, r, 1.0);
    assert WonAt(0.5, r, r, w', l') by { WinInNumbers(q, r, r); }
    assert 12.5.Floor == 12 && (-12.5).Floor == -13 && 7.5.Floor == 7 && (-7.5).Floor == -8;
    DrawDirection(q, r, r);
  }

  /** n is x without its fractional part. */
  predicate Truncates(n: int, x: real) {
    && (x >= 0.0 ==> n as real <= x < n as real + 1.0)
    && (x <= 0.0 ==> n as real - 1.0 < x <= n as real)
  }

  predicate InBand(elo: int, k: real) {
    && (elo < 1600 ==> k == 25.0)
    && (1600 <= elo < 2000 ==> k == 20.0)
    && (2000 <= elo < 2400 ==> k == 15.0)
    && (2400 <= elo ==> k == 10.0)
  }

  /**
   Every game, for all ratings: the same change is added twice to each rating, and each sum loses its fractional
   part; w1 and l1 are the ratings in between.
   */
  lemma AnyGameInNumbers(q: Weight, w: int, l: int, result: real, k: real, j: real, w1: int, l1: int, w2: int, l2: int)
    requires InBand(w, k) && InBand(l, j)
    requires var x := k * (result - q(w) / (q(w) + q(l)));
             Truncates(w1, w as real + x) && Truncates(w2, w1 as real + x)
    requires var y := j * ((1.0 - result) - q(l) / (q(w) + q(l)));
             Truncates(l1, l as real + y) && Truncates(l2, l1 as real + y)
    ensures RateGame(q, w, l, result) == (w2, l2)
  {
    hide RateGame, Swing, DynamicK, Truncates, InBand;
    var x := k * (result - q(w) / (q(w) + q(l)));
    var y := j * ((1.0 - result) - q(l) / (q(w) + q(l)));
    SwingIs(w, k, result, ExpectedA(q, w, l));
    SwingIs(l, j, 1.0 - result, ExpectedB(q, w, l));
    GameTruncated(q, w, l, result, x, y, w1, l1, w2, l2);
  }

  lemma GameTruncated(
      q: Weight, w: int, l: int, result: real, x: real, y: real, w1: int, l1: int, w2: int, l2: int)
    requires x == Swing(DynamicK(w), result, ExpectedA(q, w, l))
    requires y == Swing(DynamicK(l), 1.0 - result, ExpectedB(q, w, l))
    requires Truncates(w1, w as real + x) && Truncates(w2, w1 as real + x)
    requires Truncates(l1, l as real + y) && Truncates(l2, l1 as real + y)
    ensures RateGame(q, w, l, result) == (w2, l2)
  {
    hide RateGame, Swing, ExpectedA, ExpectedB, DynamicK, Trunc, Truncates;
    GameAsUpdates(q, w, l, result);
    OneTruncation(w1, w as real + x);
    OneTruncation(w2, w1 as real + x);
    OneTruncation(l1, l as real + y);
    OneTruncation(l2, l1 as real + y);
  }

  lemma SwingIs(elo: int, k: real, score: real, expected: real)
    requires InBand(elo, k)
    ensures Swing(DynamicK(elo), score, expected) == k * (score - expected)
  {
    assert DynamicK(elo) as real == k;
  }

  lemma OneTruncation(n: int, x: real)
    requires Truncates(n, x)
    ensures Trunc(x) == n
  {
    assert x.Floor as real <= x < x.Floor as real + 1.0;
    assert (-x).Floor as real <= -x < (-x).Floor as real + 1.0;
  }

  /** What the reporter gains from a win. */
  function WinnerGain(q: Weight, w: int, l: int): int {
    RateGame(q, w, l, 1.0).0 - w
  }

  /** Beating a stronger opponent never pays less, and a stronger winner never gains more, across all K bands. */
  lemma WinnerGainMonotone(q: Weight, w: int, l: int, w': int, l': int)
    requires 50 <= w <= w' && 50 <= l' <= l
    ensures WinnerGain(q, w', l') <= WinnerGain(q, w, l)
  {
    hide WinnerGain, Swing, ExpectedA, DynamicK;
    WinnerGainInFloors(q, w, l);
    WinnerGainInFloors(q, w', l');
    GainInputsMonotone(q, w, l, w', l');
  }

  lemma WinnerGainInFloors(q: Weight, w: int, l: int)
    requires w >= 50 && l >= 50
    ensures WinnerGain(q, w, l) == 2 * Swing(DynamicK(w), 1.0, ExpectedA(q, w, l)).Floor
  {
    hide RateGame, Swing, ExpectedA, DynamicK;
    GameInFloors(q, w, l, 1.0);
  }

  lemma GainInputsMonotone(q: Weight, w: int, l: int, w': int, l': int)
    requires w <= w' && l' <= l
    ensures Swing(DynamicK(w'), 1.0, ExpectedA(q, w', l')).Floor <= Swing(DynamicK(w), 1.0, ExpectedA(q, w, l)).Floor
  {
    hide Swing, ExpectedA;
    ExpectedMonotone(q, w, l, w', l');
    ExpectedScores(q, w, l);
    ExpectedScores(q, w', l');
    SwingMonotone(DynamicK(w), ExpectedA(q, w, l), DynamicK(w'), ExpectedA(q, w', l'));
  }

  lemma SwingMonotone(k: int, e: real, k': int, e': real)
    requires 0 < k' <= k && 0.0 < e <= e' < 1.0
    ensures Swing(k', 1.0, e').Floor <= Swing(k, 1.0, e).Floor
  {
    var x, x' := Swing(k, 1.0, e), Swing(k', 1.0, e');
    ProductGrows(k' as real, 1.0 - e', k as real, 1.0 - e, x', x);
    FloorMonotone(x', x);
  }

  lemma FloorMonotone(x: real, y: real)
    requires x <= y
    ensures x.Floor <= y.Floor
  {}

  // ---------- drawn games, for every pair of ratings ----------

  /** Naming either player first gives the same two ratings. */
  lemma DrawSymmetric(q: Weight, a: int, b: int)
    ensures RateGame(q, a, b, 0.5) == (RateGame(q, b, a, 0.5).1, RateGame(q, b, a, 0.5).0)
  {
    ExpectedScores(q, a, b);
    ExpectedScores(q, b, a);
  }

  /** Equal ratings stay; the lower rating never falls; the higher never rises, and falls whenever it is positive. */
  lemma DrawDirection(q: Weight, a: int, b: int)
    requires a <= b
    ensures var (a', b') := RateGame(q, a, b, 0.5);
            && (a == b ==> a' == a && b' == b)
            && a' >= a
            && b' <= b
            && (a < b && b > 0 ==> b' < b)
  {
    hide RateGame, Swing, ExpectedA, ExpectedB, Trunc, DynamicK;
    GameAsUpdates(q, a, b, 0.5);
    ExpectedScores(q, a, b);
    ExpectedScores(q, b, b);
    ExpectedMonotone(q, a, b, b, b);
    var x := Swing(DynamicK(a), 0.5, ExpectedA(q, a, b));
    var y := Swing(DynamicK(b), 0.5, ExpectedB(q, a, b));
    Factors(a);
    Factors(b);
    SwingRange(DynamicK(a), 0.5, ExpectedA(q, a, b));
    SwingRange(DynamicK(b), 0.5, ExpectedB(q, a, b));
    TruncRises(a, x);
    TruncRises(Trunc(a as real + x), x);
    TruncFalls(b, y);
    TruncFalls(Trunc(b as real + y), y);
  }

  lemma TruncRises(r: int, x: real)
    requires x >= 0.0
    ensures Trunc(r as real + x) >= r
    ensures x == 0.0 ==> Trunc(r as real + x) == r
  {
    var z := r as real + x;
    assert z.Floor as real <= z < z.Floor as real + 1.0;
    assert (-z).Floor as real <= -z < (-z).Floor as real + 1.0;
  }

  lemma TruncFalls(r: int, x: real)
    requires x <= 0.0
    ensures Trunc(r as real + x) <= r
    ensures x == 0.0 ==> Trunc(r as real + x) == r
    ensures x < 0.0 && r > 0 ==> Trunc(r as real + x) < r
  {
    var z := r as real + x;
    assert z.Floor as real <= z < z.Floor as real + 1.0;
    assert (-z).Floor as real <= -z < (-z).Floor as real + 1.0;
  }

  // ---------- what a game does to the sum of the two ratings ----------

  function Drift(q: Weight, w: int, l: int, result: real): int {
    var (w', l') := RateGame(q, w, l, result);
    w' + l' - (w + l)
  }

  /** In one K band, from 50 up, a game keeps the sum or lowers it by 2; it keeps it exactly when the swing is whole. */
  lemma SameBandDrift(q: Weight, w: int, l: int, result: real)
    requires w >= 50 && l >= 50 && DynamicK(w) == DynamicK(l) && 0.0 <= result <= 1.0
    ensures Drift(q, w, l, result) == 0 || Drift(q, w, l, result) == -2
    ensures var x := Swing(DynamicK(w), result, ExpectedA(q, w, l));
            Drift(q, w, l, result) == 0 <==> x == x.Floor as real
  {
    hide RateGame, Swing, ExpectedA, ExpectedB, DynamicK;
    GameInFloors(q, w, l, result);
    SwingSum(q, w, l, result);
    OppositeFloors(Swing(DynamicK(w), result, ExpectedA(q, w, l)));
  }

  lemma OppositeFloors(x: real)
    ensures x.Floor + (-x).Floor == if x == x.Floor as real then 0 else -1
  {
    assert (-x).Floor as real <= -x < (-x).Floor as real + 1.0;
    assert x.Floor as real <= x < x.Floor as real + 1.0;
  }

  // Two truncated updates of both sides move the sum by less than twice the exact sum, give or take four.
  lemma TwoUpdatesSum(a: int, b: int, x: real, y: real)
    ensures -4.0 < (TwoUpdates(a, x) + TwoUpdates(b, y) - (a + b)) as real - 2.0 * (x + y) < 4.0
  {
    hide Trunc;
    var a1, b1 := Trunc(a as real + x), Trunc(b as real + y);
    TruncError(a as real + x);
    TruncError(b as real + y);
    TruncError(a1 as real + x);
    TruncError(b1 as real + y);
  }

  lemma TruncError(z: real)
    ensures -1.0 < Trunc(z) as real - z < 1.0
  {
    assert z.Floor as real <= z < z.Floor as real + 1.0;
    assert (-z).Floor as real <= -z < (-z).Floor as real + 1.0;
  }

  // When the swings cancel, each truncated update moves the sum by at most one.
  lemma OppositeUpdates(a: int, b: int, x: real)
    ensures -1 <= Trunc(a as real + x) + Trunc(b as real - x) - (a + b) <= 1
  {
    hide Trunc;
    TruncError(a as real + x);
    TruncError(b as real - x);
  }

  // The two swings add up to the difference of the K factors times one side's surprise.
  lemma SwingSum(q: Weight, w: int, l: int, result: real)
    requires 0.0 <= result <= 1.0
    ensures var x := Swing(DynamicK(w), result, ExpectedA(q, w, l));
            var y := Swing(DynamicK(l), 1.0 - result, ExpectedB(q, w, l));
            && -15.0 < x + y < 15.0
            && (DynamicK(w) == DynamicK(l) ==> y == -x)
  {
    hide ExpectedA, ExpectedB;
    ExpectedScores(q, w, l);
    var t := result - ExpectedA(q, w, l);
    var kw, kl := DynamicK(w) as real, DynamicK(l) as real;
    assert (1.0 - result) - ExpectedB(q, w, l) == -t;
    assert kw * t + kl * -t == (kw - kl) * t;
    ProductWithin(kw - kl, t, 15.0, (kw - kl) * t);
  }

  /** Any ratings at all: within one K band a game moves the sum by at most 2, otherwise by less than 34. */
  lemma AnyDrift(q: Weight, w: int, l: int, result: real)
    requires 0.0 <= result <= 1.0
    ensures -34 < Drift(q, w, l, result) < 34
    ensures DynamicK(w) == DynamicK(l) ==> -2 <= Drift(q, w, l, result) <= 2
  {
    hide RateGame, Swing, ExpectedA, ExpectedB, DynamicK, Trunc;
    var x := Swing(DynamicK(w), result, ExpectedA(q, w, l));
    var y := Swing(DynamicK(l), 1.0 - result, ExpectedB(q, w, l));
    SwingSum(q, w, l, result);
    GameAsUpdates(q, w, l, result);
    TwoUpdatesSum(w, l, x, y);
    if DynamicK(w) == DynamicK(l) {
      OppositeUpdates(w, l, x);
      OppositeUpdates(Trunc(w as real + x), Trunc(l as real - x), x);
    }
  }

  /** From 50 up, whatever the two K bands, a game moves the sum evenly, by more than -34 and less than 30. */
  lemma MixedBandDrift(q: Weight, w: int, l: int, result: real)
    requires w >= 50 && l >= 50 && 0.0 <= result <= 1.0
    ensures -34 < Drift(q, w, l, result) < 30
    ensures Drift(q, w, l, result) % 2 == 0
  {
    hide RateGame, Swing, ExpectedA, ExpectedB, DynamicK;
    GameInFloors(q, w, l, result);
    SwingSum(q, w, l, result);
    var x := Swing(DynamicK(w), result, ExpectedA(q, w, l));
    var y := Swing(DynamicK(l), 1.0 - result, ExpectedB(q, w, l));
    assert x.Floor as real <= x < x.Floor as real + 1.0;
    assert y.Floor as real <= y < y.Floor as real + 1.0;
    assert -17 < x.Floor + y.Floor < 15;
  }
}
