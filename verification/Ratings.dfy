/**
 What whole runs do to the sum of all stored ratings: 1000 enter with every registration, and nothing
 but rated games moves the sum afterwards.
 */
module Ratings {
  import opened Entries
  import opened Elo
  import opened ServerSpec
  import opened Consistency

  /** The sum of the elo column over the ids below next. */
  function Sum(users: map<int, UserRow>, next: int): int
    decreases if next > 1 then next else 0
  {
    if next <= 1 then 0
    else Sum(users, next - 1) + if next - 1 in users then users[next - 1].elo else 0
  }

  /** How far the sum is from 1000 per registered user. */
  function Balance(s: State): int {
    Sum(s.users, s.nextUser) - 1000 * (s.nextUser - 1)
  }

  // ---------- one step ----------

  lemma {:induction false} SumAgrees(a: map<int, UserRow>, b: map<int, UserRow>, next: int)
    requires forall id :: 1 <= id < next ==> (id in a <==> id in b) && (id in a ==> a[id].elo == b[id].elo)
    ensures Sum(a, next) == Sum(b, next)
    decreases if next > 1 then next else 0
  {
    if next > 1 { SumAgrees(a, b, next - 1); }
  }

  lemma {:induction false} SumAfterWrite(users: map<int, UserRow>, next: int, id: int, elo: int)
    requires 1 <= id < next && id in users
    ensures Sum(SetDbElo(users, id, elo), next) == Sum(users, next) + elo - users[id].elo
    decreases if next > 1 then next else 0
  {
    if id == next - 1 {
      SumAgrees(SetDbElo(users, id, elo), users, next - 1);
    } else {
      SumAfterWrite(users, next - 1, id, elo);
    }
  }

  /** The step is a first report: it rates the reporter against the other seat. */
  predicate IsRated(s: State, e: Event) {
    e.EndGame? && Has(s.rooms, e.room) && Get(s.rooms, e.room).status == 0
  }

  function Opponent(s: State, e: Event): int
    requires IsRated(s, e)
  {
    OpponentOf(Get(s.rooms, e.room), e.socket)
  }

  /** A rated game is between two distinct online players with ratings in [lo, hi). */
  predicate Fair(s: State, e: Event, lo: int, hi: int) {
    IsRated(s, e) ==>
      var o := Opponent(s, e);
      && e.user != o && Has(s.online, e.user) && Has(s.online, o)
      && lo <= Get(s.online, e.user).elo < hi && lo <= Get(s.online, o).elo < hi
  }

  predicate FairRun(q: Weight, s: State, run: seq<Event>, lo: int, hi: int)
    decreases |run|
  {
    run == [] || (Fair(s, run[0], lo, hi) && FairRun(q, Step(q, s, run[0]), run[1..], lo, hi))
  }

  // A rated game between online players moves the balance by exactly its drift.
  lemma RatedBalance(q: Weight, s: State, e: Event, lo: int, hi: int)
    requires Consistent(s) && IsRated(s, e) && Fair(s, e, lo, hi)
    ensures var t := Step(q, s, e);
            && |t.journal| == |s.journal| + 1
            && Balance(t) == Balance(s) +
               Drift(q, Get(s.online, e.user).elo, Get(s.online, Opponent(s, e)).elo, Score(e.status))
  {
    hide RateGame, Rated, SetPlaying, Advanced, SetWinner, SetDbElo, Sum;
    var u, v := e.user, Opponent(s, e);
    var online := Rated(q, s.online, u, v, Score(e.status));
    AfterRated(q, s.online, u, v, Score(e.status));
    var mid := SetDbElo(s.users, u, EloOf(online, u));
    SumAfterWrite(s.users, s.nextUser, u, EloOf(online, u));
    assert v in mid && mid[v].elo == s.users[v].elo by { OtherRow(s.users, u, EloOf(online, u), v); }
    SumAfterWrite(mid, s.nextUser, v, EloOf(online, v));
  }

  lemma OtherRow(users: map<int, UserRow>, u: int, elo: int, v: int)
    requires u != v && v in users
    ensures v in SetDbElo(users, u, elo) && SetDbElo(users, u, elo)[v] == users[v]
  {}

  // Any other step leaves the balance and the journal alone; a registration brings its 1000.
  lemma OtherBalance(q: Weight, s: State, e: Event)
    requires Consistent(s) && !IsRated(s, e)
    ensures var t := Step(q, s, e); t.journal == s.journal && Balance(t) == Balance(s)
  {
    hide Consistent, Sum;
    match e
    case Register(name, password) => RegisterBalance(s, name, password);
    case _ => hide Step; UsersUntouched(q, s, e);
  }

  lemma RegisterBalance(s: State, name: string, password: string)
    requires Consistent(s)
    ensures Balance(DoRegister(s, name, password)) == Balance(s)
  {
    assert s.nextUser >= 1;
    hide Consistent;
    var t := DoRegister(s, name, password);
    if t != s { SumAgrees(t.users, s.users, s.nextUser); }
  }

  lemma UsersUntouched(q: Weight, s: State, e: Event)
    requires !e.Register? && !IsRated(s, e)
    ensures var t := Step(q, s, e); t.users == s.users && t.nextUser == s.nextUser && t.journal == s.journal
  {
    hide SetPlaying, SetFinding, SetStarted, Advanced, FindingMatch, Seated, LoginRow, DoRate, Colours;
  }

  // ---------- whole runs ----------

  /** Every game between ratings in [lo, hi) drifts by an amount in [least, most], even if so stated. */
  ghost predicate DriftWithin(q: Weight, lo: int, hi: int, least: int, most: int, even: bool) {
    forall w, l, status :: lo <= w < hi && lo <= l < hi ==>
      least <= Drift(q, w, l, Score(status)) <= most && (even ==> Drift(q, w, l, Score(status)) % 2 == 0)
  }

  /** A change that so many games can make, each by an amount in [least, most], even if so stated. */
  predicate Sums(least: int, most: int, even: bool, games: int, change: int) {
    least * games <= change <= most * games && (even ==> change % 2 == 0)
  }

  lemma {:induction false} BalanceOverRun(q: Weight, s: State, run: seq<Event>, lo: int, hi: int, least: int,
      most: int, even: bool)
    requires Consistent(s) && FairRun(q, s, run, lo, hi) && DriftWithin(q, lo, hi, least, most, even)
    ensures var t := Exec(q, s, run);
            Sums(least, most, even, |t.journal| - |s.journal|, Balance(t) - Balance(s))
    decreases |run|
  {
    hide Consistent, Drift, Balance, Fair, Step, IsRated, DriftWithin, Sums;
    if run == [] {
      NoGame(least, most, even);
    } else {
      var t := Step(q, s, run[0]);
      StepKeeps(q, s, run[0]);
      BalanceOverRun(q, t, run[1..], lo, hi, least, most, even);
      OneStep(q, s, run[0], lo, hi, least, most, even, Exec(q, t, run[1..]));
    }
  }

  lemma OneStep(q: Weight, s: State, e: Event, lo: int, hi: int, least: int, most: int, even: bool, end: State)
    requires Consistent(s) && Fair(s, e, lo, hi) && DriftWithin(q, lo, hi, least, most, even)
    requires var t := Step(q, s, e); Sums(least, most, even, |end.journal| - |t.journal|, Balance(end) - Balance(t))
    ensures Sums(least, most, even, |end.journal| - |s.journal|, Balance(end) - Balance(s))
  {
    hide Consistent, Drift, Balance, Step, Sums, DriftWithin, Fair, IsRated;
    var t := Step(q, s, e);
    if IsRated(s, e) {
      GameDrift(q, s, e, lo, hi, least, most, even);
      OneMoreGame(least, most, even, |end.journal| - |t.journal|, Balance(end) - Balance(t), Balance(t) - Balance(s));
    } else {
      OtherBalance(q, s, e);
    }
  }

  lemma NoGame(least: int, most: int, even: bool)
    ensures Sums(least, most, even, 0, 0)
  {}

  lemma OneMoreGame(least: int, most: int, even: bool, games: int, change: int, d: int)
    requires least <= d <= most && (even ==> d % 2 == 0) && Sums(least, most, even, games, change)
    ensures Sums(least, most, even, games + 1, change + d)
  {}

  lemma GameDrift(q: Weight, s: State, e: Event, lo: int, hi: int, least: int, most: int, even: bool)
    requires Consistent(s) && IsRated(s, e) && Fair(s, e, lo, hi)
    requires DriftWithin(q, lo, hi, least, most, even)
    ensures var t := Step(q, s, e);
            && |t.journal| == |s.journal| + 1
            && least <= Balance(t) - Balance(s) <= most && (even ==> (Balance(t) - Balance(s)) % 2 == 0)
  {
    hide Balance, Drift, Score, Step, Consistent;
    RatedBalance(q, s, e, lo, hi);
  }

  lemma LowBandDrifts(q: Weight)
    ensures DriftWithin(q, 50, 1600, -2, 0, true)
  {
    hide Drift;
    forall w, l, status | 50 <= w < 1600 && 50 <= l < 1600
      ensures -2 <= Drift(q, w, l, Score(status)) <= 0 && Drift(q, w, l, Score(status)) % 2 == 0
    {
      SameBandDrift(q, w, l, Score(status));
    }
  }

  lemma MixedBandDrifts(q: Weight, hi: int)
    ensures DriftWithin(q, 50, hi, -32, 28, true)
  {
    hide Drift;
    forall w, l, status | 50 <= w < hi && 50 <= l < hi
      ensures -32 <= Drift(q, w, l, Score(status)) <= 28 && Drift(q, w, l, Score(status)) % 2 == 0
    {
      MixedBandDrift(q, w, l, Score(status));
    }
  }

  lemma AnyDrifts(q: Weight, lo: int, hi: int)
    ensures hi <= 1600 ==> DriftWithin(q, lo, hi, -2, 2, false)
    ensures DriftWithin(q, lo, hi, -33, 33, false)
  {
    hide Drift;
    forall w, l, status
      ensures -33 <= Drift(q, w, l, Score(status)) <= 33
      ensures w < 1600 && l < 1600 ==> -2 <= Drift(q, w, l, Score(status)) <= 2
    {
      AnyDrift(q, w, l, Score(status));
    }
  }

  /**
   The total rating over a run whose games are all between distinct online players rated in [50, 1600):
   1000 per registered user, minus an even amount between 0 and 2 per rated game.
   */
  lemma RatingsConserved(q: Weight, run: seq<Event>)
    requires FairRun(q, INITIAL, run, 50, 1600)
    ensures var s := Exec(q, INITIAL, run);
            var lost := 1000 * (s.nextUser - 1) - Sum(s.users, s.nextUser);
            0 <= lost <= 2 * |s.journal| && lost % 2 == 0
  {
    hide DriftWithin, Exec, FairRun;
    InitiallyConsistent();
    LowBandDrifts(q);
    BalanceOverRun(q, INITIAL, run, 50, 1600, -2, 0, true);
  }

  /** Across K bands, from 50 up, each rated game moves the total evenly, down by at most 32 or up by at most 28. */
  lemma RatingsMixedBands(q: Weight, run: seq<Event>, hi: int)
    requires FairRun(q, INITIAL, run, 50, hi)
    ensures var s := Exec(q, INITIAL, run);
            var change := Sum(s.users, s.nextUser) - 1000 * (s.nextUser - 1);
            -32 * |s.journal| <= change <= 28 * |s.journal| && change % 2 == 0
  {
    hide DriftWithin, Exec, FairRun;
    InitiallyConsistent();
    MixedBandDrifts(q, hi);
    BalanceOverRun(q, INITIAL, run, 50, hi, -32, 28, true);
  }

  /**
   With any ratings, negative ones included: within 2 per game of 1000 per user below 1600, within 33 per game
   overall.
   */
  lemma RatingsBounded(q: Weight, run: seq<Event>, lo: int, hi: int)
    requires FairRun(q, INITIAL, run, lo, hi)
    ensures var s := Exec(q, INITIAL, run);
            var change := Sum(s.users, s.nextUser) - 1000 * (s.nextUser - 1);
            && -33 * |s.journal| <= change <= 33 * |s.journal|
            && (hi <= 1600 ==> -2 * |s.journal| <= change <= 2 * |s.journal|)
  {
    hide DriftWithin, Exec, FairRun;
    InitiallyConsistent();
    AnyDrifts(q, lo, hi);
    BalanceOverRun(q, INITIAL, run, lo, hi, -33, 33, false);
    if hi <= 1600 { BalanceOverRun(q, INITIAL, run, lo, hi, -2, 2, false); }
  }

  // ---------- one rated game, cache and table together ----------

  lemma RatedPair(q: Weight, s: State, e: Event)
    requires Consistent(s) && IsRated(s, e) && e.user != Opponent(s, e)
    requires Has(s.online, e.user) && Has(s.online, Opponent(s, e))
    ensures var t, o := Step(q, s, e), Opponent(s, e);
            var (a, b) := RateGame(q, Get(s.online, e.user).elo, Get(s.online, o).elo, Score(e.status));
            && Has(t.online, e.user) && Has(t.online, o) && EloOf(t.online, e.user) == a && EloOf(t.online, o) == b
            && (forall u :: u != e.user && u != o ==> EloOf(t.online, u) == EloOf(s.online, u))
  {
    hide RateGame, Rated, SetPlaying, Advanced, SetWinner, SetDbElo, Consistent;
    var o := Opponent(s, e);
    AfterRated(q, s.online, e.user, o, Score(e.status));
    AfterSetPlaying(Rated(q, s.online, e.user, o, Score(e.status)), e.user, 0);
  }

  /**
   The first report, end to end. A reported win moves both ratings by the numbers of WonBy: below 1600 it pays the
   reporter at most 48 and costs the opponent 2 to 50; any other report moves them by those of DrewTo, leaves equal
   ratings equal, lowers a higher rating and never lowers a lower one. Cache and table agree on all of it, and
   nobody else's rating moves.
   */
  lemma ReportedGame(q: Weight, s: State, e: Event, hi: int)
    requires Consistent(s) && IsRated(s, e) && Fair(s, e, 50, hi)
    ensures var t, o := Step(q, s, e), Opponent(s, e);
            var u, v := EloOf(s.online, e.user), EloOf(s.online, o);
            var u', v' := EloOf(t.online, e.user), EloOf(t.online, o);
            && e.user in t.users && o in t.users && t.users[e.user].elo == u' && t.users[o].elo == v'
            && (e.status == 1 ==> WonBy(q, u, v, u', v'))
            && (e.status != 1 ==>
                  && DrewTo(q, u, v, u') && DrewTo(q, v, u, v')
                  && (u == v ==> u' == u && v' == v)
                  && (u < v ==> u' >= u && v' < v)
                  && (v < u ==> v' >= v && u' < u))
            && (forall w :: w != e.user && w != o ==> EloOf(t.online, w) == EloOf(s.online, w))
  {
    hide RateGame, Step, Drift, DynamicK;
    var t, o := Step(q, s, e), Opponent(s, e);
    var u, v := Get(s.online, e.user).elo, Get(s.online, o).elo;
    RatedPair(q, s, e);
    StepKeeps(q, s, e);
    hide WonBy, DrewTo;
    if e.status == 1 {
      WinInNumbers(q, u, v);
    } else {
      DrawInNumbers(q, u, v);
      if u <= v {
        DrawDirection(q, u, v);
      } else {
        DrawSymmetric(q, u, v);
        DrawDirection(q, v, u);
      }
    }
  }
}
