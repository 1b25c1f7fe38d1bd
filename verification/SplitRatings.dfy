/**
 The sum of all ratings over whole runs of split handlers: a report moves it by the drift of its game, and
 nothing that happens while it sleeps moves it at all.
 */
module SplitRatings {
  import opened Entries
  import opened Elo
  import opened ServerSpec
  import opened Consistency
  import opened Soundness
  import opened SplitHandlers
  import opened SplitRuns
  import opened Ratings

  /** The part rates a game; a report does so when it writes the cache. */
  predicate RatesNow(w: World, p: Part) {
    w.report.None? && (p.Whole? || p.ReportCache?) && IsRated(w.s, p.e)
  }

  /** A rated game is between two distinct online players with ratings in [lo, hi). */
  predicate FairPart(w: World, p: Part, lo: int, hi: int) {
    RatesNow(w, p) ==> Fair(w.s, p.e, lo, hi)
  }

  predicate FairParts(q: Weight, w: World, run: seq<Part>, lo: int, hi: int)
    decreases |run|
  {
    run == [] || (FairPart(w, run[0], lo, hi) && FairParts(q, PartStep(q, w, run[0]), run[1..], lo, hi))
  }

  predicate PlayersKnown(w: World) {
    w.report.Some? ==> w.report.value.user in w.s.users && w.report.value.opponent in w.s.users
  }

  // The sum and the number of games of two states that share their tables.
  lemma SameBalance(s: State, t: State)
    requires s.users == t.users && s.nextUser == t.nextUser && s.journal == t.journal
    ensures Balance(s) == Balance(t) && |s.journal| == |t.journal|
  {
    hide Sum;
  }

  lemma NewUserBalance(s: State, t: State, name: string, password: string)
    requires s.nextUser >= 1 && t.nextUser == s.nextUser + 1 && t.journal == s.journal
    requires t.users == s.users[s.nextUser := UserRow(name, password, 1000)]
    ensures Balance(t) == Balance(s) && |s.journal| == |t.journal|
  {
    SumAgrees(t.users, s.users, s.nextUser);
  }

  lemma RegisteredBalance(w: World, t: World, name: string, password: string)
    requires Sound(w.s) && PlayersKnown(w) && t == w.(s := Registered(w.s, name, password))
    ensures Balance(Settled(t)) == Balance(Settled(w)) && |Settled(t).journal| == |Settled(w).journal|
    ensures PlayersKnown(t)
  {
    hide Sound, Balance, Advanced, SetWinner, CacheAgrees, RoomsTable;
    NextUserIsNew(w.s);
    assert w.s.nextUser >= 1 by { FirstUser(w.s); }
    NewUserBalance(Settled(w), Settled(t), name, password);
  }

  lemma FirstUser(s: State)
    requires Sound(s)
    ensures s.nextUser >= 1
  {}

  lemma QuietBalance(q: Weight, w: World, e: Event)
    requires Sound(w.s) && PlayersKnown(w) && w.report.Some? && !e.EndGame?
    ensures var t := w.(s := Step(q, w.s, e));
            && Balance(Settled(t)) == Balance(Settled(w)) && |Settled(t).journal| == |Settled(w).journal|
            && PlayersKnown(t)
  {
    hide Sound, Balance, Advanced, SetWinner, SetDbElo;
    var t := w.(s := Step(q, w.s, e));
    if e.Register? && t.s != w.s {
      RegisteredBalance(w, t, e.name, e.password);
    } else if !e.Register? {
      hide Step;
      UsersUntouched(q, w.s, e);
      SameBalance(Settled(w), Settled(t));
    }
  }

  lemma ReportBalance(q: Weight, w: World, p: Part, lo: int, hi: int, least: int, most: int, even: bool)
    requires Steady(w) && RatesNow(w, p) && FairPart(w, p, lo, hi) && DriftWithin(q, lo, hi, least, most, even)
    ensures var s, t := w.s, Settled(PartStep(q, w, p));
            && |t.journal| == |s.journal| + 1
            && least <= Balance(t) - Balance(s) <= most && (even ==> (Balance(t) - Balance(s)) % 2 == 0)
    ensures PlayersKnown(PartStep(q, w, p))
  {
    hide Balance, Step, DriftWithin, Consistent, SoundWorld, RatingsSettled, PartStep, Settled, IsRated, Fair;
    hide PlayersKnown;
    ReportIsStep(q, w, p, lo, hi);
    SameBalance(Settled(PartStep(q, w, p)), Step(q, w.s, p.e));
    assert Consistent(w.s) by { SteadyNow(w); }
    GameDrift(q, w.s, p.e, lo, hi, least, most, even);
  }

  lemma SteadyNow(w: World)
    requires Steady(w) && w.report.None?
    ensures Consistent(w.s)
  {
    hide Consistent, Sound, Held, RatingsSettled;
    SteadyIsConsistent(w);
  }

  // A report, atomic or about to sleep: its settled tables are those of the step.
  predicate RatedPart(q: Weight, w: World, p: Part)
    requires p.Whole? || p.ReportCache?
  {
    var s, t := Step(q, w.s, p.e), Settled(PartStep(q, w, p));
    t.users == s.users && t.nextUser == s.nextUser && t.journal == s.journal && PlayersKnown(PartStep(q, w, p))
  }

  lemma ReportIsStep(q: Weight, w: World, p: Part, lo: int, hi: int)
    requires Steady(w) && RatesNow(w, p) && FairPart(w, p, lo, hi)
    ensures RatedPart(q, w, p)
  {
    hide Sound, Step, Consistent, Held, RatingsSettled;
    if p.ReportCache? {
      hide SettledBy, CacheWritten, Exec, Erased;
      ReportIsAtomic(q, w, p);
      ExecOne(q, w.s, p.e);
      SoundFacts(w.s);
      CacheOnly(q, w.s, p.e);
    }
  }

  lemma OtherPartBalance(q: Weight, w: World, p: Part)
    requires Steady(w) && SafePart(w, p) && PlayersKnown(w) && !RatesNow(w, p)
    ensures var s, t := Settled(w), Settled(PartStep(q, w, p));
            |t.journal| == |s.journal| && Balance(t) == Balance(s)
    ensures PlayersKnown(PartStep(q, w, p))
  {
    hide Sound, Balance, Step, Consistent, Held, RatingsSettled, SettledBy, OpensRoom, RoomAdded, LoginRow;
    match p
    case Whole(e) =>
      if w.report.None? {
        SteadyIsConsistent(w);
        OtherBalance(q, w.s, e);
      } else if !e.EndGame? {
        QuietBalance(q, w, e);
      }
    case RegisterAdd(name, password) => RegisteredBalance(w, PartStep(q, w, p), name, password);
    case RoomAdd(i, e) =>
      if i < |w.heads| && OpensRoom(w.s, e) {
        OpenedRow(q, w.s, w.heads[i], e);
        SettledTables(w, PartStep(q, w, p));
      }
    case ReportTables =>
      hide PartStep;
      ReportIsAtomic(q, w, p);
      TablesBalance(q, w);
    case _ => SettledTables(w, PartStep(q, w, p));
  }

  lemma SettledTables(w: World, t: World)
    requires t.s.users == w.s.users && t.s.nextUser == w.s.nextUser && t.s.journal == w.s.journal
             && t.report == w.report
    ensures Balance(Settled(t)) == Balance(Settled(w)) && |Settled(t).journal| == |Settled(w).journal|
  {
    hide Balance, Advanced, SetWinner;
    SameBalance(Settled(w), Settled(t));
  }

  lemma TablesBalance(q: Weight, w: World)
    ensures var s, t := Settled(w), Settled(PartStep(q, w, ReportTables));
            |t.journal| == |s.journal| && Balance(t) == Balance(s)
    ensures PlayersKnown(PartStep(q, w, ReportTables)) || w.report.None?
  {
    hide Balance, Advanced, SetWinner, SetPlaying, SetDbElo;
    SameBalance(Settled(w), Settled(PartStep(q, w, ReportTables)));
  }

  lemma OnePart(q: Weight, w: World, p: Part, lo: int, hi: int, least: int, most: int, even: bool, end: State)
    requires Steady(w) && PlayersKnown(w) && SafePart(w, p)
    requires FairPart(w, p, lo, hi) && DriftWithin(q, lo, hi, least, most, even)
    requires var t := Settled(PartStep(q, w, p));
             Sums(least, most, even, |end.journal| - |t.journal|, Balance(end) - Balance(t))
    ensures var s := Settled(w);
            Sums(least, most, even, |end.journal| - |s.journal|, Balance(end) - Balance(s))
    ensures PlayersKnown(PartStep(q, w, p))
  {
    hide Steady, Drift, Balance, PartStep, Sums, DriftWithin, FairPart, SafePart, PlayersKnown, SettledBy;
    var s, t := Settled(w), Settled(PartStep(q, w, p));
    if RatesNow(w, p) {
      ReportBalance(q, w, p, lo, hi, least, most, even);
      OneMoreGame(least, most, even, |end.journal| - |t.journal|, Balance(end) - Balance(t), Balance(t) - Balance(s));
    } else {
      OtherPartBalance(q, w, p);
    }
  }

  /**
   Over any safe interleaving the sum moves by an amount its games can make. A report that is still asleep
   counts as done.
   */
  lemma {:induction false} BalanceOverParts(
      q: Weight, w: World, run: seq<Part>, lo: int, hi: int, least: int, most: int, even: bool)
    requires Steady(w) && PlayersKnown(w) && SafeRun(q, w, run) && FairParts(q, w, run, lo, hi)
    requires DriftWithin(q, lo, hi, least, most, even)
    ensures var s, t := Settled(w), Settled(PartExec(q, w, run));
            Sums(least, most, even, |t.journal| - |s.journal|, Balance(t) - Balance(s))
    decreases |run|
  {
    hide Steady, Drift, Balance, PartStep, Sums, DriftWithin, FairPart, SafePart, PlayersKnown, Settled;
    if run == [] {
      NoGame(least, most, even);
    } else {
      var t := PartStep(q, w, run[0]);
      SafePartIff(q, w, run[0]);
      KnownStays(q, w, run[0], lo, hi);
      BalanceOverParts(q, t, run[1..], lo, hi, least, most, even);
      OnePart(q, w, run[0], lo, hi, least, most, even, Settled(PartExec(q, t, run[1..])));
    }
  }

  lemma KnownStays(q: Weight, w: World, p: Part, lo: int, hi: int)
    requires Steady(w) && PlayersKnown(w) && SafePart(w, p) && FairPart(w, p, lo, hi)
    ensures PlayersKnown(PartStep(q, w, p))
  {
    hide Steady, PartStep, FairPart, SafePart, PlayersKnown, DriftWithin;
    if RatesNow(w, p) {
      AnyDrifts(q, lo, hi);
      ReportBalance(q, w, p, lo, hi, -33, 33, false);
    } else {
      OtherPartBalance(q, w, p);
    }
  }

  /**
   With every report asleep for a second in between: 1000 per registered user, minus an even amount between 0
   and 2 per rated game in [50, 1600).
   */
  lemma RatingsConservedSplit(q: Weight, run: seq<Part>)
    requires SafeRun(q, INITIAL_WORLD, run) && FairParts(q, INITIAL_WORLD, run, 50, 1600)
    requires PartExec(q, INITIAL_WORLD, run).report.None?
    ensures var s := PartExec(q, INITIAL_WORLD, run).s;
            var lost := 1000 * (s.nextUser - 1) - Sum(s.users, s.nextUser);
            0 <= lost <= 2 * |s.journal| && lost % 2 == 0
  {
    hide DriftWithin, PartExec, FairParts, SafeRun, Steady;
    InitiallySteady();
    LowBandDrifts(q);
    BalanceOverParts(q, INITIAL_WORLD, run, 50, 1600, -2, 0, true);
  }

  /** The same for ratings from 50 up across K bands, and for any ratings. */
  lemma RatingsBoundedSplit(q: Weight, run: seq<Part>, lo: int, hi: int)
    requires SafeRun(q, INITIAL_WORLD, run) && FairParts(q, INITIAL_WORLD, run, lo, hi)
    requires PartExec(q, INITIAL_WORLD, run).report.None?
    ensures var s := PartExec(q, INITIAL_WORLD, run).s;
            var change := Sum(s.users, s.nextUser) - 1000 * (s.nextUser - 1);
            && -33 * |s.journal| <= change <= 33 * |s.journal|
            && (lo >= 50 ==> -32 * |s.journal| <= change <= 28 * |s.journal| && change % 2 == 0)
            && (hi <= 1600 ==> -2 * |s.journal| <= change <= 2 * |s.journal|)
  {
    hide DriftWithin, PartExec, FairParts, SafeRun, Steady;
    InitiallySteady();
    AnyDrifts(q, lo, hi);
    BalanceOverParts(q, INITIAL_WORLD, run, lo, hi, -33, 33, false);
    if hi <= 1600 { BalanceOverParts(q, INITIAL_WORLD, run, lo, hi, -2, 2, false); }
    if lo >= 50 {
      MixedBandDrifts(q, hi);
      FromFifty(q, lo, hi);
      BalanceOverParts(q, INITIAL_WORLD, run, lo, hi, -32, 28, true);
    }
  }

  lemma FromFifty(q: Weight, lo: int, hi: int)
    requires lo >= 50 && DriftWithin(q, 50, hi, -32, 28, true)
    ensures DriftWithin(q, lo, hi, -32, 28, true)
  {
    hide Drift;
  }
}
