/**
 Matchmaking over whole runs: who can still be waiting, how often one request can be matched, and which
 rooms matchmaking opens.
 */
module Matchmaking {
  import opened Entries
  import opened Elo
  import opened ServerSpec
  import opened Consistency
  import Ratings

  predicate Flagged(s: State, user: int) {
    FindingOf(s.online, user) == 1
  }

  predicate FailedScan(s: State, e: Event) {
    e.Scan? && FindingMatch(s.online, e.user, e.elo) == -1
  }

  /** The step is a scan that claims a pair. */
  predicate Claims(s: State, e: Event) {
    e.Scan?
    && var opponent := FindingMatch(s.online, e.user, e.elo);
    && opponent != -1 && FindingOf(s.online, e.user) != 0 && FindingOf(s.online, opponent) != 0
  }

  function Claimed(s: State, e: Event): Pairing
    requires Claims(s, e)
  {
    Pairing(e.user, FindingMatch(s.online, e.user, e.elo), e.elo)
  }

  /**
   A state with what has been seen so far: the users whose flag has stayed up since one of their own scans
   failed, and how many requests each user sent and how many claims named each user.
   */
  datatype Watch = Watch(s: State, waiting: set<int>, requests: multiset<int>, matches: multiset<int>)

  const INITIAL_WATCH := Watch(INITIAL, {}, multiset{}, multiset{})

  function WatchStep(q: Weight, w: Watch, e: Event): Watch {
    var t := Step(q, w.s, e);
    var scanned := w.waiting + if FailedScan(w.s, e) then {e.user} else {};
    Watch(t,
          set u | u in scanned && Flagged(t, u),
          if e.RaiseFlag? then w.requests + multiset{e.user} else w.requests,
          if Claims(w.s, e) then w.matches + multiset{e.user, Claimed(w.s, e).opponent} else w.matches)
  }

  function WatchRun(q: Weight, w: Watch, run: seq<Event>): Watch
    decreases |run|
  {
    if run == [] then w else WatchRun(q, WatchStep(q, w, run[0]), run[1..])
  }

  lemma {:induction false} WatchFollows(q: Weight, w: Watch, run: seq<Event>)
    ensures WatchRun(q, w, run).s == Exec(q, w.s, run)
    decreases |run|
  {
    hide Step;
    if run != [] { WatchFollows(q, WatchStep(q, w, run[0]), run[1..]); }
  }

  // ---------- the scan ----------

  lemma FoundMatches(s: State, user: int, elo: int)
    requires Consistent(s)
    ensures var o := FindingMatch(s.online, user, elo);
            if o == -1
            then forall k :: Has(s.online, k) && k != user && Flagged(s, k) ==>
                   !IsBetween(EloOf(s.online, k), elo - 100, elo + 100)
            else o != user && Has(s.online, o) && Flagged(s, o) && IsBetween(EloOf(s.online, o), elo - 100, elo + 100)
  {
    var o := FindingMatch(s.online, user, elo);
    FirstMatch(s.online, user, elo);
    if i :| 0 <= i < |s.online| && s.online[i].id == o && IsFirst(s.online, i, user, elo) {
      HasAt(s.online, i);
    } else {
      forall k | Has(s.online, k) && k != user && Flagged(s, k)
        ensures !IsBetween(EloOf(s.online, k), elo - 100, elo + 100)
      {
        assert !Matches(s.online[IndexOf(s.online, k)], user, elo);
      }
    }
  }

  /**
   A claim by an online user takes two distinct searching users, lowers exactly their flags, and leaves all
   ratings.
   */
  lemma ClaimLowersTwo(q: Weight, s: State, e: Event)
    requires Consistent(s) && Claims(s, e) && Has(s.online, e.user)
    ensures var t, p := Step(q, s, e), Claimed(s, e);
            && p.user != p.opponent && Flagged(s, p.user) && Flagged(s, p.opponent)
            && IsBetween(EloOf(s.online, p.opponent), p.elo - 100, p.elo + 100)
            && t.claims == s.claims + [p]
            && (forall u :: FindingOf(t.online, u) ==
                  if u == p.user || u == p.opponent then 0 else FindingOf(s.online, u))
            && (forall u :: EloOf(t.online, u) == EloOf(s.online, u) && Has(t.online, u) == Has(s.online, u))
  {
    hide SetFinding, Consistent;
    ConsistentOnline(s, e.user);
    FoundMatches(s, e.user, e.elo);
    AfterSetFinding(s.online, e.user, 0);
    AfterSetFinding(SetFinding(s.online, e.user, 0), Claimed(s, e).opponent, 0);
  }

  lemma ConsistentOnline(s: State, u: int)
    requires Consistent(s)
    ensures UniqueIds(s.online)
    ensures Has(s.online, u) ==> FindingOf(s.online, u) in {0, 1}
  {}

  // ---------- flags and ratings under every other step ----------

  /** A rated game touches nobody who is searching. */
  predicate EloFixed(s: State, e: Event) {
    Ratings.IsRated(s, e) ==> !Flagged(s, e.user) && !Flagged(s, Ratings.Opponent(s, e))
  }

  lemma EloStays(q: Weight, s: State, e: Event, u: int)
    requires Consistent(s) && Has(s.online, u) && Has(Step(q, s, e).online, u)
    requires Ratings.IsRated(s, e) ==> u != e.user && u != Ratings.Opponent(s, e)
    ensures EloOf(Step(q, s, e).online, u) == EloOf(s.online, u)
  {
    assert UniqueIds(s.online) by { ConsistentOnline(s, u); }
    hide Consistent, LoginRow, NameOnline, FindingMatch, FindingOf, Unlink, Colours, SetDbElo;
    hide Rated, RateGame, SetPlaying, SetFinding, SetWinner, Advanced, SetStarted, Seated;
    match e
    case Login(socket, name, password) =>
      if Step(q, s, e) != s {
        AfterPush(s.online, Step(q, s, e).online[0]);
        LoginIsNew(s, socket, name, password);
      }
    case Exit(user) => AfterUnlink(s.online, user);
    case StartGame(room) => if Has(s.rooms, room) { PlayingOnly(s.online, Get(s.rooms, room)); }
    case EndGame(socket, room, user, status) => EndGameElo(q, s, e, u);
    case RaiseFlag(user) => AfterSetFinding(s.online, user, 1);
    case Scan(user, elo) =>
      var o := FindingMatch(s.online, user, elo);
      AfterSetFinding(s.online, user, 0);
      AfterSetFinding(SetFinding(s.online, user, 0), o, 0);
    case GiveUp(user) => AfterSetFinding(s.online, user, 0);
    case _ =>
  }

  lemma LoginIsNew(s: State, socket: int, name: string, password: string)
    requires Consistent(s) && DoLogin(s, socket, name, password) != s
    ensures !Has(s.online, DoLogin(s, socket, name, password).online[0].id)
  {
    var id := DoLogin(s, socket, name, password).online[0].id;
    if Has(s.online, id) { NameOnlineAt(s.online, id); }
  }

  lemma PlayingOnly(online: seq<Entry<Online>>, r: Room)
    ensures var t := SetPlaying(SetPlaying(online, r.white, 1), r.black, 1);
            forall u :: EloOf(t, u) == EloOf(online, u) && FindingOf(t, u) == FindingOf(online, u)
                && Has(t, u) == Has(online, u)
  {
    hide SetPlaying;
    AfterSetPlaying(online, r.white, 1);
    AfterSetPlaying(SetPlaying(online, r.white, 1), r.black, 1);
  }

  lemma EndGameElo(q: Weight, s: State, e: Event, u: int)
    requires e.EndGame?
    ensures var t := Step(q, s, e);
            && Has(t.online, u) == Has(s.online, u)
            && FindingOf(t.online, u) == FindingOf(s.online, u)
            && ((Ratings.IsRated(s, e) && (u == e.user || u == Ratings.Opponent(s, e)))
                  || EloOf(t.online, u) == EloOf(s.online, u))
  {
    hide Rated, RateGame, SetPlaying, SetWinner, Advanced;
    if Has(s.rooms, e.room) {
      var o := OpponentOf(Get(s.rooms, e.room), e.socket);
      AfterRated(q, s.online, e.user, o, Score(e.status));
      AfterSetPlaying(Rated(q, s.online, e.user, o, Score(e.status)), e.user, 0);
      AfterSetPlaying(s.online, e.user, 0);
    }
  }

  // Only a raise can put a flag up, and only the two claimed users, a user giving up and one leaving lose theirs.
  lemma FlagStep(q: Weight, s: State, e: Event, u: int)
    requires Consistent(s) && (e.Scan? ==> Has(s.online, e.user))
    ensures Flagged(Step(q, s, e), u) <==>
            if e.RaiseFlag? && e.user == u then Has(s.online, u)
            else Flagged(s, u) && !(e.Exit? && e.user == u) && !(e.GiveUp? && e.user == u)
                 && !(Claims(s, e) && (u == e.user || u == Claimed(s, e).opponent))
  {
    hide Consistent, SetFinding;
    ConsistentOnline(s, u);
    match e
    case Exit(user) => AfterUnlink(s.online, user);
    case RaiseFlag(user) => AfterSetFinding(s.online, user, 1);
    case Scan(user, elo) => if Claims(s, e) { hide Step; ClaimLowersTwo(q, s, e); }
    case GiveUp(user) => AfterSetFinding(s.online, user, 0);
    case _ => OtherFlags(q, s, e, u);
  }

  lemma OtherFlags(q: Weight, s: State, e: Event, u: int)
    requires Consistent(s) && !e.Exit? && !e.RaiseFlag? && !e.Scan? && !e.GiveUp?
    ensures Flagged(Step(q, s, e), u) == Flagged(s, u)
  {
    hide DoRate, Rated, RateGame, SetPlaying, SetFinding, SetWinner, Advanced, SetStarted, Seated, LoginRow, Colours,
         Consistent;
    match e
    case Login(socket, name, password) =>
      if Step(q, s, e) != s {
        AfterPush(s.online, Step(q, s, e).online[0]);
        LoginIsNew(s, socket, name, password);
      }
    case StartGame(room) => if Has(s.rooms, room) { PlayingOnly(s.online, Get(s.rooms, room)); }
    case EndGame(socket, room, user, status) => EndGameElo(q, s, e, u);
    case _ =>
  }

  // ---------- who can still be waiting ----------

  /** Requests carry the cached rating, and nobody searching is rated. */
  predicate SearchStep(s: State, e: Event) {
    && EloFixed(s, e)
    && (e.Scan? ==> Has(s.online, e.user) && e.elo == EloOf(s.online, e.user))
  }

  predicate SearchRun(q: Weight, s: State, run: seq<Event>)
    decreases |run|
  {
    run == [] || (SearchStep(s, run[0]) && SearchRun(q, Step(q, s, run[0]), run[1..]))
  }

  predicate Apart(s: State, u: int, v: int) {
    !IsBetween(EloOf(s.online, u), EloOf(s.online, v) - 100, EloOf(s.online, v) + 100)
  }

  /** Waiting users are flagged, and no two of them are within the threshold. */
  ghost predicate PoolApart(w: Watch) {
    && (forall u :: u in w.waiting ==> Flagged(w.s, u))
    && (forall u, v :: u in w.waiting && v in w.waiting && u != v ==> Apart(w.s, u, v))
  }

  lemma PoolStep(q: Weight, w: Watch, e: Event)
    requires Consistent(w.s) && PoolApart(w) && SearchStep(w.s, e)
    ensures PoolApart(WatchStep(q, w, e))
  {
    hide Step, Consistent, EloFixed;
    var t := WatchStep(q, w, e);
    forall u, v | u in t.waiting && v in t.waiting && u != v ensures Apart(t.s, u, v) {
      FlaggedBefore(q, w, e, u);
      FlaggedBefore(q, w, e, v);
      EloStays(q, w.s, e, u);
      EloStays(q, w.s, e, v);
      if FailedScan(w.s, e) { FoundMatches(w.s, e.user, e.elo); }
    }
  }

  // A user still waiting after the step was flagged before it and is not one a rated game touches.
  lemma FlaggedBefore(q: Weight, w: Watch, e: Event, u: int)
    requires Consistent(w.s) && PoolApart(w) && SearchStep(w.s, e) && u in WatchStep(q, w, e).waiting
    ensures Flagged(w.s, u) && Has(w.s.online, u) && Has(Step(q, w.s, e).online, u)
    ensures Ratings.IsRated(w.s, e) ==> u != e.user && u != Ratings.Opponent(w.s, e)
  {
    hide Step;
    FlagStep(q, w.s, e, u);
  }

  lemma {:induction false} PoolOverRun(q: Weight, w: Watch, run: seq<Event>)
    requires Consistent(w.s) && PoolApart(w) && SearchRun(q, w.s, run)
    ensures PoolApart(WatchRun(q, w, run))
    decreases |run|
  {
    hide Step, Consistent, PoolApart, SearchStep;
    if run != [] {
      StepKeeps(q, w.s, run[0]);
      PoolStep(q, w, run[0]);
      PoolOverRun(q, WatchStep(q, w, run[0]), run[1..]);
    }
  }

  /** After any such run, two users who are both still flagged after a failed scan are more than 100 apart. */
  lemma WaitingPool(q: Weight, run: seq<Event>, u: int, v: int)
    requires SearchRun(q, INITIAL, run)
    requires var w := WatchRun(q, INITIAL_WATCH, run); u in w.waiting && v in w.waiting && u != v
    ensures var s := Exec(q, INITIAL, run);
            Flagged(s, u) && Flagged(s, v)
                && (EloOf(s.online, u) < EloOf(s.online, v) - 100 || EloOf(s.online, v) + 100 < EloOf(s.online, u))
  {
    hide Consistent, WatchRun, Exec, SearchRun;
    InitiallyConsistent();
    PoolOverRun(q, INITIAL_WATCH, run);
    WatchFollows(q, INITIAL_WATCH, run);
  }

  lemma {:induction false} Pigeonhole(s: set<int>, f: int -> int, n: nat)
    requires forall u :: u in s ==> 0 <= f(u) < n
    requires forall u, v :: u in s && v in s && f(u) == f(v) ==> u == v
    ensures |s| <= n
  {
    if u :| u in s && f(u) == n - 1 {
      Pigeonhole(s - {u}, f, n - 1);
    } else if n > 0 {
      Pigeonhole(s, f, n - 1);
    } else {
      assert forall u :: u in s ==> 0 <= f(u) < 0;
      assert s == {};
    }
  }

  /** With all waiting users rated in [lo, hi], at most (hi - lo) / 101 + 1 of them wait at any time. */
  lemma WaitingCapacity(q: Weight, run: seq<Event>, lo: int, hi: int)
    requires SearchRun(q, INITIAL, run) && lo <= hi
    requires var w := WatchRun(q, INITIAL_WATCH, run);
             forall u :: u in w.waiting ==> lo <= EloOf(w.s.online, u) <= hi
    ensures |WatchRun(q, INITIAL_WATCH, run).waiting| <= (hi - lo) / 101 + 1
  {
    hide Step, Consistent, WatchRun;
    InitiallyConsistent();
    PoolOverRun(q, INITIAL_WATCH, run);
    var w := WatchRun(q, INITIAL_WATCH, run);
    PoolCapacity(w, lo, hi);
  }

  lemma PoolCapacity(w: Watch, lo: int, hi: int)
    requires PoolApart(w) && lo <= hi
    requires forall u :: u in w.waiting ==> lo <= EloOf(w.s.online, u) <= hi
    ensures |w.waiting| <= (hi - lo) / 101 + 1
  {
    var bucket := (u: int) => (EloOf(w.s.online, u) - lo) / 101;
    forall u, v | u in w.waiting && v in w.waiting && bucket(u) == bucket(v) ensures u == v {
      assert u == v || Apart(w.s, u, v);
    }
    Pigeonhole(w.waiting, bucket, (hi - lo) / 101 + 1);
  }

  // ---------- one request, at most one match ----------

  /** Requests not yet used up: every claim of a user uses one, and a raised flag holds one. */
  ghost predicate Covered(w: Watch, u: int) {
    w.matches[u] + (if Flagged(w.s, u) then 1 else 0) <= w.requests[u]
  }

  predicate OnlineSearchers(q: Weight, s: State, run: seq<Event>)
    decreases |run|
  {
    run == [] || ((run[0].Scan? ==> Has(s.online, run[0].user)) && OnlineSearchers(q, Step(q, s, run[0]), run[1..]))
  }

  lemma CoveredStep(q: Weight, w: Watch, e: Event, u: int)
    requires Consistent(w.s) && Covered(w, u) && (e.Scan? ==> Has(w.s.online, e.user))
    ensures Covered(WatchStep(q, w, e), u)
  {
    hide Step;
    FlagStep(q, w.s, e, u);
    if Claims(w.s, e) { ClaimLowersTwo(q, w.s, e); }
  }

  lemma {:induction false} CoveredOverRun(q: Weight, w: Watch, run: seq<Event>, u: int)
    requires Consistent(w.s) && Covered(w, u) && OnlineSearchers(q, w.s, run)
    ensures Covered(WatchRun(q, w, run), u)
    decreases |run|
  {
    hide Step, Consistent, Covered;
    if run != [] {
      StepKeeps(q, w.s, run[0]);
      CoveredStep(q, w, run[0], u);
      CoveredOverRun(q, WatchStep(q, w, run[0]), run[1..], u);
    }
  }

  /** While searchers stay online, no user is matched more often than that user asked to be. */
  lemma MatchedAtMostOncePerRequest(q: Weight, run: seq<Event>, u: int)
    requires OnlineSearchers(q, INITIAL, run)
    ensures var w := WatchRun(q, INITIAL_WATCH, run); w.matches[u] <= w.requests[u]
  {
    InitiallyConsistent();
    CoveredOverRun(q, INITIAL_WATCH, run, u);
  }

  function Pending(w: Watch, u: int): int {
    w.requests[u] as int - w.matches[u] as int - if Flagged(w.s, u) then 1 else 0
  }

  /** A claim uses up one of the searcher's requests exactly when the searcher is still online. */
  lemma ClaimUsesRequestIff(q: Weight, w: Watch, e: Event)
    requires Consistent(w.s) && Claims(w.s, e)
    ensures Pending(WatchStep(q, w, e), e.user) == Pending(w, e.user) <==> Has(w.s.online, e.user)
  {
    hide SetFinding, Consistent;
    ConsistentOnline(w.s, e.user);
    FoundMatches(w.s, e.user, e.elo);
    var o := Claimed(w.s, e).opponent;
    AfterSetFinding(w.s.online, e.user, 0);
    AfterSetFinding(SetFinding(w.s.online, e.user, 0), o, 0);
  }

  // ---------- the rooms matchmaking opens ----------

  /** Until their room is open, a claimed pair stays online and unrated; requests carry the cached rating. */
  predicate PairsStay(s: State, e: Event) {
    && (e.Exit? ==> forall i :: 0 <= i < |s.claims| ==> e.user != s.claims[i].user && e.user != s.claims[i].opponent)
    && (Ratings.IsRated(s, e) ==> forall i :: 0 <= i < |s.claims| ==>
          && e.user != s.claims[i].user && e.user != s.claims[i].opponent
          && Ratings.Opponent(s, e) != s.claims[i].user && Ratings.Opponent(s, e) != s.claims[i].opponent)
    && (e.Scan? ==> Has(s.online, e.user) && e.elo == EloOf(s.online, e.user))
  }

  predicate PairsRun(q: Weight, s: State, run: seq<Event>)
    decreases |run|
  {
    run == [] || (PairsStay(s, run[0]) && PairsRun(q, Step(q, s, run[0]), run[1..]))
  }

  ghost predicate GoodPair(s: State, p: Pairing) {
    && p.user != p.opponent && Has(s.online, p.user) && Has(s.online, p.opponent)
    && EloOf(s.online, p.user) == p.elo
    && IsBetween(EloOf(s.online, p.opponent), p.elo - 100, p.elo + 100)
  }

  ghost predicate GoodPairs(s: State) {
    forall i :: 0 <= i < |s.claims| ==> GoodPair(s, s.claims[i])
  }

  lemma StaysOnline(q: Weight, s: State, e: Event, u: int)
    requires Consistent(s) && Has(s.online, u) && !(e.Exit? && e.user == u)
    ensures Has(Step(q, s, e).online, u)
  {
    assert UniqueIds(s.online) by { ConsistentOnline(s, u); }
    hide Consistent, LoginRow, NameOnline, FindingMatch, FindingOf, Unlink, Colours, SetDbElo;
    hide Rated, RateGame, SetPlaying, SetFinding, SetWinner, Advanced, SetStarted, Seated;
    match e
    case Login(socket, name, password) => if Step(q, s, e) != s { AfterPush(s.online, Step(q, s, e).online[0]); }
    case Exit(user) => AfterUnlink(s.online, user);
    case StartGame(room) => if Has(s.rooms, room) { PlayingOnly(s.online, Get(s.rooms, room)); }
    case EndGame(socket, room, user, status) => EndGameElo(q, s, e, u);
    case RaiseFlag(user) => AfterSetFinding(s.online, user, 1);
    case Scan(user, elo) =>
      AfterSetFinding(s.online, user, 0);
      AfterSetFinding(SetFinding(s.online, user, 0), FindingMatch(s.online, user, elo), 0);
    case GiveUp(user) => AfterSetFinding(s.online, user, 0);
    case _ =>
  }

  lemma PairStays(q: Weight, s: State, e: Event, p: Pairing)
    requires Consistent(s) && GoodPair(s, p) && PairsStay(s, e) && p in s.claims
    ensures GoodPair(Step(q, s, e), p)
  {
    hide Step, Consistent;
    var i :| 0 <= i < |s.claims| && s.claims[i] == p;
    StaysOnline(q, s, e, p.user);
    StaysOnline(q, s, e, p.opponent);
    EloStays(q, s, e, p.user);
    EloStays(q, s, e, p.opponent);
  }

  lemma ClaimsAfter(q: Weight, s: State, e: Event)
    ensures var t := Step(q, s, e);
            forall i :: 0 <= i < |t.claims| ==>
                t.claims[i] in s.claims || (Claims(s, e) && t.claims[i] == Claimed(s, e))
  {
    hide DoRate, Rated, RateGame, SetPlaying, SetFinding, SetWinner, Advanced, SetStarted, Seated, LoginRow;
    if e.EndGame? && Has(s.rooms, e.room) {
      ClaimsUnrated(q, s, e.room, e.user, OpponentOf(Get(s.rooms, e.room), e.socket), e.status);
    }
  }

  lemma ClaimsUnrated(q: Weight, s: State, room: int, user: int, opponent: int, status: int)
    ensures DoRate(q, s, room, user, opponent, status).claims == s.claims
  {
    hide Rated, RateGame;
  }

  lemma GoodPairsStep(q: Weight, s: State, e: Event)
    requires Consistent(s) && GoodPairs(s) && PairsStay(s, e)
    ensures GoodPairs(Step(q, s, e))
  {
    hide Step, Consistent, PairsStay, GoodPair;
    var t := Step(q, s, e);
    ClaimsAfter(q, s, e);
    forall i | 0 <= i < |t.claims| ensures GoodPair(t, t.claims[i]) {
      if t.claims[i] in s.claims {
        PairStays(q, s, e, t.claims[i]);
      } else {
        NewPairGood(q, s, e);
      }
    }
  }

  lemma NewPairGood(q: Weight, s: State, e: Event)
    requires Consistent(s) && PairsStay(s, e) && Claims(s, e)
    ensures GoodPair(Step(q, s, e), Claimed(s, e))
  {
    hide Step, Consistent;
    FoundMatches(s, e.user, e.elo);
    ClaimLowersTwo(q, s, e);
  }

  lemma {:induction false} GoodPairsOverRun(q: Weight, s: State, run: seq<Event>)
    requires Consistent(s) && GoodPairs(s) && PairsRun(q, s, run)
    ensures GoodPairs(Exec(q, s, run))
    decreases |run|
  {
    hide Step, Consistent, GoodPairs, PairsStay;
    if run != [] {
      StepKeeps(q, s, run[0]);
      GoodPairsStep(q, s, run[0]);
      GoodPairsOverRun(q, Step(q, s, run[0]), run[1..]);
    }
  }

  lemma {:induction false} PairsSplit(q: Weight, s: State, a: seq<Event>, b: seq<Event>)
    requires PairsRun(q, s, a + b)
    ensures PairsRun(q, s, a) && PairsRun(q, Exec(q, s, a), b)
    decreases |a|
  {
    hide Step, PairsStay;
    if a == [] {
      assert a + b == b;
    } else {
      assert (a + b)[0] == a[0] && (a + b)[1..] == a[1..] + b;
      PairsSplit(q, Step(q, s, a[0]), a[1..], b);
    }
  }

  /** Event n of the run is the scan that claimed the pair, and both were searching just before it. */
  ghost predicate ClaimedAt(q: Weight, run: seq<Event>, n: nat, p: Pairing) {
    && n < |run|
    && var s := Exec(q, INITIAL, run[..n]);
    && Claims(s, run[n]) && Claimed(s, run[n]) == p && Flagged(s, p.user) && Flagged(s, p.opponent)
  }

  lemma {:induction false} ClaimedWhileSearching(q: Weight, run: seq<Event>, i: nat)
    requires PairsRun(q, INITIAL, run) && i < |Exec(q, INITIAL, run).claims|
    ensures exists n: nat :: ClaimedAt(q, run, n, Exec(q, INITIAL, run).claims[i])
    decreases |run|
  {
    hide Step, PairsStay, Claims, Claimed, Flagged, Consistent;
    assert run != [];
    var m := |run| - 1;
    var r, e := run[..m], run[m];
    assert run == r + [e];
    var s, t := Exec(q, INITIAL, r), Exec(q, INITIAL, run);
    PairsSplit(q, INITIAL, r, [e]);
    ExecConcat(q, INITIAL, r, [e]);
    ExecOne(q, s, e);
    ClaimsAfter(q, s, e);
    if t.claims[i] in s.claims {
      var j :| 0 <= j < |s.claims| && s.claims[j] == t.claims[i];
      ClaimedWhileSearching(q, r, j);
      var n: nat :| ClaimedAt(q, r, n, s.claims[j]);
      assert run[..n] == r[..n];
      assert ClaimedAt(q, run, n, t.claims[i]);
    } else {
      InitiallyConsistent();
      ExecKeeps(q, INITIAL, r);
      ClaimingScan(q, s, e);
      assert ClaimedAt(q, run, m, t.claims[i]);
    }
  }

  lemma ClaimingScan(q: Weight, s: State, e: Event)
    requires Consistent(s) && Claims(s, e) && PairsRun(q, s, [e])
    ensures Flagged(s, Claimed(s, e).user) && Flagged(s, Claimed(s, e).opponent)
  {
    hide Step;
    ClaimLowersTwo(q, s, e);
  }

  /**
   Every room matchmaking opens seats two distinct online users at most 100 apart, the lower-rated (or equal)
   as white, and both were searching when the pair was claimed.
   */
  lemma PairingQuality(q: Weight, run: seq<Event>, claim: int)
    requires PairsRun(q, INITIAL, run)
    requires 0 <= claim < |Exec(q, INITIAL, run).claims|
    ensures var s := Exec(q, INITIAL, run);
            var t, p := Step(q, s, OpenRoom(claim)), s.claims[claim];
            && |t.rooms| == |s.rooms| + 1
            && var r := t.rooms[|s.rooms|].info;
            && {r.white, r.black} == {p.user, p.opponent} && r.white != r.black
            && Has(s.online, r.white) && Has(s.online, r.black)
            && EloOf(s.online, r.white) <= EloOf(s.online, r.black) <= EloOf(s.online, r.white) + 100
            && r.whiteSocket == SocketOf(s.online, r.white) && r.blackSocket == SocketOf(s.online, r.black)
            && exists n: nat :: ClaimedAt(q, run, n, p)
  {
    hide Exec, PairsRun, ClaimedAt;
    ClaimedWhileSearching(q, run, claim);
    InitiallyConsistent();
    GoodPairsOverRun(q, INITIAL, run);
    assert GoodPair(Exec(q, INITIAL, run), Exec(q, INITIAL, run).claims[claim]);
  }
}
