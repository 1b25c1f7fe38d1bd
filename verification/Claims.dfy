/**
 The claim of handle_finding_match cut where the source holds no lock: finding an opponent, testing both flags,
 lowering both flags. Over all interleavings of searches, exactly when nobody is matched more often than asked.
 */
module Claims {
  import opened Entries
  import opened Elo
  import opened ServerSpec
  import opened Consistency
  import opened Matchmaking

  /** The server, and the pairs its searching threads have found, and found and tested. */
  datatype Search = Search(w: Watch, found: seq<Pairing>, tested: seq<Pairing>)

  const INITIAL_SEARCH := Search(INITIAL_WATCH, [], [])

  datatype ClaimPart = Other(e: Event) | Find(user: int, elo: int) | Test(pair: nat) | Lower(pair: nat)

  /** The two set_finding calls of a claim whose scan happened earlier, with whatever flags are there now. */
  function LateClaim(w: Watch, p: Pairing): Watch {
    var t := w.s.(online := SetFinding(SetFinding(w.s.online, p.user, 0), p.opponent, 0), claims := w.s.claims + [p]);
    var waiting := set u | u in w.waiting && Flagged(t, u);
    Watch(t, waiting, w.requests, w.matches + multiset{p.user, p.opponent})
  }

  /** The test the source makes before the two set_finding calls: neither flag is 0. */
  predicate Retested(s: State, p: Pairing) {
    FindingOf(s.online, p.user) != 0 && FindingOf(s.online, p.opponent) != 0
  }

  function Dropped(s: seq<Pairing>, i: nat): seq<Pairing>
    requires i < |s|
  {
    s[..i] + s[i + 1..]
  }

  function ClaimStep(q: Weight, c: Search, p: ClaimPart): Search {
    match p
    case Other(e) => if e.Scan? then c else c.(w := WatchStep(q, c.w, e))
    case Find(user, elo) =>
      var o := FindingMatch(c.w.s.online, user, elo);
      if o == -1 then c.(w := WatchStep(q, c.w, Scan(user, elo))) else c.(found := c.found + [Pairing(user, o, elo)])
    case Test(i) =>
      if i < |c.found|
      then Search(c.w, Dropped(c.found, i), c.tested + if Retested(c.w.s, c.found[i]) then [c.found[i]] else [])
      else c
    case Lower(i) =>
      if i < |c.tested| then c.(w := LateClaim(c.w, c.tested[i]), tested := Dropped(c.tested, i)) else c
  }

  function ClaimExec(q: Weight, c: Search, run: seq<ClaimPart>): Search
    decreases |run|
  {
    if run == [] then c else ClaimExec(q, ClaimStep(q, c, run[0]), run[1..])
  }

  /**
   Find holds the pair it finds, Test passes it on exactly when neither flag is 0, Lower lowers both and spends it.
   */
  lemma PartEffect(q: Weight, c: Search, p: ClaimPart)
    ensures var t := ClaimStep(q, c, p);
            && (p.Find? ==>
                  var o := FindingMatch(c.w.s.online, p.user, p.elo);
                  && t.w.s == c.w.s && t.tested == c.tested
                  && t.found == if o == -1 then c.found else c.found + [Pairing(p.user, o, p.elo)])
            && (p.Test? && p.pair < |c.found| ==>
                  var x := c.found[p.pair];
                  var down := FindingOf(c.w.s.online, x.user) == 0 || FindingOf(c.w.s.online, x.opponent) == 0;
                  && t.w == c.w && t.found == c.found[..p.pair] + c.found[p.pair + 1..]
                  && t.tested == if down then c.tested else c.tested + [x])
            && (p.Lower? && p.pair < |c.tested| ==>
                  var x := c.tested[p.pair];
                  && t.found == c.found && t.tested == c.tested[..p.pair] + c.tested[p.pair + 1..]
                  && t.w.s == c.w.s.(online := t.w.s.online, claims := c.w.s.claims + [x])
                  && forall u :: FindingOf(t.w.s.online, u) ==
                       if (u == x.user || u == x.opponent)
                           && Has(c.w.s.online, u) then 0 else FindingOf(c.w.s.online, u))
  {
    FailedScanIdle(q, c.w, if p.Find? then p.user else 0, if p.Find? then p.elo else 0);
    hide FindingMatch, SetFinding, Step;
    if p.Lower? && p.pair < |c.tested| { AfterLateClaim(c.w, c.tested[p.pair]); }
  }

  /** Consistent, and no thread holds a pair of one user. */
  ghost predicate SoundSearch(c: Search) {
    && Consistent(c.w.s)
    && (forall i :: 0 <= i < |c.found| ==> c.found[i].user != c.found[i].opponent)
    && (forall i :: 0 <= i < |c.tested| ==> c.tested[i].user != c.tested[i].opponent)
  }

  lemma LateClaimKeeps(w: Watch, p: Pairing)
    requires Consistent(w.s)
    ensures Consistent(LateClaim(w, p).s)
  {
    hide Consistent, SetFinding;
    var mid := w.s.(online := SetFinding(w.s.online, p.user, 0));
    FlagKeeps(w.s, mid, p.user, 0);
    FlagKeeps(mid, LateClaim(w, p).s, p.opponent, 0);
  }

  lemma AfterLateClaim(w: Watch, p: Pairing)
    ensures forall u :: FindingOf(LateClaim(w, p).s.online, u) ==
                        if (u == p.user || u == p.opponent) && Has(w.s.online, u) then 0 else FindingOf(w.s.online, u)
  {
    AfterSetFinding(w.s.online, p.user, 0);
    AfterSetFinding(SetFinding(w.s.online, p.user, 0), p.opponent, 0);
  }

  lemma SoundSearchStep(q: Weight, c: Search, p: ClaimPart)
    requires SoundSearch(c)
    ensures SoundSearch(ClaimStep(q, c, p))
  {
    hide Step, Consistent, SetFinding, FindingMatch;
    match p
    case Other(e) => StepKeeps(q, c.w.s, e);
    case Find(user, elo) =>
      FoundMatches(c.w.s, user, elo);
      StepKeeps(q, c.w.s, Scan(user, elo));
    case Test(i) =>
    case Lower(i) => if i < |c.tested| { LateClaimKeeps(c.w, c.tested[i]); }
  }

  /** Finding, testing and lowering in one piece is the scan that claims. */
  lemma PartsMakeClaim(q: Weight, c: Search, user: int, elo: int)
    requires Matchmaking.Claims(c.w.s, Scan(user, elo))
    ensures var t := ClaimStep(q, ClaimStep(q, ClaimStep(q, c, Find(user, elo)), Test(|c.found|)), Lower(|c.tested|));
            t.w == WatchStep(q, c.w, Scan(user, elo)) && t.found == c.found && t.tested == c.tested
  {
    hide SetFinding, FindingMatch;
    var o := FindingMatch(c.w.s.online, user, elo);
    var p := Pairing(user, o, elo);
    var c1 := ClaimStep(q, c, Find(user, elo));
    assert c1.found == c.found + [p];
    var c2 := ClaimStep(q, c1, Test(|c.found|));
    assert c2.found == c.found && c2.tested == c.tested + [p];
    assert Dropped(c2.tested, |c.tested|) == c.tested;
    LateClaimIsScan(q, c.w, user, elo);
  }

  lemma LateClaimIsScan(q: Weight, w: Watch, user: int, elo: int)
    requires Matchmaking.Claims(w.s, Scan(user, elo))
    ensures LateClaim(w, Pairing(user, FindingMatch(w.s.online, user, elo), elo)) == WatchStep(q, w, Scan(user, elo))
  {
    hide SetFinding, FindingMatch;
  }

  // ---------- requests are conserved ----------

  /**
   What a part does to the requests a user has to spare, told by flags alone: a request is spare when it finds the
   flag already up or the user offline, or when its flag goes down unclaimed; a claim that finds the flag down
   takes one.
   */
  function SpareChange(c: Search, p: ClaimPart, u: int): int {
    match p
    case Other(e) =>
      if e.RaiseFlag? && e.user == u && (Flagged(c.w.s, u) || !Has(c.w.s.online, u)) then 1
      else if (e.Exit? || e.GiveUp?) && e.user == u && Flagged(c.w.s, u) then 1
      else 0
    case Lower(i) => if Names(c, i, u) && !Flagged(c.w.s, u) then -1 else 0
    case _ => 0
  }

  /** A tested pair names this user. */
  predicate Names(c: Search, i: nat, u: int) {
    i < |c.tested| && (c.tested[i].user == u || c.tested[i].opponent == u)
  }

  function Spare(q: Weight, c: Search, run: seq<ClaimPart>, u: int): int
    decreases |run|
  {
    if run == [] then 0 else SpareChange(c, run[0], u) + Spare(q, ClaimStep(q, c, run[0]), run[1..], u)
  }

  // Pending is requests less matches less the flag.
  lemma PendingStep(q: Weight, c: Search, p: ClaimPart, u: int)
    requires SoundSearch(c)
    ensures Pending(ClaimStep(q, c, p).w, u) == Pending(c.w, u) + SpareChange(c, p, u)
  {
    hide Consistent, Step, SetFinding, FindingMatch;
    match p
    case Other(e) => if !e.Scan? { FlagStep(q, c.w.s, e, u); RaiseNeedsOnline(c.w.s, u); }
    case Find(user, elo) => FailedScanIdle(q, c.w, user, elo);
    case Test(i) =>
    case Lower(i) => if i < |c.tested| { AfterLateClaim(c.w, c.tested[i]); }
  }

  lemma RaiseNeedsOnline(s: State, u: int)
    ensures Flagged(s, u) ==> Has(s.online, u)
  {}

  lemma FailedScanIdle(q: Weight, w: Watch, user: int, elo: int)
    ensures FindingMatch(w.s.online, user, elo) == -1 ==> Step(q, w.s, Scan(user, elo)) == w.s
  {
    hide FindingMatch, SetFinding;
  }

  /** Every request is matched, still raised, or spare: over any interleaving none is lost and none is made up. */
  lemma {:induction false} RequestsConserved(q: Weight, c: Search, run: seq<ClaimPart>, u: int)
    requires SoundSearch(c)
    ensures Pending(ClaimExec(q, c, run).w, u) == Pending(c.w, u) + Spare(q, c, run, u)
    decreases |run|
  {
    hide SoundSearch, ClaimStep, SpareChange, Pending;
    if run != [] {
      SoundSearchStep(q, c, run[0]);
      PendingStep(q, c, run[0], u);
      RequestsConserved(q, ClaimStep(q, c, run[0]), run[1..], u);
    }
  }

  // ---------- exactly when nobody is matched too often ----------

  /** A claim that names the user finds the flag still up, or a request to spare. */
  predicate Backed(c: Search, p: ClaimPart, u: int, spare: int) {
    p.Lower? && Names(c, p.pair, u) ==> Flagged(c.w.s, u) || spare > 0
  }

  predicate BackedRun(q: Weight, c: Search, run: seq<ClaimPart>, u: int, spare: int)
    decreases |run|
  {
    run == [] ||
    (Backed(c, run[0], u, spare)
        && BackedRun(q, ClaimStep(q, c, run[0]), run[1..], u, spare + SpareChange(c, run[0], u)))
  }

  predicate NotOver(w: Watch, u: int) {
    w.matches[u] <= w.requests[u]
  }

  predicate NeverOver(q: Weight, c: Search, run: seq<ClaimPart>, u: int)
    decreases |run|
  {
    run == [] || (NotOver(ClaimStep(q, c, run[0]).w, u) && NeverOver(q, ClaimStep(q, c, run[0]), run[1..], u))
  }

  lemma BackedIff(q: Weight, c: Search, p: ClaimPart, u: int)
    requires SoundSearch(c) && Pending(c.w, u) >= 0
    ensures NotOver(ClaimStep(q, c, p).w, u) <==> Backed(c, p, u, Pending(c.w, u))
    ensures Backed(c, p, u, Pending(c.w, u)) ==> Pending(ClaimStep(q, c, p).w, u) >= 0
  {
    PendingStep(q, c, p, u);
    if p.Lower? && Names(c, p.pair, u) {
      AfterLateClaim(c.w, c.tested[p.pair]);
      hide Consistent, SetFinding;
      assert Flagged(c.w.s, u) || !Flagged(ClaimStep(q, c, p).w.s, u);
    } else {
      hide ClaimStep;
    }
  }

  lemma {:induction false} BackedRunIff(q: Weight, c: Search, run: seq<ClaimPart>, u: int)
    requires SoundSearch(c) && Pending(c.w, u) >= 0
    ensures NeverOver(q, c, run, u) <==> BackedRun(q, c, run, u, Pending(c.w, u))
    decreases |run|
  {
    hide SoundSearch, ClaimStep, SpareChange, Pending, NotOver, Backed;
    if run != [] {
      SoundSearchStep(q, c, run[0]);
      PendingStep(q, c, run[0], u);
      BackedIff(q, c, run[0], u);
      if Backed(c, run[0], u, Pending(c.w, u)) { BackedRunIff(q, ClaimStep(q, c, run[0]), run[1..], u); }
    }
  }

  /**
   Over any interleaving of searches, a user is at no time matched more often than asked if and only if every
   claim that names the user finds the flag still up, or an earlier request to spare.
   */
  lemma ClaimRunIff(q: Weight, run: seq<ClaimPart>, u: int)
    ensures NeverOver(q, INITIAL_SEARCH, run, u) <==> BackedRun(q, INITIAL_SEARCH, run, u, 0)
  {
    hide NeverOver, BackedRun;
    InitiallyConsistent();
    BackedRunIff(q, INITIAL_SEARCH, run, u);
  }

  // ---------- one late claim, and two ----------

  /**
   However long ago the scan was: if the test and the two writes are one piece and both users are online, a
   claim keeps everyone's matches covered.
   */
  lemma RetestedClaimKeepsCovered(w: Watch, p: Pairing, u: int)
    requires Consistent(w.s) && Covered(w, u) && p.user != p.opponent
    requires Has(w.s.online, p.user) && Has(w.s.online, p.opponent) && Retested(w.s, p)
    ensures Covered(LateClaim(w, p), u)
  {
    hide SetFinding;
    AfterLateClaim(w, p);
    assert Flagged(w.s, p.user) && Flagged(w.s, p.opponent);
  }

  /**
   Two searchers find the same third user and both tests pass before either writes: when the second claim
   is written that flag is down, so the third user is matched twice, uncovered unless a request is left over.
   */
  lemma DoubleClaimIff(w: Watch, p: Pairing, p': Pairing)
    requires p.opponent == p'.opponent && p.opponent != p.user && p.opponent != p'.user && p.user != p'.user
    requires Covered(w, p.opponent) && Flagged(w.s, p.opponent) && Retested(w.s, p) && Retested(w.s, p')
    ensures var third, t := p.opponent, LateClaim(LateClaim(w, p), p');
            && t.matches[third] == w.matches[third] + 2
            && (Covered(t, third) <==> w.matches[third] + 2 <= w.requests[third])
  {
    hide SetFinding;
    AfterLateClaim(w, p);
    AfterLateClaim(LateClaim(w, p), p');
  }
}
