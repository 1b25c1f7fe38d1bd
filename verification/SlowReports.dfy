/**
 A report of handle_end_game that sleeps between its two parts: what the other threads leave alone meanwhile,
 exactly when it ends consistent, and how long a row read for a login stays current.
 */
module SlowReports {
  import opened Entries
  import opened Elo
  import opened ServerSpec
  import opened Consistency
  import opened Soundness
  import opened SplitHandlers
  import Ratings

  // ---------- while a report sleeps ----------

  /** No part of the run is the transaction of the sleeping report: that one belongs to its own thread. */
  predicate OtherThreads(run: seq<Part>) {
    forall i :: 0 <= i < |run| ==> !run[i].ReportTables?
  }

  /** The rating with which a part adds this user to the online list. */
  function AddedBy(q: Weight, w: World, p: Part, user: int): Option<int> {
    match p
    case LoginAdd(i) => if i < |w.logins| && w.logins[i].id == user then Some(w.logins[i].elo) else None
    case Whole(e) =>
      var t := Step(q, w.s, e);
      if e.Login? && t != w.s && t.online != [] && t.online[0].id == user then Some(t.online[0].info.elo) else None
    case _ => None
  }

  /** The rating with which this user was last added during a run. */
  function LastAdded(q: Weight, w: World, run: seq<Part>, user: int): Option<int>
    decreases |run|
  {
    if run == [] then None
    else
      var later := LastAdded(q, PartStep(q, w, run[0]), run[1..], user);
      if later.Some? then later else AddedBy(q, w, run[0], user)
  }

  lemma QuietPart(q: Weight, w: World, p: Part, k: int)
    requires SoundWorld(w) && SoundPart(w, p) && w.report.Some? && !p.ReportTables?
    ensures var t := PartStep(q, w, p);
            && t.report == w.report
            && (k in w.s.users ==> k in t.s.users && t.s.users[k] == w.s.users[k])
            && (Has(t.s.online, k) ==>
                  match AddedBy(q, w, p, k)
                  case Some(elo) => EloOf(t.s.online, k) == elo
                  case None => Has(w.s.online, k) && EloOf(t.s.online, k) == EloOf(w.s.online, k))
  {
    hide Sound, Step, LoginRow, RoomAdded, OpensRoom;
    match p
    case Whole(e) =>
      if !e.EndGame? {
        QuietUsers(q, w.s, e);
        if Has(Step(q, w.s, e).online, k) { QuietStep(q, w.s, e, k); }
      }
    case LoginAdd(i) => if i < |w.logins| { AfterPush(w.s.online, PartStep(q, w, p).s.online[0]); }
    case RegisterAdd(name, password) => RegisteredSoundIff(w.s, name, password);
    case RoomAdd(i, e) => if i < |w.heads| && OpensRoom(w.s, e) { OpenedRow(q, w.s, w.heads[i], e); }
    case _ =>
  }

  /**
   While a report sleeps no stored rating changes, and whoever is online at the end has the rating of the last
   login during it, or else the one from before.
   */
  lemma {:induction false} QuietRun(q: Weight, w: World, run: seq<Part>, k: int)
    requires SoundWorld(w) && SoundRun(q, w, run) && OtherThreads(run) && w.report.Some?
    ensures var t := PartExec(q, w, run);
            && SoundWorld(t) && t.report == w.report
            && (k in w.s.users ==> k in t.s.users && t.s.users[k] == w.s.users[k])
            && (Has(t.s.online, k) ==>
                  match LastAdded(q, w, run, k)
                  case Some(elo) => EloOf(t.s.online, k) == elo
                  case None => Has(w.s.online, k) && EloOf(t.s.online, k) == EloOf(w.s.online, k))
    decreases |run|
  {
    hide PartStep, SoundWorld, SoundPart, AddedBy;
    if run != [] {
      SoundPartIff(q, w, run[0]);
      QuietPart(q, w, run[0], k);
      assert OtherThreads(run[1..]);
      QuietRun(q, PartStep(q, w, run[0]), run[1..], k);
    }
  }

  /** Neither player is online after the sleep through a login with another rating than the one the report stores. */
  predicate RejoinSafe(q: Weight, w: World, e: Event, meanwhile: seq<Part>)
    requires w.report.None? && Ratings.IsRated(w.s, e)
  {
    var c, r := PartStep(q, w, ReportCache(e)), ReportOf(q, w.s, e);
    var m := PartExec(q, c, meanwhile);
    forall p :: p in {r.user, r.opponent} && Has(m.s.online, p) && LastAdded(q, c, meanwhile, p).Some? ==>
      LastAdded(q, c, meanwhile, p).value == Stored(r, p)
  }

  /** A report that sleeps among any safe parts of other threads ends consistent if and only if it is rejoin-safe. */
  lemma SlowReportIff(q: Weight, w: World, e: Event, meanwhile: seq<Part>)
    requires Steady(w) && w.report.None? && Ratings.IsRated(w.s, e) && OtherThreads(meanwhile)
    requires SafeRun(q, PartStep(q, w, ReportCache(e)), meanwhile)
    ensures var t := PartStep(q, PartExec(q, PartStep(q, w, ReportCache(e)), meanwhile), ReportTables);
            && SoundWorld(t) && t.report.None?
            && (Consistent(t.s) <==> RejoinSafe(q, w, e, meanwhile))
  {
    hide Sound, Consistent, Held, RatingsSettled, PartExec, SafeRun, ReportOf, LastAdded;
    var c, r := PartStep(q, w, ReportCache(e)), ReportOf(q, w.s, e);
    var m := PartExec(q, c, meanwhile);
    var t := PartStep(q, m, ReportTables);
    SafePartIff(q, w, ReportCache(e));
    SplitRunIff(q, c, meanwhile);
    SafeIsSound(q, c, meanwhile);
    QuietRun(q, c, meanwhile, r.user);
    QuietRun(q, c, meanwhile, r.opponent);
    SoundPartIff(q, m, ReportTables);
    SafePartIff(q, m, ReportTables);
    SteadyIsConsistent(t);
    assert EloOf(c.s.online, r.user) == Stored(r, r.user) && EloOf(c.s.online, r.opponent) == Stored(r, r.opponent) by {
      OwnRatings(q, w, e);
    }
  }

  lemma OwnRatings(q: Weight, w: World, e: Event)
    requires w.report.None? && Ratings.IsRated(w.s, e)
    ensures var c, r := PartStep(q, w, ReportCache(e)), ReportOf(q, w.s, e);
            && r.user == e.user && r.opponent == Ratings.Opponent(w.s, e)
            && EloOf(c.s.online, r.user) == Stored(r, r.user) && EloOf(c.s.online, r.opponent) == Stored(r, r.opponent)
  {
    hide CacheWritten;
  }

  /** Every row of this user that a thread has read carries the stored rating. */
  predicate ReadsCurrent(w: World, user: int) {
    forall i :: 0 <= i < |w.logins| && w.logins[i].id == user ==>
      user in w.s.users && w.logins[i].elo == w.s.users[user].elo
  }

  lemma AddsCurrentPart(q: Weight, w: World, p: Part, k: int)
    requires SoundWorld(w) && SoundPart(w, p) && w.report.Some? && !p.ReportTables?
    requires k in w.s.users && ReadsCurrent(w, k)
    ensures ReadsCurrent(PartStep(q, w, p), k)
    ensures AddedBy(q, w, p, k).Some? ==> AddedBy(q, w, p, k).value == w.s.users[k].elo
  {
    hide Sound, Step, LoginRow, RoomAdded, OpensRoom;
    QuietPart(q, w, p, k);
    if p.Whole? && p.e.Login? {
      LoginAddsStored(q, w.s, p.e, k);
    }
  }

  lemma LoginAddsStored(q: Weight, s: State, e: Event, k: int)
    requires e.Login? && k in s.users
    ensures var t := Step(q, s, e);
            t != s && t.online != [] && t.online[0].id == k ==> t.online[0].info.elo == s.users[k].elo
  {
    hide LoginRow;
  }

  lemma {:induction false} AddsCurrent(q: Weight, w: World, run: seq<Part>, k: int)
    requires SoundWorld(w) && SoundRun(q, w, run) && OtherThreads(run) && w.report.Some?
    requires k in w.s.users && ReadsCurrent(w, k)
    ensures LastAdded(q, w, run, k).Some? ==> LastAdded(q, w, run, k).value == w.s.users[k].elo
    decreases |run|
  {
    hide PartStep, SoundWorld, SoundPart, AddedBy, ReadsCurrent;
    if run != [] {
      SoundPartIff(q, w, run[0]);
      QuietPart(q, w, run[0], k);
      AddsCurrentPart(q, w, run[0], k);
      assert OtherThreads(run[1..]);
      AddsCurrent(q, PartStep(q, w, run[0]), run[1..], k);
    }
  }

  /**
   If no thread holds an outdated row of the two players, the report ends consistent if and only if neither
   player whose rating it changes logged in during the sleep and is still online.
   */
  lemma SlowReportCases(q: Weight, w: World, e: Event, meanwhile: seq<Part>)
    requires Steady(w) && w.report.None? && Ratings.IsRated(w.s, e) && OtherThreads(meanwhile)
    requires SafeRun(q, PartStep(q, w, ReportCache(e)), meanwhile)
    requires var o := Ratings.Opponent(w.s, e);
             e.user in w.s.users && o in w.s.users && ReadsCurrent(w, e.user) && ReadsCurrent(w, o)
    ensures var c, r := PartStep(q, w, ReportCache(e)), ReportOf(q, w.s, e);
            var m := PartExec(q, c, meanwhile);
            Consistent(PartStep(q, m, ReportTables).s) <==>
              forall p :: p in {r.user, r.opponent} && Has(m.s.online, p) && LastAdded(q, c, meanwhile, p).Some? ==>
                w.s.users[p].elo == Stored(r, p)
  {
    hide Sound, Consistent, Held, RatingsSettled, PartExec, SafeRun, ReportOf, LastAdded, CacheWritten;
    var c, r := PartStep(q, w, ReportCache(e)), ReportOf(q, w.s, e);
    SlowReportIff(q, w, e, meanwhile);
    SafePartIff(q, w, ReportCache(e));
    SafeIsSound(q, c, meanwhile);
    CacheOnly(q, w.s, e);
    OwnRatings(q, w, e);
    AddsCurrent(q, c, meanwhile, r.user);
    AddsCurrent(q, c, meanwhile, r.opponent);
  }

  // ---------- how long a row that was read stays current ----------

  /** A rating transaction that names this user. */
  predicate TransactionOf(w: World, p: Part, user: int) {
    || (p.ReportTables? && Plays(w, user))
    || (p.Whole? && w.report.None? && Ratings.IsRated(w.s, p.e) && user in {p.e.user, Ratings.Opponent(w.s, p.e)})
  }

  predicate NoTransactionOf(q: Weight, w: World, run: seq<Part>, user: int)
    decreases |run|
  {
    run == [] || (!TransactionOf(w, run[0], user) && NoTransactionOf(q, PartStep(q, w, run[0]), run[1..], user))
  }

  lemma StoredStays(q: Weight, w: World, p: Part, k: int)
    requires SoundWorld(w) && SoundPart(w, p) && k in w.s.users && !TransactionOf(w, p, k)
    ensures var t := PartStep(q, w, p).s; k in t.users && t.users[k].elo == w.s.users[k].elo
  {
    hide Sound, Step, LoginRow, RoomAdded, OpensRoom, CacheWritten, TablesWritten;
    match p
    case Whole(e) =>
      if !e.EndGame? { QuietUsers(q, w.s, e); } else if w.report.None? { ReportStores(q, w.s, e, k); }
    case RegisterAdd(name, password) => RegisteredSoundIff(w.s, name, password);
    case RoomAdd(i, e) => if i < |w.heads| && OpensRoom(w.s, e) { OpenedRow(q, w.s, w.heads[i], e); }
    case ReportCache(e) => if Ratings.IsRated(w.s, e) { CacheOnly(q, w.s, e); }
    case ReportTables => if w.report.Some? { StoredAfter(w.s, w.report.value, k); }
    case _ =>
  }

  lemma ReportStores(q: Weight, s: State, e: Event, k: int)
    requires e.EndGame? && k in s.users
    requires Ratings.IsRated(s, e) ==> k !in {e.user, Ratings.Opponent(s, e)}
    ensures var t := Step(q, s, e); k in t.users && t.users[k].elo == s.users[k].elo
  {
    hide Rated, RateGame, SetPlaying, SetWinner, Advanced;
  }

  lemma {:induction false} StoredStaysOverRun(q: Weight, w: World, run: seq<Part>, k: int)
    requires SoundWorld(w) && SoundRun(q, w, run) && k in w.s.users && NoTransactionOf(q, w, run, k)
    ensures var t := PartExec(q, w, run).s; k in t.users && t.users[k].elo == w.s.users[k].elo
    decreases |run|
  {
    hide PartStep, SoundWorld, SoundPart, TransactionOf;
    if run != [] {
      SoundPartIff(q, w, run[0]);
      StoredStays(q, w, run[0], k);
      StoredStaysOverRun(q, PartStep(q, w, run[0]), run[1..], k);
    }
  }

  /** Until the next rating transaction that names the user, a row that was read carries the stored rating. */
  lemma ReadStaysCurrent(q: Weight, w: World, socket: int, name: string, password: string, run: seq<Part>)
    requires SoundWorld(w) && LoginRow(w.s.users, name, password, 1, w.s.nextUser).Some?
    requires var id := LoginRow(w.s.users, name, password, 1, w.s.nextUser).value;
             var t := PartStep(q, w, LoginRead(socket, name, password));
             SoundRun(q, t, run) && NoTransactionOf(q, t, run, id)
    ensures var id := LoginRow(w.s.users, name, password, 1, w.s.nextUser).value;
            var t := PartStep(q, w, LoginRead(socket, name, password));
            && t.logins == w.logins + [Read(socket, id, name, password, w.s.users[id].elo)]
            && id in PartExec(q, t, run).s.users && PartExec(q, t, run).s.users[id].elo == t.logins[|w.logins|].elo
  {
    hide Sound, LoginRow, PartExec, SoundRun, NoTransactionOf;
    var id := LoginRow(w.s.users, name, password, 1, w.s.nextUser).value;
    assert Credentials(w.s.users, id, name, password);
    SoundPartIff(q, w, LoginRead(socket, name, password));
    StoredStaysOverRun(q, PartStep(q, w, LoginRead(socket, name, password)), run, id);
  }
}
