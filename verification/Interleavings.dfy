/**
 Inputs on which the properties fail, each reached from the start: two logins that interleave, a login during or
 across the sleep of a report, two rooms created at once, and a search that outlives its user.
 */
module Interleavings {
  import opened Entries
  import opened Elo
  import opened ServerSpec
  import opened Consistency
  import opened Matchmaking
  import opened Soundness
  import opened SplitHandlers
  import opened SlowReports
  import opened SplitRuns
  import SplitRooms
  import Ratings

  // ---------- two logins of one user ----------

  lemma {:induction false} FirstPart(q: Weight, w: World, run: seq<Part>)
    requires run != []
    ensures PartExec(q, w, run) == PartExec(q, PartStep(q, w, run[0]), run[1..])
  {}

  // The rows read last in a world, added one after the other.
  lemma AddBoth(q: Weight, w: World, a: Read, b: Read, n: nat)
    requires n + 2 == |w.logins| && w.logins[n..] == [a, b]
    ensures PartExec(q, w, [LoginAdd(n), LoginAdd(n)]) == w.(s := Added(Added(w.s, a), b), logins := w.logins[..n])
  {
    hide Added;
    assert w.logins[n] == w.logins[n..][0] && w.logins[n + 1] == w.logins[n..][1];
    var once := PartStep(q, w, LoginAdd(n));
    assert once.logins == w.logins[..n] + [b];
    assert Dropped(once.logins, n) == w.logins[..n];
    PartTwo(q, w, LoginAdd(n), LoginAdd(n));
  }

  lemma ReadBoth(q: Weight, w: World, a: int, b: int, name: string, password: string)
    requires LoginRow(w.s.users, name, password, 1, w.s.nextUser).Some?
    ensures var id := LoginRow(w.s.users, name, password, 1, w.s.nextUser).value;
            var elo := w.s.users[id].elo;
            PartExec(q, w, [LoginRead(a, name, password), LoginRead(b, name, password)]) ==
            w.(logins := w.logins + [Read(a, id, name, password, elo), Read(b, id, name, password, elo)])
  {
    hide LoginRow;
    PartTwo(q, w, LoginRead(a, name, password), LoginRead(b, name, password));
  }

  /** Both logins read before either adds; then a message. */
  function DoubleLogin(n: nat, a: int, b: int, name: string, password: string, e: Event): seq<Part> {
    [LoginRead(a, name, password), LoginRead(b, name, password)] + [LoginAdd(n), LoginAdd(n)] + [Whole(e)]
  }

  /**
   Two logins of one user whose checks both pass before either adds, then the END_GAME message of an
   opponent who won: the user is listed twice, and one entry disagrees with the stored rating.
   */
  lemma SplitLoginBreaksCache(q: Weight, w: World, a: int, b: int, name: string, password: string, e: Event)
    requires Consistent(w.s) && w.report.None?
    requires !NameOnline(w.s.online, name) && LoginRow(w.s.users, name, password, 1, w.s.nextUser).Some?
    requires Ratings.IsRated(w.s, e) && e.status == 1
    requires var id := LoginRow(w.s.users, name, password, 1, w.s.nextUser).value;
             && Ratings.Opponent(w.s, e) == id && e.user != id && w.s.users[id].elo >= 50
             && Has(w.s.online, e.user) && Get(w.s.online, e.user).elo >= 50
    ensures var id := LoginRow(w.s.users, name, password, 1, w.s.nextUser).value;
            var t := PartExec(q, w, DoubleLogin(|w.logins|, a, b, name, password, e)).s;
            && id in t.users && !Consistent(t)
            && exists i :: 0 <= i < |t.online| && t.online[i].id == id && t.online[i].info.elo != t.users[id].elo
  {
    var id := LoginRow(w.s.users, name, password, 1, w.s.nextUser).value;
    var elo, n := w.s.users[id].elo, |w.logins|;
    var r, r' := Read(a, id, name, password, elo), Read(b, id, name, password, elo);
    hide LoginRow, Step, PartExec;
    ReadBoth(q, w, a, b, name, password);
    var read := w.(logins := w.logins + [r, r']);
    AddBoth(q, read, r, r', n);
    var twice := read.(s := Added(Added(w.s, r), r'), logins := w.logins);
    assert read.logins[..n] == w.logins;
    var both, adds := [LoginRead(a, name, password), LoginRead(b, name, password)], [LoginAdd(n), LoginAdd(n)];
    PartConcat(q, w, both + adds, [Whole(e)]);
    PartConcat(q, w, both, adds);
    PartOne(q, twice, Whole(e));
    AfterPush(w.s.online, Added(w.s, r).online[0]);
    AfterPush(Added(w.s, r).online, twice.s.online[0]);
    LoserPays(q, twice.s, e, id);
    EntryDisagrees(Step(q, twice.s, e), 1);
  }

  lemma PartOne(q: Weight, w: World, p: Part)
    ensures PartExec(q, w, [p]) == PartStep(q, w, p)
  {
    hide PartStep;
    FirstPart(q, w, [p]);
  }

  lemma EntryDisagrees(s: State, i: nat)
    requires i < |s.online| && s.online[i].id in s.users && s.online[i].info.elo != s.users[s.online[i].id].elo
    ensures !Consistent(s)
  {
    if Consistent(s) { EntriesAgree(s); }
  }

  // A user listed twice at the head loses: the second entry keeps the old rating, the table gets the new one.
  lemma LoserPays(q: Weight, s: State, e: Event, id: int)
    requires Ratings.IsRated(s, e) && e.status == 1 && Ratings.Opponent(s, e) == id && e.user != id
    requires |s.online| > 1 && s.online[0].id == id && s.online[1].id == id && id in s.users
    requires s.online[0].info.elo == s.online[1].info.elo == s.users[id].elo >= 50
    requires Has(s.online, e.user) && Get(s.online, e.user).elo >= 50
    ensures var t := Step(q, s, e);
            1 < |t.online| && t.online[1].id == id && id in t.users && t.online[1].info.elo != t.users[id].elo
  {
    hide RateGame, SetElo, SetPlaying, Rated, Advanced;
    IndexIs(s.online, id, 0);
    var w, l := Get(s.online, e.user).elo, s.users[id].elo;
    DecisiveGame(q, w, l);
    var (w', l') := RateGame(q, w, l, 1.0);
    AfterRated(q, s.online, e.user, id, 1.0);
    SecondEntryStays(s.online, e.user, w', id, l');
    RatedIs(q, s.online, e.user, id, w', l');
  }

  lemma RatedIs(q: Weight, online: seq<Entry<Online>>, winner: int, loser: int, w: int, l: int)
    requires RateGame(q, RatedAs(online, winner), RatedAs(online, loser), 1.0) == (w, l)
    ensures Rated(q, online, winner, loser, 1.0) == SetElo(SetElo(online, winner, w), loser, l)
  {
    hide RateGame;
  }

  // Only the first entry of an id is ever written.
  lemma SecondEntryStays(online: seq<Entry<Online>>, winner: int, w: int, id: int, l: int)
    requires |online| > 1 && online[0].id == id && online[1].id == id && winner != id
    ensures var t := SetPlaying(SetElo(SetElo(online, winner, w), id, l), winner, 0);
            |t| == |online| && t[1] == online[1]
  {
    var t := SetElo(online, winner, w);
    IndexIs(online, id, 0);
    IndexIs(t, id, 0);
    IndexIs(SetElo(t, id, l), id, 0);
  }

  // ---------- logins around a sleeping report ----------

  /** A won first report between two online players with ratings from 50 up, the loser's password known. */
  predicate WinReported(w: World, e: Event, password: string) {
    && w.report.None? && Ratings.IsRated(w.s, e) && e.status == 1
    && var o := Ratings.Opponent(w.s, e);
    && o != e.user && Has(w.s.online, o) && Has(w.s.online, e.user) && o in w.s.users
    && Get(w.s.online, o).elo >= 50 && Get(w.s.online, e.user).elo >= 50 && w.s.users[o].password == password
  }

  /** The report writes the cache and sleeps, and the loser leaves. */
  function LoserGone(q: Weight, w: World, e: Event): World
    requires w.report.None? && Ratings.IsRated(w.s, e)
  {
    PartStep(q, PartStep(q, w, ReportCache(e)), Whole(Exit(Ratings.Opponent(w.s, e))))
  }

  lemma LoserFalls(q: Weight, w: World, e: Event, password: string)
    requires WinReported(w, e, password)
    ensures ReportOf(q, w.s, e).opponentElo < EloOf(w.s.online, Ratings.Opponent(w.s, e))
  {
    hide RateGame, Rated;
    var o := Ratings.Opponent(w.s, e);
    AfterRated(q, w.s.online, e.user, o, 1.0);
    DecisiveGame(q, Get(w.s.online, e.user).elo, Get(w.s.online, o).elo);
  }

  /** A user who has left while a report sleeps that lowers the user's stored rating. */
  ghost predicate Gone(w: World, o: int, password: string) {
    && SoundWorld(w) && w.report.Some? && o in w.s.users && !Has(w.s.online, o)
    && w.report.value.opponent == o && w.report.value.user != o && w.report.value.opponentElo < w.s.users[o].elo
    && !NameOnline(w.s.online, w.s.users[o].name)
    && LoginRow(w.s.users, w.s.users[o].name, password, 1, w.s.nextUser) == Some(o)
  }

  lemma GoneFacts(q: Weight, w: World, e: Event, password: string)
    requires Consistent(w.s) && Held(w) && WinReported(w, e, password)
    ensures var o, t := Ratings.Opponent(w.s, e), LoserGone(q, w, e);
            Gone(t, o, password) && t.logins == w.logins && t.s.users == w.s.users
  {
    var o, c := Ratings.Opponent(w.s, e), PartStep(q, w, ReportCache(e));
    FallsAsleep(q, w, e, password);
    hide Consistent, Sound, Held, CacheWritten, ReportOf, LoginRow, NameOnline, Ratings.IsRated;
    Leaves(q, c, o, password);
  }

  lemma FallsAsleep(q: Weight, w: World, e: Event, password: string)
    requires Consistent(w.s) && Held(w) && WinReported(w, e, password)
    ensures var o, c := Ratings.Opponent(w.s, e), PartStep(q, w, ReportCache(e));
            && SoundWorld(c) && c.s.users == w.s.users && c.logins == w.logins && c.report.Some?
            && c.report.value.opponent == o && c.report.value.user != o
            && c.report.value.opponentElo < w.s.users[o].elo
  {
    ConsistentIff(w.s);
    assert w.s.users[Ratings.Opponent(w.s, e)].elo == EloOf(w.s.online, Ratings.Opponent(w.s, e));
    LoserFalls(q, w, e, password);
    OwnRatings(q, w, e);
    hide Consistent, Sound, Held, RatingsAgree, ReportOf, WinReported, OpponentOf;
    assert SoundWorld(PartStep(q, w, ReportCache(e))) by { SoundPartIff(q, w, ReportCache(e)); }
    hide SoundWorld, CacheWritten;
    CacheOnly(q, w.s, e);
  }

  lemma Leaves(q: Weight, w: World, o: int, password: string)
    requires SoundWorld(w) && o in w.s.users && w.s.users[o].password == password
    ensures var t := PartStep(q, w, Whole(Exit(o)));
            && SoundWorld(t) && t == w.(s := t.s) && t.s.users == w.s.users && t.s.nextUser == w.s.nextUser
            && !Has(t.s.online, o) && !NameOnline(t.s.online, t.s.users[o].name)
            && LoginRow(t.s.users, t.s.users[o].name, password, 1, t.s.nextUser) == Some(o)
  {
    hide Sound, Held, LoginRow, NameOnline;
    SoundFacts(w.s);
    AfterUnlink(w.s.online, o);
    SoundPartIff(q, w, Whole(Exit(o)));
    var t := PartStep(q, w, Whole(Exit(o)));
    OneRow(t.s, t.s.users, Read(0, o, t.s.users[o].name, password, 0));
    NobodyElse(t.s, o);
  }

  lemma NobodyElse(s: State, user: int)
    requires Sound(s) && user in s.users && !Has(s.online, user)
    ensures !NameOnline(s.online, s.users[user].name)
  {
    SoundFacts(s);
    forall i | 0 <= i < |s.online| ensures s.online[i].info.name != s.users[user].name {
      HasAt(s.online, i);
      var k := s.online[i].id;
      assert k != user && k in Mirrored(s).users && Mirrored(s).users[k].name == s.online[i].info.name;
      assert Mirrored(s).users[user].name == s.users[user].name;
    }
  }

  function Rejoin(w: World, e: Event, socket: int, password: string): seq<Part>
    requires WinReported(w, e, password)
  {
    var o := Ratings.Opponent(w.s, e);
    [ReportCache(e), Whole(Exit(o))] + [Whole(Login(socket, w.s.users[o].name, password)), ReportTables]
  }

  /**
   A loser who leaves and logs in again while the winner's report sleeps is online with the old rating,
   and the table holds the new one.
   */
  lemma RejoinBreaksCache(q: Weight, w: World, e: Event, socket: int, password: string)
    requires Consistent(w.s) && Held(w) && WinReported(w, e, password)
    ensures var o := Ratings.Opponent(w.s, e);
            OldRating(PartExec(q, w, Rejoin(w, e, socket, password)), o, w.s.users[o].elo)
  {
    assert Ratings.IsRated(w.s, e) && w.report.None? && Ratings.Opponent(w.s, e) in w.s.users;
    hide Consistent, Held, WinReported, Gone, PartExec, PartStep, OldRating;
    GoneFacts(q, w, e, password);
    var o, gone := Ratings.Opponent(w.s, e), LoserGone(q, w, e);
    var early := [ReportCache(e), Whole(Exit(o))];
    var late := [Whole(Login(socket, w.s.users[o].name, password)), ReportTables];
    PartTwo(q, w, ReportCache(e), Whole(Exit(o)));
    PartConcat(q, w, early, late);
    ComesBack(q, gone, o, socket, password);
  }

  /** With no report asleep, the user is online with this rating, and the table holds a lower one. */
  ghost predicate OldRating(w: World, user: int, elo: int) {
    && w.report.None? && Has(w.s.online, user) && user in w.s.users
    && EloOf(w.s.online, user) == elo > w.s.users[user].elo && !Consistent(w.s)
  }

  lemma LoginAdds(q: Weight, s: State, r: Read)
    requires !NameOnline(s.online, r.name) && LoginRow(s.users, r.name, r.password, 1, s.nextUser) == Some(r.id)
    requires r.elo == s.users[r.id].elo
    ensures Step(q, s, Login(r.socket, r.name, r.password)) == Added(s, r)
  {
    hide NameOnline;
    assert Credentials(s.users, r.id, r.name, r.password);
    hide LoginRow;
  }

  lemma ComesBack(q: Weight, w: World, o: int, socket: int, password: string)
    requires Gone(w, o, password)
    ensures var run := [Whole(Login(socket, w.s.users[o].name, password)), ReportTables];
            OldRating(PartExec(q, w, run), o, w.s.users[o].elo)
  {
    hide Consistent, Sound, Held, LoginRow, NameOnline, TablesWritten, Added, Step;
    var x := Read(socket, o, w.s.users[o].name, password, w.s.users[o].elo);
    var login := Whole(Login(socket, x.name, password));
    var back := PartStep(q, w, login);
    PartTwo(q, w, login, ReportTables);
    LoginAdds(q, w.s, x);
    AddedOnline(w.s, x);
    SoundPartIff(q, w, login);
    SleeperListed(back);
    TablesWrittenSound(back.s, w.report.value);
    StoredAfter(back.s, w.report.value, o);
    ConsistentIff(TablesWritten(back.s, w.report.value));
  }

  lemma SleeperListed(w: World)
    requires Held(w) && w.report.Some?
    ensures Has(w.s.rooms, w.report.value.room) && Get(w.s.rooms, w.report.value.room).status == 0
    ensures w.report.value.user == w.report.value.opponent ==> w.report.value.userElo == w.report.value.opponentElo
  {}

  function StaleRead(w: World, e: Event, socket: int, password: string): seq<Part>
    requires WinReported(w, e, password)
  {
    var o := Ratings.Opponent(w.s, e);
    [ReportCache(e), Whole(Exit(o))] + [LoginRead(socket, w.s.users[o].name, password), ReportTables]
    + [LoginAdd(|w.logins|)]
  }

  /**
   A loser who leaves while the winner's report sleeps, whose row is read before the transaction and who is added
   after it: online with the old rating, although the name was free and no report slept at the add.
   */
  lemma StaleReadBreaksCache(q: Weight, w: World, e: Event, socket: int, password: string)
    requires Consistent(w.s) && Held(w) && WinReported(w, e, password)
    ensures var o := Ratings.Opponent(w.s, e);
            OldRating(PartExec(q, w, StaleRead(w, e, socket, password)), o, w.s.users[o].elo)
  {
    assert Ratings.IsRated(w.s, e) && w.report.None? && Ratings.Opponent(w.s, e) in w.s.users;
    hide Consistent, Held, WinReported, Gone, PartExec, PartStep, OldRating;
    GoneFacts(q, w, e, password);
    var o, gone, n := Ratings.Opponent(w.s, e), LoserGone(q, w, e), |w.logins|;
    var early, late := [ReportCache(e), Whole(Exit(o))], [LoginRead(socket, w.s.users[o].name, password), ReportTables];
    PartTwo(q, w, ReportCache(e), Whole(Exit(o)));
    PartConcat(q, w, early + late, [LoginAdd(n)]);
    PartConcat(q, w, early, late);
    PartConcat(q, gone, late, [LoginAdd(n)]);
    ReadTooEarly(q, gone, o, socket, password);
  }

  lemma ReadTooEarly(q: Weight, w: World, o: int, socket: int, password: string)
    requires Gone(w, o, password)
    ensures var run := [LoginRead(socket, w.s.users[o].name, password), ReportTables] + [LoginAdd(|w.logins|)];
            OldRating(PartExec(q, w, run), o, w.s.users[o].elo)
  {
    GoneParts(w, o, password);
    hide Gone, PartStep, PartExec, OldRating;
    var read, add := LoginRead(socket, w.s.users[o].name, password), LoginAdd(|w.logins|);
    PartConcat(q, w, [read, ReportTables], [add]);
    PartTwo(q, w, read, ReportTables);
    PartOne(q, PartStep(q, PartStep(q, w, read), ReportTables), add);
    ReadThenTables(q, w, o, socket, password);
    AddedOld(w, o, Read(socket, o, w.s.users[o].name, password, w.s.users[o].elo));
  }

  lemma GoneParts(w: World, o: int, password: string)
    requires Gone(w, o, password)
    ensures o in w.s.users && w.report.Some? && SoundWorld(w) && w.report.value.opponent == o
    ensures w.report.value.user != o && w.report.value.opponentElo < w.s.users[o].elo
  {}

  lemma ReadThenTables(q: Weight, w: World, o: int, socket: int, password: string)
    requires Gone(w, o, password)
    ensures var x := Read(socket, o, w.s.users[o].name, password, w.s.users[o].elo);
            var read := PartStep(q, w, LoginRead(socket, x.name, password));
            PartStep(q, PartStep(q, read, ReportTables), LoginAdd(|w.logins|)) ==
            World(Added(TablesWritten(w.s, w.report.value), x), w.logins, w.heads, None)
  {
    hide SoundWorld, LoginRow, NameOnline, TablesWritten, Added;
  }

  lemma AddedOld(w: World, o: int, x: Read)
    requires o in w.s.users && x.id == o && x.elo == w.s.users[o].elo && w.report.Some? && SoundWorld(w)
    requires w.report.value.opponent == o && w.report.value.user != o && w.report.value.opponentElo < x.elo
    ensures OldRating(World(Added(TablesWritten(w.s, w.report.value), x), w.logins, w.heads, None), o, x.elo)
  {
    hide Consistent, Sound, TablesWritten, Added;
    var done := TablesWritten(w.s, w.report.value);
    SleeperListed(w);
    StoredAfter(w.s, w.report.value, o);
    AddedOnline(done, x);
    ConsistentIff(Added(done, x));
  }

  lemma AddedOnline(s: State, r: Read)
    ensures var t := Added(s, r); Has(t.online, r.id) && EloOf(t.online, r.id) == r.elo && t.users == s.users
  {
    AfterPush(s.online, Added(s, r).online[0]);
  }

  // ---------- from the start ----------

  /** Two users register and log in; the first creates room 1 and the second accepts the invitation. */
  const SEATING: seq<Event> :=
    [Register("a", "p"), Register("b", "p")] + [Login(3, "a", "p"), Login(4, "b", "p")]
    + [CreateRoom(1, 600, 0, 0), Answer(1, 2, 1, 1)]

  function Wholes(run: seq<Event>): seq<Part> {
    seq(|run|, i requires 0 <= i < |run| => Whole(run[i]))
  }

  /** Both users online, seated in the unrated room 1. */
  function SeatedTwo(): State {
    BothRegistered([UserEntry(2, 0), UserEntry(1, 0)], []).(
      rooms := [Entry(1, Room(1, 2, 600, 3, 4, 0))], rows := map[1 := RoomRow(1, -1, 600, false, None)], nextRoom := 2)
  }

  lemma {:induction false} WholesRun(q: Weight, s: State, run: seq<Event>)
    ensures PartExec(q, World(s, [], [], None), Wholes(run)) == World(Exec(q, s, run), [], [], None)
    decreases |run|
  {
    hide Step;
    if run != [] {
      assert Wholes(run)[0] == Whole(run[0]) && Wholes(run)[1..] == Wholes(run[1..]);
      WholesRun(q, Step(q, s, run[0]), run[1..]);
    }
  }

  lemma SeatingRun(q: Weight)
    ensures Exec(q, INITIAL, SEATING) == SeatedTwo() && Consistent(SeatedTwo())
  {
    var register, login := [Register("a", "p"), Register("b", "p")], [Login(3, "a", "p"), Login(4, "b", "p")];
    var room := [CreateRoom(1, 600, 0, 0), Answer(1, 2, 1, 1)];
    hide Exec, Consistent, Step;
    ExecConcat(q, INITIAL, register + login, room);
    ExecConcat(q, INITIAL, register, login);
    TwoRegistrations(q);
    TwoLogins(q);
    var s := BothRegistered([UserEntry(2, 0), UserEntry(1, 0)], []);
    ExecTwo(q, s, room[0], room[1]);
    TwoSeats(q, s);
    InitiallyConsistent();
    ExecKeeps(q, INITIAL, SEATING);
  }

  lemma TwoSeats(q: Weight, s: State)
    requires s == BothRegistered([UserEntry(2, 0), UserEntry(1, 0)], [])
    ensures Step(q, Step(q, s, CreateRoom(1, 600, 0, 0)), Answer(1, 2, 1, 1)) == SeatedTwo()
  {
    IndexIs(s.online, 1, 1);
    IndexIs(s.online, 2, 0);
    var t := Step(q, s, CreateRoom(1, 600, 0, 0));
    assert t.rooms == [Entry(1, Room(1, -1, 600, 0, 0, 0))];
    IndexIs(t.rooms, 1, 0);
  }

  const WON := EndGame(3, 1, 1, 1)

  lemma SeatedFacts()
    ensures var s := SeatedTwo();
            && Ratings.IsRated(s, WON) && Ratings.Opponent(s, WON) == 2
            && WinReported(World(s, [], [], None), WON, "p") && s.users[2].name == "b" && s.users[2].elo == 1000
  {
    var s := SeatedTwo();
    IndexIs(s.online, 1, 1);
    IndexIs(s.online, 2, 0);
    IndexIs(s.rooms, 1, 0);
  }

  /** A run from the start in which a row read while the report sleeps is added after it: cache and table disagree. */
  lemma StaleReadFromStart(q: Weight) returns (run: seq<Part>)
    ensures run == Wholes(SEATING) + [ReportCache(WON), Whole(Exit(2))]
                   + [LoginRead(5, "b", "p"), ReportTables] + [LoginAdd(0)]
    ensures OldRating(PartExec(q, INITIAL_WORLD, run), 2, 1000)
  {
    hide PartExec, Consistent, WinReported, Exec, OldRating;
    var w := World(SeatedTwo(), [], [], None);
    SeatingRun(q);
    SeatedFacts();
    WholesRun(q, INITIAL, SEATING);
    StaleReadBreaksCache(q, w, WON, 5, "p");
    run := Wholes(SEATING) + StaleRead(w, WON, 5, "p");
    PartConcat(q, INITIAL_WORLD, Wholes(SEATING), StaleRead(w, WON, 5, "p"));
  }

  /** A run from the start in which the loser logs in again while the report sleeps. */
  lemma RejoinFromStart(q: Weight) returns (run: seq<Part>)
    ensures run == Wholes(SEATING) + [ReportCache(WON), Whole(Exit(2))] + [Whole(Login(5, "b", "p")), ReportTables]
    ensures OldRating(PartExec(q, INITIAL_WORLD, run), 2, 1000)
  {
    hide PartExec, Consistent, WinReported, Exec, OldRating;
    var w := World(SeatedTwo(), [], [], None);
    SeatingRun(q);
    SeatedFacts();
    WholesRun(q, INITIAL, SEATING);
    RejoinBreaksCache(q, w, WON, 5, "p");
    run := Wholes(SEATING) + Rejoin(w, WON, 5, "p");
    PartConcat(q, INITIAL_WORLD, Wholes(SEATING), Rejoin(w, WON, 5, "p"));
  }

  /** A run from the start in which two logins of the loser interleave before the winner reports. */
  lemma SplitLoginFromStart(q: Weight) returns (run: seq<Part>)
    ensures run == Wholes(SEATING + [Exit(2)]) + DoubleLogin(0, 5, 6, "b", "p", WON)
    ensures !Consistent(PartExec(q, INITIAL_WORLD, run).s)
  {
    hide PartExec, Consistent, Exec;
    SeatingRun(q);
    ExecConcat(q, INITIAL, SEATING, [Exit(2)]);
    ExecOne(q, SeatedTwo(), Exit(2));
    StepKeeps(q, SeatedTwo(), Exit(2));
    LoserLeft(q);
    WholesRun(q, INITIAL, SEATING + [Exit(2)]);
    var w := World(Step(q, SeatedTwo(), Exit(2)), [], [], None);
    SplitLoginBreaksCache(q, w, 5, 6, "b", "p", WON);
    run := Wholes(SEATING + [Exit(2)]) + DoubleLogin(0, 5, 6, "b", "p", WON);
    PartConcat(q, INITIAL_WORLD, Wholes(SEATING + [Exit(2)]), DoubleLogin(0, 5, 6, "b", "p", WON));
  }

  lemma LoserLeft(q: Weight)
    ensures var s := Step(q, SeatedTwo(), Exit(2));
            && Ratings.IsRated(s, WON) && Ratings.Opponent(s, WON) == 2 && !NameOnline(s.online, "b")
            && LoginRow(s.users, "b", "p", 1, s.nextUser) == Some(2) && s.users[2].elo == 1000
            && Has(s.online, 1) && Get(s.online, 1).elo == 1000
  {
    var s := Step(q, SeatedTwo(), Exit(2));
    IndexIs(SeatedTwo().online, 2, 0);
    assert s.online == [UserEntry(1, 0)];
    IndexIs(s.online, 1, 0);
    IndexIs(s.rooms, 1, 0);
    assert !Credentials(s.users, 1, "b", "p") && Credentials(s.users, 2, "b", "p");
    assert LoginRow(s.users, "b", "p", 2, 3) == Some(2);
  }

  /** Two rooms created on an empty list: the first is lost, in this state and after every further run. */
  lemma LostRoom(q: Weight, later: seq<Part>) returns (run: seq<Part>)
    ensures run == [HeadRead, HeadRead]
                   + [RoomAdd(0, CreateRoom(1, 600, 0, 0)), RoomAdd(0, CreateRoom(2, 600, 0, 0))] + later
    ensures var s := PartExec(q, INITIAL_WORLD, run).s;
            !Has(s.rooms, 1) && RatingsOf(s.journal, 1) == 0 && 1 < s.nextRoom
  {
    hide PartExec;
    var first, second := RoomAdd(0, CreateRoom(1, 600, 0, 0)), RoomAdd(0, CreateRoom(2, 600, 0, 0));
    run := [HeadRead, HeadRead] + [first, second] + later;
    var w := INITIAL_WORLD.(heads := [None, None]);
    var one := INITIAL_WORLD.(s := INITIAL.(rooms := [Entry(1, Room(1, -1, 600, 0, 0, 0))],
                              rows := map[1 := RoomRow(1, -1, 600, false, None)], nextRoom := 2), heads := [None]);
    var two := PartStep(q, one, second);
    PartTwo(q, INITIAL_WORLD, HeadRead, HeadRead);
    PartTwo(q, w, first, second);
    PartConcat(q, INITIAL_WORLD, [HeadRead, HeadRead], [first, second]);
    PartConcat(q, INITIAL_WORLD, [HeadRead, HeadRead] + [first, second], later);
    assert PartStep(q, PartStep(q, INITIAL_WORLD, HeadRead), HeadRead) == w;
    assert PartStep(q, w, first) == one;
    assert two.s.rooms == [Entry(2, Room(2, -1, 600, 0, 0, 0))];
    IndexIs(two.s.rooms, 1, 1);
    SplitRooms.LittlePart(q, w, first);
    SplitRooms.LittlePart(q, one, second);
    SplitRooms.LostForGood(q, two, later, 1);
  }

  // ---------- a search that outlives its user ----------

  const ROW_A := UserRow("a", "p", 1000)
  const ROW_B := UserRow("b", "p", 1000)

  /** User 1 (socket 3) or 2 (socket 4), with a flag. */
  function UserEntry(id: int, finding: int): Entry<Online> {
    Entry(id, Online(1000, id + 2, if id == 1 then "a" else "b", 0, finding))
  }

  function BothRegistered(online: seq<Entry<Online>>, claims: seq<Pairing>): State {
    INITIAL.(users := map[1 := ROW_A, 2 := ROW_B], nextUser := 3, online := online, claims := claims)
  }

  lemma TwoRegistrations(q: Weight)
    ensures Exec(q, INITIAL, [Register("a", "p"), Register("b", "p")]) == BothRegistered([], [])
  {
    ExecTwo(q, INITIAL, Register("a", "p"), Register("b", "p"));
    var s := Step(q, INITIAL, Register("a", "p"));
    assert s == INITIAL.(users := map[1 := ROW_A], nextUser := 2);
    assert !NameTaken(s.users, "b");
  }

  lemma TwoLogins(q: Weight)
    ensures var s := BothRegistered([], []);
            Exec(q, s, [Login(3, "a", "p"), Login(4, "b", "p")]) ==
                BothRegistered([UserEntry(2, 0), UserEntry(1, 0)], [])
  {
    var s := BothRegistered([], []);
    ExecTwo(q, s, Login(3, "a", "p"), Login(4, "b", "p"));
    assert Credentials(s.users, 1, "a", "p") && !Credentials(s.users, 1, "b", "p") && Credentials(s.users, 2, "b", "p");
    assert LoginRow(s.users, "a", "p", 1, 3) == Some(1);
    assert LoginRow(s.users, "b", "p", 2, 3) == Some(2) == LoginRow(s.users, "b", "p", 1, 3);
  }

  lemma FlagOfTwo(first: int, second: int, user: int, flag: int)
    requires user in {1, 2}
    ensures var online := [UserEntry(2, second), UserEntry(1, first)];
            SetFinding(online, user, flag) ==
              if user == 1 then [UserEntry(2, second), UserEntry(1, flag)]
              else [UserEntry(2, flag), UserEntry(1, first)]
  {
    IndexIs([UserEntry(2, second), UserEntry(1, first)], user, if user == 1 then 1 else 0);
  }

  lemma FirstClaim(q: Weight)
    ensures var s := BothRegistered([UserEntry(2, 1), UserEntry(1, 1)], []);
            && Claims(s, Scan(2, 1000)) && Claimed(s, Scan(2, 1000)) == Pairing(2, 1, 1000)
            && Step(q, s, Scan(2, 1000)) == BothRegistered([UserEntry(2, 0), UserEntry(1, 0)], [Pairing(2, 1, 1000)])
  {
    var online := [UserEntry(2, 1), UserEntry(1, 1)];
    assert online[1..] == [UserEntry(1, 1)];
    IndexIs(online, 2, 0);
    IndexIs(online, 1, 1);
    FlagOfTwo(1, 1, 2, 0);
    FlagOfTwo(1, 0, 1, 0);
  }

  lemma Leave(q: Weight, claims: seq<Pairing>)
    ensures Step(q, BothRegistered([UserEntry(2, 0), UserEntry(1, 0)], claims), Exit(1)) ==
            BothRegistered([UserEntry(2, 0)], claims)
  {
    IndexIs([UserEntry(2, 0), UserEntry(1, 0)], 1, 1);
  }

  lemma SecondClaim(q: Weight, claims: seq<Pairing>)
    ensures Step(q, BothRegistered([UserEntry(2, 0)], claims), RaiseFlag(2)) ==
            BothRegistered([UserEntry(2, 1)], claims)
    ensures var s := BothRegistered([UserEntry(2, 1)], claims);
            Claims(s, Scan(1, 1000)) && Claimed(s, Scan(1, 1000)) == Pairing(1, 2, 1000) && !Has(s.online, 1)
  {
    IndexIs([UserEntry(2, 0)], 2, 0);
    IndexIs([UserEntry(2, 1)], 2, 0);
    IndexIs([UserEntry(2, 1)], 1, 1);
  }

  /** Users 1 and 2 have registered and logged in; nobody has searched. */
  function BeforeSearching(q: Weight): Watch {
    var joined := [Register("a", "p"), Register("b", "p")] + [Login(3, "a", "p"), Login(4, "b", "p")];
    Watch(Exec(q, INITIAL, joined), {}, multiset{}, multiset{})
  }

  /**
   Without the premise that searchers stay online a user can be matched more often than asked: user 2
   claims user 1, who then leaves; user 2 asks again, and the search still running for user 1 claims user 2.
   */
  lemma OfflineSearcherMatchedTwice(q: Weight) returns (run: seq<Event>)
    ensures run == [RaiseFlag(1), RaiseFlag(2), Scan(2, 1000), Exit(1), RaiseFlag(2), Scan(1, 1000)]
    ensures WatchRun(q, BeforeSearching(q), run).requests[1] == 1
    ensures WatchRun(q, BeforeSearching(q), run).matches[1] == 2
  {
    ExecConcat(q, INITIAL, [Register("a", "p"), Register("b", "p")], [Login(3, "a", "p"), Login(4, "b", "p")]);
    TwoRegistrations(q);
    TwoLogins(q);
    var w := BeforeSearching(q);
    assert w.s == BothRegistered([UserEntry(2, 0), UserEntry(1, 0)], []);
    hide Exec, WatchStep;
    run := [RaiseFlag(1), RaiseFlag(2), Scan(2, 1000), Exit(1), RaiseFlag(2), Scan(1, 1000)];
    SixSteps(q, w, run);
    var w3 := WatchStep(q, WatchStep(q, WatchStep(q, w, RaiseFlag(1)), RaiseFlag(2)), Scan(2, 1000));
    UntilFirstClaim(q, w);
    AfterFirstClaim(q, w3);
  }

  lemma UntilFirstClaim(q: Weight, w: Watch)
    requires w.s == BothRegistered([UserEntry(2, 0), UserEntry(1, 0)], []) && w.requests[1] == 0 && w.matches[1] == 0
    ensures var t := WatchStep(q, WatchStep(q, WatchStep(q, w, RaiseFlag(1)), RaiseFlag(2)), Scan(2, 1000));
            && t.s == BothRegistered([UserEntry(2, 0), UserEntry(1, 0)], [Pairing(2, 1, 1000)])
            && t.requests[1] == 1 && t.matches[1] == 1
  {
    hide SetFinding, FindingMatch, DoScan, FindingOf;
    FlagOfTwo(0, 0, 1, 1);
    FlagOfTwo(1, 0, 2, 1);
    FirstClaim(q);
    var w1 := WatchStep(q, w, RaiseFlag(1));
    assert w1.s == BothRegistered([UserEntry(2, 0), UserEntry(1, 1)], []) && w1.requests[1] == 1 && w1.matches[1] == 0;
    var w2 := WatchStep(q, w1, RaiseFlag(2));
    assert w2.s == BothRegistered([UserEntry(2, 1), UserEntry(1, 1)], []) && w2.requests[1] == 1 && w2.matches[1] == 0;
  }

  lemma AfterFirstClaim(q: Weight, w: Watch)
    requires w.s == BothRegistered([UserEntry(2, 0), UserEntry(1, 0)], [Pairing(2, 1, 1000)])
    requires w.requests[1] == 1 && w.matches[1] == 1
    ensures var t := WatchStep(q, WatchStep(q, WatchStep(q, w, Exit(1)), RaiseFlag(2)), Scan(1, 1000));
            t.requests[1] == 1 && t.matches[1] == 2
  {
    hide SetFinding, FindingMatch, DoScan, FindingOf, Unlink;
    Leave(q, [Pairing(2, 1, 1000)]);
    SecondClaim(q, [Pairing(2, 1, 1000)]);
    var w1 := WatchStep(q, w, Exit(1));
    assert w1.s == BothRegistered([UserEntry(2, 0)], [Pairing(2, 1, 1000)]) && w1.requests[1] == 1
        && w1.matches[1] == 1;
    var w2 := WatchStep(q, w1, RaiseFlag(2));
    assert w2.s == BothRegistered([UserEntry(2, 1)], [Pairing(2, 1, 1000)]) && w2.requests[1] == 1
        && w2.matches[1] == 1;
  }

  lemma SixSteps(q: Weight, w: Watch, r: seq<Event>)
    requires |r| == 6
    ensures WatchRun(q, w, r)
         == (var w3 := WatchStep(q, WatchStep(q, WatchStep(q, w, r[0]), r[1]), r[2]);
             WatchStep(q, WatchStep(q, WatchStep(q, w3, r[3]), r[4]), r[5]))
  {
    hide WatchStep;
    var w3 := WatchStep(q, WatchStep(q, WatchStep(q, w, r[0]), r[1]), r[2]);
    assert r[1..][1..] == r[2..] && r[2..][1..] == r[3..];
    assert WatchRun(q, w, r) == WatchRun(q, WatchStep(q, w, r[0]), r[1..]);
    assert WatchRun(q, WatchStep(q, w, r[0]), r[1..]) == WatchRun(q, WatchStep(q, WatchStep(q, w, r[0]), r[1]), r[2..]);
    assert WatchRun(q, w, r) == WatchRun(q, w3, r[3..]);
    assert r[3..][1..] == r[4..] && r[4..][1..] == r[5..] && r[5..][1..] == [];
    assert WatchRun(q, w3, r[3..]) == WatchRun(q, WatchStep(q, w3, r[3]), r[4..]);
    var w5 := WatchStep(q, WatchStep(q, w3, r[3]), r[4]);
    assert WatchRun(q, WatchStep(q, w3, r[3]), r[4..]) == WatchRun(q, w5, r[5..]);
    assert WatchRun(q, w5, r[5..]) == WatchRun(q, WatchStep(q, w5, r[5]), []) == WatchStep(q, w5, r[5]);
  }
}
