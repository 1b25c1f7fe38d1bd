/**
 The two-report end of a game, over whole runs: what a room's reports do in any order, mixed with any
 other events.
 */
module Reports {
  import opened Entries
  import opened Elo
  import opened ServerSpec
  import opened Consistency

  // ---------- the two reports ----------

  /** How many END_GAME messages of the run name this room. */
  function ReportsFor(run: seq<Event>, room: int): nat {
    if run == [] then 0
    else (if run[0].EndGame? && run[0].room == room then 1 else 0) + ReportsFor(run[1..], room)
  }

  /** 0: listed, no report; 1: listed, one report; 2: no longer listed. */
  function Stage(s: State, room: int): int {
    if Has(s.rooms, room) then Get(s.rooms, room).status else 2
  }

  function AtMostTwo(n: int): int {
    if n > 2 then 2 else n
  }

  // Only a report of this very room moves its stage, and by one, up to 2.
  lemma StageStep(q: Weight, s: State, e: Event, room: int)
    requires Consistent(s) && room in s.rows
    ensures room in Step(q, s, e).rows
    ensures Stage(Step(q, s, e), room) == AtMostTwo(Stage(s, room) + if e.EndGame? && e.room == room then 1 else 0)
  {
    hide DoRate, SetPlaying, SetFinding, SetStarted, LoginRow, FindingMatch, Seated;
    assert RatedOnce(s, room);
    var t := Step(q, s, e);
    match e
    case CreateRoom(user, total, strayWhite, strayBlack) => AfterAppend(s.rooms, t.rooms[|s.rooms|]);
    case Answer(user, invited, id, isAccept) =>
      if t.rooms != s.rooms { SeatedStatus(s, user, invited, id); }
    case StartGame(id) => StartedRows(s, id);
    case EndGame(socket, id, user, status) =>
      if Has(s.rooms, id) { AdvancedRooms(s.rooms, id); ReportRows(q, s, e); }
    case OpenRoom(claim) =>
      if t != s { AfterAppend(s.rooms, t.rooms[|s.rooms|]); }
    case _ =>
  }

  lemma SeatedStatus(s: State, user: int, invited: int, id: int)
    requires Has(s.rooms, id)
    ensures var t := Write(s.rooms, id, Seated(s.online, Get(s.rooms, id), user, invited));
            forall k :: Has(t, k) == Has(s.rooms, k) && (Has(t, k) ==> Get(t, k).status == Get(s.rooms, k).status)
  {
    AfterWrite(s.rooms, id, Seated(s.online, Get(s.rooms, id), user, invited));
  }

  lemma StartedRows(s: State, id: int)
    ensures DoStartGame(s, id).rows.Keys == s.rows.Keys
  {}

  lemma ReportRows(q: Weight, s: State, e: Event)
    requires e.EndGame?
    ensures Step(q, s, e).rows.Keys == s.rows.Keys
  {
    hide Rated, RateGame, SetPlaying, Advanced;
  }

  lemma {:induction false} StageAfter(q: Weight, s: State, run: seq<Event>, room: int)
    requires Consistent(s) && room in s.rows
    ensures room in Exec(q, s, run).rows
    ensures Stage(Exec(q, s, run), room) == AtMostTwo(Stage(s, room) + ReportsFor(run, room))
    decreases |run|
  {
    hide Step, Consistent;
    assert 0 <= Stage(s, room) <= 2 by { StageRange(s, room); }
    if run != [] {
      StepKeeps(q, s, run[0]);
      StageStep(q, s, run[0], room);
      StageAfter(q, Step(q, s, run[0]), run[1..], room);
    }
  }

  lemma StageRange(s: State, room: int)
    requires Consistent(s) && room in s.rows
    ensures 0 <= Stage(s, room) <= 2
    ensures RatingsOf(s.journal, room) == if Stage(s, room) == 0 then 0 else 1
  {
    assert RatedOnce(s, room);
  }

  /**
   From the moment a room is listed without a report, any run leaves it: unrated with status 0 after no
   report; rated once with status 1 after one; rated once and unlinked after two or more. Further
   reports change nothing at all.
   */
  lemma TwoReports(q: Weight, s: State, run: seq<Event>, room: int)
    requires Consistent(s) && Has(s.rooms, room) && Get(s.rooms, room).status == 0
    ensures var t, n := Exec(q, s, run), ReportsFor(run, room);
            && (n == 0 ==> Has(t.rooms, room) && Get(t.rooms, room).status == 0 && RatingsOf(t.journal, room) == 0)
            && (n == 1 ==> Has(t.rooms, room) && Get(t.rooms, room).status == 1 && RatingsOf(t.journal, room) == 1)
            && (n >= 2 ==> !Has(t.rooms, room) && RatingsOf(t.journal, room) == 1)
            && (n >= 2 ==> forall socket, user, status :: Step(q, t, EndGame(socket, room, user, status)) == t)
  {
    hide Exec, Consistent;
    assert room in s.rows by { ListedHasRow(s, room); }
    ExecKeeps(q, s, run);
    StageAfter(q, s, run, room);
    var t := Exec(q, s, run);
    StageRange(t, room);
    if Has(t.rooms, room) { StatusIsNotTwo(t, room); }
  }

  lemma ListedHasRow(s: State, room: int)
    requires Consistent(s) && Has(s.rooms, room)
    ensures room in s.rows
  {}

  lemma StatusIsNotTwo(s: State, room: int)
    requires Consistent(s) && Has(s.rooms, room)
    ensures Get(s.rooms, room).status != 2
  {
    assert RatedOnce(s, room);
  }

  /** In every run of the server, each room id is rated at most once. */
  lemma RatedAtMostOnce(q: Weight, run: seq<Event>, room: int)
    ensures RatingsOf(Exec(q, INITIAL, run).journal, room) <= 1
  {
    InitiallyConsistent();
    ExecKeeps(q, INITIAL, run);
    var s := Exec(q, INITIAL, run);
    if room in s.rows { assert RatedOnce(s, room); }
  }

  // ---------- the first report decides ----------

  lemma WinnerStep(q: Weight, s: State, e: Event, room: int)
    requires Consistent(s) && room in s.rows && s.rows[room].winner.Some?
    ensures room in Step(q, s, e).rows && Step(q, s, e).rows[room].winner == s.rows[room].winner
  {
    assert RatedOnce(s, room) && room != s.nextRoom;
    hide Rated, RateGame, SetPlaying, SetFinding, LoginRow, FindingMatch, Seated, Advanced, Consistent, EloOf, Unlink;
  }

  // Once written, a winner column is never written again.
  lemma {:induction false} WinnerFrozen(q: Weight, s: State, run: seq<Event>, room: int)
    requires Consistent(s) && room in s.rows && s.rows[room].winner.Some?
    ensures room in Exec(q, s, run).rows && Exec(q, s, run).rows[room].winner == s.rows[room].winner
    decreases |run|
  {
    hide Step, Consistent;
    if run != [] {
      StepKeeps(q, s, run[0]);
      WinnerStep(q, s, run[0], room);
      WinnerFrozen(q, Step(q, s, run[0]), run[1..], room);
    }
  }

  /**
   The first report of a room fixes its winner column for good: the reporter on status 1, else 0 (a draw, even for
   a loss).
   */
  lemma FirstReportDecides(q: Weight, s: State, socket: int, room: int, user: int, status: int, run: seq<Event>)
    requires Consistent(s) && Has(s.rooms, room) && Get(s.rooms, room).status == 0
    ensures var t := Exec(q, s, [EndGame(socket, room, user, status)] + run);
            room in t.rows && t.rows[room].winner == Some(if status == 1 then user else 0)
  {
    var e := EndGame(socket, room, user, status);
    var t := Step(q, s, e);
    assert ([e] + run)[0] == e && ([e] + run)[1..] == run;
    ListedHasRow(s, room);
    StepKeeps(q, s, e);
    WinnerWritten(q, s, e);
    WinnerFrozen(q, t, run, room);
  }

  lemma WinnerWritten(q: Weight, s: State, e: Event)
    requires e.EndGame? && Has(s.rooms, e.room) && Get(s.rooms, e.room).status == 0 && e.room in s.rows
    ensures e.room in Step(q, s, e).rows && Step(q, s, e).rows[e.room].winner == Some(WinnerColumn(e.user, e.status))
  {
    hide Rated, RateGame, SetPlaying, Advanced;
  }

  // ---------- the order of the two reports ----------

  /** Two players of a listed, unrated room, each about to report from its own socket. */
  ghost predicate ReadyToReport(s: State, room: int, blackSocket: int) {
    && Consistent(s)
    && Has(s.rooms, room)
    && var r := Get(s.rooms, room);
    && r.status == 0 && r.white != r.black && r.white != 0 && r.black != 0
    && blackSocket != r.whiteSocket
  }

  function WhiteReport(s: State, room: int, status: int): Event
    requires Has(s.rooms, room)
  {
    EndGame(Get(s.rooms, room).whiteSocket, room, Get(s.rooms, room).white, status)
  }

  function BlackReport(s: State, room: int, blackSocket: int, status: int): Event
    requires Has(s.rooms, room)
  {
    EndGame(blackSocket, room, Get(s.rooms, room).black, status)
  }

  // The user and opponent a report names, and the state after it and a second report by the opponent.
  lemma BothReports(q: Weight, s: State, first: Event, second: Event)
    requires Consistent(s) && first.EndGame? && second.EndGame? && first.room == second.room && Has(s.rooms, first.room)
    requires var r := Get(s.rooms, first.room); r.status == 0 && second.user == OpponentOf(r, first.socket)
    ensures var t := Exec(q, s, [first, second]);
            var d := DoRate(q, s, first.room, first.user, second.user, first.status);
            && t.online == SetPlaying(SetPlaying(d.online, first.user, 0), second.user, 0)
            && t == d.(online := t.online, rooms := Unlink(Advanced(s.rooms, first.room), first.room))
  {
    hide Step, Exec, DoRate, SetPlaying, Consistent;
    ExecTwo(q, s, first, second);
    assert UniqueIds(s.rooms) by { ConsistentLists(s); }
    FirstReport(q, s, first);
    AdvancedRooms(s.rooms, first.room);
    SecondReport(q, Step(q, s, first), second);
  }

  lemma FirstReport(q: Weight, s: State, e: Event)
    requires e.EndGame? && Has(s.rooms, e.room) && Get(s.rooms, e.room).status == 0
    ensures var d := DoRate(q, s, e.room, e.user, OpponentOf(Get(s.rooms, e.room), e.socket), e.status);
            Step(q, s, e) == d.(online := SetPlaying(d.online, e.user, 0), rooms := Advanced(s.rooms, e.room))
  {
    hide DoRate, SetPlaying, Advanced;
  }

  lemma SecondReport(q: Weight, s: State, e: Event)
    requires e.EndGame? && Has(s.rooms, e.room) && Get(s.rooms, e.room).status == 1
    ensures Step(q, s, e) == s.(online := SetPlaying(s.online, e.user, 0), rooms := Unlink(s.rooms, e.room))
  {
    hide DoRate, SetPlaying, Unlink;
  }

  // ---------- who is marked as playing ----------

  function Playing(s: State, user: int): int {
    if Has(s.online, user) then Get(s.online, user).playing else -1
  }

  predicate StartsGameOf(s: State, e: Event, p: int) {
    e.StartGame? && Has(s.rooms, e.room) && (Get(s.rooms, e.room).white == p || Get(s.rooms, e.room).black == p)
  }

  /** An END_GAME message of p that finds its room listed. */
  predicate ReportBy(s: State, e: Event, p: int) {
    e.EndGame? && Has(s.rooms, e.room) && e.user == p
  }

  /**
   A user's mark after any step: gone on exit, 0 on login, 1 on a start in a seat, 0 on the own report, else
   unchanged.
   */
  lemma PlayingStep(q: Weight, s: State, e: Event, p: int)
    requires Consistent(s)
    ensures var t := Step(q, s, e);
            Playing(t, p) ==
              if e.Exit? && e.user == p then -1
              else if e.Login? && !Has(s.online, p) then (if Has(t.online, p) then 0 else -1)
              else if StartsGameOf(s, e, p) && Has(s.online, p) then 1
              else if ReportBy(s, e, p) && Has(s.online, p) then 0
              else Playing(s, p)
  {
    hide Consistent, Playing;
    ConsistentLists(s);
    match e
    case Login(socket, name, password) => LoginPlaying(q, s, e, p);
    case Exit(user) => ExitPlaying(s, user, p);
    case StartGame(room) => if Has(s.rooms, room) { hide Step; StartGamePlaying(q, s, room); NotOnline(s, p); }
    case EndGame(socket, room, user, status) => if Has(s.rooms, room) { hide Step; ReportPlaying(q, s, e); }
    case _ => QuietPlaying(q, s, e, p);
  }

  lemma NotOnline(s: State, p: int)
    ensures !Has(s.online, p) ==> Playing(s, p) == -1
  {}

  lemma ExitPlaying(s: State, user: int, p: int)
    requires UniqueIds(s.online)
    ensures Playing(DoExit(s, user), p) == if user == p then -1 else Playing(s, p)
  {
    AfterUnlink(s.online, user);
  }

  lemma LoginPlaying(q: Weight, s: State, e: Event, p: int)
    requires Consistent(s) && e.Login?
    ensures var t := Step(q, s, e);
            Playing(t, p) == if !Has(s.online, p) then (if Has(t.online, p) then 0 else -1) else Playing(s, p)
  {
    if Step(q, s, e) != s { LoginJoins(q, s, e); }
    hide Step, Consistent;
  }

  lemma QuietPlaying(q: Weight, s: State, e: Event, p: int)
    requires !e.Login? && !e.Exit? && !e.StartGame? && !e.EndGame?
    ensures Playing(Step(q, s, e), p) == Playing(s, p)
  {
    hide SetFinding, FindingMatch, FindingOf, Seated, Colours;
    match e
    case RaiseFlag(user) => AfterSetFinding(s.online, user, 1);
    case Scan(user, elo) =>
      AfterSetFinding(s.online, user, 0);
      AfterSetFinding(SetFinding(s.online, user, 0), FindingMatch(s.online, user, elo), 0);
    case GiveUp(user) => AfterSetFinding(s.online, user, 0);
    case _ =>
  }

  lemma LoginJoins(q: Weight, s: State, e: Event)
    requires Consistent(s) && e.Login? && Step(q, s, e) != s
    ensures var t := Step(q, s, e);
            && t.online != [] && !Has(s.online, t.online[0].id)
            && (forall k :: Playing(t, k) == if k == t.online[0].id then 0 else Playing(s, k))
            && (forall k :: Has(t.online, k) <==> k == t.online[0].id || Has(s.online, k))
  {
    hide LoginRow;
    var t := Step(q, s, e);
    var id := t.online[0].id;
    if Has(s.online, id) { NameOnlineAt(s.online, id); }
    AfterPush(s.online, t.online[0]);
  }

  lemma StartGamePlaying(q: Weight, s: State, room: int)
    requires Has(s.rooms, room)
    ensures var t, r := Step(q, s, StartGame(room)), Get(s.rooms, room);
            && t.rooms == s.rooms
            && (forall u :: Playing(t, u) ==
                  if (u == r.white || u == r.black) && Has(s.online, u) then 1 else Playing(s, u))
  {
    hide SetPlaying, SetStarted;
    var r := Get(s.rooms, room);
    AfterSetPlaying(s.online, r.white, 1);
    AfterSetPlaying(SetPlaying(s.online, r.white, 1), r.black, 1);
  }

  lemma ReportPlaying(q: Weight, s: State, e: Event)
    requires e.EndGame? && Has(s.rooms, e.room)
    ensures forall u :: Playing(Step(q, s, e), u) == if u == e.user && Has(s.online, u) then 0 else Playing(s, u)
  {
    hide Rated, RateGame, SetPlaying, Advanced, SetWinner, SetDbElo;
    var o := OpponentOf(Get(s.rooms, e.room), e.socket);
    AfterRated(q, s.online, e.user, o, Score(e.status));
    AfterSetPlaying(Rated(q, s.online, e.user, o, Score(e.status)), e.user, 0);
    AfterSetPlaying(s.online, e.user, 0);
  }

  /** No game that seats p is started during the run. */
  predicate NoStartOf(q: Weight, s: State, run: seq<Event>, p: int)
    decreases |run|
  {
    run == [] || (!StartsGameOf(s, run[0], p) && NoStartOf(q, Step(q, s, run[0]), run[1..], p))
  }

  /** During the run p neither leaves nor reports. */
  predicate Undisturbed(q: Weight, s: State, run: seq<Event>, p: int)
    decreases |run|
  {
    run == [] || (!(run[0].Exit? && run[0].user == p) && !ReportBy(s, run[0], p)
        && Undisturbed(q, Step(q, s, run[0]), run[1..], p))
  }

  lemma {:induction false} ClearedStays(q: Weight, s: State, run: seq<Event>, p: int)
    requires Consistent(s) && Playing(s, p) != 1 && NoStartOf(q, s, run, p)
    ensures Playing(Exec(q, s, run), p) != 1
    decreases |run|
  {
    hide Step, Consistent, StartsGameOf, ReportBy;
    if run != [] {
      StepKeeps(q, s, run[0]);
      PlayingStep(q, s, run[0], p);
      ClearedStays(q, Step(q, s, run[0]), run[1..], p);
    }
  }

  lemma {:induction false} StartedStays(q: Weight, s: State, run: seq<Event>, p: int)
    requires Consistent(s) && Playing(s, p) == 1 && Undisturbed(q, s, run, p)
    ensures Playing(Exec(q, s, run), p) == 1
    decreases |run|
  {
    hide Step, Consistent, StartsGameOf, ReportBy;
    if run != [] {
      StepKeeps(q, s, run[0]);
      PlayingStep(q, s, run[0], p);
      StartedStays(q, Step(q, s, run[0]), run[1..], p);
    }
  }

  /**
   Two reports of a room, any other events between them and after: the room is gone, and neither reporter is
   marked as playing unless a later start seats that reporter.
   */
  lemma BothReportsClear(q: Weight, s: State, first: Event, between: seq<Event>, second: Event, tail: seq<Event>)
    requires Consistent(s) && first.EndGame? && second.EndGame? && first.room == second.room
    requires Has(s.rooms, first.room) && Get(s.rooms, first.room).status == 0 && ReportsFor(between, first.room) == 0
    requires var once := Step(q, s, first);
             && NoStartOf(q, once, between + [second] + tail, first.user)
             && NoStartOf(q, Step(q, Exec(q, once, between), second), tail, second.user)
    ensures var t := Exec(q, Step(q, Exec(q, Step(q, s, first), between), second), tail);
            !Has(t.rooms, first.room) && Playing(t, first.user) != 1 && Playing(t, second.user) != 1
  {
    hide Step, Exec, Consistent, StartsGameOf, NoStartOf, Playing;
    var room, once := first.room, Step(q, s, first);
    var mid := Exec(q, once, between);
    var twice := Step(q, mid, second);
    ListedHasRow(s, room);
    StageStep(q, s, first, room);
    StepKeeps(q, s, first);
    StageAfter(q, once, between, room);
    ExecKeeps(q, once, between);
    StageStep(q, mid, second, room);
    StepKeeps(q, mid, second);
    StageAfter(q, twice, tail, room);
    ExecKeeps(q, twice, tail);
    if Has(Exec(q, twice, tail).rooms, room) { StatusIsNotTwo(Exec(q, twice, tail), room); }
    ReportClears(q, s, first);
    ReportClears(q, mid, second);
    ClearedStays(q, twice, tail, second.user);
    var rest := between + [second] + tail;
    assert rest == between + ([second] + tail);
    ClearedStays(q, once, rest, first.user);
    ExecConcat(q, once, between, [second] + tail);
    ExecConcat(q, mid, [second], tail);
    ExecOne(q, mid, second);
  }

  lemma ReportClears(q: Weight, s: State, e: Event)
    requires e.EndGame? && Has(s.rooms, e.room)
    ensures Playing(Step(q, s, e), e.user) != 1
  {
    hide Step;
    ReportPlaying(q, s, e);
  }

  /**
   From a start on, through any events in which a player neither leaves nor reports, that player is marked
   as playing; the own report takes the mark away until the next start, and the opponent's does not.
   */
  lemma PlayingUntilReport(q: Weight, s: State, room: int, between: seq<Event>, report: Event, tail: seq<Event>,
      opponent: int)
    requires Consistent(s) && Has(s.rooms, room) && report.EndGame?
    requires var r := Get(s.rooms, room);
             && report.user != opponent && {report.user, opponent} == {r.white, r.black}
             && Has(s.online, r.white) && Has(s.online, r.black)
    requires var started := Step(q, s, StartGame(room));
             var mid := Exec(q, started, between);
             var once := Step(q, mid, report);
             && Undisturbed(q, started, between, report.user) && Undisturbed(q, started, between, opponent)
             && ReportBy(mid, report, report.user)
             && NoStartOf(q, once, tail, report.user) && Undisturbed(q, once, tail, opponent)
    ensures var mid := Exec(q, Step(q, s, StartGame(room)), between);
            var t := Exec(q, Step(q, mid, report), tail);
            && Playing(mid, report.user) == 1 && Playing(mid, opponent) == 1
            && Playing(t, report.user) != 1 && Playing(t, opponent) == 1
  {
    assert Has(s.online, report.user) && Has(s.online, opponent) by {
      assert report.user in {report.user, opponent} && opponent in {report.user, opponent};
    }
    assert StartsGameOf(s, StartGame(room), report.user) && StartsGameOf(s, StartGame(room), opponent) by {
      assert report.user in {report.user, opponent} && opponent in {report.user, opponent};
    }
    hide Step, Exec, Consistent, StartsGameOf, Undisturbed, NoStartOf, Playing;
    var started := Step(q, s, StartGame(room));
    var mid := Exec(q, started, between);
    StepKeeps(q, s, StartGame(room));
    PlayingStep(q, s, StartGame(room), report.user);
    PlayingStep(q, s, StartGame(room), opponent);
    StartedStays(q, started, between, report.user);
    StartedStays(q, started, between, opponent);
    ExecKeeps(q, started, between);
    StepKeeps(q, mid, report);
    ReportClears(q, mid, report);
    PlayingStep(q, mid, report, opponent);
    ClearedStays(q, Step(q, mid, report), tail, report.user);
    StartedStays(q, Step(q, mid, report), tail, opponent);
  }

  lemma SameList<V>(s: seq<Entry<V>>, t: seq<Entry<V>>)
    requires UniqueIds(s) && UniqueIds(t) && SameIds(s, t)
    requires forall k :: Has(s, k) && Has(t, k) ==> Get(s, k) == Get(t, k)
    ensures s == t
  {
    forall i | 0 <= i < |s| ensures s[i] == t[i] {
      HasAt(s, i);
      HasAt(t, i);
    }
  }

  // The list after a drawn game and both playing flags, described without an order of the two players.
  lemma OnlineAfterDraw(q: Weight, o: seq<Entry<Online>>, u: int, v: int)
    requires UniqueIds(o) && u != v
    ensures var d := Rated(q, o, u, v, 0.5);
            var t := SetPlaying(SetPlaying(d, u, 0), v, 0);
            var (a, b) := RateGame(q, RatedAs(o, u), RatedAs(o, v), 0.5);
            && UniqueIds(t) && SameIds(o, t)
            && (forall k :: Has(t, k) <==> Has(o, k))
            && (forall k :: Has(o, k) ==>
                  Get(t, k) == if k == u then Get(o, k).(elo := a, playing := 0)
                               else if k == v then Get(o, k).(elo := b, playing := 0) else Get(o, k))
            && EloOf(d, u) == (if Has(o, u) then a else -1)
            && EloOf(d, v) == (if Has(o, v) then b else -1)
  {
    hide RateGame, Rated, SetPlaying;
    var d := Rated(q, o, u, v, 0.5);
    AfterRated(q, o, u, v, 0.5);
    AfterSetPlaying(d, u, 0);
    AfterSetPlaying(SetPlaying(d, u, 0), v, 0);
  }

  /** Two draws (or losses) reported in either order leave the same lists and tables. */
  lemma DrawsConfluent(q: Weight, s: State, room: int, blackSocket: int, statusW: int, statusB: int)
    requires ReadyToReport(s, room, blackSocket) && statusW != 1 && statusB != 1
    ensures var w, b := WhiteReport(s, room, statusW), BlackReport(s, room, blackSocket, statusB);
            Exec(q, s, [w, b]).(journal := []) == Exec(q, s, [b, w]).(journal := [])
  {
    hide RateGame, Rated, SetPlaying, Exec, Advanced, Consistent, SetDbElo;
    var w, b := WhiteReport(s, room, statusW), BlackReport(s, room, blackSocket, statusB);
    var o := s.online;
    assert UniqueIds(o) by { ConsistentLists(s); }
    BothReports(q, s, w, b);
    BothReports(q, s, b, w);
    DrawSymmetric(q, RatedAs(o, w.user), RatedAs(o, b.user));
    OnlineAfterDraw(q, o, w.user, b.user);
    OnlineAfterDraw(q, o, b.user, w.user);
    SameList(Exec(q, s, [w, b]).online, Exec(q, s, [b, w]).online);
    var dw := Rated(q, o, w.user, b.user, 0.5);
    DbWritesCommute(s.users, w.user, EloOf(dw, w.user), b.user, EloOf(dw, b.user));
  }

  lemma DbWritesCommute(users: map<int, UserRow>, u: int, a: int, v: int, b: int)
    requires u != v
    ensures SetDbElo(SetDbElo(users, u, a), v, b) == SetDbElo(SetDbElo(users, v, b), u, a)
  {}

  /** The order of the two reports does not matter exactly when neither player reports a win. */
  lemma ReportOrderIff(q: Weight, s: State, room: int, blackSocket: int, statusW: int, statusB: int)
    requires ReadyToReport(s, room, blackSocket)
    ensures var w, b := WhiteReport(s, room, statusW), BlackReport(s, room, blackSocket, statusB);
            Exec(q, s, [w, b]).(journal := []) == Exec(q, s, [b, w]).(journal := [])
            <==> statusW != 1 && statusB != 1
  {
    hide Exec, Consistent;
    var w, b := WhiteReport(s, room, statusW), BlackReport(s, room, blackSocket, statusB);
    if statusW != 1 && statusB != 1 {
      DrawsConfluent(q, s, room, blackSocket, statusW, statusB);
    } else {
      FirstReportDecides(q, s, w.socket, room, w.user, w.status, [b]);
      FirstReportDecides(q, s, b.socket, room, b.user, b.status, [w]);
      assert [w] + [b] == [w, b] && [b] + [w] == [b, w];
    }
  }
}
