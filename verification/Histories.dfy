/**
 What GET_HISTORY answers: exactly which lines, in which order, and that a game that was invited to or matched,
 started and reported is in the histories of its two players.
 */
module Histories {
  import opened Entries
  import opened Elo
  import opened ServerSpec
  import opened Consistency
  import opened Seats
  import Effects
  import Reports

  // ---------- which lines ----------

  /**
   A line is in a user's history if and only if the room's row is started and has a winner, the user has one seat
   and the line's opponent, another registered user under that name, has the other; the result is 1 if the user is
   the winner, 2 if the winner is 0, and 0 otherwise.
   */
  lemma HistoryIff(s: State, user: int, line: Line)
    ensures line in History(s, user) <==>
            && 1 <= line.room < s.nextRoom && line.room in s.rows
            && var row := s.rows[line.room];
            && row.started && row.winner.Some?
            && ((row.white == user && row.black == line.opponent) || (row.black == user && row.white == line.opponent))
            && line.opponent != user && line.opponent in s.users && line.opponentName == s.users[line.opponent].name
            && line.result == if row.winner.value == user then 1 else if row.winner.value == 0 then 2 else 0
  {
    hide Lines;
    LinesExact(s.users, s.rows, user, 1, s.nextRoom, line);
  }

  predicate InRoomOrder(h: seq<Line>, from: int) {
    && (forall i :: 0 <= i < |h| ==> from <= h[i].room)
    && (forall i, j :: 0 <= i < j < |h| ==> h[i].room < h[j].room)
  }

  lemma {:induction false} LinesInOrder(
      users: map<int, UserRow>, rows: map<int, RoomRow>, user: int, from: int, to: int)
    ensures InRoomOrder(Lines(users, rows, user, from, to), from)
    decreases if from < to then to - from else 0
  {
    if from < to { LinesInOrder(users, rows, user, from + 1, to); }
  }

  /** At most one line a room, in the order of room ids. */
  lemma HistoryInOrder(s: State, user: int)
    ensures InRoomOrder(History(s, user), 1)
  {
    LinesInOrder(s.users, s.rows, user, 1, s.nextRoom);
  }

  // ---------- a seat is kept ----------

  // A filled room that stays listed without a report stays as it is.
  lemma RoomStep(q: Weight, s: State, e: Event, room: int)
    requires Seating(s) && WellFormed(s, e) && Has(s.rooms, room) && Filled(Get(s.rooms, room))
    requires !(e.EndGame? && e.room == room)
    ensures Has(Step(q, s, e).rooms, room) && Get(Step(q, s, e).rooms, room) == Get(s.rooms, room)
  {
    NextRoomIsNew(s);
    ConsistentLists(s);
    hide Consistent, RoomsSeated, RowsSeated, ClaimsSeatable, SocketsDistinct;
    hide SetPlaying, SetFinding, SetStarted, LoginRow, FindingMatch, FindingOf, Engaged, DoRate, EloOf, SocketOf;
    var t := Step(q, s, e);
    match e
    case CreateRoom(user, total, strayWhite, strayBlack) => AfterAppend(s.rooms, t.rooms[|s.rooms|]);
    case OpenRoom(claim) => if t != s { AfterAppend(s.rooms, t.rooms[|s.rooms|]); }
    case Answer(user, invited, id, isAccept) =>
      if Has(s.rooms, id) { AfterWrite(s.rooms, id, Seated(s.online, Get(s.rooms, id), user, invited)); }
    case EndGame(socket, id, user, status) => if Has(s.rooms, id) { AdvancedRooms(s.rooms, id); }
    case _ =>
  }

  lemma {:induction false} RoomKept(q: Weight, s: State, run: seq<Event>, room: int)
    requires Seating(s) && WellFormedRun(q, s, run) && Has(s.rooms, room) && Filled(Get(s.rooms, room))
    requires Reports.ReportsFor(run, room) == 0
    ensures var t := Exec(q, s, run);
            Seating(t) && Has(t.rooms, room) && Get(t.rooms, room) == Get(s.rooms, room)
    decreases |run|
  {
    hide Step, Seating, WellFormed, Filled;
    if run != [] {
      SeatingStep(q, s, run[0]);
      RoomStep(q, s, run[0], room);
      RoomKept(q, Step(q, s, run[0]), run[1..], room);
    }
  }

  lemma {:induction false} WellFormedSplit(q: Weight, s: State, a: seq<Event>, b: seq<Event>)
    requires WellFormedRun(q, s, a + b)
    ensures WellFormedRun(q, s, a) && WellFormedRun(q, Exec(q, s, a), b)
    decreases |a|
  {
    hide Step, WellFormed;
    if a == [] {
      assert a + b == b;
    } else {
      assert (a + b)[0] == a[0] && (a + b)[1..] == a[1..] + b;
      WellFormedSplit(q, Step(q, s, a[0]), a[1..], b);
    }
  }

  // ---------- from the start of a game to the histories ----------

  /** The line of one player about a game with another. */
  ghost predicate Recalled(s: State, room: int, player: int, opponent: int, result: int) {
    opponent in s.users && Line(room, s.users[opponent].name, opponent, result) in History(s, player)
  }

  /** Both players have the game in their history: 2 for each unless the first report was a win of its sender. */
  ghost predicate BothRecall(s: State, report: Event, white: int, black: int)
    requires report.EndGame?
  {
    && Recalled(s, report.room, white, black, if report.status != 1 then 2 else if report.user == white then 1 else 0)
    && Recalled(s, report.room, black, white, if report.status != 1 then 2 else if report.user == black then 1 else 0)
  }

  lemma ReportedIsRecalled(q: Weight, s: State, c: seq<Event>, report: Event, d: seq<Event>, white: int, black: int)
    requires Seating(s) && report.EndGame? && WellFormedRun(q, s, c + [report] + d)
    requires Has(s.rooms, report.room) && Filled(Get(s.rooms, report.room)) && Get(s.rooms, report.room).status == 0
    requires report.room in s.rows && s.rows[report.room].started
    requires s.rows[report.room].white == white && s.rows[report.room].black == black
    requires Reports.ReportsFor(c, report.room) == 0
    ensures BothRecall(Exec(q, s, c + [report] + d), report, white, black)
  {
    hide Exec, WellFormedRun, Step, Seating, Filled, Recalled;
    var mid, t, run := Exec(q, s, c), Exec(q, s, c + [report] + d), [report] + d;
    assert c + [report] + d == c + run;
    WellFormedSplit(q, s, c, run);
    RoomKept(q, s, c, report.room);
    PlayersFrozen(q, s, c, report.room);
    PlayersFrozen(q, s, c + run, report.room);
    ExecConcat(q, s, c, run);
    assert Consistent(mid) by { SeatingIsConsistent(mid); }
    Reports.FirstReportDecides(q, mid, report.socket, report.room, report.user, report.status, d);
    ReporterPlays(q, mid, report, d);
    RecalledAtEnd(t, report, white, black);
  }

  lemma SeatingIsConsistent(s: State)
    requires Seating(s)
    ensures Consistent(s)
  {}

  lemma ReporterPlays(q: Weight, s: State, report: Event, d: seq<Event>)
    requires Seating(s) && report.EndGame? && WellFormedRun(q, s, [report] + d) && Has(s.rooms, report.room)
    requires report.room in s.rows && s.rows[report.room].started
    ensures report.user == s.rows[report.room].white || report.user == s.rows[report.room].black
  {
    assert ([report] + d)[0] == report;
    assert RowSeated(s, report.room);
  }

  lemma RecalledAtEnd(t: State, report: Event, white: int, black: int)
    requires Seating(t) && report.EndGame? && report.room in t.rows && t.rows[report.room].started
    requires t.rows[report.room].white == white && t.rows[report.room].black == black
    requires report.user == white || report.user == black
    requires t.rows[report.room].winner == Some(if report.status == 1 then report.user else 0)
    ensures BothRecall(t, report, white, black)
  {
    assert RowSeated(t, report.room);
    assert 0 !in t.users && 1 <= report.room < t.nextRoom;
    hide Seating, RowSeated, History;
    var won := report.status == 1;
    HistoryIff(t, white, Line(report.room, t.users[black].name, black,
                              if !won then 2 else if report.user == white then 1 else 0));
    HistoryIff(t, black, Line(report.room, t.users[white].name, white,
                              if !won then 2 else if report.user == black then 1 else 0));
  }

  /**
   An invitation that was accepted, a start, and a report, with any other well-formed events before, between and
   after, none of them a report of the room in between: the game is in the histories of both players, each naming
   the other.
   */
  lemma InvitedGameIsRecalled(
      q: Weight, a: seq<Event>, answer: Event, b: seq<Event>, c: seq<Event>, report: Event, d: seq<Event>)
    requires answer.Answer? && answer.isAccept != 0 && report.EndGame? && report.room == answer.room
    requires Has(Exec(q, INITIAL, a).rooms, answer.room)
    requires Reports.ReportsFor(b, answer.room) == 0 && Reports.ReportsFor(c, answer.room) == 0
    requires WellFormedRun(q, INITIAL, a + ([answer] + b + ([StartGame(answer.room)] + (c + [report] + d))))
    ensures BothRecall(Exec(q, INITIAL, a + ([answer] + b + ([StartGame(answer.room)] + (c + [report] + d)))),
                       report, answer.user, answer.invited)
  {
    hide Exec, WellFormedRun, Step, Seating, BothRecall;
    var room, start, last := answer.room, [StartGame(answer.room)], c + [report] + d;
    var rest := start + last;
    InitiallySeated();
    var s0 := Exec(q, INITIAL, a);
    WellFormedSplit(q, INITIAL, a, [answer] + b + rest);
    SeatingOverRun(q, INITIAL, a);
    ExecConcat(q, INITIAL, a, [answer] + b + rest);
    assert [answer] + b + rest == [answer] + (b + rest);
    WellFormedSplit(q, s0, [answer], b + rest);
    ExecConcat(q, s0, [answer], b + rest);
    ExecOne(q, s0, answer);
    var s1 := Step(q, s0, answer);
    assert WellFormed(s0, answer) by { FirstWellFormed(q, s0, answer, b + rest); }
    SeatingStep(q, s0, answer);
    AcceptedSeats(q, s0, answer);
    WellFormedSplit(q, s1, b, rest);
    RoomKept(q, s1, b, room);
    ExecConcat(q, s1, b, rest);
    var s2 := Exec(q, s1, b);
    WellFormedSplit(q, s2, start, last);
    ExecConcat(q, s2, start, last);
    ExecOne(q, s2, StartGame(room));
    assert WellFormed(s2, StartGame(room)) by { FirstWellFormed(q, s2, StartGame(room), last); }
    SeatingStep(q, s2, StartGame(room));
    StartedRow(q, s2, room);
    ReportedIsRecalled(q, Step(q, s2, StartGame(room)), c, report, d, answer.user, answer.invited);
  }

  lemma FirstWellFormed(q: Weight, s: State, e: Event, rest: seq<Event>)
    requires WellFormedRun(q, s, [e] + rest)
    ensures WellFormed(s, e)
  {
    assert ([e] + rest)[0] == e;
  }

  // A seat is filled only in a room without a report.
  lemma AcceptedSeats(q: Weight, s: State, e: Event)
    requires Seating(s) && WellFormed(s, e) && e.Answer? && e.isAccept != 0 && Has(s.rooms, e.room)
    ensures var t := Step(q, s, e);
            && Has(t.rooms, e.room) && Filled(Get(t.rooms, e.room)) && Get(t.rooms, e.room).status == 0
            && Get(t.rooms, e.room).white == e.user && Get(t.rooms, e.room).black == e.invited
  {
    assert RowSeated(s, e.room) && RatedOnce(s, e.room);
    assert e.invited in s.users;
    assert Consistent(s) && UniqueIds(s.rooms);
    Effects.AnswerEffect(q, s, e.user, e.invited, e.room, e.isAccept);
    var t := Step(q, s, e);
    var i := IndexOf(s.rooms, e.room);
    hide Seating, Step, RowSeated;
    Effects.SameLookup(s.rooms, t.rooms, i);
  }

  lemma StartedRow(q: Weight, s: State, room: int)
    requires Seating(s) && Has(s.rooms, room) && Filled(Get(s.rooms, room)) && Get(s.rooms, room).status == 0
    ensures var t, r := Step(q, s, StartGame(room)), Get(s.rooms, room);
            && Has(t.rooms, room) && Get(t.rooms, room) == r && room in t.rows && t.rows[room].started
            && t.rows[room].white == r.white && t.rows[room].black == r.black
  {
    SeatingIsConsistent(s);
    Effects.StartGameEffect(q, s, room);
    assert s.rooms[IndexOf(s.rooms, room)].id == room;
    hide Seating, Step;
  }

  /** A matched pair, the opening of its room, and a report: the game is in the histories of both players. */
  lemma MatchedGameIsRecalled(q: Weight, a: seq<Event>, claim: nat, c: seq<Event>, report: Event, d: seq<Event>)
    requires claim < |Exec(q, INITIAL, a).claims| && report.EndGame? && report.room == Exec(q, INITIAL, a).nextRoom
    requires Reports.ReportsFor(c, report.room) == 0
    requires WellFormedRun(q, INITIAL, a + ([OpenRoom(claim)] + (c + [report] + d)))
    ensures var p := Exec(q, INITIAL, a).claims[claim];
            var t := Exec(q, INITIAL, a + ([OpenRoom(claim)] + (c + [report] + d)));
            BothRecall(t, report, p.user, p.opponent) || BothRecall(t, report, p.opponent, p.user)
  {
    hide Exec, WellFormedRun, Step, Seating, BothRecall;
    var last := c + [report] + d;
    InitiallySeated();
    var s := Exec(q, INITIAL, a);
    WellFormedSplit(q, INITIAL, a, [OpenRoom(claim)] + last);
    SeatingOverRun(q, INITIAL, a);
    ExecConcat(q, INITIAL, a, [OpenRoom(claim)] + last);
    WellFormedSplit(q, s, [OpenRoom(claim)], last);
    ExecConcat(q, s, [OpenRoom(claim)], last);
    ExecOne(q, s, OpenRoom(claim));
    assert WellFormed(s, OpenRoom(claim)) by { FirstWellFormed(q, s, OpenRoom(claim), last); }
    SeatingStep(q, s, OpenRoom(claim));
    var t := Step(q, s, OpenRoom(claim));
    OpenedStarted(q, s, claim);
    ReportedIsRecalled(q, t, c, report, d, t.rows[s.nextRoom].white, t.rows[s.nextRoom].black);
  }

  lemma OpenedStarted(q: Weight, s: State, claim: nat)
    requires Seating(s) && claim < |s.claims|
    ensures var t, p := Step(q, s, OpenRoom(claim)), s.claims[claim];
            && Has(t.rooms, s.nextRoom) && Filled(Get(t.rooms, s.nextRoom)) && Get(t.rooms, s.nextRoom).status == 0
            && s.nextRoom in t.rows && t.rows[s.nextRoom].started
            && var row := t.rows[s.nextRoom];
               (row.white == p.user && row.black == p.opponent) || (row.white == p.opponent && row.black == p.user)
  {
    SeatingIsConsistent(s);
    NextRoomIsNew(s);
    var p := s.claims[claim];
    assert -1 !in s.users && p.user in s.users && p.opponent in s.users;
    var theirs := EloOf(s.online, p.opponent);
    Effects.EloIsLookup(s.online, p.opponent);
    Effects.OpenRoomEffect(q, s, claim, theirs);
    hide Seating, Step, EloOf;
    var t := Step(q, s, OpenRoom(claim));
    assert t.rooms == s.rooms + [t.rooms[|s.rooms|]];
    AfterAppend(s.rooms, t.rooms[|s.rooms|]);
  }
}
