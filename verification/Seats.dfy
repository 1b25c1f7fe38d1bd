/**
 Well-formed runs: each message carries its sender's id and comes from its sender's socket, a room's two
 seats are filled once by distinct online users, and players stay online until their room is gone.
 Over such runs the stored sockets route like the lookups, and the two players' histories complement
 each other.
 */
module Seats {
  import opened Entries
  import opened Elo
  import opened ServerSpec
  import opened Consistency
  import Reports

  predicate Filled(r: Room) {
    r.black != -1
  }

  predicate SocketFree(online: seq<Entry<Online>>, socket: int) {
    forall i :: 0 <= i < |online| ==> online[i].info.socket != socket
  }

  /** Seated in a listed room with both seats filled, or claimed for one. */
  predicate Engaged(s: State, user: int) {
    || (exists i :: 0 <= i < |s.rooms| && Filled(s.rooms[i].info)
          && (s.rooms[i].info.white == user || s.rooms[i].info.black == user))
    || (exists i :: 0 <= i < |s.claims| && (s.claims[i].user == user || s.claims[i].opponent == user))
  }

  /** The premise on one message. */
  predicate WellFormed(s: State, e: Event) {
    match e
    case Login(socket, name, password) => SocketFree(s.online, socket)
    case Exit(user) => !Engaged(s, user)
    case Answer(user, invited, room, isAccept) =>
      isAccept != 0 && Has(s.rooms, room) ==>
        !Filled(Get(s.rooms, room)) && user != invited && Has(s.online, user) && Has(s.online, invited)
    case StartGame(room) => Has(s.rooms, room) ==> Filled(Get(s.rooms, room))
    case EndGame(socket, room, user, status) =>
      Has(s.rooms, room) ==>
        var r := Get(s.rooms, room);
        Filled(r) && (user == r.white || user == r.black) && socket == SocketOf(s.online, user)
    case Scan(user, elo) => Has(s.online, user)
    case _ => true
  }

  predicate WellFormedRun(q: Weight, s: State, run: seq<Event>)
    decreases |run|
  {
    run == [] || (WellFormed(s, run[0]) && WellFormedRun(q, Step(q, s, run[0]), run[1..]))
  }

  // ---------- the invariant ----------

  ghost predicate SocketsDistinct(online: seq<Entry<Online>>) {
    forall a, b :: Has(online, a) && Has(online, b) && a != b ==> Get(online, a).socket != Get(online, b).socket
  }

  /** Two distinct online players, with their own sockets stored in the room. */
  ghost predicate ProperlySeated(online: seq<Entry<Online>>, r: Room) {
    && r.white != r.black && Has(online, r.white) && Has(online, r.black)
    && r.whiteSocket == Get(online, r.white).socket && r.blackSocket == Get(online, r.black).socket
  }

  ghost predicate RoomsSeated(s: State) {
    forall k :: Has(s.rooms, k) && Filled(Get(s.rooms, k)) ==> ProperlySeated(s.online, Get(s.rooms, k))
  }

  ghost predicate ClaimsSeatable(s: State) {
    forall i :: 0 <= i < |s.claims| ==>
      s.claims[i].user != s.claims[i].opponent && Has(s.online, s.claims[i].user) && Has(s.online, s.claims[i].opponent)
  }

  predicate OneOf(winner: Option<int>, white: int, black: int) {
    winner.Some? ==> winner.value == 0 || winner.value == white || winner.value == black
  }

  /**
   A started row has two distinct registered players and agrees with the listed room; a winner is 0 or one of the
   two.
   */
  ghost predicate RowSeated(s: State, k: int)
    requires k in s.rows
  {
    var row := s.rows[k];
    && (row.started ==>
          && row.white != row.black && row.white in s.users && row.black in s.users
          && OneOf(row.winner, row.white, row.black))
    && (Has(s.rooms, k) ==>
          var r := Get(s.rooms, k);
          && (row.started ==> Filled(r) && row.white == r.white && row.black == r.black)
          && (row.winner.Some? ==> Filled(r) && OneOf(row.winner, r.white, r.black)))
  }

  ghost predicate RowsSeated(s: State) {
    forall k :: k in s.rows ==> RowSeated(s, k)
  }

  ghost predicate Seating(s: State) {
    && Consistent(s)
    && SocketsDistinct(s.online)
    && RoomsSeated(s)
    && ClaimsSeatable(s)
    && RowsSeated(s)
  }

  // ---------- steps that leave seats and sockets alone ----------

  // The two online lists have the same users on the same sockets.
  ghost predicate SameSockets(o: seq<Entry<Online>>, p: seq<Entry<Online>>) {
    forall k :: Has(p, k) == Has(o, k) && (Has(o, k) ==> Get(p, k).socket == Get(o, k).socket)
  }

  lemma SocketsKept(s: State, t: State)
    requires Seating(s) && Consistent(t) && SameSockets(s.online, t.online)
    requires t.rooms == s.rooms && t.rows == s.rows && t.users.Keys == s.users.Keys
    requires forall i :: 0 <= i < |t.claims| ==> t.claims[i] in s.claims
    ensures Seating(t)
  {
    hide Consistent;
    forall i | 0 <= i < |t.claims|
      ensures t.claims[i].user != t.claims[i].opponent && Has(t.online, t.claims[i].user)
              && Has(t.online, t.claims[i].opponent)
    {
      assert t.claims[i] in s.claims;
      var j :| 0 <= j < |s.claims| && s.claims[j] == t.claims[i];
    }
    RowsKept(s, t);
  }

  lemma RowsKept(s: State, t: State)
    requires RowsSeated(s)
    requires t.rows == s.rows && s.users.Keys <= t.users.Keys
    requires forall k :: Has(t.rooms, k) ==> Has(s.rooms, k) && Get(t.rooms, k) == Get(s.rooms, k)
    ensures RowsSeated(t)
  {
    forall k | k in t.rows ensures RowSeated(t, k) {
      assert RowSeated(s, k);
    }
  }

  lemma FindingSockets(online: seq<Entry<Online>>, user: int, finding: int)
    ensures SameSockets(online, SetFinding(online, user, finding))
  {
    AfterSetFinding(online, user, finding);
  }

  lemma PlayingSockets(online: seq<Entry<Online>>, user: int, playing: int)
    ensures SameSockets(online, SetPlaying(online, user, playing))
  {
    AfterSetPlaying(online, user, playing);
  }

  lemma SocketsChain(o: seq<Entry<Online>>, p: seq<Entry<Online>>, r: seq<Entry<Online>>)
    requires SameSockets(o, p) && SameSockets(p, r)
    ensures SameSockets(o, r)
  {
    forall k ensures Has(r, k) == Has(o, k) && (Has(o, k) ==> Get(r, k).socket == Get(o, k).socket) {
      assert Has(p, k) == Has(o, k);
    }
  }

  // ---------- accounts ----------

  lemma RegisterSeats(s: State, t: State, name: string, password: string)
    requires Seating(s) && t == DoRegister(s, name, password) && Consistent(t)
    ensures Seating(t)
  {
    hide Consistent;
    RowsKept(s, t);
  }

  lemma LoginSeats(s: State, t: State, socket: int, name: string, password: string)
    requires Seating(s) && t == DoLogin(s, socket, name, password) && Consistent(t)
    requires SocketFree(s.online, socket)
    ensures Seating(t)
  {
    if t != s {
      var e := t.online[0];
      assert !Has(s.online, e.id) by { if Has(s.online, e.id) { NameOnlineAt(s.online, e.id); } }
      hide Consistent, LoginRow, SocketsDistinct, SocketFree;
      PushSockets(s.online, e);
      AfterPush(s.online, e);
      RowsKept(s, t);
    }
  }

  lemma PushSockets(online: seq<Entry<Online>>, e: Entry<Online>)
    requires SocketsDistinct(online) && SocketFree(online, e.info.socket) && !Has(online, e.id)
    ensures SocketsDistinct([e] + online)
  {
    AfterPush(online, e);
    assert forall k :: Has(online, k) ==> Get(online, k) == online[IndexOf(online, k)].info;
  }

  lemma ExitSeats(s: State, t: State, user: int)
    requires Seating(s) && t == DoExit(s, user) && Consistent(t)
    requires !Engaged(s, user)
    ensures Seating(t)
  {
    AfterUnlink(s.online, user);
    hide Consistent, Unlink, RowsSeated;
    RowsKept(s, t);
    assert RoomsSeated(t) by {
      forall k | Has(t.rooms, k) && Filled(Get(t.rooms, k)) ensures ProperlySeated(t.online, Get(t.rooms, k)) {
        assert ProperlySeated(s.online, Get(s.rooms, k));
        assert s.rooms[IndexOf(s.rooms, k)].info == Get(s.rooms, k);
      }
    }
  }

  // ---------- rooms ----------

  lemma CreateRoomSeats(s: State, t: State, e: Event)
    requires Seating(s) && e.CreateRoom? && t == DoCreateRoom(s, e.user, e.total, e.strayWhite, e.strayBlack)
             && Consistent(t)
    ensures Seating(t)
  {
    NextRoomIsNew(s);
    hide Consistent;
    AfterAppend(s.rooms, t.rooms[|s.rooms|]);
    forall k | k in t.rows ensures RowSeated(t, k) {
      if k != s.nextRoom { assert RowSeated(s, k); }
    }
  }

  lemma NextRoomIsNew(s: State)
    requires Consistent(s)
    ensures !Has(s.rooms, s.nextRoom) && s.nextRoom !in s.rows
  {}

  lemma AnswerSeats(s: State, t: State, e: Event)
    requires Seating(s) && e.Answer? && t == DoAnswer(s, e.user, e.invited, e.room, e.isAccept) && Consistent(t)
    requires WellFormed(s, e)
    ensures Seating(t)
  {
    if t != s {
      var r := Seated(s.online, Get(s.rooms, e.room), e.user, e.invited);
      AfterWrite(s.rooms, e.room, r);
      assert e.invited in s.users;
      assert Filled(r);
      hide Consistent;
      forall k | k in t.rows ensures RowSeated(t, k) {
        assert RowSeated(s, k);
      }
    }
  }

  lemma StartGameSeats(s: State, t: State, room: int)
    requires Seating(s) && t == DoStartGame(s, room) && Consistent(t)
    requires WellFormed(s, StartGame(room))
    ensures Seating(t)
  {
    if Has(s.rooms, room) {
      var r := Get(s.rooms, room);
      assert r.white in s.users && r.black in s.users by { assert ProperlySeated(s.online, r); }
      hide Consistent, SetPlaying;
      PlayingSockets(s.online, r.white, 1);
      PlayingSockets(SetPlaying(s.online, r.white, 1), r.black, 1);
      SocketsChain(s.online, SetPlaying(s.online, r.white, 1), t.online);
      forall k | k in t.rows ensures RowSeated(t, k) {
        assert RowSeated(s, k);
      }
    }
  }

  lemma OpenedRows(s: State, t: State, claim: int)
    requires RowsSeated(s) && ClaimsSeatable(s) && !Has(s.rooms, s.nextRoom)
    requires 0 <= claim < |s.claims| && t == DoOpenRoom(s, claim)
    requires forall k :: Has(s.online, k) ==> k in s.users && k != -1
    ensures RowsSeated(t)
  {
    hide SocketOf, EloOf;
    AfterAppend(s.rooms, t.rooms[|s.rooms|]);
    forall k | k in t.rows ensures RowSeated(t, k) {
      if k != s.nextRoom { assert RowSeated(s, k); }
    }
  }

  lemma OpenRoomSeats(s: State, t: State, claim: int)
    requires Seating(s) && t == DoOpenRoom(s, claim) && Consistent(t)
    ensures Seating(t)
  {
    if t != s {
      NextRoomIsNew(s);
      assert forall k :: Has(s.online, k) ==> k in s.users && k != -1;
      hide Consistent, SocketsDistinct;
      AfterAppend(s.rooms, t.rooms[|s.rooms|]);
      assert RowsSeated(t) by { OpenedRows(s, t, claim); }
      hide RowsSeated;
    }
  }

  // ---------- the end of a game ----------

  lemma EndGameSockets(q: Weight, s: State, e: Event)
    requires e.EndGame?
    ensures var t := Step(q, s, e);
            SameSockets(s.online, t.online) && t.users.Keys == s.users.Keys && t.claims == s.claims
  {
    hide Rated, RateGame, SetPlaying, SetWinner, Advanced;
    if Has(s.rooms, e.room) {
      var r := Get(s.rooms, e.room);
      var o := OpponentOf(r, e.socket);
      var rated := Rated(q, s.online, e.user, o, Score(e.status));
      AfterRated(q, s.online, e.user, o, Score(e.status));
      PlayingSockets(rated, e.user, 0);
      SocketsChain(s.online, rated, SetPlaying(rated, e.user, 0));
      PlayingSockets(s.online, e.user, 0);
    }
  }

  lemma EndGameSeats(q: Weight, s: State, t: State, e: Event)
    requires Seating(s) && e.EndGame? && t == Step(q, s, e) && Consistent(t)
    requires WellFormed(s, e)
    ensures Seating(t)
  {
    if Has(s.rooms, e.room) {
      assert UniqueIds(s.rooms);
      hide Consistent, Step, Advanced, SetWinner, RowSeated, ProperlySeated;
      hide RowsSeated, RoomsSeated, ClaimsSeatable, SocketsDistinct, SameSockets;
      EndGameSockets(q, s, e);
      EndGameRooms(q, s, e);
      AdvancedRooms(s.rooms, e.room);
      ReportSeats(s, t, e.room);
      assert RowsSeated(t) by { ReportRows(s, t, e); }
      assert ClaimsSeatable(t) by { ReportClaims(s, t); }
    }
  }

  // The rooms still listed after a report keep their seats.
  lemma ReportSeats(s: State, t: State, room: int)
    requires Has(s.rooms, room) && RoomsSeated(s) && SocketsDistinct(s.online) && SameSockets(s.online, t.online)
    requires forall k :: Has(t.rooms, k) ==> Has(s.rooms, k) && SameSeats(Get(s.rooms, k), Get(t.rooms, k))
    ensures RoomsSeated(t) && SocketsDistinct(t.online)
  {
    forall k | Has(t.rooms, k) && Filled(Get(t.rooms, k)) ensures ProperlySeated(t.online, Get(t.rooms, k)) {
      assert Has(s.rooms, k) && ProperlySeated(s.online, Get(s.rooms, k));
    }
  }

  lemma ReportClaims(s: State, t: State)
    requires ClaimsSeatable(s) && t.claims == s.claims && SameSockets(s.online, t.online)
    ensures ClaimsSeatable(t)
  {}

  lemma ReportRows(s: State, t: State, e: Event)
    requires RowsSeated(s) && e.EndGame? && Has(s.rooms, e.room) && WellFormed(s, e)
    requires t.users.Keys == s.users.Keys
    requires forall j :: Has(t.rooms, j) ==> Has(s.rooms, j) && SameSeats(Get(s.rooms, j), Get(t.rooms, j))
    requires t.rows == if Get(s.rooms, e.room).status != 0 then s.rows
                       else SetWinner(s.rows, e.room, WinnerColumn(e.user, e.status))
    ensures RowsSeated(t)
  {
    hide WellFormed, SetWinner;
    forall k | k in t.rows ensures RowSeated(t, k) {
      ReportRow(s, t, e, k);
    }
  }

  predicate SameSeats(r: Room, r': Room) {
    r' == r.(status := r'.status)
  }

  lemma ReportRow(s: State, t: State, e: Event, k: int)
    requires RowsSeated(s) && e.EndGame? && Has(s.rooms, e.room) && WellFormed(s, e) && k in t.rows
    requires t.users.Keys == s.users.Keys
    requires forall j :: Has(t.rooms, j) ==> Has(s.rooms, j) && SameSeats(Get(s.rooms, j), Get(t.rooms, j))
    requires t.rows == if Get(s.rooms, e.room).status != 0 then s.rows
                       else SetWinner(s.rows, e.room, WinnerColumn(e.user, e.status))
    ensures RowSeated(t, k)
  {
    assert RowSeated(s, k);
  }

  lemma EndGameRooms(q: Weight, s: State, e: Event)
    requires e.EndGame? && Has(s.rooms, e.room)
    ensures var t := Step(q, s, e);
            && t.rooms == Advanced(s.rooms, e.room)
            && t.rows == if Get(s.rooms, e.room).status != 0 then s.rows
                         else SetWinner(s.rows, e.room, WinnerColumn(e.user, e.status))
  {
    hide Rated, RateGame, SetPlaying, SetWinner, Advanced, SetDbElo;
  }

  // ---------- matchmaking ----------

  lemma ScanSeats(s: State, t: State, user: int, elo: int)
    requires Seating(s) && t == DoScan(s, user, elo) && Consistent(t) && Has(s.online, user)
    ensures Seating(t)
  {
    var o := FindingMatch(s.online, user, elo);
    if t != s {
      assert o != user && Has(s.online, o) by { ScanFinds(s.online, user, elo); }
      hide Consistent, SetFinding, RowsSeated, RoomsSeated, SocketsDistinct, FindingMatch;
      FindingSockets(s.online, user, 0);
      FindingSockets(SetFinding(s.online, user, 0), o, 0);
      SocketsChain(s.online, SetFinding(s.online, user, 0), t.online);
      ClaimsDoNotMatter(t, s.claims);
      SocketsKept(s, t.(claims := s.claims));
      ClaimAdded(t.(claims := s.claims), t, Pairing(user, o, elo));
    }
  }

  lemma ClaimAdded(s: State, t: State, p: Pairing)
    requires Seating(s) && Consistent(t) && t == s.(claims := s.claims + [p])
    requires p.user != p.opponent && Has(t.online, p.user) && Has(t.online, p.opponent)
    ensures Seating(t)
  {
    hide Consistent, SocketsDistinct;
    RowsKept(s, t);
  }

  lemma ClaimsDoNotMatter(t: State, claims: seq<Pairing>)
    requires Consistent(t)
    ensures Consistent(t.(claims := claims))
  {
    RoomsUnchanged(t, t.(claims := claims));
  }

  lemma ScanFinds(online: seq<Entry<Online>>, user: int, elo: int)
    requires FindingMatch(online, user, elo) != -1
    ensures FindingMatch(online, user, elo) != user && Has(online, FindingMatch(online, user, elo))
  {
    var o := FindingMatch(online, user, elo);
    FirstMatch(online, user, elo);
    var i :| 0 <= i < |online| && online[i].id == o && IsFirst(online, i, user, elo);
    HasAt(online, i);
  }

  lemma FlagSeats(s: State, t: State, user: int, flag: int)
    requires Seating(s) && t == s.(online := SetFinding(s.online, user, flag)) && Consistent(t)
    ensures Seating(t)
  {
    FindingSockets(s.online, user, flag);
    SocketsKept(s, t);
  }

  // ---------- every step of a well-formed run ----------

  lemma SeatingStep(q: Weight, s: State, e: Event)
    requires Seating(s) && WellFormed(s, e)
    ensures Seating(Step(q, s, e))
  {
    assert Consistent(s);
    StepKeeps(q, s, e);
    hide Seating, Consistent, WellFormed;
    var t := Step(q, s, e);
    match e
    case Register(name, password) => RegisterSeats(s, t, name, password);
    case Login(socket, name, password) =>
      assert SocketFree(s.online, socket) by { SocketIsFree(s, e); }
      LoginSeats(s, t, socket, name, password);
    case Exit(user) => assert !Engaged(s, user) by { NotEngaged(s, e); } ExitSeats(s, t, user);
    case CreateRoom(user, total, strayWhite, strayBlack) => CreateRoomSeats(s, t, e);
    case Answer(user, invited, room, isAccept) => AnswerSeats(s, t, e);
    case StartGame(room) => StartGameSeats(s, t, room);
    case EndGame(socket, room, user, status) => EndGameSeats(q, s, t, e);
    case RaiseFlag(user) => FlagSeats(s, t, user, 1);
    case Scan(user, elo) => assert Has(s.online, user) by { SearcherOnline(s, e); } ScanSeats(s, t, user, elo);
    case OpenRoom(claim) => OpenRoomSeats(s, t, claim);
    case GiveUp(user) => if t != s { FlagSeats(s, t, user, 0); }
  }

  lemma SocketIsFree(s: State, e: Event)
    requires e.Login? && WellFormed(s, e)
    ensures SocketFree(s.online, e.socket)
  {}

  lemma NotEngaged(s: State, e: Event)
    requires e.Exit? && WellFormed(s, e)
    ensures !Engaged(s, e.user)
  {}

  lemma SearcherOnline(s: State, e: Event)
    requires e.Scan? && WellFormed(s, e)
    ensures Has(s.online, e.user)
  {}

  lemma {:induction false} SeatingOverRun(q: Weight, s: State, run: seq<Event>)
    requires Seating(s) && WellFormedRun(q, s, run)
    ensures Seating(Exec(q, s, run))
    decreases |run|
  {
    hide Step, Seating, WellFormed;
    if run != [] {
      SeatingStep(q, s, run[0]);
      SeatingOverRun(q, Step(q, s, run[0]), run[1..]);
    }
  }

  lemma InitiallySeated()
    ensures Seating(INITIAL)
  {
    InitiallyConsistent();
  }

  // ---------- routing ----------

  /** Where handle_move sends: the stored socket of the seat the message did not come from. */
  function MoveTarget(r: Room, socket: int): int {
    if r.whiteSocket == socket then r.blackSocket else r.whiteSocket
  }

  /** Where surrender, pause, resume and the draw messages send: the looked-up socket of the opponent. */
  function RelayTarget(online: seq<Entry<Online>>, r: Room, socket: int): int {
    SocketOf(online, OpponentOf(r, socket))
  }

  /** In well-formed runs both routes reach the other player, and the other player's answer comes back. */
  lemma RoutingAgrees(q: Weight, run: seq<Event>, room: int)
    requires WellFormedRun(q, INITIAL, run)
    requires var s := Exec(q, INITIAL, run); Has(s.rooms, room) && Filled(Get(s.rooms, room))
    ensures var s := Exec(q, INITIAL, run);
            var r := Get(s.rooms, room);
            var w, b := SocketOf(s.online, r.white), SocketOf(s.online, r.black);
            && w != b
            && MoveTarget(r, w) == RelayTarget(s.online, r, w) == b
            && MoveTarget(r, b) == RelayTarget(s.online, r, b) == w
  {
    hide Exec, WellFormedRun, Consistent, RowsSeated;
    InitiallySeated();
    SeatingOverRun(q, INITIAL, run);
    var s := Exec(q, INITIAL, run);
    assert ProperlySeated(s.online, Get(s.rooms, room));
  }

  // ---------- histories ----------

  /** One line of handle_get_history: result is 1 for a win, 2 for a draw, 0 for a loss. */
  datatype Line = Line(room: int, opponentName: string, opponent: int, result: int)

  function GameResult(winner: int, user: int): int {
    if winner == user then 1 else if winner == 0 then 2 else 0
  }

  /** The line a room row gives a user: only for a player, against a registered other player, once started and ended. */
  function LineOf(users: map<int, UserRow>, row: RoomRow, room: int, user: int): Option<Line> {
    var opponent := if row.white == user then row.black else row.white;
    if (row.white == user || row.black == user) && opponent != user && opponent in users && row.started
        && row.winner.Some?
    then Some(Line(room, users[opponent].name, opponent, GameResult(row.winner.value, user)))
    else None
  }

  /** The lines for the room ids in [from, to), in order. */
  function Lines(users: map<int, UserRow>, rows: map<int, RoomRow>, user: int, from: int, to: int): seq<Line>
    decreases if from < to then to - from else 0
  {
    if from >= to then []
    else
      var here := if from in rows then LineOf(users, rows[from], from, user) else None;
      (if here.Some? then [here.value] else []) + Lines(users, rows, user, from + 1, to)
  }

  function History(s: State, user: int): seq<Line> {
    Lines(s.users, s.rows, user, 1, s.nextRoom)
  }

  lemma {:induction false} LinesExact(users: map<int, UserRow>, rows: map<int, RoomRow>, user: int, from: int,
      to: int, line: Line)
    ensures line in Lines(users, rows, user, from, to)
            <==> (from <= line.room < to && line.room in rows
                  && LineOf(users, rows[line.room], line.room, user) == Some(line))
    decreases if from < to then to - from else 0
  {
    if from < to { LinesExact(users, rows, user, from + 1, to, line); }
  }

  /**
   Once a room is started and ended, both players see it, each naming the other, with results (1,0), (0,1) or
   (2,2).
   */
  lemma HistoriesComplement(q: Weight, run: seq<Event>, room: int)
    requires WellFormedRun(q, INITIAL, run)
    requires var s := Exec(q, INITIAL, run); room in s.rows && s.rows[room].started && s.rows[room].winner.Some?
    ensures var s := Exec(q, INITIAL, run);
            var row := s.rows[room];
            exists w: Line, b: Line ::
              && w in History(s, row.white) && b in History(s, row.black)
              && w.room == room && b.room == room && w.opponent == row.black && b.opponent == row.white
              && (w.result, b.result) in {(1, 0), (0, 1), (2, 2)}
  {
    hide Exec, WellFormedRun, Lines;
    InitiallySeated();
    SeatingOverRun(q, INITIAL, run);
    var s := Exec(q, INITIAL, run);
    var row := s.rows[room];
    assert RowSeated(s, room);
    var w := LineOf(s.users, row, room, row.white).value;
    var b := LineOf(s.users, row, room, row.black).value;
    LinesExact(s.users, s.rows, row.white, 1, s.nextRoom, w);
    LinesExact(s.users, s.rows, row.black, 1, s.nextRoom, b);
  }

  /** The row of a room is started and seats the two players it seats in the other table. */
  predicate SamePlayers(a: map<int, RoomRow>, b: map<int, RoomRow>, room: int) {
    && room in a && room in b
    && b[room].started == a[room].started && b[room].white == a[room].white && b[room].black == a[room].black
  }

  // A started row keeps its players.
  lemma PlayersStep(q: Weight, s: State, e: Event, room: int)
    requires Seating(s) && WellFormed(s, e) && room in s.rows && s.rows[room].started
    ensures SamePlayers(s.rows, Step(q, s, e).rows, room)
  {
    assert room != s.nextRoom by { NextRoomIsNew(s); }
    match e
    case StartGame(id) => RestartedRow(s, id, room);
    case EndGame(socket, id, user, status) =>
      hide Seating, Step, WellFormed;
      ReportedRow(q, s, e, room);
    case _ =>
      hide Seating, WellFormed, SetFinding, LoginRow, FindingMatch, FindingOf, Seated, Write, EloOf, Unlink;
  }

  lemma RestartedRow(s: State, id: int, room: int)
    requires RowsSeated(s) && room in s.rows && s.rows[room].started
    ensures SamePlayers(s.rows, DoStartGame(s, id).rows, room)
  {
    hide SetPlaying;
    assert RowSeated(s, room);
  }

  lemma ReportedRow(q: Weight, s: State, e: Event, room: int)
    requires e.EndGame? && room in s.rows
    ensures SamePlayers(s.rows, Step(q, s, e).rows, room)
  {
    hide Advanced;
    if Has(s.rooms, e.room) {
      hide Step;
      EndGameRooms(q, s, e);
    }
  }

  lemma {:induction false} PlayersFrozen(q: Weight, s: State, run: seq<Event>, room: int)
    requires Seating(s) && WellFormedRun(q, s, run) && room in s.rows && s.rows[room].started
    ensures var t := Exec(q, s, run);
            && Seating(t) && room in t.rows && t.rows[room].started
            && t.rows[room].white == s.rows[room].white && t.rows[room].black == s.rows[room].black
    decreases |run|
  {
    hide Step, Seating, WellFormed;
    if run != [] {
      SeatingStep(q, s, run[0]);
      PlayersStep(q, s, run[0], room);
      PlayersFrozen(q, Step(q, s, run[0]), run[1..], room);
    }
  }

  /**
   The first report of a started game fixes what both players read for good: a reported win gives the
   reporter 1 and the other player 0; anything else, a reported loss included, gives both 2.
   */
  lemma FirstReportHistories(q: Weight, s: State, e: Event, run: seq<Event>, player: int)
    requires Seating(s) && e.EndGame? && WellFormedRun(q, s, [e] + run)
    requires Has(s.rooms, e.room) && Get(s.rooms, e.room).status == 0
    requires e.room in s.rows && s.rows[e.room].started
             && (player == s.rows[e.room].white || player == s.rows[e.room].black)
    ensures var t := Exec(q, s, [e] + run);
            exists line: Line ::
              && line in History(t, player) && line.room == e.room
              && line.result == if e.status != 1 then 2 else if player == e.user then 1 else 0
  {
    assert ([e] + run)[0] == e;
    assert Consistent(s) && WellFormed(s, e);
    assert e.user in s.users && 0 !in s.users by { assert RowSeated(s, e.room); }
    hide Exec, WellFormedRun, Lines, Step, WellFormed, Seating, Consistent;
    var t := Exec(q, s, [e] + run);
    PlayersFrozen(q, s, [e] + run, e.room);
    Reports.FirstReportDecides(q, s, e.socket, e.room, e.user, e.status, run);
    PlayerLine(t, e.room, player);
  }

  // The line of one of the two players of a started and ended room.
  lemma PlayerLine(s: State, room: int, player: int)
    requires Seating(s) && room in s.rows && s.rows[room].started && s.rows[room].winner.Some?
    requires player == s.rows[room].white || player == s.rows[room].black
    ensures exists line: Line ::
              line in History(s, player) && line.room == room
                  && line.result == GameResult(s.rows[room].winner.value, player)
  {
    assert RowSeated(s, room);
    hide Lines;
    var line := LineOf(s.users, s.rows[room], room, player).value;
    LinesExact(s.users, s.rows, player, 1, s.nextRoom, line);
  }
}
