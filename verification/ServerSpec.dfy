/**
 The server as a value: the two in-memory lists, the two database tables the handlers mirror them in,
 and one atomic step per handler (src/game/game.c, src/user/user.c).

 A room's status is 0 until the first END_GAME report and 1 until the second.
 */
module ServerSpec {
  import opened Entries
  import opened Elo

  const DEFAULT_TOTAL_TIME := 600
  const MAX_SEARCH_TIME := 10
  const ELO_THRESHOLD := 100

  /** loged_in_user_t, without its id. */
  datatype Online = Online(elo: int, socket: int, name: string, playing: int, finding: int)

  /** room_t, without its id. */
  datatype Room = Room(white: int, black: int, total: int, whiteSocket: int, blackSocket: int, status: int)

  datatype UserRow = UserRow(name: string, password: string, elo: int)

  /** started: start_time is set; winner: end_time and winer_user are set, which one statement does. */
  datatype RoomRow = RoomRow(white: int, black: int, total: int, started: bool, winner: Option<int>)

  /** A claim of handle_finding_match whose room is not open yet, with the rating the request carried. */
  datatype Pairing = Pairing(user: int, opponent: int, elo: int)

  /** One transaction of end_game_and_update_elo. */
  datatype Rating = Rating(room: int, winner: int, user: int, userElo: int, opponent: int, opponentElo: int)

  datatype State = State(
    online: seq<Entry<Online>>, rooms: seq<Entry<Room>>,
    users: map<int, UserRow>, nextUser: int,
    rows: map<int, RoomRow>, nextRoom: int,
    claims: seq<Pairing>, journal: seq<Rating>)

  const INITIAL := State([], [], map[], 1, map[], 1, [], [])

  datatype Event =
    | Register(name: string, password: string)
    | Login(socket: int, name: string, password: string)
    | Exit(user: int)
    | CreateRoom(user: int, total: int, strayWhite: int, strayBlack: int)
    | Answer(user: int, invited: int, room: int, isAccept: int)
    | StartGame(room: int)
    | EndGame(socket: int, room: int, user: int, status: int)
    | RaiseFlag(user: int)
    | Scan(user: int, elo: int)
    | OpenRoom(claim: int)
    | GiveUp(user: int)

  // ---------- the online list ----------

  function EloOf(online: seq<Entry<Online>>, id: int): int {
    if Has(online, id) then Get(online, id).elo else -1
  }

  function SocketOf(online: seq<Entry<Online>>, id: int): int {
    if Has(online, id) then Get(online, id).socket else -1
  }

  function FindingOf(online: seq<Entry<Online>>, id: int): int {
    if Has(online, id) then Get(online, id).finding else -1
  }

  /** The rating elo_calculation starts from: 0 for a user who is not online. */
  function RatedAs(online: seq<Entry<Online>>, id: int): int {
    if Has(online, id) then Get(online, id).elo else 0
  }

  function SetElo(online: seq<Entry<Online>>, id: int, elo: int): seq<Entry<Online>> {
    if Has(online, id) then Write(online, id, Get(online, id).(elo := elo)) else online
  }

  function SetPlaying(online: seq<Entry<Online>>, id: int, playing: int): seq<Entry<Online>> {
    if Has(online, id) then Write(online, id, Get(online, id).(playing := playing)) else online
  }

  function SetFinding(online: seq<Entry<Online>>, id: int, finding: int): seq<Entry<Online>> {
    if Has(online, id) then Write(online, id, Get(online, id).(finding := finding)) else online
  }

  predicate NameOnline(online: seq<Entry<Online>>, name: string) {
    exists i :: 0 <= i < |online| && online[i].info.name == name
  }

  predicate IsBetween(value: int, min: int, max: int) {
    min <= value <= max
  }

  predicate Matches(e: Entry<Online>, user: int, elo: int) {
    e.id != user && e.info.finding == 1 && IsBetween(e.info.elo, elo - ELO_THRESHOLD, elo + ELO_THRESHOLD)
  }

  /** finding_match: the id of the first searching user in range, or -1. */
  function FindingMatch(online: seq<Entry<Online>>, user: int, elo: int): int {
    if online == [] then -1
    else if Matches(online[0], user, elo) then online[0].id
    else FindingMatch(online[1..], user, elo)
  }

  /** The scan stops at the first match in list order, and answers -1 when there is none. */
  lemma {:induction false} FirstMatch(online: seq<Entry<Online>>, user: int, elo: int)
    ensures var r := FindingMatch(online, user, elo);
            || (exists i :: 0 <= i < |online| && online[i].id == r && IsFirst(online, i, user, elo))
            || (r == -1 && forall i :: 0 <= i < |online| ==> !Matches(online[i], user, elo))
  {
    if online == [] {
    } else if Matches(online[0], user, elo) {
      assert IsFirst(online, 0, user, elo);
    } else {
      var rest := online[1..];
      FirstMatch(rest, user, elo);
      if i :| 0 <= i < |rest| && rest[i].id == FindingMatch(rest, user, elo) && IsFirst(rest, i, user, elo) {
        FirstLater(online, i, user, elo);
      } else {
        assert forall j :: 0 < j < |online| ==> online[j] == rest[j - 1];
      }
    }
  }

  predicate IsFirst(online: seq<Entry<Online>>, i: nat, user: int, elo: int) {
    i < |online| && Matches(online[i], user, elo) && forall j :: 0 <= j < i ==> !Matches(online[j], user, elo)
  }

  lemma FirstLater(online: seq<Entry<Online>>, i: nat, user: int, elo: int)
    requires online != [] && !Matches(online[0], user, elo) && IsFirst(online[1..], i, user, elo)
    ensures IsFirst(online, i + 1, user, elo)
  {
    forall j | 0 <= j < i + 1 ensures !Matches(online[j], user, elo) {
      if j > 0 { assert online[j] == online[1..][j - 1]; }
    }
  }

  // ---------- the database ----------

  predicate NameTaken(users: map<int, UserRow>, name: string) {
    exists id :: id in users && users[id].name == name
  }

  predicate Credentials(users: map<int, UserRow>, id: int, name: string, password: string) {
    id in users && users[id].name == name && users[id].password == password
  }

  /** The first row in [from, to) with this name and password. */
  function LoginRow(users: map<int, UserRow>, name: string, password: string, from: int, to: int): (r: Option<int>)
    ensures r.Some? ==> from <= r.value < to && Credentials(users, r.value, name, password)
    ensures r.None? ==> forall id :: from <= id < to ==> !Credentials(users, id, name, password)
    decreases if from < to then to - from else 0
  {
    if from >= to then None
    else if Credentials(users, from, name, password) then Some(from)
    else LoginRow(users, name, password, from + 1, to)
  }

  function SetDbElo(users: map<int, UserRow>, id: int, elo: int): map<int, UserRow> {
    if id in users then users[id := users[id].(elo := elo)] else users
  }

  function SetWinner(rows: map<int, RoomRow>, room: int, winner: int): map<int, RoomRow> {
    if room in rows then rows[room := rows[room].(winner := Some(winner))] else rows
  }

  /** start_game_db. */
  function SetStarted(rows: map<int, RoomRow>, room: int, white: int, black: int, total: int): map<int, RoomRow> {
    if room in rows then rows[room := RoomRow(white, black, total, true, rows[room].winner)] else rows
  }

  // ---------- accounts ----------

  function DoRegister(s: State, name: string, password: string): State {
    if NameTaken(s.users, name) then s
    else s.(users := s.users[s.nextUser := UserRow(name, password, 1000)], nextUser := s.nextUser + 1)
  }

  function DoLogin(s: State, socket: int, name: string, password: string): State {
    if NameOnline(s.online, name) then s
    else match LoginRow(s.users, name, password, 1, s.nextUser)
      case None => s
      case Some(id) => s.(online := [Entry(id, Online(s.users[id].elo, socket, s.users[id].name, 0, 0))] + s.online)
  }

  function DoExit(s: State, user: int): State {
    s.(online := Unlink(s.online, user))
  }

  // ---------- rooms ----------

  /** create_room leaves both sockets as malloc found them: stray values. */
  function DoCreateRoom(s: State, user: int, total: int, strayWhite: int, strayBlack: int): State {
    s.(rooms := s.rooms + [Entry(s.nextRoom, Room(user, -1, total, strayWhite, strayBlack, 0))],
       rows := s.rows[s.nextRoom := RoomRow(user, -1, total, false, None)],
       nextRoom := s.nextRoom + 1)
  }

  function Seated(online: seq<Entry<Online>>, room: Room, white: int, black: int): Room {
    room.(white := white, black := black, whiteSocket := SocketOf(online, white),
        blackSocket := SocketOf(online, black))
  }

  function DoAnswer(s: State, user: int, invited: int, room: int, isAccept: int): State {
    if isAccept == 0 || !Has(s.rooms, room) then s
    else s.(rooms := Write(s.rooms, room, Seated(s.online, Get(s.rooms, room), user, invited)))
  }

  function DoStartGame(s: State, room: int): State {
    if !Has(s.rooms, room) then s
    else
      var r := Get(s.rooms, room);
      s.(rows := SetStarted(s.rows, room, r.white, r.black, r.total),
         online := SetPlaying(SetPlaying(s.online, r.white, 1), r.black, 1))
  }

  // ---------- the end of a game ----------

  /** The seat a message did not come from. */
  function OpponentOf(room: Room, socket: int): int {
    if room.whiteSocket == socket then room.black else room.white
  }

  function Score(status: int): real {
    if status == 1 then 1.0 else 0.5
  }

  function WinnerColumn(user: int, status: int): int {
    if status == 1 then user else 0
  }

  /** elo_calculation. */
  function Rated(q: Weight, online: seq<Entry<Online>>, user: int, opponent: int, score: real): seq<Entry<Online>> {
    var (a, b) := RateGame(q, RatedAs(online, user), RatedAs(online, opponent), score);
    SetElo(SetElo(online, user, a), opponent, b)
  }

  /** The effect of the first report: new ratings in the cache, then one transaction. */
  function DoRate(q: Weight, s: State, room: int, user: int, opponent: int, status: int): State {
    var online := Rated(q, s.online, user, opponent, Score(status));
    var a, b := EloOf(online, user), EloOf(online, opponent);
    s.(online := online,
       rows := SetWinner(s.rows, room, WinnerColumn(user, status)),
       users := SetDbElo(SetDbElo(s.users, user, a), opponent, b),
       journal := s.journal + [Rating(room, WinnerColumn(user, status), user, a, opponent, b)])
  }

  /** Status 1 unlinks the room; any other status is raised by one. */
  function Advanced(rooms: seq<Entry<Room>>, room: int): seq<Entry<Room>>
    requires Has(rooms, room)
  {
    var r := Get(rooms, room);
    if r.status == 1 then Unlink(rooms, room) else Write(rooms, room, r.(status := r.status + 1))
  }

  function DoEndGame(q: Weight, s: State, socket: int, room: int, user: int, status: int): State {
    if !Has(s.rooms, room) then s
    else
      var r := Get(s.rooms, room);
      var t := if r.status == 0 then DoRate(q, s, room, user, OpponentOf(r, socket), status) else s;
      t.(online := SetPlaying(t.online, user, 0), rooms := Advanced(s.rooms, room))
  }

  // ---------- matchmaking ----------

  /** One scan of handle_finding_match; on a match, both flags are lowered and the pair is claimed. */
  function DoScan(s: State, user: int, elo: int): State {
    var opponent := FindingMatch(s.online, user, elo);
    if opponent == -1 || FindingOf(s.online, user) == 0 || FindingOf(s.online, opponent) == 0 then s
    else s.(online := SetFinding(SetFinding(s.online, user, 0), opponent, 0),
            claims := s.claims + [Pairing(user, opponent, elo)])
  }

  /** assign_user_ids_based_on_elo: (white, black). */
  function Colours(online: seq<Entry<Online>>, p: Pairing): (int, int) {
    if p.elo < EloOf(online, p.opponent) then (p.user, p.opponent) else (p.opponent, p.user)
  }

  function DoOpenRoom(s: State, claim: int): State {
    if !(0 <= claim < |s.claims|) then s
    else
      var (white, black) := Colours(s.online, s.claims[claim]);
      var room := Seated(s.online, Room(white, black, DEFAULT_TOTAL_TIME, 0, 0, 0), white, black);
      s.(rooms := s.rooms + [Entry(s.nextRoom, room)],
         rows := s.rows[s.nextRoom := RoomRow(white, black, DEFAULT_TOTAL_TIME, true, None)],
         nextRoom := s.nextRoom + 1,
         claims := s.claims[..claim] + s.claims[claim + 1..])
  }

  function DoGiveUp(s: State, user: int): State {
    if FindingOf(s.online, user) == 0 then s else s.(online := SetFinding(s.online, user, 0))
  }

  // ---------- steps and runs ----------

  function Step(q: Weight, s: State, e: Event): State {
    match e
    case Register(name, password) => DoRegister(s, name, password)
    case Login(socket, name, password) => DoLogin(s, socket, name, password)
    case Exit(user) => DoExit(s, user)
    case CreateRoom(user, total, strayWhite, strayBlack) => DoCreateRoom(s, user, total, strayWhite, strayBlack)
    case Answer(user, invited, room, isAccept) => DoAnswer(s, user, invited, room, isAccept)
    case StartGame(room) => DoStartGame(s, room)
    case EndGame(socket, room, user, status) => DoEndGame(q, s, socket, room, user, status)
    case RaiseFlag(user) => s.(online := SetFinding(s.online, user, 1))
    case Scan(user, elo) => DoScan(s, user, elo)
    case OpenRoom(claim) => DoOpenRoom(s, claim)
    case GiveUp(user) => DoGiveUp(s, user)
  }

  function Exec(q: Weight, s: State, run: seq<Event>): State
    decreases |run|
  {
    if run == [] then s else Exec(q, Step(q, s, run[0]), run[1..])
  }

  lemma {:induction false} ExecConcat(q: Weight, s: State, a: seq<Event>, b: seq<Event>)
    ensures Exec(q, s, a + b) == Exec(q, Exec(q, s, a), b)
    decreases |a|
  {
    if a == [] {
      assert a + b == b;
    } else {
      assert (a + b)[0] == a[0] && (a + b)[1..] == a[1..] + b;
      ExecConcat(q, Step(q, s, a[0]), a[1..], b);
    }
  }

  lemma ExecNone(q: Weight, s: State)
    ensures Exec(q, s, []) == s
  {}

  lemma ExecOne(q: Weight, s: State, e: Event)
    ensures Exec(q, s, [e]) == Step(q, s, e)
  {
    hide Step;
    assert [e][1..] == [];
  }

  lemma ExecTwo(q: Weight, s: State, a: Event, b: Event)
    ensures Exec(q, s, [a, b]) == Step(q, Step(q, s, a), b)
  {
    hide Step;
    assert [a, b][1..] == [b];
    ExecOne(q, Step(q, s, a), b);
  }
}
