/**
 What every atomic step keeps, whatever the messages say: ids and usernames stay unique, each online
 user's cached rating is the rating in the database, and each room is rated at most once.
 */
module Consistency {
  import opened Entries
  import opened Elo
  import opened ServerSpec

  /** User ids are 1, 2, ... in order of registration (AUTOINCREMENT) and names are unique. */
  ghost predicate UsersTable(users: map<int, UserRow>, next: int) {
    && next >= 1
    && (forall id :: id in users <==> 1 <= id < next)
    && (forall a, b :: a in users && b in users && users[a].name == users[b].name ==> a == b)
  }

  /** Each online user is registered under the same name, with the same rating. */
  ghost predicate CacheAgrees(online: seq<Entry<Online>>, users: map<int, UserRow>) {
    && UniqueIds(online)
    && (forall k :: Has(online, k) ==>
          k in users && Get(online, k).elo == users[k].elo && Get(online, k).name == users[k].name)
  }

  ghost predicate Flags(online: seq<Entry<Online>>) {
    forall k :: Has(online, k) ==> Get(online, k).finding in {0, 1} && Get(online, k).playing in {0, 1}
  }

  /** How many rating transactions of the journal are for this room. */
  function RatingsOf(journal: seq<Rating>, room: int): nat {
    if journal == [] then 0
    else RatingsOf(journal[..|journal| - 1], room) + if journal[|journal| - 1].room == room then 1 else 0
  }

  lemma RatingsAppend(journal: seq<Rating>, t: Rating, room: int)
    ensures RatingsOf(journal + [t], room) == RatingsOf(journal, room) + if t.room == room then 1 else 0
  {
    assert (journal + [t])[..|journal|] == journal;
  }

  /** A listed room with status 0 is not rated; one with status 1, or no longer listed, is rated exactly once. */
  ghost predicate RatedOnce(s: State, room: int)
    requires room in s.rows
  {
    if Has(s.rooms, room) && Get(s.rooms, room).status == 0
    then RatingsOf(s.journal, room) == 0 && s.rows[room].winner.None?
    else
      && RatingsOf(s.journal, room) == 1 && s.rows[room].winner.Some?
      && (Has(s.rooms, room) ==> Get(s.rooms, room).status == 1)
  }

  ghost predicate RoomsTable(s: State)
  {
    && s.nextRoom >= 1
    && UniqueIds(s.rooms)
    && (forall r :: r in s.rows <==> 1 <= r < s.nextRoom)
    && (forall r :: Has(s.rooms, r) ==> r in s.rows)
    && (forall r :: r !in s.rows ==> RatingsOf(s.journal, r) == 0)
    && (forall r :: r in s.rows ==> RatedOnce(s, r))
  }

  ghost predicate Consistent(s: State) {
    && UsersTable(s.users, s.nextUser)
    && CacheAgrees(s.online, s.users)
    && Flags(s.online)
    && RoomsTable(s)
  }

  lemma ConsistentLists(s: State)
    requires Consistent(s)
    ensures UniqueIds(s.online) && UniqueIds(s.rooms)
  {}

  // ---------- single fields of an online user ----------

  lemma AfterSetElo(online: seq<Entry<Online>>, id: int, elo: int)
    ensures var t := SetElo(online, id, elo);
            && (forall k :: Has(t, k) <==> Has(online, k))
            && (forall k :: Has(online, k) ==>
                  Get(t, k) == if k == id then Get(online, k).(elo := elo) else Get(online, k))
            && (UniqueIds(online) ==> UniqueIds(t))
            && SameIds(online, t)
  {
    if Has(online, id) { AfterWrite(online, id, Get(online, id).(elo := elo)); }
  }

  lemma AfterSetPlaying(online: seq<Entry<Online>>, id: int, playing: int)
    ensures var t := SetPlaying(online, id, playing);
            && (forall k :: Has(t, k) <==> Has(online, k))
            && (forall k :: Has(online, k) ==>
                  Get(t, k) == if k == id then Get(online, k).(playing := playing) else Get(online, k))
            && (UniqueIds(online) ==> UniqueIds(t))
            && SameIds(online, t)
  {
    if Has(online, id) { AfterWrite(online, id, Get(online, id).(playing := playing)); }
  }

  lemma AfterSetFinding(online: seq<Entry<Online>>, id: int, finding: int)
    ensures var t := SetFinding(online, id, finding);
            && (forall k :: Has(t, k) <==> Has(online, k))
            && (forall k :: Has(online, k) ==>
                  Get(t, k) == if k == id then Get(online, k).(finding := finding) else Get(online, k))
            && (UniqueIds(online) ==> UniqueIds(t))
            && SameIds(online, t)
  {
    if Has(online, id) { AfterWrite(online, id, Get(online, id).(finding := finding)); }
  }

  lemma NameOnlineAt(online: seq<Entry<Online>>, k: int)
    requires Has(online, k)
    ensures NameOnline(online, Get(online, k).name)
  {
    assert online[IndexOf(online, k)].info.name == Get(online, k).name;
  }

  // ---------- accounts ----------

  lemma RegisterKeeps(s: State, name: string, password: string)
    requires Consistent(s)
    ensures Consistent(DoRegister(s, name, password))
  {
    hide RoomsTable;
    RoomsUnchanged(s, DoRegister(s, name, password));
  }

  lemma LoginKeeps(s: State, socket: int, name: string, password: string)
    requires Consistent(s)
    ensures Consistent(DoLogin(s, socket, name, password))
  {
    hide RoomsTable;
    var t := DoLogin(s, socket, name, password);
    if t != s {
      var id := LoginRow(s.users, name, password, 1, s.nextUser).value;
      if Has(s.online, id) { NameOnlineAt(s.online, id); }
      AfterPush(s.online, t.online[0]);
    }
    RoomsUnchanged(s, t);
  }

  lemma ExitKeeps(s: State, user: int)
    requires Consistent(s)
    ensures Consistent(DoExit(s, user))
  {
    hide RoomsTable;
    AfterUnlink(s.online, user);
    RoomsUnchanged(s, DoExit(s, user));
  }

  lemma RoomsUnchanged(s: State, t: State)
    requires RoomsTable(s)
    requires t.rooms == s.rooms && t.rows == s.rows && t.nextRoom == s.nextRoom && t.journal == s.journal
    ensures RoomsTable(t)
  {
    forall r | r in t.rows ensures RatedOnce(t, r) {
      assert RatedOnce(s, r);
    }
  }

  // ---------- rooms ----------

  // A new row and a new listed room, with the next id and status 0.
  lemma OpenKeeps(s: State, t: State, room: Room, row: RoomRow)
    requires RoomsTable(s) && room.status == 0 && row.winner.None?
    requires t.rooms == s.rooms + [Entry(s.nextRoom, room)] && t.rows == s.rows[s.nextRoom := row]
    requires t.nextRoom == s.nextRoom + 1 && t.journal == s.journal
    ensures RoomsTable(t)
  {
    AfterAppend(s.rooms, Entry(s.nextRoom, room));
    forall r | r in t.rows ensures RatedOnce(t, r) {
      if r != s.nextRoom { assert RatedOnce(s, r); }
    }
  }

  // Only seats of a listed room change.
  lemma SeatsKeep(s: State, t: State, room: int, r: Room)
    requires RoomsTable(s) && Has(s.rooms, room) && r.status == Get(s.rooms, room).status
    requires t.rooms == Write(s.rooms, room, r)
    requires t.rows == s.rows && t.nextRoom == s.nextRoom && t.journal == s.journal
    ensures RoomsTable(t)
  {
    AfterWrite(s.rooms, room, r);
    forall k | k in t.rows ensures RatedOnce(t, k) {
      assert RatedOnce(s, k);
    }
  }

  lemma AnswerKeeps(s: State, user: int, invited: int, room: int, isAccept: int)
    requires Consistent(s)
    ensures Consistent(DoAnswer(s, user, invited, room, isAccept))
  {
    var t := DoAnswer(s, user, invited, room, isAccept);
    if t != s {
      SeatsKeep(s, t, room, Seated(s.online, Get(s.rooms, room), user, invited));
    }
  }

  lemma StartGameKeeps(s: State, room: int)
    requires Consistent(s)
    ensures Consistent(DoStartGame(s, room))
  {
    hide RoomsTable, CacheAgrees, Flags, SetPlaying, SetStarted;
    StartGameKeepsRooms(s, room);
    if Has(s.rooms, room) {
      var r := Get(s.rooms, room);
      PlayingKeeps(s.online, s.users, r.white, 1);
      PlayingKeeps(SetPlaying(s.online, r.white, 1), s.users, r.black, 1);
    }
  }

  lemma PlayingKeeps(online: seq<Entry<Online>>, users: map<int, UserRow>, user: int, playing: int)
    requires CacheAgrees(online, users) && Flags(online) && playing in {0, 1}
    ensures CacheAgrees(SetPlaying(online, user, playing), users) && Flags(SetPlaying(online, user, playing))
  {
    AfterSetPlaying(online, user, playing);
  }

  lemma StartGameKeepsRooms(s: State, room: int)
    requires RoomsTable(s)
    ensures RoomsTable(DoStartGame(s, room))
  {
    var t := DoStartGame(s, room);
    forall k | k in t.rows ensures RatedOnce(t, k) {
      assert RatedOnce(s, k);
    }
  }

  // ---------- the end of a game ----------

  lemma AfterRated(q: Weight, online: seq<Entry<Online>>, user: int, opponent: int, score: real)
    ensures var t := Rated(q, online, user, opponent, score);
            var (a, b) := RateGame(q, RatedAs(online, user), RatedAs(online, opponent), score);
            && (forall k :: Has(t, k) <==> Has(online, k))
            && (forall k :: Has(online, k) ==>
                  Get(t, k) == if k == opponent then Get(online, k).(elo := b)
                               else if k == user then Get(online, k).(elo := a) else Get(online, k))
            && (UniqueIds(online) ==> UniqueIds(t))
            && SameIds(online, t)
  {
    hide RateGame;
    var (a, b) := RateGame(q, RatedAs(online, user), RatedAs(online, opponent), score);
    AfterSetElo(online, user, a);
    AfterSetElo(SetElo(online, user, a), opponent, b);
  }

  // Ratings of two users change in the cache; the stored ones follow.
  lemma StoredFollowsCache(online: seq<Entry<Online>>, t: seq<Entry<Online>>, users: map<int, UserRow>, user: int,
      opponent: int)
    requires CacheAgrees(online, users) && Flags(online) && UniqueIds(t)
    requires forall k :: Has(t, k) <==> Has(online, k)
    requires forall k :: Has(online, k) ==> Get(t, k) == Get(online, k).(elo := Get(t, k).elo)
    requires forall k :: Has(online, k) && k != user && k != opponent ==> Get(t, k) == Get(online, k)
    ensures CacheAgrees(t, SetDbElo(SetDbElo(users, user, EloOf(t, user)), opponent, EloOf(t, opponent)))
    ensures Flags(t)
  {}

  lemma DbEloKeepsTable(users: map<int, UserRow>, next: int, id: int, elo: int)
    requires UsersTable(users, next)
    ensures UsersTable(SetDbElo(users, id, elo), next)
  {}

  lemma RateKeepsUsers(q: Weight, s: State, room: int, user: int, opponent: int, status: int)
    requires Consistent(s)
    ensures var t := DoRate(q, s, room, user, opponent, status);
            UsersTable(t.users, t.nextUser) && CacheAgrees(t.online, t.users) && Flags(t.online)
  {
    hide RateGame, Rated, UsersTable, Flags, SetDbElo, RoomsTable, SetWinner;
    AfterRated(q, s.online, user, opponent, Score(status));
    var t := Rated(q, s.online, user, opponent, Score(status));
    StoredFollowsCache(s.online, t, s.users, user, opponent);
    DbEloKeepsTable(s.users, s.nextUser, user, EloOf(t, user));
    DbEloKeepsTable(SetDbElo(s.users, user, EloOf(t, user)), s.nextUser, opponent, EloOf(t, opponent));
  }

  // One report of a listed room, seen from the rooms side.
  lemma ReportKeepsRooms(s: State, t: State, room: int, entry: Rating)
    requires RoomsTable(s) && Has(s.rooms, room) && entry.room == room
    requires t.rooms == Advanced(s.rooms, room) && t.nextRoom == s.nextRoom
    requires if Get(s.rooms, room).status == 0
             then t.journal == s.journal + [entry] && t.rows == SetWinner(s.rows, room, entry.winner)
             else t.journal == s.journal && t.rows == s.rows
    ensures RoomsTable(t)
  {
    assert RatedOnce(s, room);
    AdvancedRooms(s.rooms, room);
    forall k
      ensures RatingsOf(t.journal, k) ==
              RatingsOf(s.journal, k) + if Get(s.rooms, room).status == 0 && k == room then 1 else 0
    {
      RatingsAppend(s.journal, entry, k);
    }
    forall k | k in t.rows ensures RatedOnce(t, k) {
      assert RatedOnce(s, k);
    }
  }

  lemma AdvancedRooms(rooms: seq<Entry<Room>>, room: int)
    requires UniqueIds(rooms) && Has(rooms, room)
    ensures var t, r := Advanced(rooms, room), Get(rooms, room);
            && UniqueIds(t)
            && (forall k :: Has(t, k) <==> Has(rooms, k) && (k == room ==> r.status != 1))
            && (forall k :: Has(t, k) ==> Get(t, k) == if k == room then r.(status := r.status + 1) else Get(rooms, k))
  {
    AfterUnlink(rooms, room);
    AfterWrite(rooms, room, Get(rooms, room).(status := Get(rooms, room).status + 1));
  }

  lemma EndGameKeepsRooms(q: Weight, s: State, socket: int, room: int, user: int, status: int)
    requires RoomsTable(s)
    ensures RoomsTable(DoEndGame(q, s, socket, room, user, status))
  {
    hide RateGame, Rated, Advanced, RoomsTable, SetWinner;
    if Has(s.rooms, room) {
      var t := DoEndGame(q, s, socket, room, user, status);
      var entry := if Get(s.rooms, room).status == 0 then t.journal[|s.journal|] else Rating(room, 0, 0, 0, 0, 0);
      ReportKeepsRooms(s, t, room, entry);
    }
  }

  lemma EndGameKeeps(q: Weight, s: State, socket: int, room: int, user: int, status: int)
    requires Consistent(s)
    ensures Consistent(DoEndGame(q, s, socket, room, user, status))
  {
    hide RateGame, DoRate, RoomsTable, UsersTable, CacheAgrees, Flags, SetPlaying, Advanced;
    EndGameKeepsRooms(q, s, socket, room, user, status);
    if Has(s.rooms, room) {
      var r := Get(s.rooms, room);
      var opponent := OpponentOf(r, socket);
      if r.status == 0 { RateKeepsUsers(q, s, room, user, opponent, status); }
      var t := if r.status == 0 then DoRate(q, s, room, user, opponent, status) else s;
      PlayingKeeps(t.online, t.users, user, 0);
    }
  }

  // ---------- matchmaking ----------

  lemma FlagKeeps(s: State, t: State, user: int, flag: int)
    requires Consistent(s) && flag in {0, 1}
    requires t == s.(online := SetFinding(s.online, user, flag), claims := t.claims)
    ensures Consistent(t)
  {
    hide RoomsTable;
    AfterSetFinding(s.online, user, flag);
    RoomsUnchanged(s, t);
  }

  lemma ScanKeeps(s: State, user: int, elo: int)
    requires Consistent(s)
    ensures Consistent(DoScan(s, user, elo))
  {
    hide Consistent;
    var t := DoScan(s, user, elo);
    if t != s {
      var mid := s.(online := SetFinding(s.online, user, 0));
      FlagKeeps(s, mid, user, 0);
      FlagKeeps(mid, t, FindingMatch(s.online, user, elo), 0);
    }
  }

  lemma OpenRoomKeeps(s: State, claim: int)
    requires Consistent(s)
    ensures Consistent(DoOpenRoom(s, claim))
  {
    var t := DoOpenRoom(s, claim);
    if t != s {
      var n := |s.rooms|;
      OpenKeeps(s, t, t.rooms[n].info, t.rows[s.nextRoom]);
    }
  }

  // ---------- every step, every run ----------

  /** Cache agreement, unique ids and names, and rating at most once: kept by every step on every message. */
  lemma StepKeeps(q: Weight, s: State, e: Event)
    requires Consistent(s)
    ensures Consistent(Step(q, s, e))
  {
    hide Consistent;
    match e
    case Register(name, password) => RegisterKeeps(s, name, password);
    case Login(socket, name, password) => LoginKeeps(s, socket, name, password);
    case Exit(user) => ExitKeeps(s, user);
    case CreateRoom(user, total, strayWhite, strayBlack) => CreateRoomKeeps(s, user, total, strayWhite, strayBlack);
    case Answer(user, invited, room, isAccept) => AnswerKeeps(s, user, invited, room, isAccept);
    case StartGame(room) => StartGameKeeps(s, room);
    case EndGame(socket, room, user, status) => EndGameKeeps(q, s, socket, room, user, status);
    case RaiseFlag(user) => FlagKeeps(s, Step(q, s, e), user, 1);
    case Scan(user, elo) => ScanKeeps(s, user, elo);
    case OpenRoom(claim) => OpenRoomKeeps(s, claim);
    case GiveUp(user) => if FindingOf(s.online, user) != 0 { FlagKeeps(s, Step(q, s, e), user, 0); }
  }

  lemma CreateRoomKeeps(s: State, user: int, total: int, strayWhite: int, strayBlack: int)
    requires Consistent(s)
    ensures Consistent(DoCreateRoom(s, user, total, strayWhite, strayBlack))
  {
    var t := DoCreateRoom(s, user, total, strayWhite, strayBlack);
    OpenKeeps(s, t, Room(user, -1, total, strayWhite, strayBlack, 0), RoomRow(user, -1, total, false, None));
  }

  lemma InitiallyConsistent()
    ensures Consistent(INITIAL)
  {}

  lemma {:induction false} ExecKeeps(q: Weight, s: State, run: seq<Event>)
    requires Consistent(s)
    ensures Consistent(Exec(q, s, run))
    decreases |run|
  {
    if run != [] {
      StepKeeps(q, s, run[0]);
      ExecKeeps(q, Step(q, s, run[0]), run[1..]);
    }
  }

  /** After any run: every online user's cached rating is the stored one, and no two online users share a name or id. */
  lemma CacheAgreement(q: Weight, run: seq<Event>)
    ensures var s := Exec(q, INITIAL, run);
            && (forall i :: 0 <= i < |s.online| ==>
                  s.online[i].id in s.users && s.online[i].info.elo == s.users[s.online[i].id].elo)
            && (forall i, j :: 0 <= i < j < |s.online| ==>
                  s.online[i].id != s.online[j].id && s.online[i].info.name != s.online[j].info.name)
  {
    InitiallyConsistent();
    ExecKeeps(q, INITIAL, run);
    EntriesAgree(Exec(q, INITIAL, run));
  }

  // Consistency, entry by entry of the online list.
  lemma EntriesAgree(s: State)
    requires Consistent(s)
    ensures forall i :: 0 <= i < |s.online| ==>
              s.online[i].id in s.users && s.online[i].info.elo == s.users[s.online[i].id].elo
    ensures forall i, j :: 0 <= i < j < |s.online| ==>
              s.online[i].id != s.online[j].id && s.online[i].info.name != s.online[j].info.name
  {
    forall i | 0 <= i < |s.online|
      ensures Has(s.online, s.online[i].id) && Get(s.online, s.online[i].id) == s.online[i].info
    {
      HasAt(s.online, i);
    }
  }
}
