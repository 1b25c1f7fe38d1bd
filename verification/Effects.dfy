/**
 What each message leaves, entry by entry and row by row: the fields it sets, their values, and everything it
 does not touch. Stated on the lists and tables themselves, not through the functions the steps are made of.
 */
module Effects {
  import opened Entries
  import opened Elo
  import opened ServerSpec
  import opened Consistency

  // ---------- reading the online list ----------

  predicate IsOnline(online: seq<Entry<Online>>, user: int) {
    exists i :: 0 <= i < |online| && online[i].id == user
  }

  /** The socket of this user, -1 for one who is not online. */
  predicate SocketIs(online: seq<Entry<Online>>, user: int, socket: int) {
    && (forall i :: 0 <= i < |online| && online[i].id == user ==> socket == online[i].info.socket)
    && (!IsOnline(online, user) ==> socket == -1)
  }

  /** The cached rating of this user, or the value given for one who is not online. */
  predicate EloIs(online: seq<Entry<Online>>, user: int, elo: int, missing: int) {
    && (forall i :: 0 <= i < |online| && online[i].id == user ==> elo == online[i].info.elo)
    && (!IsOnline(online, user) ==> elo == missing)
  }

  predicate IsFlagged(online: seq<Entry<Online>>, user: int) {
    exists i :: 0 <= i < |online| && online[i].id == user && online[i].info.finding == 1
  }

  lemma ReadAt<V>(s: seq<Entry<V>>, k: int)
    requires UniqueIds(s)
    ensures Has(s, k) <==> exists i :: 0 <= i < |s| && s[i].id == k
    ensures forall i :: 0 <= i < |s| && s[i].id == k ==> Has(s, k) && Get(s, k) == s[i].info && IndexOf(s, k) == i
  {
    if Has(s, k) { assert s[IndexOf(s, k)].id == k; }
    forall i | 0 <= i < |s| && s[i].id == k ensures Has(s, k) && Get(s, k) == s[i].info && IndexOf(s, k) == i {
      HasAt(s, i);
    }
  }

  lemma WrittenAt<V>(s: seq<Entry<V>>, k: int, v: V)
    requires UniqueIds(s)
    ensures |Write(s, k, v)| == |s| && UniqueIds(Write(s, k, v))
    ensures forall i :: 0 <= i < |s| ==> Write(s, k, v)[i] == if s[i].id == k then Entry(k, v) else s[i]
  {
    ReadAt(s, k);
  }

  lemma UnlinkedAt<V>(s: seq<Entry<V>>, k: int, i: nat)
    requires UniqueIds(s) && i < |s| && s[i].id == k
    ensures Unlink(s, k) == s[..i] + s[i + 1..]
  {
    ReadAt(s, k);
  }

  lemma SocketLookup(online: seq<Entry<Online>>, user: int)
    requires UniqueIds(online)
    ensures SocketIs(online, user, SocketOf(online, user))
  {
    ReadAt(online, user);
  }

  lemma EloLookup(online: seq<Entry<Online>>, user: int, missing: int, elo: int)
    requires UniqueIds(online) && EloIs(online, user, elo, missing)
    ensures elo == if Has(online, user) then Get(online, user).elo else missing
  {
    ReadAt(online, user);
  }

  lemma EloIsLookup(online: seq<Entry<Online>>, user: int)
    requires UniqueIds(online)
    ensures EloIs(online, user, EloOf(online, user), -1)
  {
    ReadAt(online, user);
  }

  lemma SameLookup<V>(s: seq<Entry<V>>, t: seq<Entry<V>>, i: nat)
    requires UniqueIds(s) && |t| == |s| && i < |s| && forall j :: 0 <= j < |s| ==> t[j].id == s[j].id
    ensures Has(t, s[i].id) && Get(t, s[i].id) == t[i].info
  {
    HasAt(t, i);
  }

  lemma PlayingAt(online: seq<Entry<Online>>, user: int, playing: int)
    requires UniqueIds(online)
    ensures var t := SetPlaying(online, user, playing);
            && |t| == |online| && UniqueIds(t)
            && forall i :: 0 <= i < |t| ==>
                 t[i] == if online[i].id == user then Entry(user, online[i].info.(playing := playing)) else online[i]
  {
    ReadAt(online, user);
    if Has(online, user) { WrittenAt(online, user, Get(online, user).(playing := playing)); }
  }

  lemma FindingAt(online: seq<Entry<Online>>, user: int, finding: int)
    requires UniqueIds(online)
    ensures var t := SetFinding(online, user, finding);
            && |t| == |online| && UniqueIds(t)
            && forall i :: 0 <= i < |t| ==>
                 t[i] == if online[i].id == user then Entry(user, online[i].info.(finding := finding)) else online[i]
  {
    ReadAt(online, user);
    if Has(online, user) { WrittenAt(online, user, Get(online, user).(finding := finding)); }
  }

  lemma EloAt(online: seq<Entry<Online>>, user: int, elo: int)
    requires UniqueIds(online)
    ensures var t := SetElo(online, user, elo);
            && |t| == |online| && UniqueIds(t)
            && forall i :: 0 <= i < |t| ==>
                 t[i] == if online[i].id == user then Entry(user, online[i].info.(elo := elo)) else online[i]
  {
    ReadAt(online, user);
    if Has(online, user) { WrittenAt(online, user, Get(online, user).(elo := elo)); }
  }

  // ---------- accounts ----------

  /** REGISTER: a name some user has changes nothing; otherwise one new row with rating 1000 under the next id. */
  lemma RegisterEffect(q: Weight, s: State, name: string, password: string)
    ensures var t := Step(q, s, Register(name, password));
            if exists id :: id in s.users && s.users[id].name == name then t == s
            else
              && t == s.(users := t.users, nextUser := s.nextUser + 1)
              && t.users.Keys == s.users.Keys + {s.nextUser} && t.users[s.nextUser] == UserRow(name, password, 1000)
              && forall id :: id in s.users && id != s.nextUser ==> t.users[id] == s.users[id]
  {}

  /**
   LOGIN: somebody online under the name, or no row with the name and the password, changes nothing; otherwise
   the row's user joins at the head with the stored rating, the socket of the message and both marks down.
   */
  lemma LoginEffect(q: Weight, s: State, socket: int, name: string, password: string)
    requires Consistent(s)
    ensures var t := Step(q, s, Login(socket, name, password));
            if exists i :: 0 <= i < |s.online| && s.online[i].info.name == name then t == s
            else
              && t == s.(online := t.online)
              && (forall id :: id in s.users && s.users[id].name == name && s.users[id].password == password ==>
                    t.online == [Entry(id, Online(s.users[id].elo, socket, name, 0, 0))] + s.online)
              && ((forall id :: id in s.users ==> s.users[id].name != name || s.users[id].password != password) ==>
                    t == s)
  {
    hide RoomsTable, CacheAgrees;
    var row := LoginRow(s.users, name, password, 1, s.nextUser);
    forall id | id in s.users && s.users[id].name == name && s.users[id].password == password
      ensures row == Some(id)
    {
      assert Credentials(s.users, id, name, password);
    }
  }

  /** EXIT: the user's entry leaves the list, the others stay in order; a user who is not online changes nothing. */
  lemma ExitEffect(q: Weight, s: State, user: int)
    requires Consistent(s)
    ensures var t := Step(q, s, Exit(user));
            && t == s.(online := t.online)
            && (!IsOnline(s.online, user) ==> t == s)
            && forall i :: 0 <= i < |s.online| && s.online[i].id == user ==>
                 t.online == s.online[..i] + s.online[i + 1..]
  {
    ConsistentLists(s);
    hide Consistent;
    ReadAt(s.online, user);
    forall i | 0 <= i < |s.online| && s.online[i].id == user
      ensures Unlink(s.online, user) == s.online[..i] + s.online[i + 1..]
    {
      UnlinkedAt(s.online, user, i);
    }
  }

  // ---------- rooms ----------

  /**
   CREATE_ROOM: one room at the end of the list under the next id, the creator in the white seat, the other seat
   -1, the requested total, status 0; its row likewise, not started and without a winner. All else stays.
   */
  lemma CreateRoomEffect(q: Weight, s: State, user: int, total: int, strayWhite: int, strayBlack: int)
    ensures var t := Step(q, s, CreateRoom(user, total, strayWhite, strayBlack));
            && t == s.(rooms := t.rooms, rows := t.rows, nextRoom := s.nextRoom + 1)
            && t.rooms == s.rooms + [Entry(s.nextRoom, Room(user, -1, total, strayWhite, strayBlack, 0))]
            && t.rows.Keys == s.rows.Keys + {s.nextRoom} && t.rows[s.nextRoom] == RoomRow(user, -1, total, false, None)
            && forall k :: k in s.rows && k != s.nextRoom ==> t.rows[k] == s.rows[k]
  {}

  /**
   An answer to an invitation: accepted and with the room listed, the message's user gets the white seat and the
   invited user the black one, whoever created the room, each with the socket of its online entry or -1; total
   and status of the room, all other rooms, both tables and the online list stay. Otherwise nothing changes.
   */
  lemma AnswerEffect(q: Weight, s: State, user: int, invited: int, room: int, isAccept: int)
    requires Consistent(s)
    ensures var t := Step(q, s, Answer(user, invited, room, isAccept));
            && t == s.(rooms := t.rooms) && |t.rooms| == |s.rooms|
            && (isAccept == 0 ==> t == s)
            && forall i :: 0 <= i < |s.rooms| ==>
                 var r, r' := s.rooms[i].info, t.rooms[i].info;
                 if s.rooms[i].id == room && isAccept != 0
                 then
                   && t.rooms[i].id == room && r'.white == user && r'.black == invited
                   && SocketIs(s.online, user, r'.whiteSocket) && SocketIs(s.online, invited, r'.blackSocket)
                   && r'.total == r.total && r'.status == r.status
                 else t.rooms[i] == s.rooms[i]
  {
    ConsistentLists(s);
    hide Consistent;
    ReadAt(s.rooms, room);
    SocketLookup(s.online, user);
    SocketLookup(s.online, invited);
    hide SocketOf, SocketIs;
    if Has(s.rooms, room) {
      WrittenAt(s.rooms, room, Seated(s.online, Get(s.rooms, room), user, invited));
    }
    hide Write;
  }

  /**
   START_GAME of a listed room: its row is started with the room's two players and total, its winner and all other
   rows stay; both players are marked as playing, and nobody else's entry changes. An unlisted room changes nothing.
   */
  lemma StartGameEffect(q: Weight, s: State, room: int)
    requires Consistent(s)
    ensures var t := Step(q, s, StartGame(room));
            && t == s.(rows := t.rows, online := t.online) && t.rows.Keys == s.rows.Keys && |t.online| == |s.online|
            && ((forall i :: 0 <= i < |s.rooms| ==> s.rooms[i].id != room) ==> t == s)
            && (forall k :: k in s.rows && k != room ==> t.rows[k] == s.rows[k])
            && (forall i :: 0 <= i < |s.rooms| && s.rooms[i].id == room ==>
                  var r := s.rooms[i].info;
                  && room in s.rows
                  && t.rows[room].started && t.rows[room].white == r.white && t.rows[room].black == r.black
                  && t.rows[room].total == r.total && t.rows[room].winner == s.rows[room].winner
                  && forall j :: 0 <= j < |s.online| ==>
                       t.online[j] == if s.online[j].id == r.white || s.online[j].id == r.black
                                      then Entry(s.online[j].id, s.online[j].info.(playing := 1)) else s.online[j])
  {
    ConsistentLists(s);
    assert forall r :: Has(s.rooms, r) ==> r in s.rows;
    hide Consistent;
    ReadAt(s.rooms, room);
    if Has(s.rooms, room) {
      var r := Get(s.rooms, room);
      PlayingAt(s.online, r.white, 1);
      PlayingAt(SetPlaying(s.online, r.white, 1), r.black, 1);
    }
    hide SetPlaying;
  }

  // ---------- the end of a game ----------

  /** The seat of a room that a socket does not belong to, the white one for a socket that has no seat. */
  predicate IsOpponent(r: Room, socket: int, opponent: int) {
    (r.whiteSocket == socket ==> opponent == r.black) && (r.whiteSocket != socket ==> opponent == r.white)
  }

  lemma RatedAt(q: Weight, online: seq<Entry<Online>>, user: int, opponent: int, score: real, u: int, v: int)
    requires UniqueIds(online) && EloIs(online, user, u, 0) && EloIs(online, opponent, v, 0)
    ensures var t := Rated(q, online, user, opponent, score);
            var (a, b) := RateGame(q, u, v, score);
            && |t| == |online| && UniqueIds(t)
            && (forall i :: 0 <= i < |t| ==>
                  t[i] == if online[i].id == opponent then Entry(opponent, online[i].info.(elo := b))
                          else if online[i].id == user then Entry(user, online[i].info.(elo := a)) else online[i])
  {
    hide RateGame;
    EloLookup(online, user, 0, u);
    EloLookup(online, opponent, 0, v);
    var (a, b) := RateGame(q, u, v, score);
    EloAt(online, user, a);
    EloAt(SetElo(online, user, a), opponent, b);
    hide SetElo;
  }

  /** END_GAME of a room that is not listed changes nothing. */
  lemma UnlistedReportEffect(q: Weight, s: State, socket: int, room: int, user: int, status: int)
    requires Consistent(s) && forall i :: 0 <= i < |s.rooms| ==> s.rooms[i].id != room
    ensures Step(q, s, EndGame(socket, room, user, status)) == s
  {
    ConsistentLists(s);
    hide Consistent;
    ReadAt(s.rooms, room);
  }

  /**
   The first report of a room: status 1 scores a win of the reporter, anything else a draw, between the cached
   ratings u and v, 0 for a user who is not online. The two entries get the new ratings, the reporter's mark goes
   down, the room's status becomes 1 and its row gets a winner: the reporter on status 1, else 0. Nothing else in
   the lists, no other row, and no id moves.
   */
  lemma FirstReportEffect(
      q: Weight, s: State, socket: int, room: int, user: int, status: int, i: nat, opponent: int, u: int, v: int)
    requires Consistent(s) && i < |s.rooms| && s.rooms[i].id == room && s.rooms[i].info.status == 0
    requires IsOpponent(s.rooms[i].info, socket, opponent)
    requires EloIs(s.online, user, u, 0) && EloIs(s.online, opponent, v, 0)
    ensures var t := Step(q, s, EndGame(socket, room, user, status));
            var (a, b) := RateGame(q, u, v, if status == 1 then 1.0 else 0.5);
            && t == s.(online := t.online, rooms := t.rooms, users := t.users, rows := t.rows, journal := t.journal)
            && t.rooms == s.rooms[i := Entry(room, s.rooms[i].info.(status := 1))]
            && room in s.rows && t.rows ==
               s.rows[room := s.rows[room].(winner := Some(if status == 1 then user else 0))]
            && |t.online| == |s.online|
            && forall j :: 0 <= j < |s.online| ==>
                 && t.online[j].id == s.online[j].id
                 && t.online[j].info == s.online[j].info.(
                      elo := if s.online[j].id == opponent then b else if s.online[j].id == user then a
                             else s.online[j].info.elo,
                      playing := if s.online[j].id == user then 0 else s.online[j].info.playing)
  {
    ConsistentLists(s);
    assert forall r :: Has(s.rooms, r) ==> r in s.rows;
    hide Consistent, RateGame;
    var score := if status == 1 then 1.0 else 0.5;
    FirstReportIs(q, s, socket, room, user, status, i, opponent);
    RatedAt(q, s.online, user, opponent, score, u, v);
    PlayingAt(Rated(q, s.online, user, opponent, score), user, 0);
    ReadAt(s.rooms, room);
    hide Step, Rated, SetPlaying, SetDbElo;
  }

  lemma FirstReportIs(
      q: Weight, s: State, socket: int, room: int, user: int, status: int, i: nat, opponent: int)
    requires UniqueIds(s.rooms) && i < |s.rooms| && s.rooms[i].id == room && s.rooms[i].info.status == 0
    requires IsOpponent(s.rooms[i].info, socket, opponent)
    ensures var t := Step(q, s, EndGame(socket, room, user, status));
            var rated := Rated(q, s.online, user, opponent, if status == 1 then 1.0 else 0.5);
            var a, b := EloOf(rated, user), EloOf(rated, opponent);
            && t == s.(online := t.online, rooms := t.rooms, users := t.users, rows := t.rows, journal := t.journal)
            && t.online == SetPlaying(rated, user, 0)
            && t.rooms == s.rooms[i := Entry(room, s.rooms[i].info.(status := 1))]
            && t.rows == SetWinner(s.rows, room, if status == 1 then user else 0)
            && t.users == SetDbElo(SetDbElo(s.users, user, a), opponent, b)
            && |t.journal| == |s.journal| + 1 && t.journal[..|s.journal|] == s.journal
            && t.journal[|s.journal|].room == room
  {
    hide Rated, RateGame, SetPlaying, SetDbElo, SetWinner, EloOf;
    ReadAt(s.rooms, room);
  }

  lemma StoredTwice(users: map<int, UserRow>, user: int, a: int, opponent: int, b: int, k: int)
    requires k in users
    ensures var t := SetDbElo(SetDbElo(users, user, a), opponent, b);
            && t.Keys == users.Keys
            && t[k] == users[k].(elo := if k == opponent then b else if k == user then a else users[k].elo)
  {}

  /**
   What the first report stores: the reporter's row and the opponent's get the rating their entries now have, -1
   for one who is not online; every other row stays, and so do all names and passwords. One transaction is logged.
   */
  lemma FirstReportStores(
      q: Weight, s: State, socket: int, room: int, user: int, status: int, i: nat, opponent: int, u: int, v: int)
    requires Consistent(s) && i < |s.rooms| && s.rooms[i].id == room && s.rooms[i].info.status == 0
    requires IsOpponent(s.rooms[i].info, socket, opponent)
    requires EloIs(s.online, user, u, 0) && EloIs(s.online, opponent, v, 0)
    ensures var t := Step(q, s, EndGame(socket, room, user, status));
            var (a, b) := RateGame(q, u, v, if status == 1 then 1.0 else 0.5);
            && t.users.Keys == s.users.Keys
            && (forall k :: k in s.users ==>
                  && t.users[k].name == s.users[k].name && t.users[k].password == s.users[k].password
                  && t.users[k].elo == if k == opponent then (if IsOnline(s.online, k) then b else -1)
                                       else if k == user then (if IsOnline(s.online, k) then a else -1)
                                       else s.users[k].elo)
            && |t.journal| == |s.journal| + 1 && t.journal[..|s.journal|] == s.journal
            && t.journal[|s.journal|].room == room
  {
    ConsistentLists(s);
    hide Consistent, RateGame;
    var score := if status == 1 then 1.0 else 0.5;
    var rated := Rated(q, s.online, user, opponent, score);
    FirstReportIs(q, s, socket, room, user, status, i, opponent);
    RatedAt(q, s.online, user, opponent, score, u, v);
    hide Step, Rated, SetDbElo, EloIs;
    var (a, b) := RateGame(q, u, v, score);
    CachedAfter(s.online, rated, user, if user == opponent then b else a);
    CachedAfter(s.online, rated, opponent, b);
    var t := Step(q, s, EndGame(socket, room, user, status));
    forall k | k in s.users
      ensures t.users.Keys == s.users.Keys
      ensures t.users[k] == s.users[k].(elo := if k == opponent then EloOf(rated, opponent)
                                               else if k == user then EloOf(rated, user) else s.users[k].elo)
    {
      StoredTwice(s.users, user, EloOf(rated, user), opponent, EloOf(rated, opponent), k);
    }
    KeysStay(s.users, user, EloOf(rated, user), opponent, EloOf(rated, opponent));
  }

  lemma KeysStay(users: map<int, UserRow>, user: int, a: int, opponent: int, b: int)
    ensures SetDbElo(SetDbElo(users, user, a), opponent, b).Keys == users.Keys
  {}

  // Reading back the rating that every entry of this user now has.
  lemma CachedAfter(online: seq<Entry<Online>>, t: seq<Entry<Online>>, user: int, elo: int)
    requires UniqueIds(online) && UniqueIds(t) && SameIds(online, t)
    requires forall i :: 0 <= i < |t| && online[i].id == user ==> t[i].info.elo == elo
    ensures EloOf(t, user) == if IsOnline(online, user) then elo else -1
  {
    ReadAt(t, user);
    assert Has(t, user) ==> online[IndexOf(t, user)].id == user;
    if IsOnline(online, user) {
      var i :| 0 <= i < |online| && online[i].id == user;
      assert t[i].id == user;
    }
  }

  /** The second report: the room leaves the list, the reporter's mark goes down, and nothing else changes. */
  lemma SecondReportEffect(q: Weight, s: State, socket: int, room: int, user: int, status: int, i: nat)
    requires Consistent(s) && i < |s.rooms| && s.rooms[i].id == room && s.rooms[i].info.status != 0
    ensures var t := Step(q, s, EndGame(socket, room, user, status));
            && t == s.(online := t.online, rooms := s.rooms[..i] + s.rooms[i + 1..])
            && |t.online| == |s.online|
            && forall j :: 0 <= j < |s.online| ==>
                 t.online[j] == if s.online[j].id == user
                                then Entry(user, s.online[j].info.(playing := 0)) else s.online[j]
  {
    ConsistentLists(s);
    ReadAt(s.rooms, room);
    assert s.rooms[i].info.status == 1 by { assert RatedOnce(s, room); }
    hide Consistent;
    UnlinkedAt(s.rooms, room, i);
    PlayingAt(s.online, user, 0);
    hide SetPlaying, Unlink;
  }

  // ---------- matchmaking ----------

  /** The start of a search: the user's flag goes up, and nothing else changes. */
  lemma RaiseFlagEffect(q: Weight, s: State, user: int)
    requires Consistent(s)
    ensures var t := Step(q, s, RaiseFlag(user));
            && t == s.(online := t.online) && |t.online| == |s.online|
            && forall i :: 0 <= i < |s.online| ==>
                 t.online[i] == if s.online[i].id == user
                                then Entry(user, s.online[i].info.(finding := 1)) else s.online[i]
  {
    ConsistentLists(s);
    hide Consistent;
    FindingAt(s.online, user, 1);
    hide SetFinding;
  }

  /** The end of a search without a match: the user's flag goes down, and nothing else changes. */
  lemma GiveUpEffect(q: Weight, s: State, user: int)
    requires Consistent(s)
    ensures var t := Step(q, s, GiveUp(user));
            && t == s.(online := t.online) && |t.online| == |s.online|
            && forall i :: 0 <= i < |s.online| ==>
                 t.online[i] == if s.online[i].id == user
                                then Entry(user, s.online[i].info.(finding := 0)) else s.online[i]
  {
    ConsistentLists(s);
    assert FindingOf(s.online, user) == 0 ==> Has(s.online, user) && Get(s.online, user).finding == 0;
    hide Consistent;
    FindingAt(s.online, user, 0);
    ReadAt(s.online, user);
    hide SetFinding;
  }

  /** A searching user other than this one with a cached rating at most 100 away. */
  predicate Suits(e: Entry<Online>, user: int, elo: int) {
    e.id != user && e.info.finding == 1 && elo - 100 <= e.info.elo <= elo + 100
  }

  predicate FirstSuit(online: seq<Entry<Online>>, i: int, user: int, elo: int) {
    0 <= i < |online| && Suits(online[i], user, elo) && forall j :: 0 <= j < i ==> !Suits(online[j], user, elo)
  }

  /**
   One scan: without anybody who suits, or with the searcher online and its own flag down, nothing changes;
   otherwise the first user in list order who suits is claimed, and exactly the two flags go down.
   */
  lemma ScanEffect(q: Weight, s: State, user: int, elo: int)
    requires Consistent(s)
    ensures var t := Step(q, s, Scan(user, elo));
            && ((forall i :: 0 <= i < |s.online| ==> !Suits(s.online[i], user, elo)) ==> t == s)
            && (IsOnline(s.online, user) && !IsFlagged(s.online, user) ==> t == s)
            && ((IsOnline(s.online, user) ==> IsFlagged(s.online, user)) ==>
                  forall i :: FirstSuit(s.online, i, user, elo) ==>
                    && t == s.(online := t.online, claims := s.claims + [Pairing(user, s.online[i].id, elo)])
                    && |t.online| == |s.online|
                    && forall k :: 0 <= k < |s.online| ==>
                         t.online[k] == if s.online[k].id == user || s.online[k].id == s.online[i].id
                                        then Entry(s.online[k].id, s.online[k].info.(finding := 0)) else s.online[k])
  {
    ConsistentLists(s);
    FirstSuits(s, user, elo);
    FlagOf(s, user);
    var o := FindingMatch(s.online, user, elo);
    if o != -1 { FlagOf(s, o); }
    hide Consistent;
    FindingAt(s.online, user, 0);
    FindingAt(SetFinding(s.online, user, 0), o, 0);
    hide SetFinding, FindingMatch, FindingOf, IsOnline, IsFlagged;
  }

  lemma FlagOf(s: State, user: int)
    requires Consistent(s)
    ensures FindingOf(s.online, user) == 0 <==> IsOnline(s.online, user) && !IsFlagged(s.online, user)
  {
    hide RoomsTable, UsersTable;
    assert Has(s.online, user) ==> Get(s.online, user).finding in {0, 1};
    ConsistentLists(s);
    hide Consistent;
    ReadAt(s.online, user);
  }

  lemma FirstSuits(s: State, user: int, elo: int)
    requires Consistent(s)
    ensures var o := FindingMatch(s.online, user, elo);
            && (o == -1 <==> forall i :: 0 <= i < |s.online| ==> !Suits(s.online[i], user, elo))
            && (o != -1 ==> IsFlagged(s.online, o))
            && forall i :: FirstSuit(s.online, i, user, elo) ==> o == s.online[i].id
  {
    var o := FindingMatch(s.online, user, elo);
    FirstMatch(s.online, user, elo);
    assert forall e: Entry<Online> :: Matches(e, user, elo) == Suits(e, user, elo);
    if k :| 0 <= k < |s.online| && s.online[k].id == o && IsFirst(s.online, k, user, elo) {
      HasAt(s.online, k);
      assert o in s.users;
    }
    hide Consistent, FindingMatch;
  }

  /**
   The room of a claimed pair: the searcher is white if its request carried a lower rating than the opponent has
   cached (-1 for one who is not online), and the opponent is white otherwise. Total 600, status 0, the sockets of
   both; the row is started and has no winner. The claim is spent, and nothing else changes.
   */
  lemma OpenRoomEffect(q: Weight, s: State, claim: nat, theirs: int)
    requires Consistent(s) && claim < |s.claims| && EloIs(s.online, s.claims[claim].opponent, theirs, -1)
    ensures var t, p := Step(q, s, OpenRoom(claim)), s.claims[claim];
            var white := if p.elo < theirs then p.user else p.opponent;
            var black := if p.elo < theirs then p.opponent else p.user;
            && t == s.(rooms := t.rooms, rows := t.rows, nextRoom := s.nextRoom + 1,
                       claims := s.claims[..claim] + s.claims[claim + 1..])
            && |t.rooms| == |s.rooms| + 1 && t.rooms[..|s.rooms|] == s.rooms && t.rooms[|s.rooms|].id == s.nextRoom
            && (var r := t.rooms[|s.rooms|].info;
                && r.white == white && r.black == black && r.total == 600 && r.status == 0
                && SocketIs(s.online, white, r.whiteSocket) && SocketIs(s.online, black, r.blackSocket))
            && t.rows == s.rows[s.nextRoom := RoomRow(white, black, 600, true, None)]
  {
    ConsistentLists(s);
    hide Consistent;
    var p := s.claims[claim];
    EloLookup(s.online, p.opponent, -1, theirs);
    SocketLookup(s.online, p.user);
    SocketLookup(s.online, p.opponent);
    hide SocketIs, SocketOf;
  }
}
