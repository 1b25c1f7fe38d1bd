/**
 The handlers of src/game/game.c and src/user/user.c on the heap: each walks and updates the linked lists
 in place and mirrors what it does in the tables, and is proved to be one step of ServerSpec (or, for
 matchmaking, a run of steps with any other events in between).
 */
module Server {
  import opened Entries
  import opened Elo
  import opened LinkedList
  import opened ServerSpec
  import opened Consistency
  import opened Soundness
  import opened SplitHandlers
  import opened SlowReports
  import Effects
  import Matchmaking
  import Ratings
  import Seats

  // ---------- walks of the online list ----------

  /** update_elo_on_caching. */
  method UpdateEloOnCaching(l: List<Online>, user: int, elo: int)
    requires l.Valid()
    modifies l, l.nodes
    ensures l.Valid() && l.contents == SetElo(old(l.contents), user, elo) && l.nodes == old(l.nodes)
  {
    var node := l.Lookup(user);
    if node != null { l.Overwrite(node, node.info.(elo := elo)); }
  }

  /** update_playing and update_playing_status. */
  method UpdatePlaying(l: List<Online>, user: int, playing: int)
    requires l.Valid()
    modifies l, l.nodes
    ensures l.Valid() && l.contents == SetPlaying(old(l.contents), user, playing) && l.nodes == old(l.nodes)
  {
    var node := l.Lookup(user);
    if node != null { l.Overwrite(node, node.info.(playing := playing)); }
  }

  /** set_finding. */
  method UpdateFinding(l: List<Online>, user: int, finding: int)
    requires l.Valid()
    modifies l, l.nodes
    ensures l.Valid() && l.contents == SetFinding(old(l.contents), user, finding) && l.nodes == old(l.nodes)
  {
    var node := l.Lookup(user);
    if node != null { l.Overwrite(node, node.info.(finding := finding)); }
  }

  /** Both set_finding calls of a claim. */
  method LowerBoth(l: List<Online>, user: int, opponent: int)
    requires l.Valid()
    modifies l, l.nodes
    ensures l.Valid() && l.contents == SetFinding(SetFinding(old(l.contents), user, 0), opponent, 0)
            && l.nodes == old(l.nodes)
  {
    hide List.Valid, SetFinding;
    UpdateFinding(l, user, 0);
    UpdateFinding(l, opponent, 0);
  }

  /** get_elo_by_user_id: -1 for a user who is not online. */
  method GetElo(l: List<Online>, user: int) returns (elo: int)
    requires l.Valid()
    ensures elo == EloOf(l.contents, user)
  {
    var node := l.Lookup(user);
    elo := if node == null then -1 else node.info.elo;
  }

  /** get_client_socket_by_user_id. */
  method GetSocket(l: List<Online>, user: int) returns (socket: int)
    requires l.Valid()
    ensures socket == SocketOf(l.contents, user)
  {
    var node := l.Lookup(user);
    socket := if node == null then -1 else node.info.socket;
  }

  /** get_finding. */
  method GetFinding(l: List<Online>, user: int) returns (finding: int)
    requires l.Valid()
    ensures finding == FindingOf(l.contents, user)
  {
    var node := l.Lookup(user);
    finding := if node == null then -1 else node.info.finding;
  }

  /** isUserAlreadyLoggedIn. */
  method IsUserAlreadyLoggedIn(l: List<Online>, name: string) returns (found: bool)
    requires l.Valid()
    ensures found <==> NameOnline(l.contents, name)
  {
    var current := l.head;
    ghost var i := 0;
    while current != null
      invariant 0 <= i <= |l.nodes|
      invariant if i < |l.nodes| then current == l.nodes[i] else current == null
      invariant forall j :: 0 <= j < i ==> l.contents[j].info.name != name
      decreases |l.nodes| - i
    {
      if current.info.name == name {
        assert l.contents[i].info.name == name;
        return true;
      }
      current := current.next;
      i := i + 1;
    }
    return false;
  }

  /** finding_match. */
  method FindMatch(l: List<Online>, user: int, elo: int) returns (r: int)
    requires l.Valid()
    ensures r == FindingMatch(l.contents, user, elo)
  {
    var current := l.head;
    ghost var i := 0;
    while current != null
      invariant 0 <= i <= |l.nodes|
      invariant if i < |l.nodes| then current == l.nodes[i] else current == null
      invariant FindingMatch(l.contents, user, elo) == FindingMatch(l.contents[i..], user, elo)
      decreases |l.nodes| - i
    {
      assert l.contents[i..][0] == Entry(current.id, current.info) && l.contents[i..][1..] == l.contents[i + 1..];
      if current.id != user && current.info.finding == 1
         && IsBetween(current.info.elo, elo - ELO_THRESHOLD, elo + ELO_THRESHOLD) {
        return current.id;
      }
      current := current.next;
      i := i + 1;
    }
    return -1;
  }

  /** The pair of ratings elo_calculation starts from: one walk, the last node of each id, 0 for a missing one. */
  method CachedRatings(l: List<Online>, winner: int, loser: int) returns (w: int, v: int)
    requires l.Valid() && UniqueIds(l.contents)
    ensures w == RatedAs(l.contents, winner) && v == RatedAs(l.contents, loser)
  {
    w, v := 0, 0;
    var current := l.head;
    ghost var i := 0;
    while current != null
      invariant 0 <= i <= |l.nodes|
      invariant if i < |l.nodes| then current == l.nodes[i] else current == null
      invariant w == if IndexOf(l.contents, winner) < i then RatedAs(l.contents, winner) else 0
      invariant v == if IndexOf(l.contents, loser) < i then RatedAs(l.contents, loser) else 0
      decreases |l.nodes| - i
    {
      HasAt(l.contents, i);
      if current.id == winner {
        w := current.info.elo;
      }
      if current.id == loser {
        v := current.info.elo;
      }
      current := current.next;
      i := i + 1;
    }
  }

  /** elo_calculation: both updates start from the same factors; then the cache is written for both. */
  method EloCalculation(q: Weight, l: List<Online>, winner: int, loser: int, result: real)
    requires l.Valid() && UniqueIds(l.contents)
    modifies l, l.nodes
    ensures l.Valid() && l.contents == Rated(q, old(l.contents), winner, loser, result) && l.nodes == old(l.nodes)
  {
    hide SetElo, Trunc, ExpectedA, ExpectedB, DynamicK;
    var w, v := CachedRatings(l, winner, loser);
    var kw, kv := DynamicK(w), DynamicK(v);
    var ea, eb := ExpectedA(q, w, v), ExpectedB(q, w, v);
    var (w1, v1) := Updated(w, v, kw, kv, ea, eb, result);
    var (w2, v2) := Updated(w1, v1, kw, kv, ea, eb, result);
    UpdateEloOnCaching(l, winner, w2);
    UpdateEloOnCaching(l, loser, v2);
  }

  /** time(NULL) and sleep(1). */
  class Clock {
    var now: int

    method Sleep()
      modifies this
      ensures now >= old(now) + 1
    {
      now := now + 1;
    }
  }

  datatype Outcome = Matched(room: int) | Withdrawn | TimedOut

  /** One pass of the search loop: the time of its scan, the call's own steps, then what others did while it slept. */
  datatype Pass = Pass(at: int, own: seq<Event>, others: seq<Event>)

  /**
   What a pass does in a state, so long after the start: nobody found, it goes on before 10 seconds have passed and
   ends the search after; somebody found, it opens the next room for the two, or ends if the own flag is down.
   */
  ghost predicate Decides(s: State, user: int, elo: int, elapsed: int, own: seq<Event>, outcome: Option<Outcome>) {
    var scan := ServerSpec.Scan(user, elo);
    if FindingMatch(s.online, user, elo) == -1 then
      if elapsed < 10 then outcome == None && own == [scan]
      else if FindingOf(s.online, user) == 0 then outcome == Some(Withdrawn) && own == [scan]
      else outcome == Some(TimedOut) && own == [scan, GiveUp(user)]
    else if FindingOf(s.online, user) == 0 then outcome == Some(Withdrawn) && own == [scan]
    else outcome == Some(Matched(s.nextRoom)) && own == [scan, OpenRoom(|s.claims|)]
  }

  /** The state the scan of pass i meets. */
  function StateAt(q: Weight, s: State, user: int, passes: seq<Pass>, i: nat): State
    requires i <= |passes|
  {
    Exec(q, s, [RaiseFlag(user)] + Flat(passes[..i]))
  }

  function Flat(passes: seq<Pass>): seq<Event> {
    if passes == [] then []
    else var last := passes[|passes| - 1]; Flat(passes[..|passes| - 1]) + last.own + last.others
  }

  class ChessServer {
    const q: Weight
    const online: List<Online>
    const rooms: List<Room>
    var users: map<int, UserRow>
    var nextUser: int
    var rows: map<int, RoomRow>
    var nextRoom: int
    ghost var claims: seq<Pairing>
    ghost var journal: seq<Rating>

    ghost function Value(): State
      reads this, online, rooms
    {
      State(online.contents, rooms.contents, users, nextUser, rows, nextRoom, claims, journal)
    }

    /** Chains in order and a sound value; that cached and stored ratings agree is stated beside it. */
    ghost predicate Valid()
      reads this, online, online.nodes, rooms, rooms.nodes
    {
      online.Valid() && rooms.Valid() && Sound(Value())
    }

    // Nodes linked now were linked before or are new.
    twostate predicate NodesGrow()
      reads this, online, rooms
    {
      && (forall i :: 0 <= i < |online.nodes| ==> online.nodes[i] in old(online.nodes) || fresh(online.nodes[i]))
      && (forall i :: 0 <= i < |rooms.nodes| ==> rooms.nodes[i] in old(rooms.nodes) || fresh(rooms.nodes[i]))
    }

    constructor (q: Weight)
      ensures Valid() && Value() == INITIAL && this.q == q
      ensures fresh(online) && fresh(rooms) && online.nodes == [] && rooms.nodes == []
    {
      this.q := q;
      online := new List<Online>();
      rooms := new List<Room>();
      users, nextUser, rows, nextRoom := map[], 1, map[], 1;
      claims, journal := [], [];
      new;
      InitiallyConsistent();
      ConsistentIff(INITIAL);
    }

    // ---------- user.c ----------

    method HandleRegister(name: string, password: string)
      requires Valid()
      modifies this
      ensures Valid() && Value() == Step(q, old(Value()), Register(name, password))
      ensures old(Consistent(Value())) ==> Consistent(Value())
    {
      hide Consistent, Sound, List.Valid;
      SoundStep(q, Value(), Register(name, password));
      if NameTaken(users, name) {
        return;
      }
      users := users[nextUser := UserRow(name, password, 1000)];
      nextUser := nextUser + 1;
    }

    method HandleLogin(socket: int, name: string, password: string)
      requires Valid()
      modifies this, online
      ensures Valid() && NodesGrow() && Value() == Step(q, old(Value()), Login(socket, name, password))
      ensures old(Consistent(Value())) ==> Consistent(Value())
    {
      hide Consistent, Sound, List.Valid;
      SoundStep(q, Value(), Login(socket, name, password));
      var loggedIn := IsUserAlreadyLoggedIn(online, name);
      if loggedIn {
        return;
      }
      var user := LoginRow(users, name, password, 1, nextUser);
      match user
      case None =>
      case Some(id) => online.AddFirst(id, Online(users[id].elo, socket, users[id].name, 0, 0));
    }

    method RemoveOnlineUser(user: int)
      requires Valid()
      modifies online, online.nodes
      ensures Valid() && NodesGrow() && Value() == Step(q, old(Value()), Exit(user))
      ensures old(Consistent(Value())) ==> Consistent(Value())
    {
      hide Consistent, Sound, List.Valid;
      SoundStep(q, Value(), Exit(user));
      online.RemoveBehind(user);
    }

    // ---------- rooms ----------

    /** create_room_db. */
    method CreateRoomDb(white: int, black: int, total: int) returns (id: int)
      modifies this
      ensures id == old(nextRoom) && nextRoom == old(nextRoom) + 1
              && rows == old(rows)[id := RoomRow(white, black, total, false, None)]
      ensures users == old(users) && nextUser == old(nextUser) && claims == old(claims) && journal == old(journal)
    {
      id := nextRoom;
      rows := rows[id := RoomRow(white, black, total, false, None)];
      nextRoom := nextRoom + 1;
    }

    /** start_game_db. */
    method StartGameDb(room: int, white: int, black: int, total: int)
      modifies this
      ensures rows == SetStarted(old(rows), room, white, black, total) && nextRoom == old(nextRoom)
      ensures users == old(users) && nextUser == old(nextUser) && claims == old(claims) && journal == old(journal)
    {
      if room in rows {
        rows := rows[room := RoomRow(white, black, total, true, rows[room].winner)];
      }
    }

    method HandleCreateRoom(user: int, total: int, strayWhite: int, strayBlack: int)
      requires Valid()
      modifies this, rooms, rooms.nodes
      ensures Valid() && NodesGrow()
              && Value() == Step(q, old(Value()), CreateRoom(user, total, strayWhite, strayBlack))
      ensures old(Consistent(Value())) ==> Consistent(Value())
    {
      hide Consistent, Sound, List.Valid;
      SoundStep(q, Value(), CreateRoom(user, total, strayWhite, strayBlack));
      var id := CreateRoomDb(user, -1, total);
      rooms.AddLast(id, Room(user, -1, total, strayWhite, strayBlack, 0));
    }

    method HandleAcceptOrDeclineInvitation(user: int, invited: int, room: int, isAccept: int)
      requires Valid()
      modifies rooms, rooms.nodes
      ensures Valid() && NodesGrow() && Value() == Step(q, old(Value()), Answer(user, invited, room, isAccept))
      ensures old(Consistent(Value())) ==> Consistent(Value())
    {
      hide Consistent, Sound, List.Valid, SocketOf, Write;
      SoundStep(q, Value(), Answer(user, invited, room, isAccept));
      if isAccept == 0 {
        return;
      }
      var node := rooms.Lookup(room);
      if node == null {
        return;
      }
      var whiteSocket := GetSocket(online, user);
      var blackSocket := GetSocket(online, invited);
      ghost var seated := Seated(online.contents, node.info, user, invited);
      rooms.Overwrite(node, node.info.(whiteSocket := whiteSocket, blackSocket := blackSocket, white := user,
          black := invited));
      assert rooms.contents == Write(old(rooms.contents), room, seated);
    }

    method HandleStartGame(room: int)
      requires Valid()
      modifies this, online, online.nodes
      ensures Valid() && NodesGrow() && Value() == Step(q, old(Value()), StartGame(room))
      ensures old(Consistent(Value())) ==> Consistent(Value())
    {
      hide Consistent, Sound, SetPlaying, SetStarted, List.Valid;
      SoundStep(q, Value(), StartGame(room));
      var node := rooms.Lookup(room);
      if node == null {
        return;
      }
      StartGameDb(room, node.info.white, node.info.black, node.info.total);
      UpdatePlaying(online, node.info.white, 1);
      UpdatePlaying(online, node.info.black, 1);
    }

    // ---------- the end of a game ----------

    /** end_game_and_update_elo: the result row and both elo columns in one transaction. */
    method EndGameAndUpdateElo(room: int, winner: int, winnerElo: int, loser: int, loserElo: int, result: real)
      modifies this
      ensures rows == SetWinner(old(rows), room, if result == 1.0 then winner else 0)
      ensures users == SetDbElo(SetDbElo(old(users), winner, winnerElo), loser, loserElo)
      ensures journal == old(journal) +
              [Rating(room, if result == 1.0 then winner else 0, winner, winnerElo, loser, loserElo)]
      ensures nextUser == old(nextUser) && nextRoom == old(nextRoom) && claims == old(claims)
    {
      var winnerColumn := if result == 1.0 then winner else 0;
      if room in rows {
        rows := rows[room := rows[room].(winner := Some(winnerColumn))];
      }
      if winner in users {
        users := users[winner := users[winner].(elo := winnerElo)];
      }
      if loser in users {
        users := users[loser := users[loser].(elo := loserElo)];
      }
      journal := journal + [Rating(room, winnerColumn, winner, winnerElo, loser, loserElo)];
    }

    /** elo_calculation, and the two ratings end_game_and_update_elo is called with. */
    method WriteCache(user: int, opponent: int, result: real) returns (userElo: int, opponentElo: int)
      requires online.Valid() && UniqueIds(online.contents)
      modifies online, online.nodes
      ensures online.Valid() && online.nodes == old(online.nodes)
      ensures online.contents == Rated(q, old(online.contents), user, opponent, result)
      ensures userElo == EloOf(online.contents, user) && opponentElo == EloOf(online.contents, opponent)
    {
      hide List.Valid, Rated;
      EloCalculation(q, online, user, opponent, result);
      userElo := GetElo(online, user);
      opponentElo := GetElo(online, opponent);
    }

    /**
     sleep(1) inside end_game_and_update_elo: the other threads, which hold the rows and heads they have read, may
     carry out any sound parts but the transaction of this report; another report waits for handle_end_game_mutex.
     So rooms are appended and changed, but not unlinked.
     */
    method SleepInReport(clock: Clock, ghost w: World) returns (ghost meanwhile: seq<Part>, ghost m: World)
      requires Valid() && w.s == Value() && Held(w) && w.report.Some?
      modifies this, online, online.nodes, rooms, rooms.nodes, clock
      ensures Valid() && NodesGrow() && OtherThreads(meanwhile) && SoundRun(q, w, meanwhile)
      ensures m == PartExec(q, w, meanwhile) && Value() == m.s && clock.now >= old(clock.now) + 1
      ensures old(rooms.nodes) <= rooms.nodes
      ensures forall i :: 0 <= i < |old(rooms.nodes)| ==> rooms.nodes[i].id == old(rooms.nodes[i].id)
    {
      hide Consistent, Sound, Held, PartStep, SoundPart, List.Valid;
      clock.Sleep();
      meanwhile, m := [], w;
    }

    lemma IdsInPlace()
      requires rooms.Valid()
      ensures |rooms.nodes| == |rooms.contents|
      ensures forall j :: 0 <= j < |rooms.nodes| ==> rooms.contents[j].id == rooms.nodes[j].id
    {}

    // The node at hand is still the one the id leads to.
    lemma StillThere(node: Node<Room>, i: nat, room: int)
      requires Valid() && i < |rooms.nodes| && rooms.nodes[i] == node && node.id == room
      requires forall j :: 0 <= j < i ==> rooms.nodes[j].id != room
      ensures IsNodeOf(node, room)
    {
      assert forall j :: 0 <= j < i ==> rooms.contents[j].id == rooms.nodes[j].id;
      IndexIs(rooms.contents, room, i);
    }

    /** The node that Lookup found for a listed room. */
    ghost predicate IsNodeOf(node: Node<Room>, room: int)
      reads rooms, rooms.nodes
    {
      && |rooms.nodes| == |rooms.contents| && Has(rooms.contents, room)
      && node == rooms.nodes[IndexOf(rooms.contents, room)] && node.id == room && node.info == Get(rooms.contents, room)
    }

    /** The first report of a room up to its sleep, with the two ratings to store. */
    method CacheReport(e: Event, opponent: int, ghost w: World) returns (userElo: int, opponentElo: int)
      requires Valid() && w.s == Value() && Held(w) && w.report.None?
      requires Ratings.IsRated(w.s, e) && opponent == Ratings.Opponent(w.s, e)
      modifies online, online.nodes
      ensures Valid() && NodesGrow()
      ensures var c := PartStep(q, w, ReportCache(e));
              Value() == c.s && Held(c) && c.report == Some(ReportOf(q, w.s, e))
      ensures var r := ReportOf(q, w.s, e); userElo == r.userElo && opponentElo == r.opponentElo
    {
      hide Consistent, Sound, PartStep, Held, Rated, ReportOf, List.Valid;
      assert UniqueIds(online.contents) by { SoundFacts(w.s); }
      var result := if e.status == 1 then 1.0 else 0.5;
      userElo, opponentElo := WriteCache(e.user, opponent, result);
      CacheIs(q, w, e);
    }

    /** The first report of a room up to the end of its sleep; the ratings to store are read before it. */
    method CacheThenSleep(node: Node<Room>, e: Event, opponent: int, clock: Clock, ghost w: World)
      returns (userElo: int, opponentElo: int, ghost meanwhile: seq<Part>, ghost m: World)
      requires Valid() && w.s == Value() && Held(w) && w.report.None?
      requires Ratings.IsRated(w.s, e) && IsNodeOf(node, e.room) && opponent == Ratings.Opponent(w.s, e)
      modifies this, online, online.nodes, rooms, rooms.nodes, clock
      ensures Valid() && NodesGrow() && Slept(q, w, e, meanwhile, m) && Value() == m.s
      ensures var r := ReportOf(q, w.s, e); userElo == r.userElo && opponentElo == r.opponentElo
      ensures IsNodeOf(node, e.room) && node.info.status == 0 && clock.now >= old(clock.now) + 1
    {
      hide Consistent, Sound, PartExec, PartStep, Held, ReportOf, SoundRun, OtherThreads, List.Valid;
      ghost var i := IndexOf(rooms.contents, e.room);
      IdsInPlace();
      userElo, opponentElo := CacheReport(e, opponent, w);
      meanwhile, m := SleepInReport(clock, PartStep(q, w, ReportCache(e)));
      SleptThrough(q, w, e, meanwhile);
      StillThere(node, i, e.room);
    }

    /** The first report of a room, transaction included. */
    method RateFirstReport(node: Node<Room>, e: Event, clock: Clock, ghost w: World)
      returns (ghost meanwhile: seq<Part>, ghost m: World)
      requires Valid() && w.s == Value() && Held(w) && w.report.None?
      requires Ratings.IsRated(w.s, e) && IsNodeOf(node, e.room)
      modifies this, online, online.nodes, rooms, rooms.nodes, clock
      ensures online.Valid() && rooms.Valid() && NodesGrow() && Slept(q, w, e, meanwhile, m)
      ensures Value() == Recorded(m.s, ReportOf(q, w.s, e)) && IsNodeOf(node, e.room)
      ensures online.contents == m.s.online && rooms.contents == m.s.rooms && OtherThreads(meanwhile)
      ensures clock.now >= old(clock.now) + 1
    {
      hide Consistent, Sound, PartExec, CacheWritten, SetWinner, SetDbElo, List.Valid;
      var opponent := if node.info.whiteSocket == e.socket then node.info.black else node.info.white;
      var result := if e.status == 1 then 1.0 else 0.5;
      var userElo, opponentElo;
      userElo, opponentElo, meanwhile, m := CacheThenSleep(node, e, opponent, clock, w);
      EndGameAndUpdateElo(e.room, e.user, userElo, opponent, opponentElo, result);
    }

    /** The end of handle_end_game: the reporter's mark, and the room's status. */
    method FinishReport(node: Node<Room>, room: int, user: int)
      requires online.Valid() && rooms.Valid() && IsNodeOf(node, room)
      modifies online, online.nodes, rooms, rooms.nodes
      ensures online.Valid() && rooms.Valid() && NodesGrow()
      ensures online.contents == SetPlaying(old(online.contents), user, 0)
      ensures rooms.contents == Advanced(old(rooms.contents), room)
    {
      hide List.Valid, SetPlaying, Advanced;
      UpdatePlaying(online, user, 0);
      AdvanceRoom(node, room);
    }

    /**
     handle_end_game, among the parts of the other threads: one report in two parts, or the second report of the
     room. When those parts are safe, the result is consistent exactly when no player came back during the sleep
     with another rating than the one the report stores.
     */
    method HandleEndGame(socket: int, room: int, user: int, status: int, clock: Clock, ghost w: World)
      returns (ghost meanwhile: seq<Part>)
      requires Valid() && w.s == Value() && Held(w) && w.report.None?
      modifies this, online, online.nodes, rooms, rooms.nodes, clock
      ensures Valid() && NodesGrow() && OtherThreads(meanwhile)
      ensures if Ratings.IsRated(w.s, EndGame(socket, room, user, status)) then clock.now >= old(clock.now) + 1
              else clock.now == old(clock.now)
      ensures var e := EndGame(socket, room, user, status);
              Value() == PartExec(q, w, ReportRun(w.s, e, meanwhile)).s && SoundRun(q, w, ReportRun(w.s, e, meanwhile))
      ensures var e := EndGame(socket, room, user, status);
              Consistent(w.s) ==>
                if Ratings.IsRated(w.s, e)
                then SafeRun(q, PartStep(q, w, ReportCache(e)), meanwhile) ==>
                       (Consistent(Value()) <==> RejoinSafe(q, w, e, meanwhile))
                else Consistent(Value())
    {
      hide Consistent, Sound, DoRate, SetPlaying, Advanced, List.Valid, PartExec, Recorded, RejoinSafe, Slept, Step;
      hide SoundRun, SafeRun, ReportRun, Held, PartStep, ReportOf;
      var e := EndGame(socket, room, user, status);
      ghost var m := w;
      meanwhile := [];
      var node := rooms.Lookup(room);
      if node == null {
        assert Step(q, w.s, e) == w.s by { UnlistedReport(q, w.s, e); }
        OneReport(q, w, e);
        return;
      }
      if node.info.status == 0 {
        meanwhile, m := RateFirstReport(node, e, clock, w);
        FinishReport(node, room, user);
        SlowReport(q, w, e, meanwhile, m, Value());
      } else {
        FinishReport(node, room, user);
        assert Value() == Step(q, w.s, e) by { SecondReportIs(q, w.s, e); }
        OneReport(q, w, e);
      }
    }

    /** The end of handle_end_game: unlink a room with status 1, raise any other status by one. */
    method AdvanceRoom(node: Node<Room>, room: int)
      requires rooms.Valid() && IsNodeOf(node, room)
      modifies rooms, rooms.nodes
      ensures rooms.Valid() && rooms.contents == Advanced(old(rooms.contents), room)
      ensures forall i :: 0 <= i < |rooms.nodes| ==> rooms.nodes[i] in old(rooms.nodes)
    {
      hide List.Valid, Without, Write, Unlink;
      if node.info.status == 1 {
        rooms.RemoveAfter(room);
      } else {
        rooms.Overwrite(node, node.info.(status := node.info.status + 1));
      }
    }

    // ---------- messages to the opponent ----------

    /** Lookups by id, entry by entry. */
    lemma ListedAs(room: int)
      requires Valid()
      ensures Has(rooms.contents, room) <==> exists i :: 0 <= i < |rooms.contents| && rooms.contents[i].id == room
      ensures forall i :: 0 <= i < |rooms.contents| && rooms.contents[i].id == room ==>
                Get(rooms.contents, room) == rooms.contents[i].info
      ensures forall user :: Effects.SocketIs(online.contents, user, SocketOf(online.contents, user))
    {
      hide Sound;
      SoundFacts(Value());
      Effects.ReadAt(rooms.contents, room);
      forall user ensures Effects.SocketIs(online.contents, user, SocketOf(online.contents, user)) {
        Effects.SocketLookup(online.contents, user);
      }
    }

    /** get_list_room: the head a thread reads is the id of the first listed room. */
    method GetListRoom() returns (head: Option<int>)
      requires Valid()
      ensures head == HeadOf(rooms.contents)
      ensures head == None <==> rooms.contents == []
      ensures rooms.contents != [] ==> head == Some(rooms.contents[0].id)
    {
      head := if rooms.head == null then None else Some(rooms.head.id);
    }

    /** handle_move: the socket the move goes to. */
    method HandleMove(socket: int, room: int) returns (target: Option<int>)
      requires Valid()
      ensures target == if Has(rooms.contents, room)
                        then Some(Seats.MoveTarget(Get(rooms.contents, room), socket)) else None
      ensures forall i :: 0 <= i < |rooms.contents| && rooms.contents[i].id == room ==>
                var r := rooms.contents[i].info;
                target == Some(if r.whiteSocket == socket then r.blackSocket else r.whiteSocket)
      ensures (forall i :: 0 <= i < |rooms.contents| ==> rooms.contents[i].id != room) ==> target == None
    {
      ListedAs(room);
      var node := rooms.Lookup(room);
      if node == null {
        return None;
      }
      if node.info.whiteSocket == socket {
        return Some(node.info.blackSocket);
      }
      return Some(node.info.whiteSocket);
    }

    /**
     handle_surrender, handle_pause, handle_resume, handle_draw, handle_accept_or_decline_draw: the socket they
     send to.
     */
    method HandleRelay(socket: int, room: int) returns (target: Option<int>)
      requires Valid()
      ensures target == if Has(rooms.contents, room)
                        then Some(Seats.RelayTarget(online.contents, Get(rooms.contents, room), socket)) else None
      ensures forall i :: 0 <= i < |rooms.contents| && rooms.contents[i].id == room ==>
                var r := rooms.contents[i].info;
                && target.Some?
                && Effects.SocketIs(online.contents, if r.whiteSocket == socket then r.black else r.white, target.value)
      ensures (forall i :: 0 <= i < |rooms.contents| ==> rooms.contents[i].id != room) ==> target == None
    {
      ListedAs(room);
      var node := rooms.Lookup(room);
      if node == null {
        return None;
      }
      var opponent := if node.info.whiteSocket == socket then node.info.black else node.info.white;
      var opponentSocket := GetSocket(online, opponent);
      return Some(opponentSocket);
    }

    /** handle_get_history: one line per row of the query without a null column. */
    method HandleGetHistory(user: int) returns (sent: seq<Seats.Line>)
      requires Valid()
      ensures sent == Seats.History(Value(), user)
    {
      hide List.Valid, Consistent, Seats.LineOf;
      sent := [];
      var room := 1;
      while room < nextRoom
        invariant sent + Seats.Lines(users, rows, user, room, nextRoom) == Seats.History(Value(), user)
      {
        if room in rows {
          var line := Seats.LineOf(users, rows[room], room, user);
          if line.Some? {
            sent := sent + [line.value];
          }
        }
        room := room + 1;
      }
    }

    // ---------- matchmaking ----------

    /** One scan, and the claim of the pair it finds. */
    method Scan(user: int, elo: int) returns (opponent: int, claimed: bool)
      requires Valid()
      modifies this`claims, online, online.nodes
      ensures Valid() && NodesGrow() && Value() == Step(q, old(Value()), ServerSpec.Scan(user, elo))
      ensures old(Consistent(Value())) ==> Consistent(Value())
      ensures opponent == FindingMatch(old(online.contents), user, elo)
      ensures claimed <==> Matchmaking.Claims(old(Value()), ServerSpec.Scan(user, elo))
      ensures claimed ==> claims == old(claims) + [Pairing(user, opponent, elo)]
      ensures !claimed ==> Value() == old(Value())
    {
      hide Consistent, Sound, SetFinding, FindingMatch, FindingOf, List.Valid, Step;
      SoundStep(q, Value(), ServerSpec.Scan(user, elo));
      ScanIs(q, Value(), user, elo);
      opponent := FindMatch(online, user, elo);
      if opponent == -1 {
        return opponent, false;
      }
      var own := GetFinding(online, user);
      var other := GetFinding(online, opponent);
      if own == 0 || other == 0 {
        return opponent, false;
      }
      LowerBoth(online, user, opponent);
      claims := claims + [Pairing(user, opponent, elo)];
      return opponent, true;
    }

    /** create_room_db, the listed room with both sockets, start_game_db. */
    method AddStartedRoom(white: int, black: int) returns (room: int)
      requires online.Valid() && rooms.Valid()
      modifies this, rooms, rooms.nodes
      ensures rooms.Valid() && NodesGrow() && room == old(nextRoom)
      ensures Value() == old(Value()).(
                rooms := old(rooms.contents) + [Entry(room, Room(white, black, DEFAULT_TOTAL_TIME,
                           SocketOf(online.contents, white), SocketOf(online.contents, black), 0))],
                rows := old(rows)[room := RoomRow(white, black, DEFAULT_TOTAL_TIME, true, None)],
                nextRoom := old(nextRoom) + 1)
    {
      hide List.Valid, SocketOf;
      room := CreateRoomDb(white, black, DEFAULT_TOTAL_TIME);
      var whiteSocket := GetSocket(online, white);
      var blackSocket := GetSocket(online, black);
      rooms.AddLast(room, Room(white, black, DEFAULT_TOTAL_TIME, whiteSocket, blackSocket, 0));
      StartGameDb(room, white, black, DEFAULT_TOTAL_TIME);
      assert rows == old(rows)[room := RoomRow(white, black, DEFAULT_TOTAL_TIME, true, None)];
    }

    /** Open the room of the pair claimed last, the lower-rated player as white (assign_user_ids_based_on_elo). */
    method OpenClaimed(user: int, opponent: int, elo: int) returns (room: int)
      requires Valid() && |claims| > 0 && claims[|claims| - 1] == Pairing(user, opponent, elo)
      modifies this, rooms, rooms.nodes
      ensures Valid() && NodesGrow() && Value() == Step(q, old(Value()), OpenRoom(|old(claims)| - 1))
      ensures old(Consistent(Value())) ==> Consistent(Value())
      ensures room == old(nextRoom) && online.contents == old(online.contents)
    {
      hide Consistent, Sound, List.Valid, Step, EloOf, SocketOf;
      SoundStep(q, Value(), OpenRoom(|claims| - 1));
      OpenRoomIs(q, Value(), user, opponent, elo);
      var opponentElo := GetElo(online, opponent);
      if elo < opponentElo {
        room := AddStartedRoom(user, opponent);
      } else {
        room := AddStartedRoom(opponent, user);
      }
      claims := claims[..|claims| - 1];
    }

    /** sleep(1): meanwhile the other threads may carry out any run of events. */
    method Sleep(clock: Clock) returns (ghost run: seq<Event>)
      requires Valid()
      modifies this, online, online.nodes, rooms, rooms.nodes, clock
      ensures Valid() && NodesGrow() && Value() == Exec(q, old(Value()), run)
      ensures old(Consistent(Value())) ==> Consistent(Value())
      ensures clock.now >= old(clock.now) + 1
    {
      hide Consistent, Sound, Step, List.Valid;
      clock.Sleep();
      run := [];
    }

    /** The scan of a pass, and what follows on finding somebody: None to go on, otherwise how the search ended. */
    method TryMatch(user: int, elo: int) returns (outcome: Option<Outcome>, ghost steps: seq<Event>)
      requires Valid()
      modifies this, online, online.nodes, rooms, rooms.nodes
      ensures Valid() && NodesGrow() && Value() == Exec(q, old(Value()), steps)
      ensures old(Consistent(Value())) ==> Consistent(Value())
      ensures outcome.Some? ==> Ended(outcome.value, user)
      ensures if FindingMatch(old(online.contents), user, elo) == -1
              then outcome == None && steps == [ServerSpec.Scan(user, elo)] && Value() == old(Value())
              else outcome.Some? && Decides(old(Value()), user, elo, 0, steps, outcome)
    {
      hide Consistent, Sound, Step, Exec, List.Valid, FindingMatch, FindingOf;
      ghost var before := Value();
      var opponent, claimed := Scan(user, elo);
      ExecOne(q, before, ServerSpec.Scan(user, elo));
      steps := [ServerSpec.Scan(user, elo)];
      if opponent == -1 {
        return None, steps;
      }
      OwnFlagDecides(before, user, elo);
      if !claimed {
        return Some(Withdrawn), steps;
      }
      ghost var claim := |claims| - 1;
      Lowered(q, before, user, elo);
      Opened(q, Value(), claim);
      ExecTwo(q, before, ServerSpec.Scan(user, elo), OpenRoom(claim));
      var room := OpenClaimed(user, opponent, elo);
      return Some(Matched(room)), [ServerSpec.Scan(user, elo), OpenRoom(claim)];
    }

    /** The end of a search that ran out of time. */
    method Expire(user: int) returns (outcome: Outcome, ghost steps: seq<Event>)
      requires Valid()
      modifies online, online.nodes
      ensures Valid() && NodesGrow() && Value() == Exec(q, old(Value()), steps)
      ensures old(Consistent(Value())) ==> Consistent(Value())
      ensures if FindingOf(old(online.contents), user) == 0 then outcome == Withdrawn && steps == []
              else outcome == TimedOut && steps == [GiveUp(user)]
      ensures Ended(outcome, user)
    {
      hide Consistent, Sound, Step, Exec, List.Valid;
      steps := [];
      assert Value() == Exec(q, Value(), steps) by { ExecNone(q, Value()); }
      var own := GetFinding(online, user);
      if own == 0 {
        return Withdrawn, steps;
      }
      SoundStep(q, Value(), GiveUp(user));
      GiveUpIs(q, Value(), user);
      ExecOne(q, Value(), GiveUp(user));
      UpdateFinding(online, user, 0);
      return TimedOut, [GiveUp(user)];
    }

    /** The caller's flag is down, and on a match the room is listed with the caller in a seat. */
    ghost predicate Ended(outcome: Outcome, user: int)
      reads this, online, rooms
    {
      && FindingOf(online.contents, user) != 1
      && (outcome.Matched? ==>
            && Has(rooms.contents, outcome.room)
            && Get(rooms.contents, outcome.room).status == 0
            && user in {Get(rooms.contents, outcome.room).white, Get(rooms.contents, outcome.room).black})
    }

    /** One turn of the search loop: a pass, then the end of the search or a sleep. */
    method OneTurn(user: int, elo: int, start: int, clock: Clock) returns (outcome: Option<Outcome>, ghost pass: Pass)
      requires Valid()
      modifies this, online, online.nodes, rooms, rooms.nodes, clock
      ensures Valid() && NodesGrow() && Value() == Exec(q, Exec(q, old(Value()), pass.own), pass.others)
      ensures old(Consistent(Value())) ==> Consistent(Value())
      ensures pass.at == old(clock.now)
      ensures Decides(old(Value()), user, elo, pass.at - start, pass.own, outcome)
      ensures match outcome
              case Some(end) => Ended(end, user) && clock.now == pass.at && pass.others == []
              case None => clock.now >= pass.at + 1
    {
      hide Consistent, Sound, Step, Exec, List.Valid, Ended, FindingMatch, FindingOf, Flat;
      ghost var before, now := Value(), clock.now;
      var found, steps := TryMatch(user, elo);
      ghost var mid := Exec(q, before, steps);
      ExecNone(q, mid);
      if found.Some? {
        return found, Pass(now, steps, []);
      }
      if clock.now - start >= MAX_SEARCH_TIME {
        ghost var last;
        var end;
        end, last := Expire(user);
        ExecConcat(q, before, steps, last);
        ExecNone(q, Value());
        return Some(end), Pass(now, steps + last, []);
      }
      ghost var others := Sleep(clock);
      return None, Pass(now, steps, others);
    }

    /**
     handle_finding_match, with any events of other threads while it sleeps: raising the flag, then at most 11
     passes of one scan each, at least a second apart, each of which decides by what it finds and by the time. A
     search whose last scan found nobody has lasted 10 seconds. On every way out the caller's flag is down.
     */
    method HandleFindingMatch(user: int, elo: int, clock: Clock) returns (outcome: Outcome, ghost passes: seq<Pass>)
      requires Valid()
      modifies this, online, online.nodes, rooms, rooms.nodes, clock
      ensures Valid() && NodesGrow() && Value() == Exec(q, old(Value()), [RaiseFlag(user)] + Flat(passes))
      ensures old(Consistent(Value())) ==> Consistent(Value())
      ensures 1 <= |passes| <= 11 && passes[0].at == old(clock.now)
      ensures forall i :: 0 <= i < |passes| - 1 ==> passes[i + 1].at >= passes[i].at + 1
      ensures forall i :: 0 <= i < |passes| ==>
                Decides(StateAt(q, old(Value()), user, passes, i), user, elo, passes[i].at - old(clock.now),
                        passes[i].own, if i < |passes| - 1 then None else Some(outcome))
      ensures clock.now == passes[|passes| - 1].at && passes[|passes| - 1].others == []
      ensures outcome.TimedOut? ==> clock.now - old(clock.now) >= 10
      ensures FindingMatch(StateAt(q, old(Value()), user, passes, |passes| - 1).online, user, elo) == -1 ==>
                clock.now - old(clock.now) >= 10
      ensures Ended(outcome, user)
    {
      hide Consistent, Sound, Step, Exec, List.Valid, Flat, Ended, FindingMatch, FindingOf, StateAt, Decides, Ongoing;
      var start := clock.now;
      ghost var before := Value();
      SoundStep(q, before, RaiseFlag(user));
      RaiseIs(q, before, user);
      UpdateFinding(online, user, 1);
      passes := [];
      NoPass(q, before, user, elo, start);
      while true
        invariant Valid() && NodesGrow() && Value() == Exec(q, before, [RaiseFlag(user)] + Flat(passes))
        invariant Consistent(before) ==> Consistent(Value())
        invariant Ongoing(q, before, user, elo, start, passes) && IsNext(start, passes, clock.now)
        decreases start + MAX_SEARCH_TIME - clock.now
      {
        var end, pass := OneTurn(user, elo, start, clock);
        ExtendPasses(q, before, user, passes, pass);
        PassAdded(q, before, user, elo, start, passes, pass, end);
        passes := passes + [pass];
        if end.Some? {
          return end.value, passes;
        }
      }
    }
  }

  // ---------- steps of the search, as facts about states ----------

  lemma ScanIs(q: Weight, s: State, user: int, elo: int)
    ensures var o := FindingMatch(s.online, user, elo);
            Step(q, s, ServerSpec.Scan(user, elo)) == (
              if Matchmaking.Claims(s, ServerSpec.Scan(user, elo))
              then s.(online := SetFinding(SetFinding(s.online, user, 0), o, 0),
                  claims := s.claims + [Pairing(user, o, elo)])
              else s)
  {
    hide SetFinding, FindingMatch;
  }

  lemma OpenRoomIs(q: Weight, s: State, user: int, opponent: int, elo: int)
    requires |s.claims| > 0 && s.claims[|s.claims| - 1] == Pairing(user, opponent, elo)
    ensures var (white, black) := if elo < EloOf(s.online, opponent) then (user, opponent) else (opponent, user);
            var room := Room(white, black, DEFAULT_TOTAL_TIME, SocketOf(s.online, white), SocketOf(s.online, black), 0);
            Step(q, s, OpenRoom(|s.claims| - 1)) == s.(
               rooms := s.rooms + [Entry(s.nextRoom, room)],
               rows := s.rows[s.nextRoom := RoomRow(white, black, DEFAULT_TOTAL_TIME, true, None)],
               nextRoom := s.nextRoom + 1,
               claims := s.claims[..|s.claims| - 1])
  {
    var n := |s.claims|;
    assert s.claims[..n - 1] + s.claims[n..] == s.claims[..n - 1];
  }

  // Whoever a scan finds is searching, so only the searcher's own flag decides.
  lemma OwnFlagDecides(s: State, user: int, elo: int)
    requires Sound(s) && FindingMatch(s.online, user, elo) != -1
    ensures Matchmaking.Claims(s, ServerSpec.Scan(user, elo)) <==> FindingOf(s.online, user) != 0
  {
    hide Consistent;
    Matchmaking.FoundMatches(Mirrored(s), user, elo);
  }

  /** The world after the sleep of a report, in which other threads carried out sound parts. */
  ghost predicate Slept(q: Weight, w: World, e: Event, meanwhile: seq<Part>, m: World)
    requires w.report.None? && Ratings.IsRated(w.s, e)
  {
    var c := PartStep(q, w, ReportCache(e));
    && OtherThreads(meanwhile) && SoundRun(q, c, meanwhile) && m == PartExec(q, c, meanwhile)
    && SoundWorld(m) && m.report == Some(ReportOf(q, w.s, e))
    && Has(m.s.rooms, e.room) && Get(m.s.rooms, e.room).status == 0
  }

  /** The parts of handle_end_game with those of other threads during its sleep. */
  function ReportRun(s: State, e: Event, meanwhile: seq<Part>): seq<Part> {
    if Ratings.IsRated(s, e) then [ReportCache(e)] + meanwhile + [ReportTables] else [Whole(e)]
  }

  lemma SleptThrough(q: Weight, w: World, e: Event, meanwhile: seq<Part>)
    requires SoundWorld(w) && w.report.None? && Ratings.IsRated(w.s, e)
    requires OtherThreads(meanwhile) && SoundRun(q, PartStep(q, w, ReportCache(e)), meanwhile)
    ensures var m := PartExec(q, PartStep(q, w, ReportCache(e)), meanwhile);
            Slept(q, w, e, meanwhile, m) && Sound(m.s)
  {
    hide Sound, PartExec, SoundRun, CacheWritten;
    SoundPartIff(q, w, ReportCache(e));
    QuietRun(q, PartStep(q, w, ReportCache(e)), meanwhile, e.user);
  }

  lemma CacheIs(q: Weight, w: World, e: Event)
    requires SoundWorld(w) && w.report.None? && Ratings.IsRated(w.s, e)
    ensures SoundWorld(PartStep(q, w, ReportCache(e)))
    ensures var c, o := PartStep(q, w, ReportCache(e)), Ratings.Opponent(w.s, e);
            var rated := Rated(q, w.s.online, e.user, o, if e.status == 1 then 1.0 else 0.5);
            && c.s == w.s.(online := rated) && c.report == Some(ReportOf(q, w.s, e))
            && ReportOf(q, w.s, e).userElo == EloOf(rated, e.user) && ReportOf(q, w.s, e).opponentElo == EloOf(rated, o)
  {
    hide Rated, Sound;
    SoundPartIff(q, w, ReportCache(e));
  }

  lemma UnlistedReport(q: Weight, s: State, e: Event)
    requires e.EndGame? && !Has(s.rooms, e.room)
    ensures Step(q, s, e) == s
  {}

  lemma SecondReportIs(q: Weight, s: State, e: Event)
    requires e.EndGame? && Has(s.rooms, e.room) && Get(s.rooms, e.room).status != 0
    ensures Step(q, s, e) == s.(online := SetPlaying(s.online, e.user, 0), rooms := Advanced(s.rooms, e.room))
  {
    hide SetPlaying, Advanced;
  }

  // A report that rates nothing is one step.
  lemma OneReport(q: Weight, w: World, e: Event)
    requires SoundWorld(w) && w.report.None? && e.EndGame? && !Ratings.IsRated(w.s, e)
    ensures var run := ReportRun(w.s, e, []);
            && PartExec(q, w, run).s == Step(q, w.s, e) && SoundRun(q, w, run)
            && Sound(Step(q, w.s, e)) && (Consistent(w.s) ==> Consistent(Step(q, w.s, e)))
  {
    hide Step, Sound, Consistent;
    SoundStep(q, w.s, e);
    assert [Whole(e)][1..] == [];
    assert PartExec(q, PartStep(q, w, Whole(e)), []) == PartStep(q, w, Whole(e));
  }

  // A first report, its sleep, and the rest of it.
  lemma SlowReport(q: Weight, w: World, e: Event, meanwhile: seq<Part>, m: World, t: State)
    requires SoundWorld(w) && w.report.None? && Ratings.IsRated(w.s, e) && Slept(q, w, e, meanwhile, m)
    requires t == Recorded(m.s, ReportOf(q, w.s, e)).(
                    online := SetPlaying(m.s.online, e.user, 0), rooms := Advanced(m.s.rooms, e.room))
    ensures var run := ReportRun(w.s, e, meanwhile);
            PartExec(q, w, run).s == t && SoundRun(q, w, run) && Sound(t)
    ensures Consistent(w.s) && SafeRun(q, PartStep(q, w, ReportCache(e)), meanwhile) ==>
              (Consistent(t) <==> RejoinSafe(q, w, e, meanwhile))
  {
    hide Sound, Consistent, SetPlaying, Advanced, Recorded, CacheWritten, RejoinSafe, SoundRun, SafeRun, PartExec, Held;
    var c := PartStep(q, w, ReportCache(e));
    var end := PartStep(q, m, ReportTables);
    assert end.s == t;
    SoundPartIff(q, m, ReportTables);
    RunsJoin(q, w, ReportCache(e), meanwhile, ReportTables);
    if Consistent(w.s) && SafeRun(q, c, meanwhile) {
      SteadyIsConsistent(w);
      SlowReportIff(q, w, e, meanwhile);
    }
  }

  lemma RunsJoin(q: Weight, w: World, first: Part, middle: seq<Part>, last: Part)
    ensures var c, run := PartStep(q, w, first), [first] + middle + [last];
            && PartExec(q, w, run) == PartStep(q, PartExec(q, c, middle), last)
            && (SoundRun(q, w, run) <==>
                  SoundPart(w, first) && SoundRun(q, c, middle) && SoundPart(PartExec(q, c, middle), last))
  {
    hide PartStep, SoundPart;
    var run := [first] + middle + [last];
    assert run[0] == first && run[1..] == middle + [last];
    AppendPart(q, PartStep(q, w, first), middle, last);
  }

  lemma {:induction false} AppendPart(q: Weight, w: World, run: seq<Part>, last: Part)
    ensures PartExec(q, w, run + [last]) == PartStep(q, PartExec(q, w, run), last)
    ensures SoundRun(q, w, run + [last]) <==> SoundRun(q, w, run) && SoundPart(PartExec(q, w, run), last)
    decreases |run|
  {
    hide PartStep, SoundPart;
    if run == [] {
      assert run + [last] == [last] && [last][1..] == [];
      assert PartExec(q, PartStep(q, w, last), []) == PartStep(q, w, last);
    } else {
      assert (run + [last])[0] == run[0] && (run + [last])[1..] == run[1..] + [last];
      AppendPart(q, PartStep(q, w, run[0]), run[1..], last);
    }
  }

  /** Passes at least a second apart from the start on, none of which ended the search. */
  ghost predicate Ongoing(q: Weight, s: State, user: int, elo: int, start: int, passes: seq<Pass>) {
    && (passes != [] ==> passes[0].at == start)
    && (forall i :: 0 <= i < |passes| - 1 ==> passes[i + 1].at >= passes[i].at + 1)
    && (forall i :: 0 <= i < |passes| ==> passes[i].at - start >= i)
    && forall i :: 0 <= i < |passes| ==>
         Decides(StateAt(q, s, user, passes, i), user, elo, passes[i].at - start, passes[i].own, None)
  }

  /** The time of the next pass: the start, or after a sleep. */
  predicate IsNext(start: int, passes: seq<Pass>, now: int) {
    if passes == [] then now == start else now >= passes[|passes| - 1].at + 1
  }

  lemma NoPass(q: Weight, s: State, user: int, elo: int, start: int)
    ensures [RaiseFlag(user)] + Flat([]) == [RaiseFlag(user)] && Ongoing(q, s, user, elo, start, [])
  {}

  lemma PassAdded(
      q: Weight, s: State, user: int, elo: int, start: int, passes: seq<Pass>, pass: Pass, outcome: Option<Outcome>)
    requires Ongoing(q, s, user, elo, start, passes) && IsNext(start, passes, pass.at)
    requires Decides(Exec(q, s, [RaiseFlag(user)] + Flat(passes)), user, elo, pass.at - start, pass.own, outcome)
    ensures var all := passes + [pass];
            && |all| <= 11 && all[0].at == start
            && (forall i :: 0 <= i < |all| - 1 ==> all[i + 1].at >= all[i].at + 1)
            && (forall i :: 0 <= i < |all| ==>
                  Decides(StateAt(q, s, user, all, i), user, elo, all[i].at - start, all[i].own,
                          if i < |all| - 1 then None else outcome))
    ensures outcome == None ==> Ongoing(q, s, user, elo, start, passes + [pass]) && pass.at - start < MAX_SEARCH_TIME
    ensures outcome == Some(TimedOut) ==> pass.at - start >= 10
    ensures outcome.Some? && FindingMatch(StateAt(q, s, user, passes + [pass], |passes|).online, user, elo) == -1 ==>
              pass.at - start >= 10
  {
    hide Exec, Flat, FindingMatch, FindingOf, StateAt, Decides;
    StatesKept(q, s, user, passes, pass);
    var all, n := passes + [pass], |passes|;
    assert all[n] == pass && forall i :: 0 <= i < n ==> all[i] == passes[i];
    InTime(Exec(q, s, [RaiseFlag(user)] + Flat(passes)), user, elo, pass.at - start, pass.own, outcome);
    if n > 0 {
      var last := passes[n - 1];
      InTime(StateAt(q, s, user, passes, n - 1), user, elo, last.at - start, last.own, None);
    }
    forall i | 0 <= i <= n
      ensures Decides(StateAt(q, s, user, all, i), user, elo, all[i].at - start, all[i].own, if i < n then None
              else outcome)
    {
      assert StateAt(q, s, user, all, i) == StateAt(q, s, user, passes, i);
    }
  }

  lemma InTime(s: State, user: int, elo: int, elapsed: int, own: seq<Event>, outcome: Option<Outcome>)
    requires Decides(s, user, elo, elapsed, own, outcome)
    ensures outcome == None ==> elapsed < 10
    ensures outcome == Some(TimedOut) ==> elapsed >= 10
    ensures outcome.Some? && FindingMatch(s.online, user, elo) == -1 ==> elapsed >= 10
  {
    hide FindingMatch, FindingOf;
  }

  // The run with one more pass.
  lemma ExtendPasses(q: Weight, s: State, user: int, passes: seq<Pass>, pass: Pass)
    ensures Exec(q, s, [RaiseFlag(user)] + Flat(passes + [pass])) ==
            Exec(q, Exec(q, Exec(q, s, [RaiseFlag(user)] + Flat(passes)), pass.own), pass.others)
  {
    hide Step;
    var run := [RaiseFlag(user)] + Flat(passes);
    FlatOneMore(user, passes, pass);
    ExecConcat(q, s, run + pass.own, pass.others);
    ExecConcat(q, s, run, pass.own);
  }

  lemma FlatOneMore(user: int, passes: seq<Pass>, pass: Pass)
    ensures [RaiseFlag(user)] + Flat(passes + [pass]) == ([RaiseFlag(user)] + Flat(passes)) + pass.own + pass.others
  {
    assert (passes + [pass])[..|passes|] == passes;
  }

  lemma StatesKept(q: Weight, s: State, user: int, passes: seq<Pass>, pass: Pass)
    ensures forall i :: 0 <= i <= |passes| ==>
              StateAt(q, s, user, passes + [pass], i) == StateAt(q, s, user, passes, i)
    ensures StateAt(q, s, user, passes, |passes|) == Exec(q, s, [RaiseFlag(user)] + Flat(passes))
  {
    hide Exec, Flat;
    forall i | 0 <= i <= |passes|
      ensures StateAt(q, s, user, passes + [pass], i) == StateAt(q, s, user, passes, i)
    {
      assert (passes + [pass])[..i] == passes[..i];
    }
    assert passes[..|passes|] == passes;
  }

  lemma RaiseIs(q: Weight, s: State, user: int)
    ensures Step(q, s, RaiseFlag(user)) == Exec(q, s, [RaiseFlag(user)]) == s.(online := SetFinding(s.online, user, 1))
  {
    ExecOne(q, s, RaiseFlag(user));
  }

  // After a claim the searcher's flag is down, online or not.
  lemma Lowered(q: Weight, s: State, user: int, elo: int)
    requires Matchmaking.Claims(s, ServerSpec.Scan(user, elo))
    ensures FindingOf(Step(q, s, ServerSpec.Scan(user, elo)).online, user) != 1
  {
    var o := FindingMatch(s.online, user, elo);
    AfterSetFinding(s.online, user, 0);
    AfterSetFinding(SetFinding(s.online, user, 0), o, 0);
  }

  lemma GiveUpIs(q: Weight, s: State, user: int)
    requires FindingOf(s.online, user) != 0
    ensures Step(q, s, GiveUp(user)) == s.(online := SetFinding(s.online, user, 0))
    ensures FindingOf(SetFinding(s.online, user, 0), user) != 1
  {
    AfterSetFinding(s.online, user, 0);
  }

  lemma Opened(q: Weight, s: State, claim: int)
    requires Sound(s) && 0 <= claim < |s.claims|
    ensures var t, p := Step(q, s, OpenRoom(claim)), s.claims[claim];
            && Has(t.rooms, s.nextRoom) && Get(t.rooms, s.nextRoom).status == 0
            && p.user in {Get(t.rooms, s.nextRoom).white, Get(t.rooms, s.nextRoom).black}
  {
    SoundFacts(s);
    hide Sound;
    var t := Step(q, s, OpenRoom(claim));
    AfterAppend(s.rooms, t.rooms[|s.rooms|]);
  }
}
