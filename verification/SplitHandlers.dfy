/**
 The handlers the source does not run as one piece, cut where they hold no lock or sleep: handle_login reads a
 row and adds it later, handle_register inserts after its check, add_room is given a list head read before its
 lock, and handle_end_game sleeps between writing the cache and writing the tables. The parts of all threads
 interleave freely; for each part, the exact condition under which it does no harm.
 */
module SplitHandlers {
  import opened Entries
  import opened Elo
  import opened ServerSpec
  import opened Consistency
  import opened Soundness
  import Matchmaking
  import Ratings
  import Reports

  /** The row performLogin returned to a thread that has not added the user yet. */
  datatype Read = Read(socket: int, id: int, name: string, password: string, elo: int)

  /** A first report that sleeps: its message, the other player, and the two ratings it will store. */
  datatype Report = Report(room: int, user: int, status: int, opponent: int, userElo: int, opponentElo: int)

  /** The server, and what its threads hold between two parts: rows read, list heads read, the report that sleeps. */
  datatype World = World(s: State, logins: seq<Read>, heads: seq<Option<int>>, report: Option<Report>)

  const INITIAL_WORLD := World(INITIAL, [], [], None)

  datatype Part =
    | Whole(e: Event)
    | LoginRead(socket: int, name: string, password: string)
    | LoginAdd(read: nat)
    | RegisterAdd(name: string, password: string)
    | HeadRead
    | RoomAdd(head: nat, e: Event)
    | ReportCache(e: Event)
    | ReportTables

  // ---------- the parts ----------

  /** add_online_user with a row read earlier. */
  function Added(s: State, r: Read): State {
    s.(online := [Entry(r.id, Online(r.elo, r.socket, r.name, 0, 0))] + s.online)
  }

  /** The part of handle_register after its check of the name; the table itself has no UNIQUE constraint. */
  function Registered(s: State, name: string, password: string): State {
    s.(users := s.users[s.nextUser := UserRow(name, password, 1000)], nextUser := s.nextUser + 1)
  }

  /** The id of the first listed room: the pointer get_list_room returns. */
  function HeadOf(rooms: seq<Entry<Room>>): Option<int> {
    if rooms == [] then None else Some(rooms[0].id)
  }

  /**
   add_room with a head read earlier: a null head makes the new room the whole list; from a node that is still
   listed the walk reaches the end; a node that was freed meanwhile leads nowhere, and the room is lost.
   */
  function Linked(rooms: seq<Entry<Room>>, head: Option<int>, room: Entry<Room>): seq<Entry<Room>> {
    match head
    case None => [room]
    case Some(id) => if Has(rooms, id) then rooms + [room] else rooms
  }

  predicate OpensRoom(s: State, e: Event) {
    e.CreateRoom? || (e.OpenRoom? && 0 <= e.claim < |s.claims|)
  }

  function RoomAdded(q: Weight, s: State, head: Option<int>, e: Event): State
    requires OpensRoom(s, e)
  {
    var t := Step(q, s, e);
    t.(rooms := Linked(s.rooms, head, t.rooms[|s.rooms|]))
  }

  /** A first report up to the sleep: elo_calculation. */
  function CacheWritten(q: Weight, s: State, e: Event): State
    requires Ratings.IsRated(s, e)
  {
    s.(online := Rated(q, s.online, e.user, Ratings.Opponent(s, e), Score(e.status)))
  }

  /** What that report holds while it sleeps; the two ratings are read from the cache before. */
  function ReportOf(q: Weight, s: State, e: Event): Report
    requires Ratings.IsRated(s, e)
  {
    var c, o := CacheWritten(q, s, e).online, Ratings.Opponent(s, e);
    Report(e.room, e.user, e.status, o, EloOf(c, e.user), EloOf(c, o))
  }

  /** The transaction of end_game_and_update_elo. */
  function Recorded(s: State, r: Report): State {
    var winner := WinnerColumn(r.user, r.status);
    s.(rows := SetWinner(s.rows, r.room, winner),
       users := SetDbElo(SetDbElo(s.users, r.user, r.userElo), r.opponent, r.opponentElo),
       journal := s.journal + [Rating(r.room, winner, r.user, r.userElo, r.opponent, r.opponentElo)])
  }

  /** The rest of a first report: the transaction, the reporter's mark, the room's status if it is still listed. */
  function TablesWritten(s: State, r: Report): State {
    Recorded(s, r).(online := SetPlaying(s.online, r.user, 0),
                    rooms := if Has(s.rooms, r.room) then Advanced(s.rooms, r.room) else s.rooms)
  }

  function Dropped<T>(s: seq<T>, i: nat): seq<T>
    requires i < |s|
  {
    s[..i] + s[i + 1..]
  }

  /**
   One part of some thread. A report that finds another one asleep waits at handle_end_game_mutex: it happens
   later in the run.
   */
  function PartStep(q: Weight, w: World, p: Part): World {
    match p
    case Whole(e) => if e.EndGame? && w.report.Some? then w else w.(s := Step(q, w.s, e))
    case LoginRead(socket, name, password) =>
      (match LoginRow(w.s.users, name, password, 1, w.s.nextUser)
       case None => w
       case Some(id) => w.(logins := w.logins + [Read(socket, id, name, password, w.s.users[id].elo)]))
    case LoginAdd(i) =>
      if i < |w.logins| then w.(s := Added(w.s, w.logins[i]), logins := Dropped(w.logins, i)) else w
    case RegisterAdd(name, password) => w.(s := Registered(w.s, name, password))
    case HeadRead => w.(heads := w.heads + [HeadOf(w.s.rooms)])
    case RoomAdd(i, e) =>
      if i < |w.heads| && OpensRoom(w.s, e)
      then w.(s := RoomAdded(q, w.s, w.heads[i], e), heads := Dropped(w.heads, i)) else w
    case ReportCache(e) =>
      if w.report.None? && Ratings.IsRated(w.s, e)
      then w.(s := CacheWritten(q, w.s, e), report := Some(ReportOf(q, w.s, e))) else w
    case ReportTables =>
      if w.report.Some? then w.(s := TablesWritten(w.s, w.report.value), report := None) else w
  }

  function PartExec(q: Weight, w: World, run: seq<Part>): World
    decreases |run|
  {
    if run == [] then w else PartExec(q, PartStep(q, w, run[0]), run[1..])
  }

  lemma {:induction false} PartConcat(q: Weight, w: World, a: seq<Part>, b: seq<Part>)
    ensures PartExec(q, w, a + b) == PartExec(q, PartExec(q, w, a), b)
    decreases |a|
  {
    hide PartStep;
    if a == [] {
      assert a + b == b;
    } else {
      assert (a + b)[0] == a[0] && (a + b)[1..] == a[1..] + b;
      PartConcat(q, PartStep(q, w, a[0]), a[1..], b);
    }
  }

  lemma PartTwo(q: Weight, w: World, a: Part, b: Part)
    ensures PartExec(q, w, [a, b]) == PartStep(q, PartStep(q, w, a), b)
  {
    hide PartStep;
    assert [a, b][1..] == [b] && [b][1..] == [];
    var u := PartStep(q, w, a);
    assert PartExec(q, u, [b]) == PartExec(q, PartStep(q, u, b), []);
  }

  /** Dropped a sleep in between, the two parts are the atomic report. */
  lemma PartsMakeReport(q: Weight, w: World, e: Event)
    requires w.report.None? && Ratings.IsRated(w.s, e)
    ensures PartExec(q, w, [ReportCache(e), ReportTables]) == PartStep(q, w, Whole(e))
  {
    hide PartExec, Rated, RateGame, SetPlaying, SetWinner, SetDbElo, Advanced;
    PartTwo(q, w, ReportCache(e), ReportTables);
  }

  // ---------- what each part needs ----------

  /** A walk from this head still reaches the end of the list, or there is no room awaiting a report to lose. */
  predicate SafeHead(rooms: seq<Entry<Room>>, head: Option<int>) {
    match head
    case None => forall i :: 0 <= i < |rooms| ==> rooms[i].info.status != 0
    case Some(id) => Has(rooms, id)
  }

  /** The name is still free when it is added, and the head is still good. */
  predicate SoundPart(w: World, p: Part) {
    match p
    case LoginAdd(i) => i < |w.logins| ==> !NameOnline(w.s.online, w.logins[i].name)
    case RegisterAdd(name, password) => !NameTaken(w.s.users, name)
    case RoomAdd(i, e) => i < |w.heads| && OpensRoom(w.s, e) ==> SafeHead(w.s.rooms, w.heads[i])
    case _ => true
  }

  /** One of the two players whose ratings a sleeping report is about to store. */
  predicate Plays(w: World, user: int) {
    w.report.Some? && (user == w.report.value.user || user == w.report.value.opponent)
  }

  /** The rating the transaction of a report stores for one of its players. */
  function Stored(r: Report, player: int): int {
    if player == r.opponent then r.opponentElo else r.userElo
  }

  /**
   The rating that was read is still the stored one, and a transaction finds its two players, where online,
   with the ratings it stores.
   */
  predicate RatingPart(w: World, p: Part) {
    match p
    case LoginAdd(i) =>
      i < |w.logins| ==>
        var r := w.logins[i];
        Plays(w, r.id) || (r.id in w.s.users && r.elo == w.s.users[r.id].elo)
    case ReportTables =>
      w.report.Some? ==>
        forall p :: p in {w.report.value.user, w.report.value.opponent} && Has(w.s.online, p) ==>
          EloOf(w.s.online, p) == Stored(w.report.value, p)
    case _ => true
  }

  /** The condition on one part, at the moment it happens. */
  predicate SafePart(w: World, p: Part) {
    SoundPart(w, p) && RatingPart(w, p)
  }

  // ---------- what every part keeps ----------

  /** The rows read are rows of the table, and the room of a sleeping report is listed and unrated. */
  ghost predicate Held(w: World) {
    && (forall i :: 0 <= i < |w.logins| ==>
          Credentials(w.s.users, w.logins[i].id, w.logins[i].name, w.logins[i].password))
    && (w.report.Some? ==>
          var r := w.report.value;
          && Has(w.s.rooms, r.room) && Get(w.s.rooms, r.room).status == 0
          && (r.user == r.opponent ==> r.userElo == r.opponentElo))
  }

  /** Everything but the ratings. */
  ghost predicate SoundWorld(w: World) {
    Sound(w.s) && Held(w)
  }

  /** Cached ratings are the stored ones, apart from the two players of a sleeping report. */
  ghost predicate RatingsSettled(w: World) {
    forall k :: Has(w.s.online, k) && !Plays(w, k) ==> k in w.s.users && EloOf(w.s.online, k) == w.s.users[k].elo
  }

  ghost predicate Steady(w: World) {
    SoundWorld(w) && RatingsSettled(w)
  }

  /** While no report sleeps, steady is consistent. */
  lemma SteadyIsConsistent(w: World)
    requires w.report.None? && Held(w)
    ensures Steady(w) <==> Consistent(w.s)
  {
    hide Sound, Consistent, Held;
    ConsistentIff(w.s);
  }

  // No account is ever renamed or removed.
  lemma AccountsStay(q: Weight, s: State, e: Event, k: int)
    requires Sound(s) && k in s.users
    ensures var t := Step(q, s, e);
            k in t.users && t.users[k].name == s.users[k].name && t.users[k].password == s.users[k].password
  {
    hide Step, Sound;
    if e.EndGame? { ReportAccounts(q, s, e, k); } else { QuietUsers(q, s, e); }
  }

  lemma ReportAccounts(q: Weight, s: State, e: Event, k: int)
    requires e.EndGame? && k in s.users
    ensures var t := Step(q, s, e);
            k in t.users && t.users[k].name == s.users[k].name && t.users[k].password == s.users[k].password
  {
    hide Rated, RateGame, SetPlaying, SetWinner, Advanced;
  }

  lemma QuietUsers(q: Weight, s: State, e: Event)
    requires Sound(s) && !e.EndGame?
    ensures forall k :: k in s.users ==> k in Step(q, s, e).users && Step(q, s, e).users[k] == s.users[k]
  {
    NextUserIsNew(s);
    hide Sound, DoRate, SocketOf, EloOf, Unlink, Write, NameOnline, NameTaken, SetPlaying, SetFinding, SetStarted,
         Advanced, FindingMatch, FindingOf, Seated, LoginRow, Colours;
  }

  lemma ListedStays(q: Weight, s: State, e: Event, room: int)
    requires RoomsTable(s) && !e.EndGame? && Has(s.rooms, room)
    ensures var t := Step(q, s, e); Has(t.rooms, room) && Get(t.rooms, room).status == Get(s.rooms, room).status
  {
    assert !Has(s.rooms, s.nextRoom);
    hide RoomsTable, SetPlaying, SetFinding, SetStarted, LoginRow, FindingMatch, FindingOf, Seated;
    var t := Step(q, s, e);
    match e
    case CreateRoom(user, total, strayWhite, strayBlack) => AfterAppend(s.rooms, t.rooms[|s.rooms|]);
    case Answer(user, invited, id, isAccept) => if t.rooms != s.rooms { Reports.SeatedStatus(s, user, invited, id); }
    case OpenRoom(claim) => if t != s { AfterAppend(s.rooms, t.rooms[|s.rooms|]); }
    case _ =>
  }

  // ---------- adding a user ----------

  /** Adding a row read earlier keeps soundness exactly when its name is not online at that moment. */
  lemma AddedSoundIff(s: State, r: Read)
    requires Sound(s) && Credentials(s.users, r.id, r.name, r.password)
    ensures Sound(Added(s, r)) <==> !NameOnline(s.online, r.name)
    ensures !NameOnline(s.online, r.name) ==> !Has(s.online, r.id)
  {
    var t, u := Added(s, r), Mirrored(s).users;
    hide RoomsTable;
    if NameOnline(s.online, r.name) {
      var i :| 0 <= i < |s.online| && s.online[i].info.name == r.name;
      HasAt(s.online, i);
      assert u[s.online[i].id].name == u[r.id].name;
      assert t.online[i + 1].id == t.online[0].id;
      assert !UniqueIds(t.online);
    } else {
      if Has(s.online, r.id) {
        NameOnlineAt(s.online, r.id);
        SoundNames(s, r.id);
      }
      AfterPush(s.online, t.online[0]);
      RoomsUnchanged(Mirrored(s), Mirrored(t));
      TableAlike(u, Mirrored(t).users, s.nextUser);
      AddedAgrees(s, r);
    }
  }

  lemma AddedAgrees(s: State, r: Read)
    requires Sound(s) && Credentials(s.users, r.id, r.name, r.password) && !Has(s.online, r.id)
    ensures CacheAgrees(Added(s, r).online, Mirrored(Added(s, r)).users) && Flags(Added(s, r).online)
  {
    var t := Added(s, r);
    SoundFacts(s);
    AfterPush(s.online, t.online[0]);
    hide Sound, Flags;
    forall k | Has(t.online, k) ensures k in s.users && Get(t.online, k).name == s.users[k].name {
      if k != r.id { SoundNames(s, k); }
    }
    assert Flags(t.online) by { PushedFlags(s.online, t.online[0]); }
  }

  lemma PushedFlags(online: seq<Entry<Online>>, e: Entry<Online>)
    requires Flags(online) && e.info.playing == 0 && e.info.finding == 0
    ensures Flags([e] + online)
  {
    AfterPush(online, e);
  }

  lemma SoundNames(s: State, k: int)
    requires Sound(s) && Has(s.online, k)
    ensures k in s.users && Get(s.online, k).name == s.users[k].name
  {
    hide RoomsTable;
    assert k in Mirrored(s).users;
  }

  /**
   Adding a user whose row was read earlier keeps consistency exactly when the name is not online and the
   rating that was read is the stored one, both at that moment.
   */
  lemma LoginAddedIff(s: State, r: Read)
    requires Consistent(s) && Credentials(s.users, r.id, r.name, r.password)
    ensures Consistent(Added(s, r)) <==> !NameOnline(s.online, r.name) && s.users[r.id].elo == r.elo
  {
    hide Consistent, Sound, NameOnline;
    var t := Added(s, r);
    ConsistentIff(s);
    ConsistentIff(t);
    AddedSoundIff(s, r);
    AfterPush(s.online, t.online[0]);
    if !NameOnline(s.online, r.name) {
      assert EloOf(t.online, r.id) == r.elo && forall k :: k != r.id ==> EloOf(t.online, k) == EloOf(s.online, k);
    }
  }

  // ---------- inserting a user ----------

  /** Inserting a user is safe exactly when the name is not taken at that moment. */
  lemma RegisteredIff(s: State, name: string, password: string)
    requires Consistent(s)
    ensures Consistent(Registered(s, name, password)) <==> !NameTaken(s.users, name)
  {
    hide RoomsTable, CacheAgrees;
    var t := Registered(s, name, password);
    if NameTaken(s.users, name) {
      var id :| id in s.users && s.users[id].name == name;
      assert id in t.users && t.users[id].name == t.users[s.nextUser].name && id != s.nextUser;
      assert !UsersTable(t.users, t.nextUser);
    } else {
      RegisterKeeps(s, name, password);
    }
  }

  lemma RegisteredSoundIff(s: State, name: string, password: string)
    requires Sound(s)
    ensures Sound(Registered(s, name, password)) <==> !NameTaken(s.users, name)
    ensures s.nextUser !in s.users && !Has(s.online, s.nextUser)
  {
    hide Consistent, SameAccounts, NameTaken, Mirrored, Registered;
    var m := Mirrored(s);
    assert m.nextUser == s.nextUser by { MirroredOnly(s); }
    NextUserIsNew(s);
    RegisteredIff(m, name, password);
    MirroredAlike(s);
    NamesAlike(s.users, m.users, name);
    MirroredRegistered(s, name, password);
  }

  lemma MirroredOnly(s: State)
    ensures Mirrored(s) == s.(users := Mirrored(s).users)
  {}

  lemma MirroredRegistered(s: State, name: string, password: string)
    requires s.nextUser !in s.users && !Has(s.online, s.nextUser)
    ensures Mirrored(Registered(s, name, password)) == Registered(Mirrored(s), name, password)
  {}

  lemma NextUserIsNew(s: State)
    requires Sound(s)
    ensures s.nextUser !in s.users && !Has(s.online, s.nextUser)
  {
    hide RoomsTable;
    assert s.nextUser !in Mirrored(s).users;
  }

  // ---------- listing a room ----------

  lemma RoomsDecide(s: State, t: State)
    requires Sound(s) && t.online == s.online && t.users == s.users && t.nextUser == s.nextUser
    ensures Sound(t) <==> RoomsTable(t)
  {
    hide RoomsTable;
    if RoomsTable(t) { RoomsUnchanged(t, Mirrored(t)); }
    if Sound(t) { RoomsUnchanged(Mirrored(t), t); }
  }

  /** Listing a room through a head read earlier keeps every room accounted for exactly when the head is still good. */
  lemma LinkedIff(s: State, t: State, head: Option<int>, room: Room, row: RoomRow)
    requires RoomsTable(s) && room.status == 0 && row.winner.None?
    requires t.rooms == Linked(s.rooms, head, Entry(s.nextRoom, room)) && t.rows == s.rows[s.nextRoom := row]
    requires t.nextRoom == s.nextRoom + 1 && t.journal == s.journal
    ensures RoomsTable(t) <==> SafeHead(s.rooms, head)
  {
    match head
    case Some(id) =>
      if Has(s.rooms, id) {
        OpenKeeps(s, t, room, row);
      } else {
        assert !RatedOnce(t, s.nextRoom);
      }
    case None =>
      if SafeHead(s.rooms, head) {
        assert forall r :: Has(t.rooms, r) <==> r == s.nextRoom;
        forall r | r in t.rows ensures RatedOnce(t, r) {
          if r != s.nextRoom { assert RatedOnce(s, r); }
        }
      } else {
        var i :| 0 <= i < |s.rooms| && s.rooms[i].info.status == 0;
        HasAt(s.rooms, i);
        var r := s.rooms[i].id;
        assert RatedOnce(s, r);
        assert r != s.nextRoom;
        IndexIs(t.rooms, r, 1);
        assert !RatedOnce(t, r);
      }
  }

  lemma OpenedRow(q: Weight, s: State, head: Option<int>, e: Event)
    requires OpensRoom(s, e)
    ensures var t := RoomAdded(q, s, head, e);
            var room := Step(q, s, e).rooms[|s.rooms|];
            && |Step(q, s, e).rooms| == |s.rooms| + 1 && room.id == s.nextRoom && room.info.status == 0
               && s.nextRoom in t.rows && t.rows[s.nextRoom].winner.None?
            && t == s.(rooms := Linked(s.rooms, head, room), rows := s.rows[s.nextRoom := t.rows[s.nextRoom]],
                       nextRoom := s.nextRoom + 1, claims := t.claims)
  {
    hide Linked, EloOf, SocketOf;
  }

  lemma RoomAddedSoundIff(q: Weight, s: State, head: Option<int>, e: Event)
    requires Sound(s) && OpensRoom(s, e)
    ensures Sound(RoomAdded(q, s, head, e)) <==> SafeHead(s.rooms, head)
  {
    hide Sound, RoomsTable, Linked, RoomAdded, Step;
    var t := RoomAdded(q, s, head, e);
    OpenedRow(q, s, head, e);
    SoundFacts(s);
    RoomsDecide(s, t);
    LinkedIff(s, t, head, Step(q, s, e).rooms[|s.rooms|].info, t.rows[s.nextRoom]);
  }

  // The room of a sleeping report is unrated, so a good head keeps it listed.
  lemma LinkedKeeps(s: State, head: Option<int>, room: Entry<Room>, k: int)
    requires Has(s.rooms, k) && Get(s.rooms, k).status == 0 && SafeHead(s.rooms, head) && !Has(s.rooms, room.id)
    ensures var t := Linked(s.rooms, head, room); Has(t, k) && Get(t, k).status == 0
  {
    assert s.rooms[IndexOf(s.rooms, k)].info.status == 0;
    AfterAppend(s.rooms, room);
  }

  // ---------- the two parts of a report ----------

  lemma CacheOnly(q: Weight, s: State, e: Event)
    requires Ratings.IsRated(s, e)
    ensures var c := CacheWritten(q, s, e); c == s.(online := c.online)
  {
    hide Rated, RateGame;
  }

  lemma CacheWrittenSound(q: Weight, s: State, e: Event)
    requires Sound(s) && Ratings.IsRated(s, e)
    ensures var c := CacheWritten(q, s, e);
            && Sound(c)
            && (forall k :: Has(c.online, k) <==> Has(s.online, k))
            && (forall k :: k != e.user && k != Ratings.Opponent(s, e) ==> EloOf(c.online, k) == EloOf(s.online, k))
  {
    hide RoomsTable, RateGame, Rated;
    var c := CacheWritten(q, s, e);
    AfterRated(q, s.online, e.user, Ratings.Opponent(s, e), Score(e.status));
    SoundFacts(s);
    assert RoomsTable(c) by { RoomsUnchanged(s, c); }
    SoundFrom(s, c);
  }

  lemma TablesWrittenSound(s: State, r: Report)
    requires Sound(s) && Has(s.rooms, r.room) && Get(s.rooms, r.room).status == 0
    ensures var t := TablesWritten(s, r);
            && Sound(t)
            && forall k :: Has(t.online, k) == Has(s.online, k) && EloOf(t.online, k) == EloOf(s.online, k)
  {
    hide RoomsTable, Advanced, SetWinner, SetPlaying, Sound;
    var t := TablesWritten(s, r);
    SoundFacts(s);
    AfterSetPlaying(s.online, r.user, 0);
    assert RoomsTable(t) by { ReportKeepsRooms(s, t, r.room, t.journal[|s.journal|]); }
    SoundFrom(s, t);
  }

  lemma StoredAfter(s: State, r: Report, k: int)
    requires k in s.users && (r.user == r.opponent ==> r.userElo == r.opponentElo)
    ensures var t := TablesWritten(s, r);
            && k in t.users && t.users[k] == s.users[k].(elo := t.users[k].elo)
            && t.users[k].elo == if k == r.user || k == r.opponent then Stored(r, k) else s.users[k].elo
  {
    hide Advanced, SetPlaying;
  }

  // ---------- one part ----------

  lemma HeldStays(w: World, t: World)
    requires Held(w) && t.report == w.report
    requires forall i :: 0 <= i < |t.logins| ==> t.logins[i] in w.logins
    requires forall i :: 0 <= i < |w.logins| ==>
               Credentials(t.s.users, w.logins[i].id, w.logins[i].name, w.logins[i].password)
    requires w.report.Some? ==> Has(t.s.rooms, w.report.value.room) && Get(t.s.rooms, w.report.value.room).status == 0
    ensures Held(t)
  {}

  lemma WholeSound(q: Weight, w: World, e: Event)
    requires SoundWorld(w)
    ensures SoundWorld(PartStep(q, w, Whole(e)))
  {
    hide Step, Sound;
    var t := PartStep(q, w, Whole(e));
    if !(e.EndGame? && w.report.Some?) {
      SoundStep(q, w.s, e);
      forall i | 0 <= i < |w.logins|
        ensures Credentials(t.s.users, w.logins[i].id, w.logins[i].name, w.logins[i].password)
      {
        AccountsStay(q, w.s, e, w.logins[i].id);
      }
      if w.report.Some? {
        SoundFacts(w.s);
        ListedStays(q, w.s, e, w.report.value.room);
      }
      HeldStays(w, t);
    }
  }

  lemma RoomAddHeld(q: Weight, w: World, p: Part)
    requires SoundWorld(w) && p.RoomAdd? && p.head < |w.heads| && OpensRoom(w.s, p.e) && SoundPart(w, p)
    ensures Held(PartStep(q, w, p))
  {
    hide Sound, RoomAdded, Linked, SafeHead, OpensRoom, Step;
    var t, head := PartStep(q, w, p), w.heads[p.head];
    OpenedRow(q, w.s, head, p.e);
    if w.report.Some? {
      SoundFacts(w.s);
      LinkedKeeps(w.s, head, Step(q, w.s, p.e).rooms[|w.s.rooms|], w.report.value.room);
    }
    HeldStays(w, t);
  }

  lemma RoomAddSoundIff(q: Weight, w: World, p: Part)
    requires SoundWorld(w) && p.RoomAdd?
    ensures SoundWorld(PartStep(q, w, p)) <==> SoundPart(w, p)
  {
    hide Sound, RoomAdded, Linked, SafeHead, OpensRoom;
    if p.head < |w.heads| && OpensRoom(w.s, p.e) {
      var t, head := PartStep(q, w, p), w.heads[p.head];
      RoomAddedSoundIff(q, w.s, head, p.e);
      OpenedRow(q, w.s, head, p.e);
      if SafeHead(w.s.rooms, head) {
        assert Held(t) by { RoomAddHeld(q, w, p); }
      }
    }
  }

  lemma ReportPartsSound(q: Weight, w: World, p: Part)
    requires SoundWorld(w) && (p.ReportCache? || p.ReportTables?)
    ensures SoundWorld(PartStep(q, w, p))
  {
    hide Sound, CacheWritten, TablesWritten;
    var t := PartStep(q, w, p);
    if t != w {
      if p.ReportCache? {
        CacheWrittenSound(q, w.s, p.e);
        CacheOnly(q, w.s, p.e);
      } else {
        var r := w.report.value;
        TablesWrittenSound(w.s, r);
        forall i | 0 <= i < |w.logins|
          ensures Credentials(t.s.users, w.logins[i].id, w.logins[i].name, w.logins[i].password)
        {
          StoredAfter(w.s, r, w.logins[i].id);
        }
      }
    }
  }

  /** Unique ids and names, and every room accounted for, survive a part if and only if it is sound. */
  lemma SoundPartIff(q: Weight, w: World, p: Part)
    requires SoundWorld(w)
    ensures SoundWorld(PartStep(q, w, p)) <==> SoundPart(w, p)
  {
    hide Sound, Step, LoginRow, NameOnline, NameTaken;
    var t := PartStep(q, w, p);
    match p
    case Whole(e) => WholeSound(q, w, e);
    case LoginAdd(i) =>
      if i < |w.logins| {
        AddedSoundIff(w.s, w.logins[i]);
        HeldStays(w, t);
      }
    case RegisterAdd(name, password) =>
      RegisteredSoundIff(w.s, name, password);
      HeldStays(w, t);
    case RoomAdd(i, e) => hide PartStep, SoundPart; RoomAddSoundIff(q, w, p);
    case ReportCache(e) => hide PartStep; ReportPartsSound(q, w, p);
    case ReportTables => hide PartStep; ReportPartsSound(q, w, p);
    case _ =>
  }

  // ---------- ratings after one part ----------

  // One step other than a report, seen from one user who is online after it.
  lemma QuietStep(q: Weight, s: State, e: Event, k: int)
    requires Sound(s) && !e.EndGame? && Has(Step(q, s, e).online, k)
    ensures var t := Step(q, s, e);
            if e.Login? && t != s && t.online != [] && t.online[0].id == k
            then k in t.users && EloOf(t.online, k) == t.online[0].info.elo == t.users[k].elo
            else Has(s.online, k) && EloOf(t.online, k) == EloOf(s.online, k)
  {
    hide Step, Consistent;
    var t, m := Step(q, s, e), Mirrored(s);
    MirrorStep(q, s, e);
    assert !Ratings.IsRated(m, e);
    if Has(s.online, k) { Matchmaking.EloStays(q, m, e, k); }
    if e.Login? { QuietLogin(q, s, e, k); } else { OnlyLoginsJoin(q, m, e, k); }
  }

  lemma QuietLogin(q: Weight, s: State, e: Event, k: int)
    requires Sound(s) && e.Login? && Has(Step(q, s, e).online, k)
    ensures var t := Step(q, s, e);
            if t == s then Has(s.online, k)
            else
              && t.online != []
              && if t.online[0].id == k
                 then !Has(s.online, k) && k in t.users && EloOf(t.online, k) == t.online[0].info.elo == t.users[k].elo
                 else Has(s.online, k) && EloOf(t.online, k) == EloOf(s.online, k)
  {
    hide Consistent, LoginRow;
    var t, m := Step(q, s, e), Mirrored(s);
    if t != s {
      MirroredAlike(s);
      LoginRowAlike(s.users, m.users, e.name, e.password, 1, s.nextUser);
      LoginChanges(m, e);
      Matchmaking.LoginIsNew(m, e.socket, e.name, e.password);
      AfterPush(s.online, t.online[0]);
    }
  }

  lemma OnlyLoginsJoin(q: Weight, s: State, e: Event, k: int)
    requires Consistent(s) && !e.Login? && Has(Step(q, s, e).online, k)
    ensures Has(s.online, k)
  {
    hide Rated, RateGame, SetPlaying, SetFinding, SetWinner, Advanced, SetStarted, Seated, Consistent;
    ConsistentLists(s);
    match e
    case Exit(user) => AfterUnlink(s.online, user);
    case StartGame(room) => if Has(s.rooms, room) { Matchmaking.PlayingOnly(s.online, Get(s.rooms, room)); }
    case EndGame(socket, room, user, status) => Matchmaking.EndGameElo(q, s, e, k);
    case RaiseFlag(user) => AfterSetFinding(s.online, user, 1);
    case Scan(user, elo) =>
      AfterSetFinding(s.online, user, 0);
      AfterSetFinding(SetFinding(s.online, user, 0), FindingMatch(s.online, user, elo), 0);
    case GiveUp(user) => AfterSetFinding(s.online, user, 0);
    case _ =>
  }

  lemma WholeSettled(q: Weight, w: World, e: Event)
    requires Steady(w)
    ensures RatingsSettled(PartStep(q, w, Whole(e)))
  {
    hide Step, Sound, Consistent;
    if e.EndGame? {
      if w.report.None? {
        SteadyIsConsistent(w);
        StepKeeps(q, w.s, e);
        ConsistentIff(Step(q, w.s, e));
      }
    } else {
      var t := PartStep(q, w, Whole(e));
      QuietUsers(q, w.s, e);
      forall k | Has(t.s.online, k) && !Plays(t, k) ensures k in t.s.users && EloOf(t.s.online, k) == t.s.users[k].elo {
        QuietStep(q, w.s, e, k);
      }
    }
  }

  lemma AddSettledIff(q: Weight, w: World, i: nat)
    requires Steady(w) && SoundPart(w, LoginAdd(i))
    ensures RatingsSettled(PartStep(q, w, LoginAdd(i))) <==> RatingPart(w, LoginAdd(i))
  {
    hide Sound;
    if i < |w.logins| {
      var t, r := PartStep(q, w, LoginAdd(i)), w.logins[i];
      AddedSoundIff(w.s, r);
      AfterPush(w.s.online, t.s.online[0]);
      assert EloOf(t.s.online, r.id) == r.elo && Has(t.s.online, r.id);
      assert forall k :: k != r.id ==> EloOf(t.s.online, k) == EloOf(w.s.online, k);
    }
  }

  lemma TablesSettledIff(q: Weight, w: World)
    requires Steady(w)
    ensures RatingsSettled(PartStep(q, w, ReportTables)) <==> RatingPart(w, ReportTables)
  {
    hide Sound, TablesWritten;
    if w.report.Some? {
      var t, r := PartStep(q, w, ReportTables), w.report.value;
      TablesWrittenSound(w.s, r);
      SoundFacts(w.s);
      forall k | Has(w.s.online, k)
        ensures k in t.s.users && t.s.users[k].elo == if Plays(w, k) then Stored(r, k) else w.s.users[k].elo
      {
        StoredAfter(w.s, r, k);
      }
    }
  }

  lemma OtherSettled(q: Weight, w: World, p: Part)
    requires Steady(w) && (p.RegisterAdd? || p.RoomAdd? || p.ReportCache?)
    ensures RatingsSettled(PartStep(q, w, p))
  {
    hide Sound, CacheWritten, RoomAdded, OpensRoom;
    match p
    case RegisterAdd(name, password) => RegisteredSoundIff(w.s, name, password);
    case RoomAdd(i, e) => if i < |w.heads| && OpensRoom(w.s, e) { OpenedRow(q, w.s, w.heads[i], e); }
    case ReportCache(e) =>
      if Ratings.IsRated(w.s, e) {
        CacheWrittenSound(q, w.s, e);
        CacheOnly(q, w.s, e);
      }
  }

  /** One part keeps the world steady if and only if it is safe when it happens. */
  lemma SafePartIff(q: Weight, w: World, p: Part)
    requires Steady(w)
    ensures Steady(PartStep(q, w, p)) <==> SafePart(w, p)
  {
    hide SoundWorld;
    SoundPartIff(q, w, p);
    if SoundPart(w, p) {
      hide PartStep, RatingsSettled, SoundPart;
      match p
      case Whole(e) => WholeSettled(q, w, e);
      case LoginRead(socket, name, password) => ReadSettled(q, w, p);
      case HeadRead => ReadSettled(q, w, p);
      case LoginAdd(i) => AddSettledIff(q, w, i);
      case ReportTables => TablesSettledIff(q, w);
      case _ => OtherSettled(q, w, p);
    }
  }

  lemma ReadSettled(q: Weight, w: World, p: Part)
    requires Steady(w) && (p.LoginRead? || p.HeadRead?)
    ensures RatingsSettled(PartStep(q, w, p))
  {
    hide Sound, LoginRow;
  }

  // ---------- runs ----------

  predicate SafeRun(q: Weight, w: World, run: seq<Part>)
    decreases |run|
  {
    run == [] || (SafePart(w, run[0]) && SafeRun(q, PartStep(q, w, run[0]), run[1..]))
  }

  predicate SoundRun(q: Weight, w: World, run: seq<Part>)
    decreases |run|
  {
    run == [] || (SoundPart(w, run[0]) && SoundRun(q, PartStep(q, w, run[0]), run[1..]))
  }

  /** Steady after every part of the run. */
  ghost predicate AlwaysSteady(q: Weight, w: World, run: seq<Part>)
    decreases |run|
  {
    run == [] || (Steady(PartStep(q, w, run[0])) && AlwaysSteady(q, PartStep(q, w, run[0]), run[1..]))
  }

  /** Over any interleaving: steady after every part if and only if every part is safe when it happens. */
  lemma {:induction false} SplitRunIff(q: Weight, w: World, run: seq<Part>)
    requires Steady(w)
    ensures AlwaysSteady(q, w, run) <==> SafeRun(q, w, run)
    ensures SafeRun(q, w, run) ==> Steady(PartExec(q, w, run))
    decreases |run|
  {
    hide Steady, PartStep, SafePart;
    if run != [] {
      SafePartIff(q, w, run[0]);
      if SafePart(w, run[0]) { SplitRunIff(q, PartStep(q, w, run[0]), run[1..]); }
    }
  }

  lemma {:induction false} SoundOverParts(q: Weight, w: World, run: seq<Part>)
    requires SoundWorld(w) && SoundRun(q, w, run)
    ensures SoundWorld(PartExec(q, w, run))
    decreases |run|
  {
    hide SoundWorld, PartStep, SoundPart;
    if run != [] {
      SoundPartIff(q, w, run[0]);
      SoundOverParts(q, PartStep(q, w, run[0]), run[1..]);
    }
  }

  lemma {:induction false} SafeIsSound(q: Weight, w: World, run: seq<Part>)
    requires SafeRun(q, w, run)
    ensures SoundRun(q, w, run)
    decreases |run|
  {
    hide PartStep, SoundPart, RatingPart;
    if run != [] { SafeIsSound(q, PartStep(q, w, run[0]), run[1..]); }
  }

  lemma InitiallySteady()
    ensures Steady(INITIAL_WORLD)
  {
    InitiallyConsistent();
    ConsistentIff(INITIAL);
  }

  /**
   After every safe run: ids and names of online users are distinct, and their cached ratings are the stored
   ones, apart from the two players of a report that sleeps at that moment.
   */
  lemma CacheAgreementSplit(q: Weight, run: seq<Part>)
    requires SafeRun(q, INITIAL_WORLD, run)
    ensures var w := PartExec(q, INITIAL_WORLD, run);
            && (forall i :: 0 <= i < |w.s.online| && !Plays(w, w.s.online[i].id) ==>
                  w.s.online[i].id in w.s.users && w.s.online[i].info.elo == w.s.users[w.s.online[i].id].elo)
            && (forall i, j :: 0 <= i < j < |w.s.online| ==>
                  w.s.online[i].id != w.s.online[j].id && w.s.online[i].info.name != w.s.online[j].info.name)
  {
    hide PartExec, SafeRun, Sound;
    InitiallySteady();
    SplitRunIff(q, INITIAL_WORLD, run);
    var w := PartExec(q, INITIAL_WORLD, run);
    SoundEntries(w.s);
  }

  // Soundness, entry by entry of the online list.
  lemma SoundEntries(s: State)
    requires Sound(s)
    ensures forall i :: 0 <= i < |s.online| ==>
              Has(s.online, s.online[i].id) && EloOf(s.online, s.online[i].id) == s.online[i].info.elo
    ensures forall i, j :: 0 <= i < j < |s.online| ==>
              s.online[i].id != s.online[j].id && s.online[i].info.name != s.online[j].info.name
  {
    hide Consistent;
    SoundFacts(s);
    EntriesAgree(Mirrored(s));
    forall i | 0 <= i < |s.online|
      ensures Has(s.online, s.online[i].id) && EloOf(s.online, s.online[i].id) == s.online[i].info.elo
    {
      HasAt(s.online, i);
    }
  }
}
