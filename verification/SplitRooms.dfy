/**
 Rooms over whole runs of split handlers: when every room stays accounted for, and how often a room is rated.
 */
module SplitRooms {
  import opened Entries
  import opened Elo
  import opened ServerSpec
  import opened Consistency
  import opened SplitHandlers
  import Ratings

  // ---------- rooms: accounted for exactly while heads are good ----------

  predicate GoodHead(w: World, p: Part) {
    p.RoomAdd? ==> SoundPart(w, p)
  }

  predicate GoodHeads(q: Weight, w: World, run: seq<Part>)
    decreases |run|
  {
    run == [] || (GoodHead(w, run[0]) && GoodHeads(q, PartStep(q, w, run[0]), run[1..]))
  }

  /** Every room is listed and unrated, or rated once; the room of a sleeping report is listed and unrated. */
  ghost predicate RoomsHeld(w: World) {
    && RoomsTable(w.s)
    && (w.report.Some? ==>
          Has(w.s.rooms, w.report.value.room) && Get(w.s.rooms, w.report.value.room).status == 0)
  }

  ghost predicate AlwaysRoomsHeld(q: Weight, w: World, run: seq<Part>)
    decreases |run|
  {
    run == [] || (RoomsHeld(PartStep(q, w, run[0])) && AlwaysRoomsHeld(q, PartStep(q, w, run[0]), run[1..]))
  }

  lemma RoomsStep(q: Weight, s: State, e: Event)
    requires RoomsTable(s)
    ensures RoomsTable(Step(q, s, e))
  {
    hide RoomsTable;
    match e
    case CreateRoom(user, total, strayWhite, strayBlack) =>
      OpenKeeps(s, Step(q, s, e), Room(user, -1, total, strayWhite, strayBlack, 0),
                RoomRow(user, -1, total, false, None));
    case Answer(user, invited, room, isAccept) =>
      if Step(q, s, e) != s { SeatsKeep(s, Step(q, s, e), room, Seated(s.online, Get(s.rooms, room), user, invited)); }
    case StartGame(room) => StartGameKeepsRooms(s, room);
    case EndGame(socket, room, user, status) => EndGameKeepsRooms(q, s, socket, room, user, status);
    case OpenRoom(claim) =>
      var t := Step(q, s, e);
      if t != s { OpenKeeps(s, t, t.rooms[|s.rooms|].info, t.rows[s.nextRoom]); }
    case _ => RoomsUnchanged(s, Step(q, s, e));
  }

  lemma RoomAddHeldIff(q: Weight, w: World, p: Part)
    requires RoomsHeld(w) && p.RoomAdd?
    ensures RoomsHeld(PartStep(q, w, p)) <==> GoodHead(w, p)
  {
    if p.head < |w.heads| && OpensRoom(w.s, p.e) {
      var t, head := PartStep(q, w, p), w.heads[p.head];
      assert !Has(w.s.rooms, w.s.nextRoom);
      OpenedRow(q, w.s, head, p.e);
      hide RoomsTable, RoomAdded, Linked, SafeHead, OpensRoom, Step;
      var room := Step(q, w.s, p.e).rooms[|w.s.rooms|];
      LinkedIff(w.s, t.s, head, room.info, t.s.rows[w.s.nextRoom]);
      if w.report.Some? && SafeHead(w.s.rooms, head) { LinkedKeeps(w.s, head, room, w.report.value.room); }
    }
  }

  lemma TablesHeld(q: Weight, w: World)
    requires RoomsHeld(w)
    ensures RoomsHeld(PartStep(q, w, ReportTables))
  {
    hide RoomsTable, Advanced, SetWinner, SetDbElo, SetPlaying;
    if w.report.Some? {
      var t := PartStep(q, w, ReportTables).s;
      ReportKeepsRooms(w.s, t, w.report.value.room, t.journal[|w.s.journal|]);
    }
  }

  lemma RoomsPartIff(q: Weight, w: World, p: Part)
    requires RoomsHeld(w)
    ensures RoomsHeld(PartStep(q, w, p)) <==> GoodHead(w, p)
  {
    hide RoomsTable, Step, LoginRow, Rated, TablesWritten, SoundPart, RoomAdded;
    var t := PartStep(q, w, p);
    match p
    case Whole(e) =>
      RoomsStep(q, w.s, e);
      if w.report.Some? && !e.EndGame? { ListedStays(q, w.s, e, w.report.value.room); }
    case RoomAdd(i, e) => RoomAddHeldIff(q, w, p);
    case ReportTables => TablesHeld(q, w);
    case _ => RoomsUnchanged(w.s, t.s);
  }

  /** Over any interleaving, safe logins or not: every room is accounted for after every part iff heads are good. */
  lemma {:induction false} RoomsRunIff(q: Weight, w: World, run: seq<Part>)
    requires RoomsHeld(w)
    ensures AlwaysRoomsHeld(q, w, run) <==> GoodHeads(q, w, run)
    ensures GoodHeads(q, w, run) ==> RoomsHeld(PartExec(q, w, run))
    decreases |run|
  {
    hide RoomsHeld, PartStep, GoodHead;
    if run != [] {
      RoomsPartIff(q, w, run[0]);
      if GoodHead(w, run[0]) { RoomsRunIff(q, PartStep(q, w, run[0]), run[1..]); }
    }
  }

  /** With good heads, a room that has a row and is no longer listed has been rated exactly once. */
  lemma RatedOnceSplit(q: Weight, run: seq<Part>, room: int)
    requires GoodHeads(q, INITIAL_WORLD, run)
    ensures var s := PartExec(q, INITIAL_WORLD, run).s;
            room in s.rows && !Has(s.rooms, room) ==> RatingsOf(s.journal, room) == 1
  {
    InitiallyConsistent();
    RoomsRunIff(q, INITIAL_WORLD, run);
    var s := PartExec(q, INITIAL_WORLD, run).s;
    if room in s.rows { assert RatedOnce(s, room); }
  }

  // ---------- rooms: rated at most once, come what may ----------

  /** Listed rooms have been rated as often as their status says, others at most once; also when rooms were lost. */
  ghost predicate RatedLittle(w: World) {
    && UniqueIds(w.s.rooms)
    && (forall r :: Has(w.s.rooms, r) ==>
          r < w.s.nextRoom && Get(w.s.rooms, r).status in {0, 1}
          && RatingsOf(w.s.journal, r) == Get(w.s.rooms, r).status)
    && (forall r :: RatingsOf(w.s.journal, r) <= 1 && (r >= w.s.nextRoom ==> RatingsOf(w.s.journal, r) == 0))
    && (w.report.Some? ==>
          var r := w.report.value.room;
          r < w.s.nextRoom && RatingsOf(w.s.journal, r) == 0)
  }

  // The lists of rooms a part can leave, apart from reports.
  lemma LittleStays(w: World, t: World)
    requires RatedLittle(w) && UniqueIds(t.s.rooms) && t.s.nextRoom >= w.s.nextRoom
    requires t.s.journal == w.s.journal && t.report == w.report
    requires forall r :: Has(t.s.rooms, r) ==>
               if Has(w.s.rooms, r) then Get(t.s.rooms, r).status == Get(w.s.rooms, r).status
               else w.s.nextRoom <= r < t.s.nextRoom && Get(t.s.rooms, r).status == 0
    ensures RatedLittle(t)
  {}

  lemma LittleReport(w: World, t: World, room: int, entry: Rating)
    requires RatedLittle(w) && RatingsOf(w.s.journal, room) == 0 && room < w.s.nextRoom && entry.room == room
    requires t.s.rooms == (if Has(w.s.rooms, room) then Advanced(w.s.rooms, room) else w.s.rooms)
    requires t.s.journal == w.s.journal + [entry] && t.s.nextRoom == w.s.nextRoom && t.report.None?
    ensures RatedLittle(t)
  {
    if Has(w.s.rooms, room) { AdvancedRooms(w.s.rooms, room); }
    forall r ensures RatingsOf(t.s.journal, r) == RatingsOf(w.s.journal, r) + if r == room then 1 else 0 {
      RatingsAppend(w.s.journal, entry, r);
    }
  }

  lemma LittleSecond(w: World, t: World, room: int)
    requires RatedLittle(w) && Has(w.s.rooms, room) && Get(w.s.rooms, room).status != 0
    requires t.s.rooms == Advanced(w.s.rooms, room) && t.s.journal == w.s.journal && t.s.nextRoom == w.s.nextRoom
    requires t.report.None?
    ensures RatedLittle(t)
  {
    AdvancedRooms(w.s.rooms, room);
  }

  lemma LittleWhole(q: Weight, w: World, e: Event)
    requires RatedLittle(w)
    ensures RatedLittle(PartStep(q, w, Whole(e)))
  {
    hide RatedLittle, SetPlaying, SetFinding, SetStarted, LoginRow, FindingMatch, FindingOf, Seated, DoRate, Advanced;
    var t := PartStep(q, w, Whole(e));
    match e
    case CreateRoom(user, total, strayWhite, strayBlack) => LittleOpened(q, w, t, e);
    case OpenRoom(claim) => LittleOpened(q, w, t, e);
    case Answer(user, invited, room, isAccept) => LittleAnswer(w, t, e);
    case EndGame(socket, room, user, status) =>
      if w.report.None? && Has(w.s.rooms, room) { hide Step; LittleEndGame(q, w, t, e); }
    case _ => LittleSame(w, t);
  }

  lemma LittleSame(w: World, t: World)
    requires RatedLittle(w) && t.s.rooms == w.s.rooms && t.s.nextRoom == w.s.nextRoom
    requires t.s.journal == w.s.journal && t.report == w.report
    ensures RatedLittle(t)
  {}

  lemma LittleOpened(q: Weight, w: World, t: World, e: Event)
    requires RatedLittle(w) && (e.CreateRoom? || e.OpenRoom?) && t == w.(s := Step(q, w.s, e))
    ensures RatedLittle(t)
  {
    if t.s != w.s {
      OpenedRow(q, w.s, HeadOf(w.s.rooms), e);
      AfterAppend(w.s.rooms, t.s.rooms[|w.s.rooms|]);
      hide Step;
      LittleStays(w, t);
    }
  }

  lemma LittleAnswer(w: World, t: World, e: Event)
    requires RatedLittle(w) && e.Answer? && t == w.(s := DoAnswer(w.s, e.user, e.invited, e.room, e.isAccept))
    ensures RatedLittle(t)
  {
    if Has(w.s.rooms, e.room) {
      AfterWrite(w.s.rooms, e.room, Seated(w.s.online, Get(w.s.rooms, e.room), e.user, e.invited));
      LittleStays(w, t);
    }
  }

  lemma LittleEndGame(q: Weight, w: World, t: World, e: Event)
    requires RatedLittle(w) && e.EndGame? && w.report.None? && Has(w.s.rooms, e.room)
    requires t == w.(s := Step(q, w.s, e))
    ensures RatedLittle(t)
  {
    hide RatedLittle, SetPlaying, Rated, SetWinner, SetDbElo, Advanced;
    if Get(w.s.rooms, e.room).status == 0 {
      assert RatingsOf(w.s.journal, e.room) == 0 && e.room < w.s.nextRoom by { ListedUnrated(w, e.room); }
      LittleReport(w, t, e.room, t.s.journal[|w.s.journal|]);
    } else {
      LittleSecond(w, t, e.room);
    }
  }

  lemma ListedUnrated(w: World, room: int)
    requires RatedLittle(w) && Has(w.s.rooms, room) && Get(w.s.rooms, room).status == 0
    ensures RatingsOf(w.s.journal, room) == 0 && room < w.s.nextRoom
  {}

  lemma LittleAdd(q: Weight, w: World, p: Part)
    requires RatedLittle(w) && p.RoomAdd?
    ensures RatedLittle(PartStep(q, w, p))
  {
    if p.head < |w.heads| && OpensRoom(w.s, p.e) {
      var t, head := PartStep(q, w, p), w.heads[p.head];
      OpenedRow(q, w.s, head, p.e);
      var room := Step(q, w.s, p.e).rooms[|w.s.rooms|];
      hide Step, RoomAdded, OpensRoom;
      assert Has([room], room.id) && Get([room], room.id) == room.info;
      AfterAppend(w.s.rooms, room);
      LittleStays(w, t);
    }
  }

  lemma LittlePart(q: Weight, w: World, p: Part)
    requires RatedLittle(w)
    ensures RatedLittle(PartStep(q, w, p))
  {
    hide RatedLittle, Step, LoginRow, Rated, SetPlaying, SetWinner, SetDbElo, Advanced, RoomAdded;
    var t := PartStep(q, w, p);
    match p
    case Whole(e) => LittleWhole(q, w, e);
    case RoomAdd(i, e) => LittleAdd(q, w, p);
    case ReportCache(e) => if t != w { LittleAsleep(w, t, e); }
    case ReportTables =>
      if t != w {
        assert RatingsOf(w.s.journal, w.report.value.room) == 0 && w.report.value.room < w.s.nextRoom by {
          SleepingUnrated(w);
        }
        LittleReport(w, t, w.report.value.room, t.s.journal[|w.s.journal|]);
      }
    case _ => LittleSame(w, t);
  }

  lemma SleepingUnrated(w: World)
    requires RatedLittle(w) && w.report.Some?
    ensures RatingsOf(w.s.journal, w.report.value.room) == 0 && w.report.value.room < w.s.nextRoom
  {}

  lemma LittleAsleep(w: World, t: World, e: Event)
    requires RatedLittle(w) && Ratings.IsRated(w.s, e) && t.report.Some? && t.report.value.room == e.room
    requires t.s.rooms == w.s.rooms && t.s.nextRoom == w.s.nextRoom && t.s.journal == w.s.journal
    ensures RatedLittle(t)
  {}

  lemma {:induction false} LittleOverRun(q: Weight, w: World, run: seq<Part>)
    requires RatedLittle(w)
    ensures RatedLittle(PartExec(q, w, run))
    decreases |run|
  {
    hide RatedLittle, PartStep;
    if run != [] {
      LittlePart(q, w, run[0]);
      LittleOverRun(q, PartStep(q, w, run[0]), run[1..]);
    }
  }

  /** In every interleaving, unsafe parts and lost rooms included, each room id is rated at most once. */
  lemma RatedAtMostOnceSplit(q: Weight, run: seq<Part>, room: int)
    ensures RatingsOf(PartExec(q, INITIAL_WORLD, run).s.journal, room) <= 1
  {
    LittleOverRun(q, INITIAL_WORLD, run);
  }

  // ---------- a lost room ----------

  /** It has an id, is not listed, was never rated, and no report of it sleeps. */
  predicate Lost(w: World, room: int) {
    && room < w.s.nextRoom && !Has(w.s.rooms, room) && RatingsOf(w.s.journal, room) == 0
    && (w.report.Some? ==> w.report.value.room != room)
  }

  lemma LostWhole(q: Weight, w: World, e: Event, room: int)
    requires RatedLittle(w) && Lost(w, room)
    ensures Lost(PartStep(q, w, Whole(e)), room)
  {
    hide RatedLittle, SetPlaying, SetFinding, SetStarted, LoginRow, FindingMatch, FindingOf, Seated, DoRate, Advanced;
    var t := PartStep(q, w, Whole(e));
    match e
    case CreateRoom(user, total, strayWhite, strayBlack) => LostOpened(q, w, HeadOf(w.s.rooms), e, room);
    case OpenRoom(claim) => if OpensRoom(w.s, e) { LostOpened(q, w, HeadOf(w.s.rooms), e, room); }
    case Answer(user, invited, id, isAccept) =>
      AfterWrite(w.s.rooms, id, if Has(w.s.rooms, id) then Seated(w.s.online, Get(w.s.rooms, id), user, invited)
                                else Room(0, 0, 0, 0, 0, 0));
    case EndGame(socket, id, user, status) =>
      if w.report.None? && Has(w.s.rooms, id) {
        assert UniqueIds(w.s.rooms) by { ListsUnique(w); }
        AdvancedRooms(w.s.rooms, id);
        hide Step;
        LostReport(q, w, t, e, room);
      }
    case _ =>
  }

  lemma ListsUnique(w: World)
    requires RatedLittle(w)
    ensures UniqueIds(w.s.rooms) && !Has(w.s.rooms, w.s.nextRoom)
  {}

  lemma LostOpened(q: Weight, w: World, head: Option<int>, e: Event, room: int)
    requires RatedLittle(w) && Lost(w, room) && OpensRoom(w.s, e)
    ensures !Has(Step(q, w.s, e).rooms, room) && !Has(RoomAdded(q, w.s, head, e).rooms, room)
    ensures room < Step(q, w.s, e).nextRoom && Step(q, w.s, e).journal == w.s.journal
  {
    ListsUnique(w);
    OpenedRow(q, w.s, head, e);
    var t := Step(q, w.s, e).rooms;
    var x := t[|w.s.rooms|];
    AfterAppend(w.s.rooms, x);
    hide RatedLittle, EloOf, SocketOf;
    assert t == w.s.rooms + [x];
    assert !Has([x], room);
  }

  lemma LostReport(q: Weight, w: World, t: World, e: Event, room: int)
    requires Lost(w, room) && e.EndGame? && w.report.None? && Has(w.s.rooms, e.room) && t == w.(s := Step(q, w.s, e))
    requires forall k :: Has(Advanced(w.s.rooms, e.room), k) ==> Has(w.s.rooms, k)
    ensures Lost(t, room)
  {
    hide SetPlaying, Rated, SetWinner, SetDbElo, Advanced;
    if Get(w.s.rooms, e.room).status == 0 { RatingsAppend(w.s.journal, t.s.journal[|w.s.journal|], room); }
  }

  lemma LostPart(q: Weight, w: World, p: Part, room: int)
    requires RatedLittle(w) && Lost(w, room)
    ensures Lost(PartStep(q, w, p), room)
  {
    hide RatedLittle, Step, LoginRow, Rated, SetPlaying, SetWinner, SetDbElo, Advanced, RoomAdded, OpensRoom;
    var t := PartStep(q, w, p);
    match p
    case Whole(e) => LostWhole(q, w, e, room);
    case RoomAdd(i, e) =>
      if i < |w.heads| && OpensRoom(w.s, e) {
        LostOpened(q, w, w.heads[i], e, room);
        OpenedRow(q, w.s, w.heads[i], e);
      }
    case ReportTables =>
      if w.report.Some? {
        ListsUnique(w);
        if Has(w.s.rooms, w.report.value.room) { AdvancedRooms(w.s.rooms, w.report.value.room); }
        RatingsAppend(w.s.journal, t.s.journal[|w.s.journal|], room);
      }
    case _ =>
  }

  /** A lost room stays lost: no run lists it or rates it. */
  lemma {:induction false} LostForGood(q: Weight, w: World, run: seq<Part>, room: int)
    requires RatedLittle(w) && Lost(w, room)
    ensures Lost(PartExec(q, w, run), room)
    decreases |run|
  {
    hide RatedLittle, PartStep, Lost;
    if run != [] {
      LittlePart(q, w, run[0]);
      LostPart(q, w, run[0], room);
      LostForGood(q, PartStep(q, w, run[0]), run[1..], room);
    }
  }
}
