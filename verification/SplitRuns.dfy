/**
 Whole runs of split handlers: which of them amount to atomic runs, and what they do to the sum of all ratings.
 */
module SplitRuns {
  import opened Entries
  import opened Elo
  import opened ServerSpec
  import opened Consistency
  import opened Soundness
  import opened SplitHandlers
  import Ratings

  /** The tables and rooms once this report is done. */
  function SettledBy(s: State, r: Report): State {
    Recorded(s, r).(rooms := if Has(s.rooms, r.room) then Advanced(s.rooms, r.room) else s.rooms)
  }

  /** The state with the effect of the sleeping report on tables and rooms already there. */
  function Settled(w: World): State {
    if w.report.Some? then SettledBy(w.s, w.report.value) else w.s
  }

  // ---------- playing marks do not matter to anything else ----------

  function Unmarked(o: Online): Online {
    o.(playing := 0)
  }

  function Erased(online: seq<Entry<Online>>): seq<Entry<Online>> {
    seq(|online|, i requires 0 <= i < |online| => Entry(online[i].id, Unmarked(online[i].info)))
  }

  /** A state without its playing marks. */
  function Forget(s: State): State {
    s.(online := Erased(s.online))
  }

  lemma ErasedIndex(o: seq<Entry<Online>>, k: int)
    ensures IndexOf(Erased(o), k) == IndexOf(o, k)
    ensures Has(o, k) ==> Get(Erased(o), k) == Unmarked(Get(o, k))
  {
    IndexIs(Erased(o), k, IndexOf(o, k));
  }

  lemma ErasedWrite(o: seq<Entry<Online>>, k: int, v: Online)
    ensures Erased(Write(o, k, v)) == Write(Erased(o), k, Unmarked(v))
  {
    ErasedIndex(o, k);
  }

  lemma ErasedTwice(o: seq<Entry<Online>>)
    ensures Erased(Erased(o)) == Erased(o)
  {}

  lemma ErasedPlaying(o: seq<Entry<Online>>, k: int, playing: int)
    ensures Erased(SetPlaying(o, k, playing)) == Erased(o)
  {
    ErasedIndex(o, k);
    if Has(o, k) {
      ErasedWrite(o, k, Get(o, k).(playing := playing));
      assert Write(Erased(o), k, Unmarked(Get(o, k))) == Erased(o);
    }
  }

  lemma ErasedFinding(o: seq<Entry<Online>>, k: int, finding: int)
    ensures Erased(SetFinding(o, k, finding)) == SetFinding(Erased(o), k, finding)
  {
    ErasedIndex(o, k);
    if Has(o, k) { ErasedWrite(o, k, Get(o, k).(finding := finding)); }
  }

  lemma ErasedElo(o: seq<Entry<Online>>, k: int, elo: int)
    ensures Erased(SetElo(o, k, elo)) == SetElo(Erased(o), k, elo)
  {
    ErasedIndex(o, k);
    if Has(o, k) { ErasedWrite(o, k, Get(o, k).(elo := elo)); }
  }

  lemma ErasedUnlink(o: seq<Entry<Online>>, k: int)
    ensures Erased(Unlink(o, k)) == Unlink(Erased(o), k)
  {
    ErasedIndex(o, k);
  }

  lemma ErasedReads(o: seq<Entry<Online>>, k: int)
    ensures EloOf(Erased(o), k) == EloOf(o, k) && SocketOf(Erased(o), k) == SocketOf(o, k)
    ensures FindingOf(Erased(o), k) == FindingOf(o, k) && RatedAs(Erased(o), k) == RatedAs(o, k)
  {
    ErasedIndex(o, k);
  }

  lemma {:induction false} ErasedMatch(o: seq<Entry<Online>>, user: int, elo: int)
    ensures FindingMatch(Erased(o), user, elo) == FindingMatch(o, user, elo)
    decreases |o|
  {
    if o != [] {
      assert Erased(o)[1..] == Erased(o[1..]);
      ErasedMatch(o[1..], user, elo);
    }
  }

  lemma ErasedName(o: seq<Entry<Online>>, name: string)
    ensures NameOnline(Erased(o), name) <==> NameOnline(o, name)
  {
    if i :| 0 <= i < |o| && o[i].info.name == name { assert Erased(o)[i].info.name == name; }
    if i :| 0 <= i < |o| && Erased(o)[i].info.name == name { assert o[i].info.name == name; }
  }

  lemma ErasedRated(q: Weight, o: seq<Entry<Online>>, user: int, opponent: int, score: real)
    ensures Erased(Rated(q, o, user, opponent, score)) == Rated(q, Erased(o), user, opponent, score)
  {
    hide RateGame, SetElo, Erased;
    var (a, b) := RateGame(q, RatedAs(o, user), RatedAs(o, opponent), score);
    ErasedReads(o, user);
    ErasedReads(o, opponent);
    ErasedElo(o, user, a);
    ErasedElo(SetElo(o, user, a), opponent, b);
  }

  // One step on a state and on the state without its playing marks.
  lemma StepForgets(q: Weight, s: State, e: Event)
    ensures Forget(Step(q, s, e)) == Forget(Step(q, Forget(s), e))
  {
    hide Erased, SetPlaying, SetFinding, FindingMatch, LoginRow, Rated, Unlink, SetStarted, NameOnline, EloOf, SocketOf;
    hide FindingOf;
    ErasedTwice(s.online);
    match e
    case Login(socket, name, password) => LoginForgets(q, s, e);
    case Exit(user) => ErasedUnlink(s.online, user); ErasedUnlink(Erased(s.online), user);
    case Answer(user, invited, room, isAccept) => ErasedReads(s.online, user); ErasedReads(s.online, invited);
    case StartGame(room) => if Has(s.rooms, room) { StartForgets(q, s, Get(s.rooms, room)); }
    case EndGame(socket, room, user, status) => hide Step; EndGameForgets(q, s, e);
    case RaiseFlag(user) => ErasedFinding(s.online, user, 1); ErasedFinding(Erased(s.online), user, 1);
    case Scan(user, elo) => hide Step; ScanForgets(q, s, e);
    case OpenRoom(claim) => hide Step; OpenForgets(q, s, e);
    case GiveUp(user) =>
      ErasedReads(s.online, user);
      ErasedFinding(s.online, user, 0);
      ErasedFinding(Erased(s.online), user, 0);
    case _ =>
  }

  lemma LoginForgets(q: Weight, s: State, e: Event)
    requires e.Login?
    ensures Forget(Step(q, s, e)) == Forget(Step(q, Forget(s), e))
  {
    hide LoginRow, NameOnline;
    ErasedName(s.online, e.name);
    ErasedTwice(s.online);
    match LoginRow(s.users, e.name, e.password, 1, s.nextUser)
    case None =>
    case Some(id) =>
      var x := Entry(id, Online(s.users[id].elo, e.socket, s.users[id].name, 0, 0));
      assert Erased([x] + s.online) == [x] + Erased(s.online) == Erased([x] + Erased(s.online));
  }

  lemma StartForgets(q: Weight, s: State, r: Room)
    ensures Erased(SetPlaying(SetPlaying(s.online, r.white, 1), r.black, 1)) == Erased(s.online)
    ensures Erased(SetPlaying(SetPlaying(Erased(s.online), r.white, 1), r.black, 1)) == Erased(s.online)
  {
    hide Erased, SetPlaying;
    ErasedPlaying(s.online, r.white, 1);
    ErasedPlaying(SetPlaying(s.online, r.white, 1), r.black, 1);
    ErasedPlaying(Erased(s.online), r.white, 1);
    ErasedPlaying(SetPlaying(Erased(s.online), r.white, 1), r.black, 1);
    ErasedTwice(s.online);
  }

  lemma EndGameForgets(q: Weight, s: State, e: Event)
    requires e.EndGame?
    ensures Forget(Step(q, s, e)) == Forget(Step(q, Forget(s), e))
  {
    hide Erased, SetPlaying, Rated, SetDbElo, SetWinner, Advanced, EloOf, RateGame;
    ErasedTwice(s.online);
    if Has(s.rooms, e.room) {
      ErasedPlaying(s.online, e.user, 0);
      ErasedPlaying(Erased(s.online), e.user, 0);
      if Get(s.rooms, e.room).status == 0 {
        RateForgets(q, s, e.room, e.user, OpponentOf(Get(s.rooms, e.room), e.socket), e.status);
        hide DoRate;
        var d := DoRate(q, s, e.room, e.user, OpponentOf(Get(s.rooms, e.room), e.socket), e.status).online;
        ErasedPlaying(d, e.user, 0);
        ErasedPlaying(Erased(d), e.user, 0);
        ErasedTwice(d);
      }
    }
  }

  lemma RateForgets(q: Weight, s: State, room: int, user: int, opponent: int, status: int)
    ensures DoRate(q, Forget(s), room, user, opponent, status) == Forget(DoRate(q, s, room, user, opponent, status))
  {
    hide Erased, Rated, SetDbElo, SetWinner, EloOf;
    var rated := Rated(q, s.online, user, opponent, Score(status));
    ErasedRated(q, s.online, user, opponent, Score(status));
    ErasedReads(rated, user);
    ErasedReads(rated, opponent);
  }

  lemma ScanForgets(q: Weight, s: State, e: Event)
    requires e.Scan?
    ensures Forget(Step(q, s, e)) == Forget(Step(q, Forget(s), e))
  {
    hide Erased, SetFinding, FindingMatch, FindingOf;
    var o := FindingMatch(s.online, e.user, e.elo);
    ErasedTwice(s.online);
    ErasedMatch(s.online, e.user, e.elo);
    ErasedReads(s.online, e.user);
    ErasedReads(s.online, o);
    ErasedFinding(s.online, e.user, 0);
    ErasedFinding(SetFinding(s.online, e.user, 0), o, 0);
    ErasedTwice(SetFinding(SetFinding(s.online, e.user, 0), o, 0));
  }

  lemma OpenForgets(q: Weight, s: State, e: Event)
    requires e.OpenRoom?
    ensures Forget(Step(q, s, e)) == Forget(Step(q, Forget(s), e))
  {
    hide Erased, EloOf, SocketOf;
    ErasedTwice(s.online);
    if 0 <= e.claim < |s.claims| {
      var p := s.claims[e.claim];
      ErasedReads(s.online, p.user);
      ErasedReads(s.online, p.opponent);
    }
  }

  lemma {:induction false} ExecForgets(q: Weight, s: State, t: State, run: seq<Event>)
    requires Forget(s) == Forget(t)
    ensures Forget(Exec(q, s, run)) == Forget(Exec(q, t, run))
    decreases |run|
  {
    hide Step, Forget;
    if run != [] {
      StepForgets(q, s, run[0]);
      StepForgets(q, t, run[0]);
      ExecForgets(q, Step(q, s, run[0]), Step(q, t, run[0]), run[1..]);
    }
  }

  // ---------- a sleeping report, and a step of another thread ----------

  /**
   The step does not depend on what the sleeping report has yet to store: nobody logs in with a rating it
   changes, and nobody registers under an id it names.
   */
  predicate TimelyEvent(s: State, r: Report, e: Event) {
    match e
    case Login(socket, name, password) =>
      (match LoginRow(s.users, name, password, 1, s.nextUser)
       case None => true
       case Some(id) => NameOnline(s.online, name) || SettledBy(s, r).users[id].elo == s.users[id].elo)
    case Register(name, password) => s.nextUser != r.user && s.nextUser != r.opponent
    case EndGame(socket, room, user, status) => false
    case _ => true
  }

  lemma StoredAccounts(users: map<int, UserRow>, r: Report)
    ensures SameAccounts(users, SetDbElo(SetDbElo(users, r.user, r.userElo), r.opponent, r.opponentElo))
  {}

  lemma AdvancedAppend(rooms: seq<Entry<Room>>, room: int, x: Entry<Room>)
    requires Has(rooms, room) && Get(rooms, room).status == 0 && !Has(rooms, x.id)
    ensures Has(rooms + [x], room) && Advanced(rooms + [x], room) == Advanced(rooms, room) + [x]
  {
    IndexIs(rooms + [x], room, IndexOf(rooms, room));
  }

  lemma AdvancedSeats(rooms: seq<Entry<Room>>, room: int, online: seq<Entry<Online>>, k: int, white: int, black: int)
    requires Has(rooms, room) && Get(rooms, room).status == 0 && Has(rooms, k)
    ensures var t := Write(rooms, k, Seated(online, Get(rooms, k), white, black));
            var a := Advanced(rooms, room);
            && Has(t, room) && Has(a, k)
            && Advanced(t, room) == Write(a, k, Seated(online, Get(a, k), white, black))
  {
    var t := Write(rooms, k, Seated(online, Get(rooms, k), white, black));
    var a := Advanced(rooms, room);
    AfterWrite(rooms, k, Seated(online, Get(rooms, k), white, black));
    AfterWrite(rooms, room, Get(rooms, room).(status := 1));
    IndexIs(t, room, IndexOf(rooms, room));
    IndexIs(a, k, IndexOf(rooms, k));
  }

  lemma NewRowCommutes(users: map<int, UserRow>, r: Report, id: int, row: UserRow)
    requires id != r.user && id != r.opponent
    ensures SetDbElo(SetDbElo(users[id := row], r.user, r.userElo), r.opponent, r.opponentElo) ==
            SetDbElo(SetDbElo(users, r.user, r.userElo), r.opponent, r.opponentElo)[id := row]
  {}

  lemma RegisterCommutes(q: Weight, s: State, r: Report, e: Event)
    requires e.Register? && TimelyEvent(s, r, e)
    ensures SettledBy(Step(q, s, e), r) == Step(q, SettledBy(s, r), e)
  {
    StoredAccounts(s.users, r);
    hide Advanced, SetWinner, NameTaken, SetDbElo, SameAccounts;
    NamesAlike(s.users, SettledBy(s, r).users, e.name);
    NewRowCommutes(s.users, r, s.nextUser, UserRow(e.name, e.password, 1000));
  }

  lemma LoginCommutes(q: Weight, s: State, r: Report, e: Event)
    requires e.Login? && TimelyEvent(s, r, e)
    ensures SettledBy(Step(q, s, e), r) == Step(q, SettledBy(s, r), e)
  {
    hide Advanced, SetWinner, SetDbElo, NameOnline, LoginRow;
    StoredAccounts(s.users, r);
    LoginRowAlike(s.users, SettledBy(s, r).users, e.name, e.password, 1, s.nextUser);
  }

  // A new row and a listed room, before and after the report.
  lemma OpenedCommutes(s: State, t: State, r: Report, x: Entry<Room>, row: RoomRow)
    requires Has(s.rooms, r.room) && Get(s.rooms, r.room).status == 0 && !Has(s.rooms, x.id)
    requires t == s.(rooms := s.rooms + [x], rows := s.rows[x.id := row], nextRoom := t.nextRoom, claims := t.claims)
    ensures var u := SettledBy(s, r);
            SettledBy(t, r) == u.(rooms := u.rooms + [x], rows := u.rows[x.id := row],
                                  nextRoom := t.nextRoom, claims := t.claims)
  {
    AdvancedAppend(s.rooms, r.room, x);
    assert SetWinner(t.rows, r.room, WinnerColumn(r.user, r.status)) ==
           SetWinner(s.rows, r.room, WinnerColumn(r.user, r.status))[x.id := row];
    hide SetDbElo, Advanced, SetWinner;
  }

  lemma CreateCommutes(q: Weight, s: State, r: Report, e: Event)
    requires Has(s.rooms, r.room) && Get(s.rooms, r.room).status == 0 && !Has(s.rooms, s.nextRoom)
    requires e.CreateRoom? || e.OpenRoom?
    ensures SettledBy(Step(q, s, e), r) == Step(q, SettledBy(s, r), e)
  {
    var t := Step(q, s, e);
    if OpensRoom(s, e) {
      OpenedCommutes(s, t, r, t.rooms[|s.rooms|], t.rows[s.nextRoom]);
    }
    hide SetDbElo, EloOf, SocketOf, Advanced, SetWinner;
  }

  lemma AnswerCommutes(q: Weight, s: State, r: Report, e: Event)
    requires Has(s.rooms, r.room) && Get(s.rooms, r.room).status == 0 && e.Answer?
    ensures SettledBy(Step(q, s, e), r) == Step(q, SettledBy(s, r), e)
  {
    hide SetDbElo, SocketOf, Write, Advanced, SetWinner, Seated;
    if Has(s.rooms, e.room) {
      AdvancedSeats(s.rooms, r.room, s.online, e.room, e.user, e.invited);
    } else {
      AdvancedFinds(s.rooms, r.room, e.room);
    }
  }

  lemma StartCommutes(q: Weight, s: State, r: Report, e: Event)
    requires Has(s.rooms, r.room) && Get(s.rooms, r.room).status == 0 && e.StartGame?
    ensures SettledBy(Step(q, s, e), r) == Step(q, SettledBy(s, r), e)
  {
    hide SetDbElo, SetPlaying, Advanced;
    AdvancedFinds(s.rooms, r.room, e.room);
  }

  lemma RoomsCommute(q: Weight, s: State, r: Report, e: Event)
    requires Has(s.rooms, r.room) && Get(s.rooms, r.room).status == 0 && !Has(s.rooms, s.nextRoom)
    requires e.CreateRoom? || e.OpenRoom? || e.Answer? || e.StartGame?
    ensures SettledBy(Step(q, s, e), r) == Step(q, SettledBy(s, r), e)
  {
    hide Step, SettledBy;
    match e
    case Answer(user, invited, room, isAccept) => AnswerCommutes(q, s, r, e);
    case StartGame(room) => StartCommutes(q, s, r, e);
    case _ => CreateCommutes(q, s, r, e);
  }

  lemma AdvancedFinds(rooms: seq<Entry<Room>>, room: int, k: int)
    requires Has(rooms, room) && Get(rooms, room).status == 0
    ensures var a := Advanced(rooms, room);
            && (Has(a, k) <==> Has(rooms, k))
            && (Has(a, k) ==> Get(a, k) == Get(rooms, k).(status := Get(a, k).status))
  {
    AfterWrite(rooms, room, Get(rooms, room).(status := 1));
  }

  lemma StepCommutes(q: Weight, s: State, r: Report, e: Event)
    requires Has(s.rooms, r.room) && Get(s.rooms, r.room).status == 0 && !Has(s.rooms, s.nextRoom)
    requires TimelyEvent(s, r, e)
    ensures SettledBy(Step(q, s, e), r) == Step(q, SettledBy(s, r), e)
  {
    hide Advanced, SetWinner, SetDbElo, SetFinding, FindingMatch, FindingOf, Unlink;
    match e
    case Register(name, password) => RegisterCommutes(q, s, r, e);
    case Login(socket, name, password) => LoginCommutes(q, s, r, e);
    case Exit(user) =>
    case RaiseFlag(user) =>
    case Scan(user, elo) =>
    case GiveUp(user) =>
    case _ => hide Step, SettledBy; RoomsCommute(q, s, r, e);
  }

  // ---------- timely runs are atomic runs ----------

  /** Sound, no rating outdated by the report that sleeps, and no head read before another room was listed. */
  predicate TimelyPart(w: World, p: Part) {
    SoundPart(w, p)
    && match p
       case Whole(e) => w.report.Some? && !e.EndGame? ==> TimelyEvent(w.s, w.report.value, e)
       case LoginAdd(i) =>
         i < |w.logins| ==>
           var r := w.logins[i];
           r.id in Settled(w).users && r.elo == Settled(w).users[r.id].elo
       case RegisterAdd(name, password) => !Plays(w, w.s.nextUser)
       case RoomAdd(i, e) => i < |w.heads| && w.heads[i].None? ==> w.s.rooms == []
       case _ => true
  }

  predicate TimelyRun(q: Weight, w: World, run: seq<Part>)
    decreases |run|
  {
    run == [] || (TimelyPart(w, run[0]) && TimelyRun(q, PartStep(q, w, run[0]), run[1..]))
  }

  /** The atomic event a part stands for; a report happens when it writes the cache. */
  function AtomicPart(w: World, p: Part): seq<Event> {
    match p
    case Whole(e) => if e.EndGame? && w.report.Some? then [] else [e]
    case LoginAdd(i) =>
      if i < |w.logins| then [Login(w.logins[i].socket, w.logins[i].name, w.logins[i].password)] else []
    case RegisterAdd(name, password) => [Register(name, password)]
    case RoomAdd(i, e) => if i < |w.heads| && OpensRoom(w.s, e) then [e] else []
    case ReportCache(e) => if w.report.None? && Ratings.IsRated(w.s, e) then [e] else []
    case _ => []
  }

  function AtomicRun(q: Weight, w: World, run: seq<Part>): seq<Event>
    decreases |run|
  {
    if run == [] then [] else AtomicPart(w, run[0]) + AtomicRun(q, PartStep(q, w, run[0]), run[1..])
  }

  lemma WholeIsAtomic(q: Weight, w: World, e: Event)
    requires SoundWorld(w) && TimelyPart(w, Whole(e))
    ensures Settled(PartStep(q, w, Whole(e))) == Exec(q, Settled(w), AtomicPart(w, Whole(e)))
  {
    hide Sound, Step, TimelyEvent, SettledBy, Exec;
    if e.EndGame? && w.report.Some? {
      ExecNone(q, Settled(w));
    } else {
      ExecOne(q, Settled(w), e);
      if w.report.Some? {
        SoundFacts(w.s);
        StepCommutes(q, w.s, w.report.value, e);
      }
    }
  }

  // The row a thread read is the one LoginRow finds, then and now.
  lemma OneRow(s: State, users: map<int, UserRow>, r: Read)
    requires Sound(s) && SameAccounts(s.users, users) && Credentials(s.users, r.id, r.name, r.password)
    ensures LoginRow(users, r.name, r.password, 1, s.nextUser) == Some(r.id)
  {
    hide RoomsTable, CacheAgrees, Flags;
    var m := Mirrored(s).users;
    assert UsersTable(m, s.nextUser) && m[r.id].name == r.name && r.id in m;
    var found := LoginRow(s.users, r.name, r.password, 1, s.nextUser);
    assert found.Some? && m[found.value].name == r.name;
    LoginRowAlike(s.users, users, r.name, r.password, 1, s.nextUser);
  }

  lemma AddIsAtomic(q: Weight, w: World, i: nat)
    requires SoundWorld(w) && TimelyPart(w, LoginAdd(i))
    ensures Settled(PartStep(q, w, LoginAdd(i))) == Exec(q, Settled(w), AtomicPart(w, LoginAdd(i)))
  {
    hide Sound, Exec, LoginRow, NameOnline, Advanced, SetWinner, SetDbElo;
    if i < |w.logins| {
      var r, u := w.logins[i], Settled(w).users;
      ExecOne(q, Settled(w), AtomicPart(w, LoginAdd(i))[0]);
      assert SameAccounts(w.s.users, u) by { SettledAccounts(w); }
      OneRow(w.s, u, r);
      assert u[r.id].name == r.name;
    } else {
      ExecNone(q, Settled(w));
    }
  }

  lemma SettledAccounts(w: World)
    ensures SameAccounts(w.s.users, Settled(w).users)
  {
    hide Advanced, SetWinner;
    if w.report.Some? { StoredAccounts(w.s.users, w.report.value); }
  }

  lemma RegisterIsAtomic(q: Weight, w: World, p: Part)
    requires SoundWorld(w) && p.RegisterAdd? && TimelyPart(w, p)
    ensures Settled(PartStep(q, w, p)) == Exec(q, Settled(w), AtomicPart(w, p))
  {
    hide Sound, NameTaken, Exec, SettledBy;
    var e := Register(p.name, p.password);
    ExecOne(q, Settled(w), e);
    if w.report.Some? { RegisterCommutes(q, w.s, w.report.value, e); }
  }

  lemma RoomAddIsAtomic(q: Weight, w: World, p: Part)
    requires SoundWorld(w) && p.RoomAdd? && TimelyPart(w, p)
    ensures Settled(PartStep(q, w, p)) == Exec(q, Settled(w), AtomicPart(w, p))
  {
    hide Sound, Exec, SettledBy;
    if p.head < |w.heads| && OpensRoom(w.s, p.e) {
      GoodHeadAppends(q, w, p);
      hide Step, OpensRoom, RoomAdded;
      ExecOne(q, Settled(w), p.e);
      if w.report.Some? {
        SoundFacts(w.s);
        RoomsCommute(q, w.s, w.report.value, p.e);
      }
    } else {
      ExecNone(q, Settled(w));
    }
  }

  lemma GoodHeadAppends(q: Weight, w: World, p: Part)
    requires p.RoomAdd? && TimelyPart(w, p) && p.head < |w.heads| && OpensRoom(w.s, p.e)
    ensures PartStep(q, w, p).s == Step(q, w.s, p.e) && (p.e.CreateRoom? || p.e.OpenRoom?)
  {
    hide EloOf, SocketOf;
    var t := Step(q, w.s, p.e);
    assert t.rooms == w.s.rooms + [t.rooms[|w.s.rooms|]];
  }

  lemma ReportIsAtomic(q: Weight, w: World, p: Part)
    requires p.ReportCache? || p.ReportTables?
    ensures Forget(Settled(PartStep(q, w, p))) == Forget(Exec(q, Settled(w), AtomicPart(w, p)))
  {
    hide Rated, RateGame, SetPlaying, SetWinner, SetDbElo, Advanced, Exec, Erased;
    ExecNone(q, Settled(w));
    if p.ReportCache? && w.report.None? && Ratings.IsRated(w.s, p.e) {
      ExecOne(q, w.s, p.e);
      ErasedPlaying(CacheWritten(q, w.s, p.e).online, p.e.user, 0);
    }
    if p.ReportTables? && w.report.Some? { ErasedPlaying(w.s.online, w.report.value.user, 0); }
  }

  lemma PartIsAtomic(q: Weight, w: World, p: Part)
    requires SoundWorld(w) && TimelyPart(w, p)
    ensures Forget(Settled(PartStep(q, w, p))) == Forget(Exec(q, Settled(w), AtomicPart(w, p)))
  {
    hide SoundWorld, TimelyPart, Settled, Exec, Forget;
    match p
    case Whole(e) => hide PartStep; WholeIsAtomic(q, w, e);
    case LoginAdd(i) => hide PartStep; AddIsAtomic(q, w, i);
    case RegisterAdd(name, password) => hide PartStep; RegisterIsAtomic(q, w, p);
    case RoomAdd(i, e) => hide PartStep; RoomAddIsAtomic(q, w, p);
    case ReportCache(e) => hide PartStep; ReportIsAtomic(q, w, p);
    case ReportTables => hide PartStep; ReportIsAtomic(q, w, p);
    case _ => ExecNone(q, Settled(w)); ReadsOnly(q, w, p);
  }

  lemma ReadsOnly(q: Weight, w: World, p: Part)
    requires p.LoginRead? || p.HeadRead?
    ensures Settled(PartStep(q, w, p)) == Settled(w)
  {
    hide LoginRow, SettledBy;
  }

  /**
   A timely run of parts, sleeping reports included, leaves what an atomic run leaves, apart from playing marks
   and from what a report still asleep has yet to store.
   */
  lemma {:induction false} TimelyRunIsAtomic(q: Weight, w: World, run: seq<Part>)
    requires SoundWorld(w) && TimelyRun(q, w, run)
    ensures Forget(Settled(PartExec(q, w, run))) == Forget(Exec(q, Settled(w), AtomicRun(q, w, run)))
    decreases |run|
  {
    hide SoundWorld, TimelyPart, Settled, Exec, Forget, PartStep, AtomicPart;
    if run == [] {
      ExecNone(q, Settled(w));
    } else {
      var t := PartStep(q, w, run[0]);
      var rest := AtomicRun(q, t, run[1..]);
      SoundPartIff(q, w, run[0]);
      TimelySound(w, run[0]);
      PartIsAtomic(q, w, run[0]);
      TimelyRunIsAtomic(q, t, run[1..]);
      ExecForgets(q, Settled(t), Exec(q, Settled(w), AtomicPart(w, run[0])), rest);
      ExecConcat(q, Settled(w), AtomicPart(w, run[0]), rest);
    }
  }

  lemma TimelySound(w: World, p: Part)
    requires TimelyPart(w, p)
    ensures SoundPart(w, p)
  {}
}
