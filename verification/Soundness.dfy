/**
 Everything consistency asks for except that cached and stored ratings agree. This weaker invariant also
 holds while handle_end_game sleeps between writing the cache and writing the tables, and every step keeps it.
 */
module Soundness {
  import opened Entries
  import opened Elo
  import opened ServerSpec
  import opened Consistency
  import Matchmaking
  import Reports

  /** The user table with the cached rating of everyone online. */
  function MirroredUsers(online: seq<Entry<Online>>, users: map<int, UserRow>): map<int, UserRow> {
    map k | k in users :: if Has(online, k) then users[k].(elo := Get(online, k).elo) else users[k]
  }

  function Mirrored(s: State): State {
    s.(users := MirroredUsers(s.online, s.users))
  }

  /** Consistent but for the stored ratings of users who are online. */
  ghost predicate Sound(s: State) {
    Consistent(Mirrored(s))
  }

  ghost predicate RatingsAgree(s: State) {
    forall k :: Has(s.online, k) ==> k in s.users && EloOf(s.online, k) == s.users[k].elo
  }

  /** Two user tables with the same rows but for the ratings. */
  ghost predicate SameAccounts(a: map<int, UserRow>, b: map<int, UserRow>) {
    && a.Keys == b.Keys
    && forall k :: k in a ==> b[k] == a[k].(elo := b[k].elo)
  }

  lemma SoundFacts(s: State)
    requires Sound(s)
    ensures UniqueIds(s.online) && UniqueIds(s.rooms) && !Has(s.rooms, s.nextRoom)
    ensures forall k :: Has(s.online, k) ==> k in s.users
    ensures forall r :: Has(s.rooms, r) ==> r in s.rows
    ensures RoomsTable(s) && Flags(s.online)
  {
    var m := Mirrored(s);
    RoomsUnchanged(m, s);
    assert m.users.Keys == s.users.Keys;
    assert m.rooms == s.rooms && m.rows == s.rows;
  }

  /** Consistency is soundness and agreement of the ratings. */
  lemma ConsistentIff(s: State)
    ensures Consistent(s) <==> Sound(s) && RatingsAgree(s)
  {
    if RatingsAgree(s) {
      assert Mirrored(s).users == s.users;
    }
  }

  // ---------- the same step on two tables that differ in ratings only ----------

  lemma {:induction false} LoginRowAlike(a: map<int, UserRow>, b: map<int, UserRow>, name: string, password: string,
      from: int, to: int)
    requires SameAccounts(a, b)
    ensures LoginRow(a, name, password, from, to) == LoginRow(b, name, password, from, to)
    decreases if from < to then to - from else 0
  {
    if from < to { LoginRowAlike(a, b, name, password, from + 1, to); }
  }

  lemma StepAlike(q: Weight, s: State, s': State, e: Event)
    requires s' == s.(users := s'.users) && SameAccounts(s.users, s'.users)
    requires e.Login? && DoLogin(s, e.socket, e.name, e.password) != s ==>
               var id := LoginRow(s.users, e.name, e.password, 1, s.nextUser).value;
               id in s.users && s.users[id] == s'.users[id]
    ensures var t, t' := Step(q, s, e), Step(q, s', e);
            t' == t.(users := t'.users) && SameAccounts(t.users, t'.users)
  {
    hide SameAccounts, DoRate, SetPlaying, SetFinding, Advanced, SetStarted, Seated, LoginRow, FindingMatch, Colours;
    match e
    case Register(name, password) =>
      NamesAlike(s.users, s'.users, name);
      RowAlike(s.users, s'.users, s.nextUser, name, password);
    case Login(socket, name, password) => LoginRowAlike(s.users, s'.users, name, password, 1, s.nextUser);
    case EndGame(socket, room, user, status) =>
      if Has(s.rooms, room) { RateAlike(q, s, s', room, user, OpponentOf(Get(s.rooms, room), socket), status); }
    case _ =>
  }

  lemma RowAlike(a: map<int, UserRow>, b: map<int, UserRow>, next: int, name: string, password: string)
    requires SameAccounts(a, b)
    ensures SameAccounts(a[next := UserRow(name, password, 1000)], b[next := UserRow(name, password, 1000)])
  {}

  lemma RateAlike(q: Weight, s: State, s': State, room: int, user: int, opponent: int, status: int)
    requires s' == s.(users := s'.users) && SameAccounts(s.users, s'.users)
    ensures var t, t' := DoRate(q, s, room, user, opponent, status), DoRate(q, s', room, user, opponent, status);
            t' == t.(users := t'.users) && SameAccounts(t.users, t'.users)
  {
    hide Rated, RateGame, SetWinner;
  }

  lemma NamesAlike(a: map<int, UserRow>, b: map<int, UserRow>, name: string)
    requires SameAccounts(a, b)
    ensures NameTaken(a, name) <==> NameTaken(b, name)
  {
    if id :| id in a && a[id].name == name { assert id in b && b[id].name == name; }
    if id :| id in b && b[id].name == name { assert id in a && a[id].name == name; }
  }

  // A table with the same accounts and the cached ratings of everyone online is as good.
  lemma AccountsSuffice(s: State, users: map<int, UserRow>)
    requires Consistent(s) && SameAccounts(s.users, users)
    requires forall k :: Has(s.online, k) ==> k in users && users[k].elo == Get(s.online, k).elo
    ensures Consistent(s.(users := users))
  {
    RoomsUnchanged(s, s.(users := users));
    TableAlike(s.users, users, s.nextUser);
    hide RoomsTable, UsersTable;
    assert CacheAgrees(s.online, users) by {
      forall k | Has(s.online, k) ensures k in users && users[k].name == Get(s.online, k).name {
        assert s.users[k].name == Get(s.online, k).name;
      }
    }
  }

  lemma MirroredAlike(s: State)
    ensures SameAccounts(s.users, Mirrored(s).users)
  {}

  // Soundness from its parts: the same accounts, users who were online under the same names, and the rooms.
  lemma SoundFrom(s: State, t: State)
    requires Sound(s) && t.nextUser == s.nextUser && SameAccounts(s.users, t.users)
    requires UniqueIds(t.online) && Flags(t.online) && RoomsTable(t)
    requires forall k :: Has(t.online, k) ==> Has(s.online, k) && Get(t.online, k).name == Get(s.online, k).name
    ensures Sound(t)
  {
    RoomsUnchanged(t, Mirrored(t));
    hide RoomsTable, Flags;
    var u, v := Mirrored(s).users, Mirrored(t).users;
    assert u.Keys == v.Keys && forall k :: k in u ==> v[k].name == u[k].name;
    TableAlike(u, v, s.nextUser);
    forall k | Has(t.online, k) ensures k in v && Get(t.online, k).name == v[k].name {
      assert k in u && Get(s.online, k).name == u[k].name;
    }
  }

  lemma TableAlike(u: map<int, UserRow>, v: map<int, UserRow>, next: int)
    requires UsersTable(u, next) && u.Keys == v.Keys && forall k :: k in u ==> v[k].name == u[k].name
    ensures UsersTable(v, next)
  {
    forall a, b | a in v && b in v && v[a].name == v[b].name ensures a == b {
      assert a in u && b in u && u[a].name == u[b].name;
    }
  }

  // One step on a sound state and on its mirror: lists, rooms and accounts stay the same on both sides.
  lemma MirrorStep(q: Weight, s: State, e: Event)
    requires Sound(s)
    ensures var t, t' := Step(q, s, e), Step(q, Mirrored(s), e);
            Consistent(t') && t' == t.(users := t'.users) && SameAccounts(t.users, t'.users)
  {
    hide Step, Consistent, LoginRow;
    var m := Mirrored(s);
    MirroredAlike(s);
    StepKeeps(q, m, e);
    if e.Login? && DoLogin(s, e.socket, e.name, e.password) != s {
      LoginRowAlike(s.users, m.users, e.name, e.password, 1, s.nextUser);
      LoginChanges(m, e);
      Matchmaking.LoginIsNew(m, e.socket, e.name, e.password);
    }
    StepAlike(q, s, m, e);
  }

  lemma LoginChanges(s: State, e: Event)
    requires e.Login? && !NameOnline(s.online, e.name) && LoginRow(s.users, e.name, e.password, 1, s.nextUser).Some?
    ensures var t := DoLogin(s, e.socket, e.name, e.password);
            t != s && t.online[0].id == LoginRow(s.users, e.name, e.password, 1, s.nextUser).value
  {
    hide LoginRow;
    assert |DoLogin(s, e.socket, e.name, e.password).online| == |s.online| + 1;
  }

  /** Every step on every message keeps soundness, and consistency where it held. */
  lemma SoundStep(q: Weight, s: State, e: Event)
    requires Sound(s)
    ensures Sound(Step(q, s, e))
    ensures Consistent(s) ==> Consistent(Step(q, s, e))
  {
    hide Step, Consistent;
    var t, t' := Step(q, s, e), Step(q, Mirrored(s), e);
    MirrorStep(q, s, e);
    MirroredAlike(t);
    MirrorIsCurrent(t, t');
    AccountsSuffice(t', Mirrored(t).users);
    if Consistent(s) { StepKeeps(q, s, e); }
  }

  lemma MirrorIsCurrent(t: State, t': State)
    requires Consistent(t') && t' == t.(users := t'.users) && SameAccounts(t.users, t'.users)
    ensures SameAccounts(t'.users, Mirrored(t).users) && Mirrored(t) == t'.(users := Mirrored(t).users)
    ensures forall k :: Has(t.online, k) ==> k in Mirrored(t).users && Mirrored(t).users[k].elo == Get(t.online, k).elo
  {
    assert forall k :: Has(t'.online, k) ==> k in t'.users;
  }

  lemma {:induction false} SoundOverRun(q: Weight, s: State, run: seq<Event>)
    requires Sound(s)
    ensures Sound(Exec(q, s, run))
    decreases |run|
  {
    hide Step, Sound;
    if run != [] {
      SoundStep(q, s, run[0]);
      SoundOverRun(q, Step(q, s, run[0]), run[1..]);
    }
  }
}
