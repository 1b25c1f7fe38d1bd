/**
 The bounded stack of reusable database connections of src/database/database.c. A connection handle is a
 number; 0 is the NULL that a failed sqlite3_open yields.
 */
module ConnectionPool {

  const MAX_CONNECTIONS := 10

  /**
   slots: the first connection_count entries of the array; openCount and closeCount: how many handles
   sqlite3_open made and sqlite3_close got.
   */
  datatype Pool = Pool(slots: seq<int>, openCount: nat, closeCount: nat)

  /** One call of get_database_connection: the handle lent and the pool left. */
  function Got(p: Pool, openOk: bool): (int, Pool) {
    if |p.slots| > 0 then (p.slots[|p.slots| - 1], p.(slots := p.slots[..|p.slots| - 1]))
    else if openOk then (p.openCount + 1, p.(openCount := p.openCount + 1))
    else (0, p)
  }

  /** One call of close_database_connection. */
  function Returned(p: Pool, db: int): Pool {
    if |p.slots| < MAX_CONNECTIONS then p.(slots := p.slots + [db]) else p.(closeCount := p.closeCount + 1)
  }

  class Connections {
    var connectionPool: array<int>
    var connectionCount: int
    var openCount: nat
    var closeCount: nat

    ghost predicate Valid()
      reads this
    {
      connectionPool.Length == MAX_CONNECTIONS && 0 <= connectionCount <= MAX_CONNECTIONS
    }

    ghost function Value(): Pool
      reads this, connectionPool
      requires Valid()
    {
      Pool(connectionPool[..connectionCount], openCount, closeCount)
    }

    constructor ()
      ensures Valid() && fresh(connectionPool) && Value() == Pool([], 0, 0)
    {
      connectionPool := new int[MAX_CONNECTIONS];
      connectionCount := 0;
      openCount, closeCount := 0, 0;
    }

    /** Take the last slot, or open a new connection; openOk is what sqlite3_open answers. */
    method Get(openOk: bool) returns (db: int)
      requires Valid()
      modifies this
      ensures Valid() && connectionPool == old(connectionPool)
      ensures (db, Value()) == Got(old(Value()), openOk)
    {
      if connectionCount > 0 {
        connectionCount := connectionCount - 1;
        assert connectionPool[..connectionCount] == old(connectionPool[..connectionCount])[..connectionCount];
        return connectionPool[connectionCount];
      }
      if !openOk {
        return 0;
      }
      openCount := openCount + 1;
      return openCount;
    }

    /** Put the connection in the next slot, or close it when the array is full. */
    method Close(db: int)
      requires Valid()
      modifies this, connectionPool
      ensures Valid() && connectionPool == old(connectionPool)
      ensures Value() == Returned(old(Value()), db)
    {
      if connectionCount < MAX_CONNECTIONS {
        connectionPool[connectionCount] := db;
        connectionCount := connectionCount + 1;
      } else {
        closeCount := closeCount + 1;
      }
    }
  }

  // ---------- runs ----------

  /** The pool with the handles callers hold; shut: the handles sqlite3_close got. */
  datatype World = World(pool: Pool, held: set<int>, shut: set<int>)

  datatype Call = Get(openOk: bool) | Close(db: int)

  function Do(w: World, c: Call): World {
    match c
    case Get(openOk) =>
      var (db, p) := Got(w.pool, openOk);
      World(p, if db == 0 then w.held else w.held + {db}, w.shut)
    case Close(db) =>
      World(Returned(w.pool, db), w.held - {db}, if |w.pool.slots| < MAX_CONNECTIONS then w.shut else w.shut + {db})
  }

  /** Callers close only what they hold, so each handle they were lent at most once. */
  predicate Disciplined(w: World, calls: seq<Call>)
    decreases |calls|
  {
    calls == [] || ((calls[0].Close? ==> calls[0].db in w.held) && Disciplined(Do(w, calls[0]), calls[1..]))
  }

  function DoAll(w: World, calls: seq<Call>): World
    decreases |calls|
  {
    if calls == [] then w else DoAll(Do(w, calls[0]), calls[1..])
  }

  const EMPTY_WORLD := World(Pool([], 0, 0), {}, {})

  ghost predicate Distinct(s: seq<int>) {
    forall i, j :: 0 <= i < j < |s| ==> s[i] != s[j]
  }

  /** Every handle opened so far is idle in a slot, held by a caller or closed: exactly one of the three. */
  ghost predicate Placed(w: World) {
    && Distinct(w.pool.slots)
    && (forall db :: db in w.pool.slots ==> db !in w.held && db !in w.shut)
    && w.held !! w.shut
    && (forall db :: db in w.pool.slots || db in w.held || db in w.shut <==> 1 <= db <= w.pool.openCount)
  }

  ghost predicate Counted(w: World) {
    && |w.pool.slots| <= MAX_CONNECTIONS
    && |w.shut| == w.pool.closeCount
    && w.pool.openCount == |w.pool.slots| + |w.held| + w.pool.closeCount
  }

  ghost predicate Conserved(w: World) {
    Placed(w) && Counted(w)
  }

  lemma PlacedKept(w: World, c: Call)
    requires Placed(w) && (c.Close? ==> c.db in w.held)
    ensures Placed(Do(w, c))
  {
    var s, t := w.pool.slots, Do(w, c).pool.slots;
    if c.Get? && s != [] {
      assert s == t + [s[|t|]];
      assert forall db :: db in s <==> db in t || db == s[|t|];
    }
    if c.Close? && |s| < MAX_CONNECTIONS {
      assert forall db :: db in t <==> db in s || db == c.db;
    }
  }

  lemma CountedKept(w: World, c: Call)
    requires Placed(w) && Counted(w) && (c.Close? ==> c.db in w.held)
    ensures Counted(Do(w, c))
  {
    if c.Get? {
      var db := Got(w.pool, c.openOk).0;
      assert db !in w.held by { assert w.pool.slots != [] ==> db in w.pool.slots; }
    }
  }

  lemma DoConserves(w: World, c: Call)
    requires Conserved(w) && (c.Close? ==> c.db in w.held)
    ensures Conserved(Do(w, c))
  {
    PlacedKept(w, c);
    CountedKept(w, c);
  }

  /**
   In every run in which callers return what they hold exactly once: the slots are pairwise distinct, none
   of them is held or closed, and opened = idle + held + closed. A Get never lends a handle already held.
   */
  lemma {:induction false} PoolConserved(w: World, calls: seq<Call>)
    requires Conserved(w) && Disciplined(w, calls)
    ensures Conserved(DoAll(w, calls))
    decreases |calls|
  {
    hide Conserved;
    if calls != [] {
      DoConserves(w, calls[0]);
      PoolConserved(Do(w, calls[0]), calls[1..]);
    }
  }

  lemma NeverLentTwice(calls: seq<Call>, openOk: bool)
    requires Disciplined(EMPTY_WORLD, calls)
    ensures var w := DoAll(EMPTY_WORLD, calls);
            var db := Got(w.pool, openOk).0;
            && |w.pool.slots| <= 10
            && w.pool.openCount == |w.pool.slots| + |w.held| + w.pool.closeCount
            && db !in w.held && db !in w.shut
  {
    hide DoAll;
    PoolConserved(EMPTY_WORLD, calls);
    var w := DoAll(EMPTY_WORLD, calls);
    if |w.pool.slots| > 0 { assert w.pool.slots[|w.pool.slots| - 1] in w.pool.slots; }
  }

  /** Closing a handle keeps the slots distinct exactly when the pool is full or the handle is not in a slot already. */
  lemma CloseKeepsDistinctIff(p: Pool, db: int)
    requires Distinct(p.slots)
    ensures Distinct(Returned(p, db).slots) <==> |p.slots| >= 10 || db !in p.slots
  {
    var t := Returned(p, db).slots;
    if |p.slots| < MAX_CONNECTIONS && db in p.slots {
      var i :| 0 <= i < |p.slots| && p.slots[i] == db;
      assert t[i] == t[|p.slots|];
    }
  }

  /**
   The pool is a stack of ten: a handle returned to a pool that is not full is the next one lent, and the pool is
   then as before; an eleventh is closed. An empty pool opens the next handle, or lends NULL when that fails.
   */
  lemma StackOfTen(p: Pool, db: int, openOk: bool)
    ensures |p.slots| < 10 ==> Got(Returned(p, db), openOk) == (db, p)
    ensures |p.slots| >= 10 ==> Returned(p, db) == p.(closeCount := p.closeCount + 1)
    ensures p.slots == [] ==> Got(p, true) == (p.openCount + 1, p.(openCount := p.openCount + 1))
    ensures p.slots == [] ==> Got(p, false) == (0, p)
  {
    assert (p.slots + [db])[..|p.slots|] == p.slots;
  }

  /** Closing keeps every handle in exactly one place if and only if the caller holds the handle. */
  lemma CloseConservesIff(w: World, db: int)
    requires Conserved(w)
    ensures Conserved(Do(w, Close(db))) <==> db in w.held
  {
    var t := Do(w, Close(db));
    if db in w.held {
      DoConserves(w, Close(db));
    } else if |w.pool.slots| < MAX_CONNECTIONS {
      var n := |w.pool.slots|;
      assert t.pool.slots[n] == db && db in t.pool.slots;
      if db in w.pool.slots {
        var i :| 0 <= i < n && w.pool.slots[i] == db;
        assert t.pool.slots[i] == t.pool.slots[n];
      }
    } else {
      assert db in t.shut;
      if db in w.shut { assert t.shut == w.shut; }
    }
  }

  /**
   A caller that returns the NULL of a failed open (0, never held) breaks conservation, and while the pool is
   not full the very next Get lends that 0 without trying to open, whatever sqlite3_open would answer.
   */
  lemma NullIsLentNext(w: World, openOk: bool)
    requires Conserved(w)
    ensures !Conserved(Do(w, Close(0)))
    ensures |w.pool.slots| < 10 ==> Got(Returned(w.pool, 0), openOk) == (0, w.pool)
  {
    assert 0 !in w.held;
    CloseConservesIff(w, 0);
    if |w.pool.slots| < MAX_CONNECTIONS {
      assert (w.pool.slots + [0])[..|w.pool.slots|] == w.pool.slots;
    }
  }
}
