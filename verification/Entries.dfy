/**
 Lists of entries keyed by an int id, as values: what the two linked lists of the server
 (online users, rooms) contain, and the operations the C code performs on them.
 The first entry with an id is the one every walk of the C code stops at.
 */
module Entries {

  datatype Option<+T> = None | Some(value: T)

  datatype Entry<+V> = Entry(id: int, info: V)

  function IndexOf<V>(s: seq<Entry<V>>, id: int): (i: nat)
    ensures i <= |s|
    ensures i < |s| ==> s[i].id == id
    ensures forall j :: 0 <= j < i ==> s[j].id != id
  {
    if s == [] || s[0].id == id then 0 else 1 + IndexOf(s[1..], id)
  }

  predicate Has<V>(s: seq<Entry<V>>, id: int) {
    IndexOf(s, id) < |s|
  }

  function Get<V>(s: seq<Entry<V>>, id: int): V
    requires Has(s, id)
  {
    s[IndexOf(s, id)].info
  }

  /** Overwrite the fields of the entry with this id; without one, change nothing. */
  function Write<V>(s: seq<Entry<V>>, id: int, v: V): seq<Entry<V>> {
    if Has(s, id) then s[IndexOf(s, id) := Entry(id, v)] else s
  }

  /** Unlink the entry with this id; without one, change nothing. */
  function Unlink<V>(s: seq<Entry<V>>, id: int): seq<Entry<V>> {
    var i := IndexOf(s, id);
    if i < |s| then s[..i] + s[i + 1..] else s
  }

  ghost predicate UniqueIds<V>(s: seq<Entry<V>>) {
    forall i, j :: 0 <= i < j < |s| ==> s[i].id != s[j].id
  }

  ghost predicate SameIds<V>(s: seq<Entry<V>>, t: seq<Entry<V>>) {
    |s| == |t| && forall i :: 0 <= i < |s| ==> s[i].id == t[i].id
  }

  // ---------- lookups after each operation ----------

  lemma IndexIs<V>(s: seq<Entry<V>>, id: int, i: nat)
    requires i <= |s| && (i < |s| ==> s[i].id == id)
    requires forall j :: 0 <= j < i ==> s[j].id != id
    ensures IndexOf(s, id) == i
  {
  }

  lemma HasAt<V>(s: seq<Entry<V>>, i: nat)
    requires i < |s|
    ensures Has(s, s[i].id)
    ensures UniqueIds(s) ==> IndexOf(s, s[i].id) == i
  {
  }

  lemma AfterWrite<V>(s: seq<Entry<V>>, id: int, v: V)
    ensures forall k :: Has(Write(s, id, v), k) <==> Has(s, k)
    ensures forall k :: Has(s, k) ==> Get(Write(s, id, v), k) == if k == id then v else Get(s, k)
    ensures UniqueIds(s) ==> UniqueIds(Write(s, id, v))
    ensures SameIds(s, Write(s, id, v))
  {
    var t := Write(s, id, v);
    forall k
      ensures Has(t, k) <==> Has(s, k)
      ensures Has(s, k) ==> Get(t, k) == if k == id then v else Get(s, k)
    {
      IndexIs(t, k, IndexOf(s, k));
    }
  }

  lemma IndexAfterUnlink<V>(s: seq<Entry<V>>, id: int, k: int)
    requires k != id && Has(s, id)
    ensures IndexOf(Unlink(s, id), k) == if IndexOf(s, id) < IndexOf(s, k) then IndexOf(s, k) - 1 else IndexOf(s, k)
  {
    var i, j := IndexOf(s, id), IndexOf(s, k);
    IndexIs(Unlink(s, id), k, if i < j then j - 1 else j);
  }

  lemma UniqueUnlink<V>(s: seq<Entry<V>>, id: int)
    requires UniqueIds(s)
    ensures UniqueIds(Unlink(s, id)) && !Has(Unlink(s, id), id)
  {
    var n, t := IndexOf(s, id), Unlink(s, id);
    if n < |s| {
      assert forall j :: 0 <= j < |t| ==> t[j] == (if j < n then s[j] else s[j + 1]);
      IndexIs(t, id, |t|);
    }
  }

  lemma AfterUnlink<V>(s: seq<Entry<V>>, id: int)
    requires UniqueIds(s)
    ensures forall k :: Has(Unlink(s, id), k) <==> k != id && Has(s, k)
    ensures forall k :: k != id && Has(s, k) ==> Get(Unlink(s, id), k) == Get(s, k)
    ensures UniqueIds(Unlink(s, id))
  {
    UniqueUnlink(s, id);
    if Has(s, id) {
      forall k | k != id
        ensures Has(Unlink(s, id), k) <==> Has(s, k)
        ensures Has(s, k) ==> Get(Unlink(s, id), k) == Get(s, k)
      {
        OthersAfterUnlink(s, id, k);
      }
    }
  }

  lemma OthersAfterUnlink<V>(s: seq<Entry<V>>, id: int, k: int)
    requires k != id && Has(s, id)
    ensures Has(Unlink(s, id), k) <==> Has(s, k)
    ensures Has(s, k) ==> Get(Unlink(s, id), k) == Get(s, k)
  {
    IndexAfterUnlink(s, id, k);
  }

  lemma AfterPush<V>(s: seq<Entry<V>>, e: Entry<V>)
    ensures forall k :: Has([e] + s, k) <==> k == e.id || Has(s, k)
    ensures Get([e] + s, e.id) == e.info
    ensures forall k :: k != e.id && Has(s, k) ==> Get([e] + s, k) == Get(s, k)
    ensures UniqueIds(s) && !Has(s, e.id) ==> UniqueIds([e] + s)
  {
    var t := [e] + s;
    forall k
      ensures Has(t, k) <==> k == e.id || Has(s, k)
      ensures Has(t, k) ==> Get(t, k) == if k == e.id then e.info else Get(s, k)
    {
      IndexIs(t, k, if k == e.id then 0 else 1 + IndexOf(s, k));
    }
  }

  lemma AfterAppend<V>(s: seq<Entry<V>>, e: Entry<V>)
    requires !Has(s, e.id)
    ensures forall k :: Has(s + [e], k) <==> k == e.id || Has(s, k)
    ensures Get(s + [e], e.id) == e.info
    ensures forall k :: Has(s, k) ==> Get(s + [e], k) == Get(s, k)
    ensures UniqueIds(s) ==> UniqueIds(s + [e])
  {
    var t := s + [e];
    forall k
      ensures Has(t, k) <==> k == e.id || Has(s, k)
      ensures Has(t, k) ==> Get(t, k) == if k == e.id then e.info else Get(s, k)
    {
      IndexIs(t, k, if Has(s, k) || k == e.id then IndexOf(s, k) else |t|);
    }
  }

  // ---------- the list as a finite map ----------

  /** The map a list stands for. */
  function AsMap<V>(s: seq<Entry<V>>): map<int, V> {
    map i: nat | i < |s| && IndexOf(s, s[i].id) == i :: s[i].id := s[i].info
  }

  lemma AsMapFinds<V>(s: seq<Entry<V>>)
    ensures forall k :: k in AsMap(s) <==> Has(s, k)
    ensures forall k :: k in AsMap(s) ==> AsMap(s)[k] == Get(s, k)
  {
    var m := AsMap(s);
    forall k ensures k in m <==> Has(s, k) {
      if Has(s, k) {
        var i := IndexOf(s, k);
        assert i < |s| && IndexOf(s, s[i].id) == i && s[i].id == k;
      }
    }
    forall k | k in m ensures m[k] == Get(s, k) {
      var i: nat :| i < |s| && IndexOf(s, s[i].id) == i && s[i].id == k && m[k] == s[i].info;
    }
  }

  /** One operation of the C code on a list. */
  datatype Op<+V> = PushFront(e: Entry<V>) | Append(e: Entry<V>) | Remove(id: int) | Update(id: int, v: V)

  function OnList<V>(s: seq<Entry<V>>, op: Op<V>): seq<Entry<V>> {
    match op
    case PushFront(e) => [e] + s
    case Append(e) => s + [e]
    case Remove(id) => Unlink(s, id)
    case Update(id, v) => Write(s, id, v)
  }

  function OnMap<V>(m: map<int, V>, op: Op<V>): map<int, V> {
    match op
    case PushFront(e) => m[e.id := e.info]
    case Append(e) => m[e.id := e.info]
    case Remove(id) => m - {id}
    case Update(id, v) => if id in m then m[id := v] else m
  }

  function RunList<V>(s: seq<Entry<V>>, ops: seq<Op<V>>): seq<Entry<V>>
    decreases |ops|
  {
    if ops == [] then s else RunList(OnList(s, ops[0]), ops[1..])
  }

  function RunMap<V>(m: map<int, V>, ops: seq<Op<V>>): map<int, V>
    decreases |ops|
  {
    if ops == [] then m else RunMap(OnMap(m, ops[0]), ops[1..])
  }

  /** Added ids are new to the map at that moment: login checks the name, room ids are AUTOINCREMENT. */
  ghost predicate FreshAdds<V>(m: map<int, V>, ops: seq<Op<V>>)
    decreases |ops|
  {
    ops != [] ==>
      && ((ops[0].PushFront? || ops[0].Append?) ==> ops[0].e.id !in m)
      && FreshAdds(OnMap(m, ops[0]), ops[1..])
  }

  lemma MapIs<V>(s: seq<Entry<V>>, m: map<int, V>)
    requires forall k :: Has(s, k) <==> k in m
    requires forall k :: Has(s, k) ==> Get(s, k) == m[k]
    ensures AsMap(s) == m
  {
    hide AsMap;
    AsMapFinds(s);
    forall k ensures (k in AsMap(s) <==> k in m) && (k in m ==> AsMap(s)[k] == m[k]) {
      assert Has(s, k) <==> k in m;
    }
  }

  lemma OpRefinesMap<V>(s: seq<Entry<V>>, op: Op<V>)
    requires UniqueIds(s)
    requires (op.PushFront? || op.Append?) ==> op.e.id !in AsMap(s)
    ensures UniqueIds(OnList(s, op))
    ensures AsMap(OnList(s, op)) == OnMap(AsMap(s), op)
  {
    hide AsMap, Write, Unlink, UniqueIds;
    AsMapFinds(s);
    match op
    case PushFront(e) => AfterPush(s, e); MapIs(OnList(s, op), OnMap(AsMap(s), op));
    case Append(e) => AfterAppend(s, e); MapIs(OnList(s, op), OnMap(AsMap(s), op));
    case Remove(id) => AfterUnlink(s, id); MapIs(OnList(s, op), OnMap(AsMap(s), op));
    case Update(id, v) => AfterWrite(s, id, v); MapIs(OnList(s, op), OnMap(AsMap(s), op));
  }

  lemma IndexAfter<V>(s: seq<Entry<V>>, op: Op<V>, k: int)
    requires Has(s, k)
    requires (op.PushFront? || op.Append?) ==> op.e.id != k
    requires op.Remove? ==> op.id != k
    ensures Has(OnList(s, op), k)
    ensures IndexOf(OnList(s, op), k) == IndexOf(s, k)
         + (if op.PushFront? then 1 else 0)
         - (if op.Remove? && IndexOf(s, op.id) < IndexOf(s, k) then 1 else 0)
  {
    var i := IndexOf(s, k);
    match op
    case PushFront(e) => IndexIs([e] + s, k, i + 1);
    case Append(e) => IndexIs(s + [e], k, i);
    case Remove(id) => if Has(s, id) { IndexAfterUnlink(s, id, k); }
    case Update(id, v) => IndexIs(Write(s, id, v), k, i);
  }

  /** No operation reorders the entries it does not name. */
  lemma OrderKept<V>(s: seq<Entry<V>>, op: Op<V>, a: int, b: int)
    requires Has(s, a) && Has(s, b) && IndexOf(s, a) < IndexOf(s, b)
    requires (op.PushFront? || op.Append?) ==> !Has(s, op.e.id)
    requires op.Remove? ==> op.id != a && op.id != b
    ensures Has(OnList(s, op), a) && Has(OnList(s, op), b)
    ensures IndexOf(OnList(s, op), a) < IndexOf(OnList(s, op), b)
  {
    IndexAfter(s, op, a);
    IndexAfter(s, op, b);
    if op.Remove? && Has(s, op.id) {
      assert s[IndexOf(s, op.id)].id == op.id;
      assert IndexOf(s, a) != IndexOf(s, op.id);
    }
  }

  /** Every sequence of adds, unlinks and field updates acts as the same sequence on a finite map. */
  lemma {:induction false} ListRefinesMap<V>(s: seq<Entry<V>>, ops: seq<Op<V>>)
    requires UniqueIds(s) && FreshAdds(AsMap(s), ops)
    ensures UniqueIds(RunList(s, ops))
    ensures AsMap(RunList(s, ops)) == RunMap(AsMap(s), ops)
    decreases |ops|
  {
    if ops != [] {
      OpRefinesMap(s, ops[0]);
      ListRefinesMap(OnList(s, ops[0]), ops[1..]);
    }
  }
}
