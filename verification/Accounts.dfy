/** Registration and login over whole runs: who has registered can log in with that password from then on. */
module Accounts {
  import opened Entries
  import opened Elo
  import opened ServerSpec
  import opened Consistency
  import Effects
  import Soundness
  import SplitHandlers

  lemma {:induction false} AccountKept(q: Weight, s: State, run: seq<Event>, id: int)
    requires Consistent(s) && id in s.users
    ensures var t := Exec(q, s, run);
            && id in t.users && t.users[id].name == s.users[id].name && t.users[id].password == s.users[id].password
    decreases |run|
  {
    hide Step, Consistent, Soundness.Sound;
    if run != [] {
      Soundness.ConsistentIff(s);
      SplitHandlers.AccountsStay(q, s, run[0], id);
      StepKeeps(q, s, run[0]);
      AccountKept(q, Step(q, s, run[0]), run[1..], id);
    }
  }

  /**
   Whoever registered under a free name can, after any further run in which nobody is online under it, log in with
   that password and no other: the user joins at the head under the id of the registration, on the socket of the
   message, with the stored rating and both marks down.
   */
  lemma RegisteredLogsIn(
      q: Weight, a: seq<Event>, name: string, password: string, b: seq<Event>, socket: int, attempt: string)
    requires var s := Exec(q, INITIAL, a); forall id :: id in s.users ==> s.users[id].name != name
    requires var t := Exec(q, INITIAL, a + ([Register(name, password)] + b));
             forall i :: 0 <= i < |t.online| ==> t.online[i].info.name != name
    ensures var id, t := Exec(q, INITIAL, a).nextUser, Exec(q, INITIAL, a + ([Register(name, password)] + b));
            && id in t.users && t.users[id].name == name && t.users[id].password == password
            && Step(q, t, Login(socket, name, attempt)) ==
               if attempt != password then t
               else t.(online := [Entry(id, Online(t.users[id].elo, socket, name, 0, 0))] + t.online)
  {
    hide Exec, Step, Consistent;
    var s, e := Exec(q, INITIAL, a), Register(name, password);
    var t := Exec(q, INITIAL, a + ([e] + b));
    InitiallyConsistent();
    ExecKeeps(q, INITIAL, a);
    ExecConcat(q, INITIAL, a, [e] + b);
    ExecConcat(q, s, [e], b);
    ExecOne(q, s, e);
    Effects.RegisterEffect(q, s, name, password);
    StepKeeps(q, s, e);
    AccountKept(q, Step(q, s, e), b, s.nextUser);
    ExecKeeps(q, INITIAL, a + ([e] + b));
    Effects.LoginEffect(q, t, socket, name, attempt);
    OneAccount(t, s.nextUser);
  }

  lemma OneAccount(s: State, id: int)
    requires Consistent(s) && id in s.users
    ensures forall k :: k in s.users && s.users[k].name == s.users[id].name ==> k == id
  {}
}
