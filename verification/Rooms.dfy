/** What the chat system is for, with no servers, sessions or callbacks in it: one table from chat ID to a
    room, and the users who are logged in. The federation is proved to behave as this table. */
module Rooms {
  import opened Sequences
  import opened Identifiers
  import opened Security

  datatype Message = Message(sender: UserID, text: Bytes)

  /** The key its creator made, and for each member everything delivered since the member joined. */
  datatype Room = Room(key: Bytes, logs: map<UserID, seq<Message>>)
  {
    ghost function Members(): set<UserID> { logs.Keys }
  }

  datatype Table = Table(online: set<UserID>, rooms: map<ChatID, Room>)
  {
    ghost predicate IsMember(user: UserID, id: ChatID) {
      id in rooms && user in rooms[id].logs
    }
  }

  ghost predicate WellFormed(t: Table) {
    forall id :: id in t.rooms ==> t.rooms[id].logs != map[] && t.rooms[id].Members() <= t.online
  }

  ghost function Login(t: Table, user: UserID): Table {
    t.(online := t.online + {user})
  }

  ghost function Create(t: Table, user: UserID, id: ChatID, key: Bytes): Table {
    t.(rooms := t.rooms[id := Room(key, map[user := []])])
  }

  ghost predicate CanInvite(t: Table, user: UserID, invitee: UserID, id: ChatID) {
    t.IsMember(user, id) && invitee in t.online && !t.IsMember(invitee, id)
  }

  ghost function Join(t: Table, invitee: UserID, id: ChatID): Table
    requires id in t.rooms
  {
    var room := t.rooms[id];
    t.(rooms := t.rooms[id := room.(logs := room.logs[invitee := []])])
  }

  ghost function Invite(t: Table, user: UserID, invitee: UserID, id: ChatID): Table {
    if CanInvite(t, user, invitee, id) then Join(t, invitee, id) else t
  }

  ghost function Send(t: Table, user: UserID, id: ChatID, text: Bytes): Table {
    if t.IsMember(user, id) then
      var room := t.rooms[id];
      t.(rooms := t.rooms[id := room.(logs := map m | m in room.logs :: room.logs[m] + [Message(user, text)])])
    else t
  }

  ghost function Leave(t: Table, user: UserID, id: ChatID): Table {
    if t.IsMember(user, id) then
      var room := t.rooms[id];
      if room.Members() == {user} then t.(rooms := t.rooms - {id})
      else t.(rooms := t.rooms[id := room.(logs := room.logs - {user})])
    else t
  }

  /** The user leaves every room in `ids`; rooms left without members are gone. */
  ghost function LeaveMany(t: Table, user: UserID, ids: set<ChatID>): Table {
    t.(rooms := map c | c in t.rooms && !(c in ids && t.rooms[c].Members() == {user}) ::
         if c in ids then t.rooms[c].(logs := t.rooms[c].logs - {user}) else t.rooms[c])
  }

  ghost function Logout(t: Table, user: UserID): Table {
    LeaveMany(t, user, t.rooms.Keys).(online := t.online - {user})
  }

  lemma LeaveOneMore(t: Table, user: UserID, ids: set<ChatID>, id: ChatID)
    requires WellFormed(t)
    ensures Leave(LeaveMany(t, user, ids), user, id) == LeaveMany(t, user, ids + {id})
  {
    var t1, t2 := LeaveMany(t, user, ids), LeaveMany(t, user, ids + {id});
    forall c | c in t.rooms && user !in t.rooms[c].logs
      ensures t.rooms[c].(logs := t.rooms[c].logs - {user}) == t.rooms[c] && t.rooms[c].Members() != {user}
    {
      assert t.rooms[c].logs - {user} == t.rooms[c].logs;
    }
    forall c | c in t1.rooms && c in ids
      ensures user !in t1.rooms[c].logs
    {}
    assert Leave(t1, user, id).rooms.Keys == t2.rooms.Keys;
    assert Leave(t1, user, id).rooms == t2.rooms;
  }

  /** Only the rooms the user is in matter. */
  lemma LeaveManyEnough(t: Table, user: UserID, ids: set<ChatID>)
    requires forall id :: t.IsMember(user, id) ==> id in ids
    ensures LeaveMany(t, user, ids) == LeaveMany(t, user, t.rooms.Keys)
    ensures forall id :: !LeaveMany(t, user, ids).IsMember(user, id)
  {
    forall c | c in t.rooms && user !in t.rooms[c].logs
      ensures t.rooms[c].(logs := t.rooms[c].logs - {user}) == t.rooms[c] && t.rooms[c].Members() != {user}
    {
      assert t.rooms[c].logs - {user} == t.rooms[c].logs;
    }
    assert forall c :: c in t.rooms && c !in ids ==> !t.IsMember(user, c);
    assert LeaveMany(t, user, ids).rooms == LeaveMany(t, user, t.rooms.Keys).rooms;
  }

  // ----- Runs -----

  const SESSION_KEY_SIZE: nat := 256

  /** What users ask for, one request at a time. */
  datatype Request =
    | Enter(user: UserID)
    | Open(user: UserID, key: Bytes)
    | Bring(user: UserID, invitee: UserID, id: ChatID)
    | Say(user: UserID, id: ChatID, text: Bytes)
    | Quit(user: UserID, id: ChatID)
    | Exit(user: UserID)

  /** Requests of users who are not logged in, and about chats they are not in, change nothing. */
  ghost function Step(t: Table, home: string -> Host, hosts: set<Host>, q: Request): Table {
    match q
    case Enter(user) => if home(user) in hosts then Login(t, user) else t
    case Open(user, key) => if user in t.online then Create(t, user, NextName(t.rooms.Keys, home(user)), key) else t
    case Bring(user, invitee, id) => Invite(t, user, invitee, id)
    case Say(user, id, text) => Send(t, user, id, text)
    case Quit(user, id) => Leave(t, user, id)
    case Exit(user) => if user in t.online then Logout(t, user) else t
  }

  ghost function Run(t: Table, home: string -> Host, hosts: set<Host>, qs: seq<Request>): Table
    decreases |qs|
  {
    if qs == [] then t else Run(Step(t, home, hosts, qs[0]), home, hosts, qs[1..])
  }

  lemma {:induction false} RunSnoc(t: Table, home: string -> Host, hosts: set<Host>, qs: seq<Request>, q: Request)
    ensures Run(t, home, hosts, qs + [q]) == Step(Run(t, home, hosts, qs), home, hosts, q)
    decreases |qs|
  {
    if qs == [] {
      assert (qs + [q])[1..] == [];
    } else {
      assert (qs + [q])[0] == qs[0] && (qs + [q])[1..] == qs[1..] + [q];
      RunSnoc(Step(t, home, hosts, qs[0]), home, hosts, qs[1..], q);
    }
  }

  /** Of any two members of a room, one has seen what the other has seen and perhaps more before it: all see the
      same messages in the same order from when they joined on. */
  ghost predicate SameOrderAt(t: Table, id: ChatID, m: UserID, n: UserID) {
    t.IsMember(m, id) && t.IsMember(n, id) ==>
      IsSuffix(t.rooms[id].logs[m], t.rooms[id].logs[n]) || IsSuffix(t.rooms[id].logs[n], t.rooms[id].logs[m])
  }

  ghost predicate SameOrder(t: Table) {
    forall id, m, n :: SameOrderAt(t, id, m, n)
  }

  /** Rooms have members, members are logged in, and they agree about the order of messages. */
  lemma StepKeeps(t: Table, home: string -> Host, hosts: set<Host>, q: Request)
    requires WellFormed(t) && SameOrder(t)
    ensures WellFormed(Step(t, home, hosts, q)) && SameOrder(Step(t, home, hosts, q))
  {
    var t' := Step(t, home, hosts, q);
    forall id, m, n
      ensures SameOrderAt(t', id, m, n)
    {
      assert SameOrderAt(t, id, m, n);
    }
    forall id | id in t'.rooms
      ensures t'.rooms[id].logs != map[] && t'.rooms[id].Members() <= t'.online
    {
      StepFilled(t, home, hosts, q, id);
    }
  }

  lemma StepFilled(t: Table, home: string -> Host, hosts: set<Host>, q: Request, id: ChatID)
    requires WellFormed(t) && id in Step(t, home, hosts, q).rooms
    ensures Step(t, home, hosts, q).rooms[id].logs != map[]
    ensures Step(t, home, hosts, q).rooms[id].Members() <= Step(t, home, hosts, q).online
  {
    var t' := Step(t, home, hosts, q);
    var logs := t'.rooms[id].logs;
    match q
    case Open(user, _) =>
      assert id !in t.rooms ==> user in logs;
    case Bring(_, invitee, at) =>
      assert t' != t && id == at ==> invitee in logs;
    case Say(_, at, _) =>
      assert logs.Keys == t.rooms[id].logs.Keys;
    case Quit(user, at) =>
      OthersRemain(t.rooms[id].Members(), user);
      assert t' != t && id == at ==> logs.Keys == t.rooms[id].Members() - {user};
    case Exit(user) =>
      OthersRemain(t.rooms[id].Members(), user);
      assert logs.Keys == t.rooms[id].Members() - {user};
    case Enter(_) =>
  }

  lemma OthersRemain(members: set<UserID>, user: UserID)
    ensures members - {user} == {} ==> members <= {user}
  {}

  lemma {:induction false} RunKeeps(t: Table, home: string -> Host, hosts: set<Host>, qs: seq<Request>)
    requires WellFormed(t) && SameOrder(t)
    ensures WellFormed(Run(t, home, hosts, qs)) && SameOrder(Run(t, home, hosts, qs))
    decreases |qs|
  {
    if qs != [] {
      StepKeeps(t, home, hosts, qs[0]);
      RunKeeps(Step(t, home, hosts, qs[0]), home, hosts, qs[1..]);
    }
  }

  /** What members say in room `id` along a run. */
  ghost function Said(t: Table, home: string -> Host, hosts: set<Host>, qs: seq<Request>, id: ChatID): seq<Message>
    decreases |qs|
  {
    if qs == [] then []
    else
      var rest := Said(Step(t, home, hosts, qs[0]), home, hosts, qs[1..], id);
      if qs[0].Say? && qs[0].id == id && t.IsMember(qs[0].user, id) then [Message(qs[0].user, qs[0].text)] + rest else rest
  }

  predicate GoesAway(q: Request, user: UserID, id: ChatID) {
    q == Quit(user, id) || q == Exit(user)
  }

  lemma StepLosesNothing(t: Table, home: string -> Host, hosts: set<Host>, q: Request, user: UserID, id: ChatID)
    requires t.IsMember(user, id) && !GoesAway(q, user, id)
    ensures Step(t, home, hosts, q).IsMember(user, id)
    ensures Step(t, home, hosts, q).rooms[id].key == t.rooms[id].key
    ensures Step(t, home, hosts, q).rooms[id].logs[user] ==
            t.rooms[id].logs[user]
            + if q.Say? && q.id == id && t.IsMember(q.user, id) then [Message(q.user, q.text)] else []
  {}

  /** As long as a member does not leave, it stays a member, the key of the room stays the key its creator made,
      and everything any member says is added to the member's log exactly once and in order. */
  lemma {:induction false} NothingIsLost(t: Table, home: string -> Host, hosts: set<Host>, qs: seq<Request>,
                                         user: UserID, id: ChatID)
    requires t.IsMember(user, id)
    requires forall i :: 0 <= i < |qs| ==> !GoesAway(qs[i], user, id)
    ensures Run(t, home, hosts, qs).IsMember(user, id)
    ensures Run(t, home, hosts, qs).rooms[id].key == t.rooms[id].key
    ensures Run(t, home, hosts, qs).rooms[id].logs[user] == t.rooms[id].logs[user] + Said(t, home, hosts, qs, id)
    decreases |qs|
  {
    if qs != [] {
      StepLosesNothing(t, home, hosts, qs[0], user, id);
      var t1, rest := Step(t, home, hosts, qs[0]), qs[1..];
      assert forall i :: 0 <= i < |rest| ==> rest[i] == qs[i + 1];
      NothingIsLost(t1, home, hosts, rest, user, id);
      AddsUp(t.rooms[id].logs[user], t1.rooms[id].logs[user], Said(t1, home, hosts, rest, id));
    }
  }

  /** What is added first comes before what is added next. */
  lemma AddsUp(log: seq<Message>, log1: seq<Message>, rest: seq<Message>)
    requires |log| <= |log1| && log1[..|log|] == log
    ensures log1 + rest == log + (log1[|log|..] + rest)
  {}

  // ----- Who is online, and who is a member -----

  /** Who is online after a request: whoever enters at a server of the federation, until it exits. */
  lemma StepOnline(t: Table, home: string -> Host, hosts: set<Host>, q: Request, user: UserID)
    ensures user in Step(t, home, hosts, q).online <==>
      (q == Enter(user) && home(user) in hosts) || (user in t.online && q != Exit(user))
  {}

  /** The request makes the user a member: by opening the room, which gets the first free ID, or as someone whom a member
      brings in. */
  ghost predicate ComesIn(t: Table, home: string -> Host, q: Request, user: UserID, id: ChatID) {
    && user in t.online && !t.IsMember(user, id)
    && match q
       case Open(creator, _) => creator == user && id == NextName(t.rooms.Keys, home(user))
       case Bring(member, invitee, at) => invitee == user && at == id && t.IsMember(member, id)
       case _ => false
  }

  /** Who is a member after a request: whoever comes in, and whoever was one and does not go away. */
  lemma StepMembers(t: Table, home: string -> Host, hosts: set<Host>, q: Request, user: UserID, id: ChatID)
    requires WellFormed(t)
    ensures Step(t, home, hosts, q).IsMember(user, id) <==>
      ComesIn(t, home, q, user, id) || (t.IsMember(user, id) && !GoesAway(q, user, id))
  {
    var t' := Step(t, home, hosts, q);
    match q
    case Open(_, _) =>
      assert NextName(t.rooms.Keys, home(q.user)) !in t.rooms;
    case Exit(_) =>
      OthersRemain(if id in t.rooms then t.rooms[id].Members() else {}, q.user);
    case _ =>
  }

  /** Whoever comes in has seen nothing yet, and a room that is opened has the key that its creator made. */
  lemma ComesInFresh(t: Table, home: string -> Host, hosts: set<Host>, q: Request, user: UserID, id: ChatID)
    requires WellFormed(t) && ComesIn(t, home, q, user, id)
    ensures var t' := Step(t, home, hosts, q);
      && t'.IsMember(user, id) && t'.rooms[id].logs[user] == []
      && (q.Open? ==> id !in t.rooms && t'.rooms[id].Members() == {user} && t'.rooms[id].key == q.key)
      && (q.Bring? ==> t'.rooms[id].key == t.rooms[id].key)
  {}

  /** Request `i` of those that came brought the user online, and it has not exited since. */
  ghost predicate EnteredLast(qs: seq<Request>, home: string -> Host, hosts: set<Host>, user: UserID, i: nat) {
    && i < |qs| && qs[i] == Enter(user) && home(user) in hosts
    && forall j :: i < j < |qs| ==> qs[j] != Exit(user)
  }

  const NOBODY := Table({}, map[])

  /** Request `i` of those that came made the user a member, and it has not gone away since. */
  ghost predicate CameInLast(qs: seq<Request>, home: string -> Host, hosts: set<Host>, user: UserID, id: ChatID, i: nat) {
    && i < |qs| && ComesIn(Run(NOBODY, home, hosts, qs[..i]), home, qs[i], user, id)
    && forall j :: i < j < |qs| ==> !GoesAway(qs[j], user, id)
  }

  lemma {:induction false} RunOnline(qs: seq<Request>, home: string -> Host, hosts: set<Host>, user: UserID)
    ensures user in Run(NOBODY, home, hosts, qs).online <==> exists i :: EnteredLast(qs, home, hosts, user, i)
    decreases |qs|
  {
    if qs != [] {
      var n := |qs| - 1;
      var before := qs[..n];
      assert qs == before + [qs[n]];
      RunSnoc(NOBODY, home, hosts, before, qs[n]);
      RunOnline(before, home, hosts, user);
      StepOnline(Run(NOBODY, home, hosts, before), home, hosts, qs[n], user);
      if qs[n] == Enter(user) && home(user) in hosts {
        assert EnteredLast(qs, home, hosts, user, n);
      } else if qs[n] == Exit(user) {
        assert forall i :: !EnteredLast(qs, home, hosts, user, i);
      } else {
        forall i ensures EnteredLast(qs, home, hosts, user, i) == EnteredLast(before, home, hosts, user, i) {}
      }
    }
  }

  /** After any run a user is a member of a room if and only if some request made it one and it has not gone away since. */
  lemma {:induction false} RunMembers(qs: seq<Request>, home: string -> Host, hosts: set<Host>, user: UserID, id: ChatID)
    ensures Run(NOBODY, home, hosts, qs).IsMember(user, id) <==> exists i :: CameInLast(qs, home, hosts, user, id, i)
    decreases |qs|
  {
    if qs != [] {
      var n := |qs| - 1;
      var before := qs[..n];
      var t := Run(NOBODY, home, hosts, before);
      assert qs == before + [qs[n]];
      RunSnoc(NOBODY, home, hosts, before, qs[n]);
      RunKeeps(NOBODY, home, hosts, before);
      RunMembers(before, home, hosts, user, id);
      StepMembers(t, home, hosts, qs[n], user, id);
      assert forall i: nat :: i <= n ==> before[..i] == qs[..i];
      if ComesIn(t, home, qs[n], user, id) {
        assert CameInLast(qs, home, hosts, user, id, n);
      } else if GoesAway(qs[n], user, id) {
        assert forall i :: !CameInLast(qs, home, hosts, user, id, i);
      } else {
        forall i ensures CameInLast(qs, home, hosts, user, id, i) == CameInLast(before, home, hosts, user, id, i) {}
      }
    }
  }

  /** And it has then seen exactly what members have said there since; for whoever opened the room its key is still the
      one that came with that request. */
  lemma {:induction false} RunLogs(qs: seq<Request>, home: string -> Host, hosts: set<Host>, user: UserID, id: ChatID, i: nat)
    requires CameInLast(qs, home, hosts, user, id, i)
    ensures Run(NOBODY, home, hosts, qs).IsMember(user, id)
    ensures Run(NOBODY, home, hosts, qs).rooms[id].logs[user] ==
            Said(Run(NOBODY, home, hosts, qs[..i + 1]), home, hosts, qs[i + 1..], id)
    ensures qs[i].Open? ==> Run(NOBODY, home, hosts, qs).rooms[id].key == qs[i].key
  {
    var t, rest := Run(NOBODY, home, hosts, qs[..i]), qs[i + 1..];
    assert qs[..i + 1] == qs[..i] + [qs[i]] && qs == qs[..i + 1] + rest;
    RunSnoc(NOBODY, home, hosts, qs[..i], qs[i]);
    RunKeeps(NOBODY, home, hosts, qs[..i]);
    ComesInFresh(t, home, hosts, qs[i], user, id);
    forall j | 0 <= j < |rest| ensures !GoesAway(rest[j], user, id) { assert rest[j] == qs[i + 1 + j]; }
    NothingIsLost(Run(NOBODY, home, hosts, qs[..i + 1]), home, hosts, rest, user, id);
    RunGoesOn(NOBODY, home, hosts, qs[..i + 1], rest);
  }

  lemma {:induction false} RunGoesOn(t: Table, home: string -> Host, hosts: set<Host>, qs: seq<Request>, rest: seq<Request>)
    ensures Run(t, home, hosts, qs + rest) == Run(Run(t, home, hosts, qs), home, hosts, rest)
    decreases |qs|
  {
    if qs == [] {
      assert qs + rest == rest;
    } else {
      assert (qs + rest)[0] == qs[0] && (qs + rest)[1..] == qs[1..] + rest;
      RunGoesOn(Step(t, home, hosts, qs[0]), home, hosts, qs[1..], rest);
    }
  }
}
