/** Runs in which no call fails and every rule but one is obeyed: without it what ThreadRuns proves is not true. In each a
    chat is gone and its ID has been given to another. The rules about filing and about keys are obeyed whenever
    invitations come in as they are meant (ThreadInvitations), so the runs without one of those have one that does not. */
module ThreadRaces {
  import opened Wrappers
  import opened Identifiers
  import opened Threads
  import opened ThreadRuns
  import opened ThreadWalks

  ghost function AllBut(rule: Rule): (rules: set<Rule>)
    ensures rule !in rules && (InviteMeant in rules ==> rule.UnlistEmpty? || rule.UnlistFiled? || rule.CloseLeft?)
  {
    {UnlistEmpty, UnlistFiled, FileAlone, FileQuiet, FilePresent, CloseLeft, HandKey}
      + (if rule.UnlistEmpty? || rule.UnlistFiled? || rule.CloseLeft? then {InviteMeant} else {}) - {rule}
  }

  // ----- What goes wrong -----

  /** Nobody holds the participants mutex, and a member's client does not show exactly the participants. */
  ghost predicate ShowsOthers(s: State, o: RoomRef, user: UserID) {
    && IsShownIn(s, o, user) && s.IsFree(RoomLock(o))
    && !(s.Shows(user, s.rooms[o].id) && s.clients[user][s.rooms[o].id].users == s.rooms[o].members)
  }

  /** Nobody holds the participants mutex, and a member's client has not seen all joins and leaves since the user got the
      chat. */
  ghost predicate MissesChanges(s: State, o: RoomRef, user: UserID) {
    && IsShownIn(s, o, user) && s.IsFree(RoomLock(o)) && s.Shows(user, s.rooms[o].id)
    && forall i: nat :: GotChat(s.rooms[o], user, i) ==> s.clients[user][s.rooms[o].id].seen != s.rooms[o].history[i..]
  }

  ghost predicate HasOtherKey(s: State, o: RoomRef, user: UserID) {
    IsShownIn(s, o, user) && s.Shows(user, s.rooms[o].id) && s.clients[user][s.rooms[o].id].key != s.rooms[o].key
  }

  /** A client shows an ID that is just being given out, and nobody is going to close it. */
  ghost predicate ShowsReused(s: State, t: Tid, o: RoomRef, user: UserID) {
    && CanListChat(s, t, o)
    && var id := NextName(s.chats.Keys, s.home(s.threads[t].user));
       s.Shows(user, id) && !IsGoing(s, user, id)
  }

  // ----- How the runs are built -----

  ghost predicate Below(s: State, n: Tid) {
    forall t :: t in s.threads ==> t < n
  }

  /** Of its threads only those in `ts` are to have the user's client close the chat. */
  ghost predicate OnlyExits(s: State, user: UserID, id: ChatID, ts: set<Tid>) {
    forall t :: t in s.threads && IsExit(s.threads[t], user, id) ==> t in ts
  }

  // ----- How they all begin: a user has opened a chat -----

  ghost predicate HasOpened(s: State, users: set<UserID>, u: UserID, id: ChatID, key: string) {
    && u in users && s.sessions.Keys == s.clients.Keys == s.inbox.Keys == users
    && (forall v :: v in users ==> s.inbox[v] == [])
    && s.threads == map[0 := Proc(u, Open(key), Finished, 0, {})]
    && HasEntry(s, u, id, 0) && s.Shows(u, id) && s.clients[u][id] == View({u}, key, 0, [], [])
    && (forall v :: v in users && v != u ==> HasNoEntry(s, v, id))
    && s.chats == map[id := 0]
    && s.rooms.Keys == {0} && s.rooms[0] == Room(id, u, key, Filed(0), {u}, [], Idle)
  }

  lemma Opens(home: string -> Host, users: set<UserID>, u: UserID, key: string, rules: set<Rule>) returns (r: Run)
    requires u in users
    ensures Obedient(r, rules) && r.state.home == home && HasOpened(r.state, users, u, NextName({}, home(u)), key)
  {
    var s := State(home, map v | v in users :: Session(map[], None), map[], map[], map v | v in users :: map[], map[], 0,
                   map v | v in users :: [], false);
    assert s.chats.Keys == {};
    r := CreatesAndFiles(Start(s), rules, 0, {}, u, NextName({}, home(u)), key, 0);
  }

  /** The only member of room `o` has left it; its client has yet to close it. */
  ghost predicate IsVacated(s: State, s': State, t: Tid, o: RoomRef) {
    && OnlyMoved(s, s', t) && s'.threads[t].at.Closing? && s.threads[t].op.Leave?
    && s'.chats == s.chats - {s.threads[t].op.id}
    && o in s.rooms && s'.rooms.Keys == s.rooms.Keys && (forall q :: q in s.rooms && q != o ==> s'.rooms[q] == s.rooms[q])
    && s'.rooms[o].id == s.rooms[o].id && s'.rooms[o].stage == s.rooms[o].stage && s'.sessions.Keys == s.sessions.Keys
    && (forall u :: u in s.sessions && u != s.threads[t].user ==> s'.sessions[u] == s.sessions[u])
    && s'.clients == s.clients && s'.inbox == s.inbox && s'.home == s.home
  }

  lemma {:induction false} Vacates(r: Run, rules: set<Rule>, t: Tid, away: set<UserID>, o: RoomRef) returns (r': Run)
    requires Obedient(r, rules) && IsReady(r.state, t, away, o) && r.state.threads[t].op.Leave?
    requires o in r.state.rooms && r.state.rooms[o].members == {r.state.threads[t].user}
    requires r.state.threads[t].op.id in r.state.chats && r.state.chats[r.state.threads[t].op.id] == o
    requires UnlistFiled in rules ==> r.state.rooms[o].stage.Filed?
    ensures Obedient(r', rules) && OnlyActive(r'.state, t, away) && IsVacated(r.state, r'.state, t, o)
  {
    r' := Empties(r, rules, t, away, o);
    assert CanUnlist(r'.state, t) ==> UnlistsEmpty(r'.state, t);
    r' := Departs(r', rules, t, away);
  }

  // ----- How most go on: the user leaves, and opens another chat that gets the ID -----

  /** Who is there, and what of the first chat is still about: the user's client shows it, and two threads have
      yet to end. One is to close it; the other has yet to begin. */
  ghost predicate IsLeftOver(s: State, users: set<UserID>, u: UserID, id: ChatID, op: Op) {
    && u in users && s.sessions.Keys == s.clients.Keys == s.inbox.Keys == users
    && OnlyExits(s, u, id, {1, 2})
    && 1 in s.threads && s.threads[1].user == u && s.threads[1].op == Leave(id) && s.threads[1].at.Closing?
    && 2 in s.threads && s.threads[2] == Proc(u, op, NeedSession, 0, {})
    && (forall v :: v in users && v != u ==> HasNoEntry(s, v, id))
    && OnlyActive(s, 2, {}) && s.Shows(u, id)
  }

  ghost predicate HasLeft(s: State, users: set<UserID>, u: UserID, id: ChatID, op: Op) {
    && IsLeftOver(s, users, u, id, op) && Below(s, 3) && s.chats.Keys == {} && s.rooms.Keys == {0}
  }

  lemma {:induction false} AsksAndLeaves(r: Run, rules: set<Rule>, users: set<UserID>, u: UserID, id: ChatID, key: string,
                                         op: Op)
    returns (r': Run)
    requires Obedient(r, rules) && HasOpened(r.state, users, u, id, key) && CanBegin(r.state, 2, u, op) && !op.Open?
    ensures Obedient(r', rules) && HasLeft(r'.state, users, u, id, op) && r'.state.home == r.state.home
  {
    r' := Asks(r, rules, 2, u, op);
    r' := Asks(r', rules, 1, u, Leave(id));
    r' := LeavesNow(r', rules, users, u, id, op);
  }

  /** Both threads are about to begin. */
  ghost predicate HasAsked(s: State, users: set<UserID>, u: UserID, id: ChatID, op: Op) {
    && u in users && s.sessions.Keys == s.clients.Keys == s.inbox.Keys == users
    && Below(s, 3) && 0 in s.threads && s.threads[0].at.Finished? && s.threads[0].op.Open?
    && 1 in s.threads && 2 in s.threads && s.threads[1] == Proc(u, Leave(id), NeedSession, 0, {}) && s.threads[2] == Proc(u, op, NeedSession, 0, {})
    && HasEntry(s, u, id, 0) && s.Shows(u, id)
    && (forall v :: v in users && v != u ==> HasNoEntry(s, v, id))
    && s.chats == map[id := 0] && s.rooms.Keys == {0} && s.rooms[0].members == {u} && s.rooms[0].stage.Filed?
  }

  lemma {:induction false} LeavesNow(r: Run, rules: set<Rule>, users: set<UserID>, u: UserID, id: ChatID, op: Op)
    returns (r': Run)
    requires Obedient(r, rules) && HasAsked(r.state, users, u, id, op)
    ensures Obedient(r', rules) && HasLeft(r'.state, users, u, id, op) && r'.state.home == r.state.home
  {
    r' := Vacates(r, rules, 1, {}, 0);
    IsNowOver(r.state, r'.state, users, u, id, op);
  }

  lemma IsNowOver(s: State, s': State, users: set<UserID>, u: UserID, id: ChatID, op: Op)
    requires HasAsked(s, users, u, id, op) && IsVacated(s, s', 1, 0)
    ensures HasLeft(s', users, u, id, op)
  {}

  /** The second chat is in the map and in the session. */
  ghost predicate HasReopened(s: State, users: set<UserID>, u: UserID, id: ChatID, key: string, op: Op) {
    && IsLeftOver(s, users, u, id, op) && Below(s, 4) && 3 in s.threads && s.threads[3] == Proc(u, Open(key), Filing(1), 0, {})
    && HasEntry(s, u, id, 1) && s.chats.Keys == {id} && s.chats[id] == 1
    && s.rooms.Keys == {0, 1} && s.rooms[1] == Room(id, u, key, Entered(3), {u}, [], Idle)
  }

  lemma {:induction false} Reopens(r: Run, rules: set<Rule>, users: set<UserID>, u: UserID, id: ChatID, key: string, op: Op)
    returns (r': Run)
    requires Obedient(r, rules) && HasLeft(r.state, users, u, id, op)
    requires id == NextName({}, r.state.home(u))
    ensures Obedient(r', rules) && HasReopened(r'.state, users, u, id, key, op) && r'.state.home == r.state.home
  {
    r' := Creates(r, rules, 3, {}, u, id, key, 1);
    OpensAgain(r.state, r'.state, users, u, id, key, op);
  }

  lemma OpensAgain(s: State, s': State, users: set<UserID>, u: UserID, id: ChatID, key: string, op: Op)
    requires HasLeft(s, users, u, id, op) && IsOpened(s, s', 3, u, id, key, 1)
    ensures HasReopened(s', users, u, id, key, op)
  {
    StillLeftOver(s, s', users, u, id, Proc(u, Open(key), Filing(1), 0, {}), op);
  }

  /** And on the client. */
  ghost predicate HasRefiled(s: State, users: set<UserID>, u: UserID, id: ChatID, key: string, op: Op) {
    && IsLeftOver(s, users, u, id, op) && Below(s, 4)
    && HasEntry(s, u, id, 1) && s.chats.Keys == {id} && s.chats[id] == 1
    && s.rooms.Keys == {0, 1} && s.rooms[1] == Room(id, u, key, Filed(0), {u}, [], Idle)
  }

  lemma {:induction false} Refiles(r: Run, rules: set<Rule>, users: set<UserID>, u: UserID, id: ChatID, key: string, op: Op)
    returns (r': Run)
    requires Obedient(r, rules) && HasLeft(r.state, users, u, id, op)
    requires id == NextName({}, r.state.home(u))
    ensures Obedient(r', rules) && HasRefiled(r'.state, users, u, id, key, op) && r'.state.home == r.state.home
  {
    r' := CreatesAndFiles(r, rules, 3, {}, u, id, key, 1);
    FilesAgain(r.state, r'.state, users, u, id, key, op);
  }

  lemma FilesAgain(s: State, s': State, users: set<UserID>, u: UserID, id: ChatID, key: string, op: Op)
    requires HasLeft(s, users, u, id, op) && IsFiled(s, s', 3, u, id, key, 1)
    ensures HasRefiled(s', users, u, id, key, op)
  {
    StillLeftOver(s, s', users, u, id, Proc(u, Open(key), Finished, 0, {}), op);
  }

  /** A new chat of the user's own takes nothing away. */
  lemma StillLeftOver(s: State, s': State, users: set<UserID>, u: UserID, id: ChatID, p: Proc, op: Op)
    requires IsLeftOver(s, users, u, id, op) && Below(s, 3) && p.op.Open? && (p.at.Filing? || p.at.Finished?)
    requires s'.threads.Keys == s.threads.Keys + {3} && s'.threads[3] == p && s'.home == s.home && s'.inbox == s.inbox
    requires forall t1 :: t1 in s.threads && t1 != 3 ==> s'.threads[t1] == s.threads[t1]
    requires s'.sessions.Keys == s.sessions.Keys && s'.clients.Keys == s.clients.Keys && s'.Shows(u, id)
    requires forall v :: v in users && v != u ==> s'.sessions[v] == s.sessions[v] && s'.clients[v] == s.clients[v]
    ensures IsLeftOver(s', users, u, id, op) && Below(s', 4)
  {
    StillOnly(s, s', users, u, id, p, op);
  }

  lemma StillOnly(s: State, s': State, users: set<UserID>, u: UserID, id: ChatID, p: Proc, op: Op)
    requires IsLeftOver(s, users, u, id, op) && Below(s, 3) && p.op.Open? && (p.at.Filing? || p.at.Finished?)
    requires s'.threads.Keys == s.threads.Keys + {3} && s'.threads[3] == p
    requires forall t1 :: t1 in s.threads && t1 != 3 ==> s'.threads[t1] == s.threads[t1]
    ensures OnlyExits(s', u, id, {1, 2}) && OnlyActive(s', 2, {}) && Below(s', 4)
    ensures 1 in s'.threads && 2 in s'.threads && s'.threads[1] == s.threads[1] && s'.threads[2] == s.threads[2]
  {}

  // ----- A client closes a chat that its user is in again -----

  /** A user leaves a chat and opens another, which gets the ID, before its client has closed the first; then the
      client closes the second, shows nothing although its user is in it, and does not log the user's own message. */
  lemma ClosedAgain(home: string -> Host, u: UserID, key: string) returns (r: Run)
    ensures IsRun(r) && Along(r, AllBut(CloseLeft))
    ensures ShowsOthers(r.state, 1, u) && IsUnlogged(r)
  {
    var rules, id := AllBut(CloseLeft), NextName({}, home(u));
    r := Opens(home, {u}, u, key, rules);
    r := AsksAndLeaves(r, rules, {u}, u, id, key, Send(id, ""));
    r := Refiles(r, rules, {u}, u, id, key, Send(id, ""));
    r := ClosesSecond(r, rules, u, id, key);
    r := SendsUnseen(r, rules, u, id);
  }

  /** The message to the second chat is on its way. */
  ghost predicate IsUnseen(s: State, u: UserID, id: ChatID) {
    && CanDeliver(s, 2, u) && s.threads[2].op.id == id && s.threads[2].at.room == 1 && !s.Shows(u, id)
    && IsShownIn(s, 1, u) && s.rooms[1].id == id && OnlyActive(s, 2, {})
  }

  lemma {:induction false} ClosesSecond(r: Run, rules: set<Rule>, u: UserID, id: ChatID, key: string) returns (r': Run)
    requires Obedient(r, rules) && HasRefiled(r.state, {u}, u, id, key, Send(id, "")) && CloseLeft !in rules
    ensures Obedient(r', rules) && IsUnseen(r'.state, u, id)
  {
    var r1 := Closes(r, rules, 1, u, id);
    r' := Sends(r1, rules, 2, {}, 1);
    IsNowUnseen(r.state, r1.state, r'.state, u, id, key);
  }

  lemma IsNowUnseen(s: State, s1: State, s': State, u: UserID, id: ChatID, key: string)
    requires HasRefiled(s, {u}, u, id, key, Send(id, "")) && IsSending(s1, s', 2, 1) && OnlyActive(s', 2, {})
    requires s1 == s.(threads := s.threads[1 := s.threads[1].(at := Finished)],
                      clients := s.clients[u := s.clients[u] - {id}])
    ensures IsUnseen(s', u, id)
  {}

  lemma {:induction false} SendsUnseen(r: Run, rules: set<Rule>, u: UserID, id: ChatID) returns (r': Run)
    requires Obedient(r, rules) && IsUnseen(r.state, u, id)
    ensures Obedient(r', rules) && ShowsOthers(r'.state, 1, u) && IsUnlogged(r')
  {
    r' := SendStep(r, rules, Deliver(2, u), DoDeliver(r.state, 2, u));
  }

  // ----- An invited user is handed the key of an earlier chat -----

  /** A user sets out to invite someone, leaves the chat and opens another, which gets the ID; the invitation goes
      ahead in the second chat, with the key of the first. */
  lemma StaleKey(home: string -> Host, u: UserID, d: UserID, key0: string, key1: string) returns (r: Run)
    requires u != d && key0 != key1 && home(d) == home(NextName({}, home(u)))
    ensures IsRun(r) && Along(r, AllBut(HandKey)) && HasOtherKey(r.state, 1, d)
  {
    var rules, id := AllBut(HandKey), NextName({}, home(u));
    var op := Invite(id, d, key0, 0);
    r := Opens(home, {u, d}, u, key0, rules);
    r := AsksAndLeaves(r, rules, {u, d}, u, id, key0, op);
    r := Refiles(r, rules, {u, d}, u, id, key1, op);
    r := InvitesLate(r, rules, u, d, id, key0, key1);
  }

  lemma {:induction false} InvitesLate(r: Run, rules: set<Rule>, u: UserID, d: UserID, id: ChatID, key0: string, key1: string)
    returns (r': Run)
    requires Obedient(r, rules) && HasRefiled(r.state, {u, d}, u, id, key1, Invite(id, d, key0, 0)) && HandKey !in rules
    requires u != d && key0 != key1 && r.state.home(d) == r.state.home(id) && InviteMeant !in rules
    ensures Obedient(r', rules) && HasOtherKey(r'.state, 1, d)
  {
    r' := Invites(r, rules, 2, {}, 1);
  }

  // ----- A client files a chat that someone else has come into -----

  /** The invitation has gone ahead in the second chat, which the client of `u` has yet to file. */
  ghost predicate IsAstray(s: State, u: UserID, d: UserID, id: ChatID, key: string) {
    && u != d && s.sessions.Keys == s.clients.Keys == s.inbox.Keys == {u, d} && OnlyActive(s, 4, {})
    && Below(s, 4) && 1 in s.threads && 3 in s.threads && s.threads[3] == Proc(u, Open(key), Filing(1), 0, {})
    && s.threads[1].user == u && s.threads[1].op == Leave(id) && s.threads[1].at.Closing?
    && OnlyExits(s, u, id, {1})
    && s.rooms.Keys == {0, 1} && s.rooms[1].members == {u, d} && s.rooms[1].id == id && s.rooms[1].busy.Idle?
    && !s.rooms[1].stage.Listed? && id in s.chats && s.chats[id] == 1 && s.chats.Keys == {id}
    && HasEntry(s, u, id, 1) && HasEntry(s, d, id, 1) && s.Shows(u, id) && s.Shows(d, id)
  }

  lemma GoesAstray(home: string -> Host, u: UserID, d: UserID, key: string, rules: set<Rule>) returns (r: Run)
    requires u != d && home(d) == home(NextName({}, home(u))) && InviteMeant !in rules
    ensures Obedient(r, rules) && IsAstray(r.state, u, d, NextName({}, home(u)), key)
    ensures r.state.home == home
  {
    var id := NextName({}, home(u));
    var op := Invite(id, d, key, 0);
    r := Opens(home, {u, d}, u, key, rules);
    r := AsksAndLeaves(r, rules, {u, d}, u, id, key, op);
    r := Reopens(r, rules, {u, d}, u, id, key, op);
    r := InvitesAstray(r, rules, u, d, id, key);
  }

  lemma {:induction false} InvitesAstray(r: Run, rules: set<Rule>, u: UserID, d: UserID, id: ChatID, key: string)
    returns (r': Run)
    requires Obedient(r, rules) && HasReopened(r.state, {u, d}, u, id, key, Invite(id, d, key, 0))
    requires u != d && r.state.home(d) == r.state.home(id) && InviteMeant !in rules
    ensures Obedient(r', rules) && IsAstray(r'.state, u, d, id, key)
    ensures r'.state.home == r.state.home
  {
    r' := Invites(r, rules, 2, {}, 1);
    IsNowAstray(r.state, r'.state, u, d, id, key);
  }

  lemma IsNowAstray(s: State, s': State, u: UserID, d: UserID, id: ChatID, key: string)
    requires HasReopened(s, {u, d}, u, id, key, Invite(id, d, key, 0)) && u != d
    requires IsInvited(s, s', 2, 1, u, Direct(1))
    ensures IsAstray(s', u, d, id, key)
  {}

  /** A user sets out to invite someone, leaves the chat and opens another, which gets the ID; before the client
      has filed it the invitation goes ahead in it. Filing it then loses the invited user, whose message is dropped. */
  lemma StaleInvitation(home: string -> Host, u: UserID, d: UserID, key: string) returns (r: Run)
    requires u != d && home(d) == home(NextName({}, home(u)))
    ensures IsRun(r) && Along(r, AllBut(FileAlone))
    ensures r.state.dropped && IsUnlogged(r) && ShowsOthers(r.state, 1, u)
  {
    var rules, id := AllBut(FileAlone), NextName({}, home(u));
    r := GoesAstray(home, u, d, key, rules);
    r := FilesOver(r, rules, u, d, id, key);
    r := SendsOver(r, rules, u, d, id);
  }

  /** The client of `u` has filed the second chat and lost `d` from view. */
  ghost predicate IsOverlooked(s: State, u: UserID, d: UserID, id: ChatID) {
    && u != d && IsReady(s, 4, {}, 1) && s.threads[4] == Proc(d, Send(id, ""), NeedSession, 0, {})
    && IsShownIn(s, 1, u) && s.rooms[1].members == {u, d} && s.rooms[1].id == id && u in s.inbox
    && s.Shows(u, id) && s.clients[u][id].users == {u}
  }

  lemma {:induction false} FilesOver(r: Run, rules: set<Rule>, u: UserID, d: UserID, id: ChatID, key: string)
    returns (r': Run)
    requires Obedient(r, rules) && IsAstray(r.state, u, d, id, key) && FileAlone !in rules
    ensures Obedient(r', rules) && IsOverlooked(r'.state, u, d, id)
  {
    assert FilesPresent(r.state, 3) && FilesQuiet(r.state, 3);
    r' := Files(r, rules, 3);
    r' := Asks(r', rules, 4, d, Send(id, ""));
    SendsInto(r.state, u, d, id, key);
  }

  lemma SendsInto(s: State, u: UserID, d: UserID, id: ChatID, key: string)
    requires IsAstray(s, u, d, id, key) && CanFileChat(s, 3)
    ensures var s1 := DoFileChat(s, 3);
      IsOverlooked(s1.(threads := s1.threads[4 := Proc(d, Send(id, ""), NeedSession, 0, {})]), u, d, id)
  {}

  lemma {:induction false} SendsOver(r: Run, rules: set<Rule>, u: UserID, d: UserID, id: ChatID) returns (r': Run)
    requires Obedient(r, rules) && IsOverlooked(r.state, u, d, id)
    ensures Obedient(r', rules) && r'.state.dropped && IsUnlogged(r') && ShowsOthers(r'.state, 1, u)
  {
    var r1 := Sends(r, rules, 4, {}, 1);
    r' := Drops(r1, rules, 4, u);
    StillOverlooked(r.state, r1.state, u, d, id);
  }

  lemma StillOverlooked(s: State, s1: State, u: UserID, d: UserID, id: ChatID)
    requires IsOverlooked(s, u, d, id) && IsSending(s, s1, 4, 1) && OnlyActive(s1, 4, {})
    ensures CanDeliver(s1, 4, u) ==> ShowsOthers(DoDeliver(s1, 4, u), 1, u)
  {
    assert d in {u, d} && d !in {u};
  }

  // ----- A client files a chat while someone else's message is on its way -----

  /** As before, but the invited user's message is on its way when the user leaves the second chat, and nobody else is
      there to be shown when the client files it. The message comes after that, and is dropped. */
  lemma LateMessage(home: string -> Host, u: UserID, d: UserID, key: string) returns (r: Run)
    requires u != d && home(d) == home(NextName({}, home(u)))
    ensures IsRun(r) && Along(r, AllBut(FileQuiet)) && r.state.dropped
  {
    var rules, id := AllBut(FileQuiet), NextName({}, home(u));
    r := GoesAstray(home, u, d, key, rules);
    r := SendsFirst(r, rules, u, d, id, key);
    r := LeavesMissed(r, rules, u, d, id, key);
    r := FilesMissed(r, rules, u, d, id, key);
  }

  /** The message is on its way to both. */
  ghost predicate IsSent(s: State, u: UserID, d: UserID, id: ChatID, key: string) {
    && u != d && s.sessions.Keys == s.clients.Keys == s.inbox.Keys == {u, d} && OnlyActive(s, 4, {}) && Below(s, 5)
    && 3 in s.threads && s.threads[3] == Proc(u, Open(key), Filing(1), 0, {})
    && 4 in s.threads && s.threads[4].user == d && s.threads[4].op == Send(id, "") && s.threads[4].at == Fanning(1, {u, d})
    && s.rooms.Keys == {0, 1} && s.rooms[1].members == {u, d} && s.rooms[1].id == id && s.rooms[1].busy.Idle?
    && id in s.chats && s.chats[id] == 1
    && HasEntry(s, u, id, 1) && HasEntry(s, d, id, 1) && s.Shows(u, id) && s.Shows(d, id)
  }

  lemma {:induction false} SendsFirst(r: Run, rules: set<Rule>, u: UserID, d: UserID, id: ChatID, key: string)
    returns (r': Run)
    requires Obedient(r, rules) && IsAstray(r.state, u, d, id, key)
    ensures Obedient(r', rules) && IsSent(r'.state, u, d, id, key)
  {
    var r1 := Asks(r, rules, 4, d, Send(id, ""));
    r' := Sends(r1, rules, 4, {}, 1);
    IsNowSent(r.state, r1.state, r'.state, u, d, id, key);
  }

  lemma IsNowSent(s: State, s1: State, s': State, u: UserID, d: UserID, id: ChatID, key: string)
    requires IsAstray(s, u, d, id, key) && IsSending(s1, s', 4, 1) && OnlyActive(s', 4, {})
    requires s1 == s.(threads := s.threads[4 := Proc(d, Send(id, ""), NeedSession, 0, {})])
    ensures IsSent(s', u, d, id, key)
  {}

  /** And `u`, to whom it is still to come, is out. */
  ghost predicate IsMissed(s: State, u: UserID, d: UserID, id: ChatID, key: string) {
    && u != d && u in s.clients && u in s.inbox
    && 3 in s.threads && s.threads[3] == Proc(u, Open(key), Filing(1), 0, {})
    && 4 in s.threads && s.threads[4].user == d && s.threads[4].op == Send(id, "") && s.threads[4].at == Fanning(1, {u, d})
    && 5 in s.threads && s.threads[5].user == u && s.threads[5].op == Leave(id) && s.threads[5].at == Testing(1)
    && s.rooms.Keys == {0, 1} && s.rooms[1].members == {d} && s.rooms[1].id == id && s.rooms[1].busy.Idle?
    && id in s.chats && s.chats[id] == 1
  }

  lemma {:induction false} LeavesMissed(r: Run, rules: set<Rule>, u: UserID, d: UserID, id: ChatID, key: string)
    returns (r': Run)
    requires Obedient(r, rules) && IsSent(r.state, u, d, id, key)
    ensures Obedient(r', rules) && IsMissed(r'.state, u, d, id, key)
  {
    var r1 := AsksAndEnters(r, rules, 5, {d}, u, Leave(id), 1);
    r' := PartsTelling(r1, rules, 5, {d}, 1, d);
    IsNowMissed(r.state, r1.state, r'.state, u, d, id, key);
  }

  lemma IsNowMissed(s: State, s1: State, s': State, u: UserID, d: UserID, id: ChatID, key: string)
    requires IsSent(s, u, d, id, key) && HasEntered(s, s1, 5, u, Leave(id), 1) && IsOut(s1, s', 5, 1, Testing(1))
    ensures IsMissed(s', u, d, id, key)
  {
    assert {u, d} - {u} == {d};
  }

  lemma {:induction false} FilesMissed(r: Run, rules: set<Rule>, u: UserID, d: UserID, id: ChatID, key: string)
    returns (r': Run)
    requires Obedient(r, rules) && IsMissed(r.state, u, d, id, key) && FileQuiet !in rules
    ensures Obedient(r', rules) && r'.state.dropped
  {
    assert IsExit(r.state.threads[5], u, id);
    assert FilesPresent(r.state, 3) && FilesAlone(r.state, 3);
    r' := Files(r, rules, 3);
    r' := Drops(r', rules, 4, u);
  }

  // ----- A client files a chat that its user has left for good -----

  /** The second chat goes on without `u`, whose client has closed what it had under the ID. */
  ghost predicate IsDeserted(s: State, u: UserID, d: UserID, id: ChatID, key: string) {
    && u != d && s.sessions.Keys == s.clients.Keys == {u, d} && OnlyActive(s, 5, {}) && OnlyExits(s, u, id, {})
    && Below(s, 5) && 3 in s.threads && s.threads[3] == Proc(u, Open(key), Filing(1), 0, {})
    && s.rooms.Keys == {0, 1} && s.rooms[1].members == {d} && s.rooms[1].id == id && s.rooms[1].busy.Idle?
    && s.chats.Keys == {id} && s.chats[id] == 1
    && HasEntry(s, d, id, 1) && s.Shows(d, id)
  }

  /** The same before it has. */
  ghost predicate IsLeaverOut(s: State, u: UserID, d: UserID, id: ChatID, key: string, at: Point) {
    && u != d && s.sessions.Keys == s.clients.Keys == {u, d} && OnlyActive(s, 4, {}) && OnlyExits(s, u, id, {1, 4})
    && Below(s, 5) && 1 in s.threads && 3 in s.threads && 4 in s.threads
    && s.threads[3] == Proc(u, Open(key), Filing(1), 0, {})
    && s.threads[1].user == u && s.threads[1].op == Leave(id) && s.threads[1].at.Closing?
    && s.threads[4].user == u && s.threads[4].op == Leave(id) && s.threads[4].at == at
    && s.rooms.Keys == {0, 1} && s.rooms[1].members == {d} && s.rooms[1].id == id && s.rooms[1].busy.Idle?
    && s.chats.Keys == {id} && s.chats[id] == 1
    && HasEntry(s, d, id, 1) && s.Shows(d, id)
  }

  lemma {:induction false} LeavesAstray(r: Run, rules: set<Rule>, u: UserID, d: UserID, id: ChatID, key: string)
    returns (r': Run)
    requires Obedient(r, rules) && IsAstray(r.state, u, d, id, key)
    ensures Obedient(r', rules) && IsLeaverOut(r'.state, u, d, id, key, Testing(1))
    ensures r'.state.home == r.state.home
  {
    var r1 := AsksAndEnters(r, rules, 4, {}, u, Leave(id), 1);
    r' := PartsTelling(r1, rules, 4, {}, 1, d);
    IsNowOut(r.state, r1.state, r'.state, u, d, id, key);
  }

  lemma IsNowOut(s: State, s1: State, s': State, u: UserID, d: UserID, id: ChatID, key: string)
    requires IsAstray(s, u, d, id, key) && OnlyActive(s', 4, {})
    requires HasEntered(s, s1, 4, u, Leave(id), 1) && IsOut(s1, s', 4, 1, Testing(1)) && OnlyTold(s1, s', d, id, u)
    ensures IsLeaverOut(s', u, d, id, key, Testing(1))
  {
    ExitsTwice(s, s1, s', u, id);
    IsAlone(s, s1, s', u, d, id, key);
  }

  lemma IsAlone(s: State, s1: State, s': State, u: UserID, d: UserID, id: ChatID, key: string)
    requires IsAstray(s, u, d, id, key)
    requires HasEntered(s, s1, 4, u, Leave(id), 1) && IsOut(s1, s', 4, 1, Testing(1)) && OnlyTold(s1, s', d, id, u)
    ensures s'.rooms.Keys == {0, 1} && s'.rooms[1].members == {d} && s'.rooms[1].id == id && s'.rooms[1].busy.Idle?
    ensures s'.chats.Keys == {id} && s'.chats[id] == 1 && HasEntry(s', d, id, 1) && s'.Shows(d, id)
  {
    OneStays(s1, s', 4, 1, d);
    StaysIn(s1, s', 4, 1, d, id, 1);
  }

  lemma OneStays(s: State, s': State, t: Tid, o: RoomRef, user: UserID)
    requires IsOut(s, s', t, o, Testing(o)) && s.rooms[o].members == {s.threads[t].user, user} && user != s.threads[t].user
    ensures s'.rooms[o].members == {user}
  {
    assert {s.threads[t].user, user} - {s.threads[t].user} == {user};
  }

  /** Whoever else is in a chat keeps its session's entry, and its client the chat. */
  lemma StaysIn(s: State, s': State, t: Tid, o: RoomRef, user: UserID, id: ChatID, q: RoomRef)
    requires IsOut(s, s', t, o, Testing(o)) && OnlyTold(s, s', user, id, s.threads[t].user) && HasEntry(s, user, id, q)
    ensures HasEntry(s', user, id, q) && s'.Shows(user, id)
  {}

  lemma ExitsTwice(s: State, s1: State, s': State, u: UserID, id: ChatID)
    requires OnlyExits(s, u, id, {1}) && Below(s, 4) && 1 in s.threads && 3 in s.threads
    requires IsNew(s, s1, 4, u, Leave(id)) && OnlyMoved(s1, s', 4)
    ensures OnlyExits(s', u, id, {1, 4}) && Below(s', 5)
    ensures 1 in s'.threads && 3 in s'.threads && 4 in s'.threads
    ensures s'.threads[1] == s.threads[1] && s'.threads[3] == s.threads[3]
    ensures s'.threads[4].user == u && s'.threads[4].op == Leave(id)
  {}

  lemma {:induction false} Deserts(r: Run, rules: set<Rule>, u: UserID, d: UserID, id: ChatID, key: string)
    returns (r': Run)
    requires Obedient(r, rules) && IsLeaverOut(r.state, u, d, id, key, Testing(1))
    ensures Obedient(r', rules) && IsLeaverOut(r'.state, u, d, id, key, Closing)
    ensures r'.state.home == r.state.home
  {
    GoesOff(r.state, u, d, id, key);
    r' := Tests(r, rules, 4);
    r' := Forgets(r', rules, 4);
    r' := Releases(r', rules, 4);
  }

  lemma GoesOff(s: State, u: UserID, d: UserID, id: ChatID, key: string)
    requires IsLeaverOut(s, u, d, id, key, Testing(1))
    ensures CanTestEmpty(s, 4) && CanForget(DoTestEmpty(s, 4), 4) && CanRelease(DoForget(DoTestEmpty(s, 4), 4), 4)
    ensures IsLeaverOut(DoRelease(DoForget(DoTestEmpty(s, 4), 4), 4), u, d, id, key, Closing)
  {}

  lemma {:induction false} ClosesBoth(r: Run, rules: set<Rule>, u: UserID, d: UserID, id: ChatID, key: string)
    returns (r': Run)
    requires Obedient(r, rules) && IsLeaverOut(r.state, u, d, id, key, Closing)
    ensures Obedient(r', rules) && IsDeserted(r'.state, u, d, id, key)
    ensures r'.state.home == r.state.home
  {
    var r1 := Closes(r, rules, 1, u, id);
    r' := Closes(r1, rules, 4, u, id);
    IsNowDeserted(r.state, r1.state, r'.state, u, d, id, key);
  }

  lemma IsNowDeserted(s: State, s1: State, s': State, u: UserID, d: UserID, id: ChatID, key: string)
    requires IsLeaverOut(s, u, d, id, key, Closing)
    requires s1 == s.(threads := s.threads[1 := s.threads[1].(at := Finished)],
                      clients := s.clients[u := s.clients[u] - {id}])
    requires s' == s1.(threads := s1.threads[4 := s1.threads[4].(at := Finished)],
                       clients := s1.clients[u := s1.clients[u] - {id}])
    ensures IsDeserted(s', u, d, id, key)
  {}

  /** The client of `u` has filed it; `d` is about to leave it, too. */
  ghost predicate IsForlorn(s: State, u: UserID, d: UserID, id: ChatID) {
    && u != d && IsReady(s, 5, {}, 1) && s.threads[5] == Proc(d, Leave(id), NeedSession, 0, {}) && Below(s, 6)
    && s.rooms.Keys == {0, 1} && s.rooms[1].members == {d} && s.rooms[1].stage.Filed?
    && s.chats.Keys == {id} && s.chats[id] == 1 && u in s.sessions
    && s.Shows(u, id) && OnlyExits(s, u, id, {})
  }

  lemma {:induction false} FilesLate(r: Run, rules: set<Rule>, u: UserID, d: UserID, id: ChatID, key: string)
    returns (r': Run)
    requires Obedient(r, rules) && IsDeserted(r.state, u, d, id, key) && FilePresent !in rules
    ensures Obedient(r', rules) && IsForlorn(r'.state, u, d, id)
    ensures r'.state.home == r.state.home
  {
    assert FilesAlone(r.state, 3) && FilesQuiet(r.state, 3);
    var r1 := Files(r, rules, 3);
    r' := Asks(r1, rules, 5, d, Leave(id));
    IsNowForlorn(r.state, r1.state, r'.state, u, d, id, key);
  }

  lemma IsNowForlorn(s: State, s1: State, s': State, u: UserID, d: UserID, id: ChatID, key: string)
    requires IsDeserted(s, u, d, id, key) && CanFileChat(s, 3) && s1 == DoFileChat(s, 3)
    requires s' == s1.(threads := s1.threads[5 := Proc(d, Leave(id), NeedSession, 0, {})])
    ensures IsForlorn(s', u, d, id)
  {
    NoExits(s, s1, s', u, d, id, key);
  }

  lemma NoExits(s: State, s1: State, s': State, u: UserID, d: UserID, id: ChatID, key: string)
    requires IsDeserted(s, u, d, id, key) && CanFileChat(s, 3) && s1 == DoFileChat(s, 3)
    requires s' == s1.(threads := s1.threads[5 := Proc(d, Leave(id), NeedSession, 0, {})])
    ensures OnlyActive(s', 5, {}) && OnlyExits(s', u, id, {}) && Below(s', 6)
  {}

  /** As before, the second chat has someone else in it when the client files it; but its user has left it
      meanwhile, and what it files stays when the chat is gone. */
  lemma ShownForEver(home: string -> Host, u: UserID, d: UserID, key: string) returns (r: Run)
    requires u != d && home(d) == home(NextName({}, home(u)))
    ensures IsRun(r) && Along(r, AllBut(FilePresent)) && ShowsReused(r.state, 6, 2, u)
  {
    var rules, id := AllBut(FilePresent), NextName({}, home(u));
    r := GoesAstray(home, u, d, key, rules);
    r := LeavesAstray(r, rules, u, d, id, key);
    r := Deserts(r, rules, u, d, id, key);
    r := ClosesBoth(r, rules, u, d, id, key);
    r := FilesLate(r, rules, u, d, id, key);
    r := HandsOut(r, rules, u, d, id, key);
  }

  lemma {:induction false} HandsOut(r: Run, rules: set<Rule>, u: UserID, d: UserID, id: ChatID, key: string)
    returns (r': Run)
    requires Obedient(r, rules) && IsForlorn(r.state, u, d, id)
    requires id == NextName({}, r.state.home(u))
    ensures Obedient(r', rules) && ShowsReused(r'.state, 6, 2, u)
  {
    var r1 := Vacates(r, rules, 5, {}, 1);
    r' := OpenStep(r1, rules, Begin(6, u, Open(key)), DoBegin(r1.state, 6, u, Open(key)));
    IsHandedOut(r.state, r1.state, u, d, id, key);
  }

  lemma IsHandedOut(s: State, s1: State, u: UserID, d: UserID, id: ChatID, key: string)
    requires IsForlorn(s, u, d, id) && IsVacated(s, s1, 5, 1) && OnlyActive(s1, 5, {})
    ensures var s' := DoBegin(s1, 6, u, Open(key));
      CanListChat(s', 6, 2) && s'.chats.Keys == {} && s'.Shows(u, id) && !IsGoing(s', u, id)
  {
    var s' := DoBegin(s1, 6, u, Open(key));
    StillShown(s, s1, u, d, id, key);
    OthersHoldNothing(s', 6, {}, ChatsLock(s'.home(u)));
    assert s'.chats.Keys == {};
  }

  lemma StillShown(s: State, s1: State, u: UserID, d: UserID, id: ChatID, key: string)
    requires IsForlorn(s, u, d, id) && IsVacated(s, s1, 5, 1)
    ensures var s' := DoBegin(s1, 6, u, Open(key)); s'.Shows(u, id) && !IsGoing(s', u, id)
  {
    assert OnlyExits(DoBegin(s1, 6, u, Open(key)), u, id, {});
  }
}
