/** Runs in which no call fails and removeChat removes what it should not: a chat that is being created, or one that has
    participants. Every other rule is obeyed. */
module ThreadRemovals {
  import opened Sequences
  import opened Wrappers
  import opened Identifiers
  import opened Threads
  import opened ThreadSafety
  import opened ThreadRuns
  import opened ThreadWalks
  import opened ThreadRaces

  // ----- removeChat removes a chat that is being created -----

  /** The second chat, which the client has yet to file, is gone from the map. */
  ghost predicate IsFreeAgain(s: State, users: set<UserID>, u: UserID, id: ChatID, key: string) {
    && u in users && s.sessions.Keys == s.clients.Keys == s.inbox.Keys == users
    && OnlyActive(s, 4, {}) && Below(s, 4)
    && 3 in s.threads && s.threads[3] == Proc(u, Open(key), Filing(1), 0, {})
    && s.chats.Keys == {} && s.rooms.Keys == {0, 1} && s.rooms[1].id == id
    && (forall v :: v in users && v != u ==> HasNoEntry(s, v, id))
  }

  lemma {:induction false} LeavesUnfiled(r: Run, rules: set<Rule>, users: set<UserID>, u: UserID, id: ChatID, key: string)
    returns (r': Run)
    requires Obedient(r, rules) && HasReopened(r.state, users, u, id, key, Leave(id)) && UnlistFiled !in rules
    ensures Obedient(r', rules) && IsFreeAgain(r'.state, users, u, id, key) && r'.state.home == r.state.home
  {
    r' := Vacates(r, rules, 2, {}, 1);
    IsNowFreeAgain(r.state, r'.state, users, u, id, key);
  }

  lemma IsNowFreeAgain(s: State, s': State, users: set<UserID>, u: UserID, id: ChatID, key: string)
    requires HasReopened(s, users, u, id, key, Leave(id)) && IsVacated(s, s', 2, 1) && OnlyActive(s', 2, {})
    ensures IsFreeAgain(s', users, u, id, key)
  {}

  /** Two chats under creation have one ID. */
  ghost predicate SharesName(s: State, t1: Tid, t2: Tid) {
    && t1 != t2 && t1 in s.threads && s.threads[t1].at.Filing? && t2 in s.threads && s.threads[t2].at.Owning?
    && s.threads[t1].at.room in s.rooms && s.threads[t2].at.room in s.rooms
    && s.rooms[s.threads[t1].at.room].id == s.rooms[s.threads[t2].at.room].id
  }

  /** A user leaves a chat twice over and opens another in between, which gets the ID. Before its client has filed it
      the second leave has found it, and it is gone from the map; so the ID is given out once more. */
  lemma SharedName(home: string -> Host, u: UserID, key: string) returns (r: Run)
    ensures IsRun(r) && Along(r, AllBut(UnlistFiled)) && SharesName(r.state, 3, 4)
  {
    var rules, id := AllBut(UnlistFiled), NextName({}, home(u));
    r := Opens(home, {u}, u, key, rules);
    r := AsksAndLeaves(r, rules, {u}, u, id, key, Leave(id));
    r := Reopens(r, rules, {u}, u, id, key, Leave(id));
    r := LeavesUnfiled(r, rules, {u}, u, id, key);
    r := ListsAgain(r, rules, u, id, key);
  }

  lemma {:induction false} ListsAgain(r: Run, rules: set<Rule>, u: UserID, id: ChatID, key: string) returns (r': Run)
    requires Obedient(r, rules) && IsFreeAgain(r.state, {u}, u, id, key) && id == NextName({}, r.state.home(u))
    ensures Obedient(r', rules) && SharesName(r'.state, 3, 4)
  {
    r' := Lists(r, rules, 4, {}, u, id, key, 2);
  }

  // ----- And what becomes of that -----

  /** Filing the chat that is gone from the map replaces the one that has got its ID on the client's screen: of that the
      client then lacks what it had seen of joins and leaves, and has another key. */
  lemma FiledTwice(home: string -> Host, u: UserID, d: UserID, key1: string, key2: string) returns (r: Run)
    requires u != d && key1 != key2 && home(d) == home(NextName({}, home(u)))
    ensures IsRun(r) && Along(r, AllBut(UnlistFiled)) && MissesChanges(r.state, 2, u) && HasOtherKey(r.state, 2, u)
  {
    var rules, id := AllBut(UnlistFiled), NextName({}, home(u));
    r := Opens(home, {u, d}, u, key1, rules);
    r := AsksAndLeaves(r, rules, {u, d}, u, id, key1, Leave(id));
    r := Reopens(r, rules, {u, d}, u, id, key1, Leave(id));
    r := LeavesUnfiled(r, rules, {u, d}, u, id, key1);
    r := Replaces(r, rules, u, d, id, key1, key2);
    r := Visits(r, rules, u, d, id, key1, key2);
    r := VisitorLeaves(r, rules, u, d, id, key1, key2);
    r := Restores(r, rules, u, d, id, key1, key2);
  }

  /** The third chat, in which the client of `u` has seen what is in `seen`; the second has yet to be filed. */
  ghost predicate IsThird(s: State, u: UserID, id: ChatID, key1: string, key2: string, members: set<UserID>,
                          seen: seq<Change>) {
    && u in s.sessions && u in s.inbox
    && 3 in s.threads && s.threads[3] == Proc(u, Open(key1), Filing(1), 0, {})
    && s.rooms.Keys == {0, 1, 2} && s.rooms[1].id == id && s.rooms[2] == Room(id, u, key2, Filed(0), members, seen, Idle)
    && s.chats.Keys == {id} && s.chats[id] == 2
    && s.Shows(u, id) && s.clients[u][id] == View(members, key2, 2, seen, [])
  }

  lemma {:induction false} Replaces(r: Run, rules: set<Rule>, u: UserID, d: UserID, id: ChatID, key1: string, key2: string)
    returns (r': Run)
    requires Obedient(r, rules) && IsFreeAgain(r.state, {u, d}, u, id, key1) && u != d
    requires id == NextName({}, r.state.home(u))
    ensures Obedient(r', rules) && r'.state.home == r.state.home && OnlyActive(r'.state, 5, {}) && Below(r'.state, 5)
    ensures IsThird(r'.state, u, id, key1, key2, {u}, []) && HasEntry(r'.state, u, id, 2) && HasNoEntry(r'.state, d, id)
  {
    r' := CreatesAndFiles(r, rules, 4, {}, u, id, key2, 2);
    NowReplaced(r.state, r'.state, u, d, id, key1, key2);
  }

  lemma NowReplaced(s: State, s': State, u: UserID, d: UserID, id: ChatID, key1: string, key2: string)
    requires IsFreeAgain(s, {u, d}, u, id, key1) && u != d && IsFiled(s, s', 4, u, id, key2, 2)
    ensures OnlyActive(s', 5, {}) && Below(s', 5)
    ensures IsThird(s', u, id, key1, key2, {u}, []) && HasEntry(s', u, id, 2) && HasNoEntry(s', d, id)
  {}

  lemma {:induction false} Visits(r: Run, rules: set<Rule>, u: UserID, d: UserID, id: ChatID, key1: string, key2: string)
    returns (r': Run)
    requires Obedient(r, rules) && OnlyActive(r.state, 5, {}) && Below(r.state, 5) && r.state.home(d) == r.state.home(id)
    requires IsThird(r.state, u, id, key1, key2, {u}, []) && HasEntry(r.state, u, id, 2) && HasNoEntry(r.state, d, id)
    requires u != d
    ensures Obedient(r', rules) && OnlyActive(r'.state, 6, {}) && Below(r'.state, 6)
    ensures IsThird(r'.state, u, id, key1, key2, {u, d}, [Joined(d)])
    ensures HasEntry(r'.state, d, id, 2) && r'.state.Shows(d, id)
  {
    var r1 := Asks(r, rules, 5, u, Invite(id, d, key2, 2));
    r' := Invites(r1, rules, 5, {}, 2);
    NowVisited(r.state, r1.state, r'.state, u, d, id, key1, key2);
  }

  lemma NowVisited(s: State, s1: State, s': State, u: UserID, d: UserID, id: ChatID, key1: string, key2: string)
    requires IsThird(s, u, id, key1, key2, {u}, []) && HasNoEntry(s, d, id) && u != d && Below(s, 5)
    requires s1 == s.(threads := s.threads[5 := Proc(u, Invite(id, d, key2, 2), NeedSession, 0, {})])
    requires IsInvited(s1, s', 5, 2, u, Direct(2))
    ensures IsThird(s', u, id, key1, key2, {u, d}, [Joined(d)]) && Below(s', 6)
    ensures HasEntry(s', d, id, 2) && s'.Shows(d, id)
  {
    assert {u} + {d} == {u, d};
  }

  lemma {:induction false} VisitorLeaves(r: Run, rules: set<Rule>, u: UserID, d: UserID, id: ChatID, key1: string, key2: string)
    returns (r': Run)
    requires Obedient(r, rules) && OnlyActive(r.state, 6, {}) && Below(r.state, 6) && u != d
    requires IsThird(r.state, u, id, key1, key2, {u, d}, [Joined(d)])
    requires HasEntry(r.state, d, id, 2) && r.state.Shows(d, id)
    ensures Obedient(r', rules) && OnlyActive(r'.state, 6, {}) && 6 in r'.state.threads && r'.state.threads[6].at == Testing(2)
    ensures IsThird(r'.state, u, id, key1, key2, {u}, [Joined(d), Left(d)])
  {
    var r1 := AsksAndEnters(r, rules, 6, {}, d, Leave(id), 2);
    r' := PartsTelling(r1, rules, 6, {}, 2, u);
    NowLeft(r.state, r1.state, r'.state, u, d, id, key1, key2);
  }

  lemma NowLeft(s: State, s1: State, s': State, u: UserID, d: UserID, id: ChatID, key1: string, key2: string)
    requires IsThird(s, u, id, key1, key2, {u, d}, [Joined(d)]) && u != d && Below(s, 6)
    requires HasEntered(s, s1, 6, d, Leave(id), 2) && IsOut(s1, s', 6, 2, Testing(2)) && OnlyTold(s1, s', u, id, d)
    ensures IsThird(s', u, id, key1, key2, {u}, [Joined(d), Left(d)])
  {
    assert {u, d} - {d} == {u} && [Joined(d)] + [Left(d)] == [Joined(d), Left(d)];
  }

  lemma {:induction false} Restores(r: Run, rules: set<Rule>, u: UserID, d: UserID, id: ChatID, key1: string, key2: string)
    returns (r': Run)
    requires Obedient(r, rules) && OnlyActive(r.state, 6, {}) && 6 in r.state.threads && r.state.threads[6].at == Testing(2)
    requires IsThird(r.state, u, id, key1, key2, {u}, [Joined(d), Left(d)]) && u != d && key1 != key2
    ensures Obedient(r', rules) && MissesChanges(r'.state, 2, u) && HasOtherKey(r'.state, 2, u)
  {
    assert FilesAlone(r.state, 3) && FilesQuiet(r.state, 3);
    assert FilesPresent(r.state, 3);
    r' := Files(r, rules, 3);
    NowMissing(r.state, u, d, id, key1, key2);
  }

  lemma NowMissing(s: State, u: UserID, d: UserID, id: ChatID, key1: string, key2: string)
    requires OnlyActive(s, 6, {}) && 6 in s.threads && s.threads[6].at == Testing(2) && CanFileChat(s, 3)
    requires IsThird(s, u, id, key1, key2, {u}, [Joined(d), Left(d)]) && u != d && key1 != key2
    ensures MissesChanges(DoFileChat(s, 3), 2, u) && HasOtherKey(DoFileChat(s, 3), 2, u)
  {
    forall i: nat | GotChat(s.rooms[2], u, i)
      ensures s.rooms[2].history[i..] != []
    {}
  }

  // ----- removeChat removes a chat with participants -----

  /** Two users are in the first chat. */
  ghost predicate IsShared(s: State, u: UserID, v: UserID, d: UserID, id: ChatID) {
    && u != v && u != d && v != d && s.sessions.Keys == s.clients.Keys == s.inbox.Keys == {u, v, d}
    && (forall t :: t in s.threads ==> t < 2 && s.threads[t].at.Finished?)
    && s.rooms.Keys == {0} && s.rooms[0].members == {u, v} && s.rooms[0].stage.Filed? && s.rooms[0].id == id
    && s.rooms[0].busy.Idle?
    && s.chats.Keys == {id} && s.chats[id] == 0
    && HasEntry(s, u, id, 0) && HasEntry(s, v, id, 0) && s.Shows(u, id) && s.Shows(v, id) && HasNoEntry(s, d, id)
  }

  lemma {:induction false} Shares(r: Run, rules: set<Rule>, u: UserID, v: UserID, d: UserID, id: ChatID, key: string)
    returns (r': Run)
    requires Obedient(r, rules) && HasOpened(r.state, {u, v, d}, u, id, key) && u != v && u != d && v != d
    requires r.state.home(v) == r.state.home(id)
    ensures Obedient(r', rules) && IsShared(r'.state, u, v, d, id) && r'.state.home == r.state.home
  {
    var r1 := Asks(r, rules, 1, u, Invite(id, v, key, 0));
    r' := Invites(r1, rules, 1, {}, 0);
    IsNowShared(r.state, r1.state, r'.state, u, v, d, id, key);
  }

  lemma IsNowShared(s: State, s1: State, s': State, u: UserID, v: UserID, d: UserID, id: ChatID, key: string)
    requires HasOpened(s, {u, v, d}, u, id, key) && u != v && u != d && v != d
    requires s1 == s.(threads := s.threads[1 := Proc(u, Invite(id, v, key, 0), NeedSession, 0, {})])
    requires IsInvited(s1, s', 1, 0, u, Direct(0))
    ensures IsShared(s', u, v, d, id)
  {
    BothFinished(s, s1, s', Proc(u, Invite(id, v, key, 0), NeedSession, 0, {}));
  }

  lemma BothFinished(s: State, s1: State, s': State, p: Proc)
    requires s.threads.Keys == {0} && s.threads[0].at.Finished?
    requires s1.threads == s.threads[1 := p] && OnlyMoved(s1, s', 1) && s'.threads[1].at.Finished?
    ensures forall t :: t in s'.threads ==> t < 2 && s'.threads[t].at.Finished?
  {}

  /** One of them is out of it, and waits to see whether anyone is left. */
  ghost predicate IsHalfEmpty(s: State, u: UserID, v: UserID, d: UserID, id: ChatID) {
    && u != v && u != d && v != d && s.sessions.Keys == s.clients.Keys == s.inbox.Keys == {u, v, d}
    && (forall t :: t in s.threads ==> t < 3 && (t < 2 ==> s.threads[t].at.Finished?)) && 2 in s.threads
    && s.threads[2].user == v && s.threads[2].op == Leave(id) && s.threads[2].at == Testing(0)
    && IsOnlyIn(s, u, d, id) && HasEntry(s, v, id, 0)
  }

  ghost predicate IsOnlyIn(s: State, u: UserID, d: UserID, id: ChatID) {
    && s.rooms.Keys == {0} && s.rooms[0].members == {u} && s.rooms[0].stage.Filed? && s.rooms[0].id == id
    && s.chats.Keys == {id} && s.chats[id] == 0
    && HasEntry(s, u, id, 0) && s.Shows(u, id) && HasNoEntry(s, d, id)
  }

  lemma {:induction false} LeavesFirst(r: Run, rules: set<Rule>, u: UserID, v: UserID, d: UserID, id: ChatID)
    returns (r': Run)
    requires Obedient(r, rules) && IsShared(r.state, u, v, d, id)
    ensures Obedient(r', rules) && IsHalfEmpty(r'.state, u, v, d, id) && r'.state.home == r.state.home
  {
    var r1 := AsksAndEnters(r, rules, 2, {}, v, Leave(id), 0);
    r' := PartsTelling(r1, rules, 2, {}, 0, u);
    IsNowHalfEmpty(r.state, r1.state, r'.state, u, v, d, id);
  }

  lemma IsNowHalfEmpty(s: State, s1: State, s': State, u: UserID, v: UserID, d: UserID, id: ChatID)
    requires IsShared(s, u, v, d, id) && OnlyActive(s', 2, {})
    requires HasEntered(s, s1, 2, v, Leave(id), 0) && IsOut(s1, s', 2, 0, Testing(0)) && OnlyTold(s1, s', u, id, v)
    ensures IsHalfEmpty(s', u, v, d, id)
  {
    TestsLater(s, s1, s', v, id);
    IsNowOnlyIn(s, s1, s', u, v, d, id);
  }

  lemma IsNowOnlyIn(s: State, s1: State, s': State, u: UserID, v: UserID, d: UserID, id: ChatID)
    requires IsShared(s, u, v, d, id) && HasEntered(s, s1, 2, v, Leave(id), 0) && IsOut(s1, s', 2, 0, Testing(0))
    requires OnlyTold(s1, s', u, id, v)
    ensures IsOnlyIn(s', u, d, id)
  {
    StillShared(s, s1, u, v, d, id);
    OneStays(s1, s', 2, 0, u);
    StaysIn(s1, s', 2, 0, u, id, 0);
    StaysOut(s1, s', 2, 0, u, d, id);
  }

  lemma StillShared(s: State, s1: State, u: UserID, v: UserID, d: UserID, id: ChatID)
    requires IsShared(s, u, v, d, id) && HasEntered(s, s1, 2, v, Leave(id), 0)
    ensures s1.rooms[0].members == {s1.threads[2].user, u} && HasEntry(s1, u, id, 0) && HasNoEntry(s1, d, id)
  {}

  lemma StaysOut(s: State, s': State, t: Tid, o: RoomRef, other: UserID, user: UserID, id: ChatID)
    requires IsOut(s, s', t, o, Testing(o)) && OnlyTold(s, s', other, id, s.threads[t].user) && HasNoEntry(s, user, id)
    requires user != other && user != s.threads[t].user
    ensures HasNoEntry(s', user, id)
  {}

  lemma TestsLater(s: State, s1: State, s': State, v: UserID, id: ChatID)
    requires forall t :: t in s.threads ==> t < 2 && s.threads[t].at.Finished?
    requires IsNew(s, s1, 2, v, Leave(id)) && OnlyMoved(s1, s', 2)
    ensures forall t :: t in s'.threads ==> t < 3 && (t < 2 ==> s'.threads[t].at.Finished?)
    ensures 2 in s'.threads && s'.threads[2].user == v && s'.threads[2].op == Leave(id)
  {}

  /** Both are out of it, and both wait to have it removed. */
  ghost predicate IsEmpty(s: State, u: UserID, v: UserID, d: UserID, id: ChatID) {
    && u != v && u != d && v != d && s.sessions.Keys == s.clients.Keys == s.inbox.Keys == {u, v, d}
    && (forall t :: t in s.threads ==> t < 4 && (t < 2 ==> s.threads[t].at.Finished?)) && 2 in s.threads && 3 in s.threads
    && s.threads[2].user == v && s.threads[2].op == Leave(id) && s.threads[2].at == Unlisting(0)
    && s.threads[3].user == u && s.threads[3].op == Leave(id) && s.threads[3].at == Unlisting(0)
    && s.rooms.Keys == {0} && s.rooms[0].members == {} && s.rooms[0].stage.Filed?
    && s.chats.Keys == {id} && s.chats[id] == 0 && HasNoEntry(s, d, id) && HasEntry(s, v, id, 0)
  }

  lemma {:induction false} LeavesSecond(r: Run, rules: set<Rule>, u: UserID, v: UserID, d: UserID, id: ChatID)
    returns (r': Run)
    requires Obedient(r, rules) && IsHalfEmpty(r.state, u, v, d, id)
    ensures Obedient(r', rules) && IsEmpty(r'.state, u, v, d, id) && r'.state.home == r.state.home
  {
    var r1 := Asks(r, rules, 3, u, Leave(id));
    var r2 := Empties(r1, rules, 3, {v}, 0);
    IsNowEmptied(r.state, r1.state, r2.state, u, v, d, id);
    r' := Tests(r2, rules, 2);
  }

  lemma IsNowEmptied(s: State, s1: State, s': State, u: UserID, v: UserID, d: UserID, id: ChatID)
    requires IsHalfEmpty(s, u, v, d, id) && OnlyActive(s', 3, {v})
    requires s1 == s.(threads := s.threads[3 := Proc(u, Leave(id), NeedSession, 0, {})])
    requires IsOut(s1, s', 3, 0, Unlisting(0)) && s'.clients == s1.clients
    ensures CanTestEmpty(s', 2) && IsEmpty(DoTestEmpty(s', 2), u, v, d, id)
  {
    BothWait(s, s1, s', u, v, d, id);
  }

  lemma BothWait(s: State, s1: State, s': State, u: UserID, v: UserID, d: UserID, id: ChatID)
    requires IsHalfEmpty(s, u, v, d, id) && OnlyMoved(s1, s', 3) && s'.threads[3].at == Unlisting(0)
    requires s1.threads == s.threads[3 := Proc(u, Leave(id), NeedSession, 0, {})]
    ensures forall t :: t in s'.threads ==> t < 4 && (t < 2 ==> s'.threads[t].at.Finished?)
    ensures 2 in s'.threads && s'.threads[2] == s.threads[2]
    ensures 3 in s'.threads && s'.threads[3].user == u && s'.threads[3].op == Leave(id)
  {}

  /** Whoever was first has had it removed; whoever was second still waits to. */
  ghost predicate IsRemoved(s: State, u: UserID, v: UserID, d: UserID, id: ChatID) {
    && u != v && u != d && v != d && s.sessions.Keys == s.clients.Keys == s.inbox.Keys == {u, v, d}
    && Waits(s, v, id, 4) && s.chats.Keys == {} && s.rooms.Keys == {0} && s.rooms[0].members == {} && HasEntry(s, v, id, 0)
    && HasNoEntry(s, u, id) && HasNoEntry(s, d, id)
  }

  ghost predicate Waits(s: State, v: UserID, id: ChatID, n: Tid) {
    && (forall t :: t in s.threads ==> t < n && (t != 2 ==> s.threads[t].at.Finished?))
    && 2 in s.threads && s.threads[2].user == v && s.threads[2].op == Leave(id) && s.threads[2].at == Unlisting(0)
  }

  lemma {:induction false} Removes(r: Run, rules: set<Rule>, u: UserID, v: UserID, d: UserID, id: ChatID)
    returns (r': Run)
    requires Obedient(r, rules) && IsEmpty(r.state, u, v, d, id)
    ensures Obedient(r', rules) && IsRemoved(r'.state, u, v, d, id) && r'.state.home == r.state.home
  {
    assert CanUnlist(r.state, 3) ==> UnlistsEmpty(r.state, 3);
    var r1 := Departs(r, rules, 3, {v});
    NothingListed(r.state, r1.state, u, v, d, id);
    r' := Closes(r1, rules, 3, u, id);
    IsNowRemoved(r.state, r1.state, r'.state, u, v, d, id);
  }

  lemma NothingListed(s: State, s1: State, u: UserID, v: UserID, d: UserID, id: ChatID)
    requires IsEmpty(s, u, v, d, id) && IsGone(s, s1, 3)
    ensures s1.chats.Keys == {} && CanClose(s1, 3) && ClosesLeft(s1, 3)
  {}

  lemma IsNowRemoved(s: State, s1: State, s': State, u: UserID, v: UserID, d: UserID, id: ChatID)
    requires IsEmpty(s, u, v, d, id) && IsGone(s, s1, 3) && s1.chats.Keys == {}
    requires s' == s1.(threads := s1.threads[3 := s1.threads[3].(at := Finished)],
                       clients := s1.clients[u := s1.clients[u] - {id}])
    ensures IsRemoved(s', u, v, d, id)
  {}

  // ----- There is nothing left to remove -----

  /** Nobody holds the mutex of the user's session, and it leads to a chat that the user is not in and no map has. */
  ghost predicate KeepsEntry(s: State, user: UserID, id: ChatID) {
    && user in s.sessions && s.IsFree(SessionLock(user)) && id !in s.chats && !s.Shows(user, id)
    && exists o :: HasEntry(s, user, id, o) && o in s.rooms && user !in s.rooms[o].members
  }

  /** Two users leave one chat, and both find it empty. Whoever is second has nothing to remove, and the exception keeps the
      session from forgetting the chat. */
  lemma LeftBehind(home: string -> Host, u: UserID, v: UserID, d: UserID, key: string) returns (r: Run)
    requires u != v && u != d && v != d && home(v) == home(NextName({}, home(u)))
    ensures IsRun(r) && Along(r, AllBut(UnlistEmpty)) && AllEnded(r.state, 4)
    ensures KeepsEntry(r.state, v, NextName({}, home(u)))
  {
    var rules, id := AllBut(UnlistEmpty), NextName({}, home(u));
    r := Opens(home, {u, v, d}, u, key, rules);
    r := Shares(r, rules, u, v, d, id, key);
    r := LeavesFirst(r, rules, u, v, d, id);
    r := LeavesSecond(r, rules, u, v, d, id);
    r := Removes(r, rules, u, v, d, id);
    r := FindsNone(r, rules, u, v, d, id);
  }

  lemma {:induction false} FindsNone(r: Run, rules: set<Rule>, u: UserID, v: UserID, d: UserID, id: ChatID)
    returns (r': Run)
    requires Obedient(r, rules) && IsRemoved(r.state, u, v, d, id) && UnlistEmpty !in rules
    ensures Obedient(r', rules) && AllEnded(r'.state, 4) && KeepsEntry(r'.state, v, id)
  {
    NothingThere(r.state, u, v, d, id);
    var r1 := LeaveStep(r, rules, Unlist(2), DoUnlist(r.state, 2));
    var r2 := SendStep(r1, rules, Release(2), DoRelease(r1.state, 2));
    r' := Closes(r2, rules, 2, v, id);
    IsNowKept(r.state, r2.state, r'.state, u, v, d, id);
  }

  ghost predicate IsRefused(s: State, s': State, v: UserID) {
    && s' == s.(threads := s'.threads, sessions := s'.sessions) && OnlyMoved(s, s', 2) && s'.threads[2].at == Closing
    && v in s.sessions && s'.sessions == s.sessions[v := s.sessions[v].(leaving := None)]
  }

  lemma NothingThere(s: State, u: UserID, v: UserID, d: UserID, id: ChatID)
    requires IsRemoved(s, u, v, d, id)
    ensures CanUnlist(s, 2) && CanRelease(DoUnlist(s, 2), 2)
    ensures var s' := DoRelease(DoUnlist(s, 2), 2); IsRefused(s, s', v) && CanClose(s', 2) && ClosesLeft(s', 2)
  {}

  lemma IsNowKept(s: State, s2: State, s': State, u: UserID, v: UserID, d: UserID, id: ChatID)
    requires IsRemoved(s, u, v, d, id) && IsRefused(s, s2, v) && v in s2.clients
    requires s' == s2.(threads := s2.threads[2 := s2.threads[2].(at := Finished)],
                       clients := s2.clients[v := s2.clients[v] - {id}])
    ensures AllEnded(s', 4) && KeepsEntry(s', v, id)
  {
    assert HasEntry(s', v, id, 0);
  }

  // ----- The ID is given to another chat, which that then removes -----

  /** The second chat, of `d` and those who have come in. */
  ghost predicate IsSecond(s: State, u: UserID, v: UserID, d: UserID, id: ChatID, key: string, members: set<UserID>,
                           seen: seq<Change>) {
    && u != v && u != d && v != d && s.sessions.Keys == s.clients.Keys == s.inbox.Keys == {u, v, d}
    && 1 in s.rooms && s.rooms[1] == Room(id, d, key, Filed(0), members, seen, Idle)
    && HasEntry(s, d, id, 1) && s.sessions[d].leaving == None
    && s.Shows(d, id) && s.clients[d][id] == View(members, key, 1, seen, [])
  }

  ghost predicate IsInMap(s: State, id: ChatID) {
    s.chats.Keys == {id} && s.chats[id] == 1 && s.rooms.Keys == {0, 1}
  }

  lemma {:induction false} Rebuilds(r: Run, rules: set<Rule>, u: UserID, v: UserID, d: UserID, id: ChatID, key: string)
    returns (r': Run)
    requires Obedient(r, rules) && IsRemoved(r.state, u, v, d, id)
    requires id == NextName({}, r.state.home(d))
    ensures Obedient(r', rules) && r'.state.home == r.state.home && Waits(r'.state, v, id, 5)
    ensures IsSecond(r'.state, u, v, d, id, key, {d}, []) && IsInMap(r'.state, id) && HasNoEntry(r'.state, u, id)
  {
    r' := CreatesAndFiles(r, rules, 4, {v}, d, id, key, 1);
    IsNowSecond(r.state, r'.state, u, v, d, id, key);
    WaitsOn(r.state, r'.state, v, d, id, key);
  }

  lemma IsNowSecond(s: State, s': State, u: UserID, v: UserID, d: UserID, id: ChatID, key: string)
    requires IsRemoved(s, u, v, d, id) && IsFiled(s, s', 4, d, id, key, 1)
    ensures IsSecond(s', u, v, d, id, key, {d}, []) && IsInMap(s', id) && HasNoEntry(s', u, id)
  {}

  lemma WaitsOn(s: State, s': State, v: UserID, d: UserID, id: ChatID, key: string)
    requires Waits(s, v, id, 4) && IsFiled(s, s', 4, d, id, key, 1)
    ensures Waits(s', v, id, 5)
  {}

  lemma {:induction false} Reshares(r: Run, rules: set<Rule>, u: UserID, v: UserID, d: UserID, id: ChatID, key: string)
    returns (r': Run)
    requires Obedient(r, rules) && Waits(r.state, v, id, 5) && r.state.home(u) == r.state.home(id)
    requires IsSecond(r.state, u, v, d, id, key, {d}, []) && IsInMap(r.state, id) && HasNoEntry(r.state, u, id)
    ensures Obedient(r', rules) && r'.state.home == r.state.home && Waits(r'.state, v, id, 6)
    ensures IsSecond(r'.state, u, v, d, id, key, {d, u}, [Joined(u)]) && IsInMap(r'.state, id)
    ensures HasEntry(r'.state, u, id, 1) && r'.state.Shows(u, id)
  {
    var r1 := Asks(r, rules, 5, d, Invite(id, u, key, 1));
    MayInviteThere(r1.state, u, v, d, id, key);
    r' := Invites(r1, rules, 5, {v}, 1);
    IsNowReshared(r.state, r1.state, r'.state, u, v, d, id, key);
    StillWaits(r.state, r1.state, r'.state, u, v, d, id, key);
  }

  lemma MayInviteThere(s: State, u: UserID, v: UserID, d: UserID, id: ChatID, key: string)
    requires IsSecond(s, u, v, d, id, key, {d}, []) && 5 in s.threads && 2 in s.threads
    requires s.threads[5] == Proc(d, Invite(id, u, key, 1), NeedSession, 0, {})
    requires s.threads[2].user == v && s.threads[2].at == Unlisting(0)
    requires forall t :: t in s.threads && t != 5 && t != 2 ==> s.threads[t].at.Finished?
    ensures IsReady(s, 5, {v}, 1)
  {}

  lemma IsNowReshared(s: State, s1: State, s': State, u: UserID, v: UserID, d: UserID, id: ChatID, key: string)
    requires IsSecond(s, u, v, d, id, key, {d}, []) && IsInMap(s, id) && HasNoEntry(s, u, id)
    requires s1 == s.(threads := s.threads[5 := Proc(d, Invite(id, u, key, 1), NeedSession, 0, {})])
    requires IsInvited(s1, s', 5, 1, d, Direct(1))
    ensures IsSecond(s', u, v, d, id, key, {d, u}, [Joined(u)]) && IsInMap(s', id)
    ensures HasEntry(s', u, id, 1) && s'.Shows(u, id)
  {
    assert {d} + {u} == {d, u};
  }

  lemma StillWaits(s: State, s1: State, s': State, u: UserID, v: UserID, d: UserID, id: ChatID, key: string)
    requires Waits(s, v, id, 5)
    requires s1 == s.(threads := s.threads[5 := Proc(d, Invite(id, u, key, 1), NeedSession, 0, {})])
    requires IsInvited(s1, s', 5, 1, d, Direct(1))
    ensures Waits(s', v, id, 6)
  {}

  lemma {:induction false} CutsOff(r: Run, rules: set<Rule>, u: UserID, v: UserID, d: UserID, id: ChatID, key: string)
    returns (r': Run)
    requires Obedient(r, rules) && Waits(r.state, v, id, 6) && UnlistEmpty !in rules
    requires IsSecond(r.state, u, v, d, id, key, {d, u}, [Joined(u)]) && IsInMap(r.state, id)
    requires HasEntry(r.state, u, id, 1) && r.state.Shows(u, id)
    ensures Obedient(r', rules) && IsCutOff(r'.state, u, v, d, id, key) && r'.state.home == r.state.home
  {
    MayRemove(r.state, u, v, d, id, key);
    var r1 := Departs(r, rules, 2, {});
    NothingListedNow(r.state, r1.state, v, id);
    r' := Closes(r1, rules, 2, v, id);
    IsNowCutOff(r.state, r1.state, r'.state, u, v, d, id, key);
  }

  lemma MayRemove(s: State, u: UserID, v: UserID, d: UserID, id: ChatID, key: string)
    requires Waits(s, v, id, 6) && IsSecond(s, u, v, d, id, key, {d, u}, [Joined(u)]) && IsInMap(s, id)
    ensures OnlyActive(s, 2, {}) && (CanUnlist(s, 2) ==> UnlistsFiled(s, 2))
  {}

  lemma NothingListedNow(s: State, s1: State, v: UserID, id: ChatID)
    requires Waits(s, v, id, 6) && IsGone(s, s1, 2) && IsInMap(s, id) && v in s.clients
    ensures s1.chats.Keys == {} && CanClose(s1, 2) && ClosesLeft(s1, 2)
  {}

  /** The map no longer has the second chat, although it has members. */
  ghost predicate IsCutOff(s: State, u: UserID, v: UserID, d: UserID, id: ChatID, key: string) {
    && IsSecond(s, u, v, d, id, key, {d, u}, [Joined(u)]) && s.rooms.Keys == {0, 1} && s.chats.Keys == {}
    && HasEntry(s, u, id, 1) && s.Shows(u, id) && HasNoEntry(s, v, id) && AllEnded(s, 6)
  }

  lemma IsNowCutOff(s: State, s1: State, s': State, u: UserID, v: UserID, d: UserID, id: ChatID, key: string)
    requires Waits(s, v, id, 6) && IsSecond(s, u, v, d, id, key, {d, u}, [Joined(u)]) && IsInMap(s, id)
    requires HasEntry(s, u, id, 1) && s.Shows(u, id) && IsGone(s, s1, 2)
    requires s' == s1.(threads := s1.threads[2 := s1.threads[2].(at := Finished)],
                       clients := s1.clients[v := s1.clients[v] - {id}])
    ensures IsCutOff(s', u, v, d, id, key)
  {}

  lemma GetsCutOff(home: string -> Host, u: UserID, v: UserID, d: UserID, key: string, rules: set<Rule>) returns (r: Run)
    requires u != v && u != d && v != d && UnlistEmpty !in rules
    requires home(u) == home(v) == home(d) == home(NextName({}, home(u)))
    ensures Obedient(r, rules) && IsCutOff(r.state, u, v, d, NextName({}, home(u)), key) && r.state.home == home
  {
    var id := NextName({}, home(u));
    r := Opens(home, {u, v, d}, u, key, rules);
    r := Shares(r, rules, u, v, d, id, key);
    r := LeavesFirst(r, rules, u, v, d, id);
    r := LeavesSecond(r, rules, u, v, d, id);
    r := Removes(r, rules, u, v, d, id);
    r := Rebuilds(r, rules, u, v, d, id, key);
    r := Reshares(r, rules, u, v, d, id, key);
    r := CutsOff(r, rules, u, v, d, id, key);
  }

  // ----- And what becomes of that -----

  /** Nobody holds the session's mutex, and the session leads to a chat under an ID that the map does not have. */
  ghost predicate LeadsAstray(s: State, user: UserID, id: ChatID) {
    user in s.sessions && s.IsFree(SessionLock(user)) && id !in s.chats && Found(s, user, id).Some?
  }

  /** A session has an ID that is just being given out, and its user is not leaving the chat. */
  ghost predicate HoldsReused(s: State, t: Tid, o: RoomRef, user: UserID) {
    && CanListChat(s, t, o) && user in s.sessions
    && var id := NextName(s.chats.Keys, s.home(s.threads[t].user));
       id in s.sessions[user].entries && !IsLeaving(s, user, id)
  }

  /** Two users leave a chat at one time, and each finds it empty and removes what the map has under the ID: the first
      that chat, the second another, to which the ID has been given meanwhile and which has participants. Their sessions
      still lead there when the ID is given out once more, and their clients still show it. */
  lemma CutOff(home: string -> Host, u: UserID, v: UserID, d: UserID, key: string) returns (r: Run)
    requires u != v && u != d && v != d && home(u) == home(v) == home(d) == home(NextName({}, home(u)))
    ensures IsRun(r) && Along(r, AllBut(UnlistEmpty))
    ensures LeadsAstray(r.state, d, NextName({}, home(u))) && HoldsReused(r.state, 6, 2, d) && ShowsReused(r.state, 6, 2, d)
  {
    var rules, id := AllBut(UnlistEmpty), NextName({}, home(u));
    r := GetsCutOff(home, u, v, d, key, rules);
    r := AsksAnew(r, rules, u, v, d, id, key);
  }

  lemma {:induction false} AsksAnew(r: Run, rules: set<Rule>, u: UserID, v: UserID, d: UserID, id: ChatID, key: string)
    returns (r': Run)
    requires Obedient(r, rules) && IsCutOff(r.state, u, v, d, id, key) && id == NextName({}, r.state.home(u))
    ensures Obedient(r', rules)
    ensures LeadsAstray(r'.state, d, id) && HoldsReused(r'.state, 6, 2, d) && ShowsReused(r'.state, 6, 2, d)
  {
    r' := OpenStep(r, rules, Begin(6, u, Open(key)), DoBegin(r.state, 6, u, Open(key)));
    LeadsNowAstray(r.state, u, v, d, id, key);
  }

  lemma LeadsNowAstray(s: State, u: UserID, v: UserID, d: UserID, id: ChatID, key: string)
    requires IsCutOff(s, u, v, d, id, key) && id == NextName({}, s.home(u))
    ensures var s' := DoBegin(s, 6, u, Open(key));
      LeadsAstray(s', d, id) && HoldsReused(s', 6, 2, d) && ShowsReused(s', 6, 2, d)
  {
    assert DoBegin(s, 6, u, Open(key)).chats.Keys == {};
  }

  /** The third chat with the ID, which hides the second on the screen of `u`. */
  ghost predicate IsHidden(s: State, u: UserID, v: UserID, d: UserID, id: ChatID, key: string, key2: string,
                           members: set<UserID>, seen: seq<Change>, n: Tid) {
    && IsSecond(s, u, v, d, id, key, {d, u}, [Joined(u)]) && AllEnded(s, n)
    && s.rooms.Keys == {0, 1, 2} && s.rooms[2].members == members && s.rooms[2].id == id && s.rooms[2].busy.Idle?
    && s.rooms[2].key == key2 && s.chats.Keys == {id} && s.chats[id] == 2
    && s.Shows(u, id) && s.clients[u][id] == View(members, key2, 2, seen, [])
  }

  lemma {:induction false} Overbuilds(r: Run, rules: set<Rule>, u: UserID, v: UserID, d: UserID, id: ChatID, key: string,
                                      key2: string)
    returns (r': Run)
    requires Obedient(r, rules) && IsCutOff(r.state, u, v, d, id, key) && id == NextName({}, r.state.home(u))
    ensures Obedient(r', rules) && r'.state.home == r.state.home
    ensures IsHidden(r'.state, u, v, d, id, key, key2, {u}, [], 7) && HasEntry(r'.state, u, id, 2) && HasNoEntry(r'.state, v, id)
  {
    r' := CreatesAndFiles(r, rules, 6, {}, u, id, key2, 2);
    IsNowHidden(r.state, r'.state, u, v, d, id, key, key2);
  }

  lemma IsNowHidden(s: State, s': State, u: UserID, v: UserID, d: UserID, id: ChatID, key: string, key2: string)
    requires IsCutOff(s, u, v, d, id, key) && IsFiled(s, s', 6, u, id, key2, 2)
    ensures IsHidden(s', u, v, d, id, key, key2, {u}, [], 7) && HasEntry(s', u, id, 2) && HasNoEntry(s', v, id)
  {}

  lemma {:induction false} InvitesThird(r: Run, rules: set<Rule>, u: UserID, v: UserID, d: UserID, id: ChatID, key: string,
                                    key2: string)
    returns (r': Run)
    requires Obedient(r, rules) && r.state.home(v) == r.state.home(id)
    requires IsHidden(r.state, u, v, d, id, key, key2, {u}, [], 7) && HasEntry(r.state, u, id, 2) && HasNoEntry(r.state, v, id)
    ensures Obedient(r', rules) && IsHidden(r'.state, u, v, d, id, key, key2, {u, v}, [Joined(v)], 8)
  {
    var r1 := Asks(r, rules, 7, u, Invite(id, v, key2, 2));
    r' := Invites(r1, rules, 7, {}, 2);
    StillHidden(r.state, r1.state, r'.state, u, v, d, id, key, key2);
  }

  lemma StillHidden(s: State, s1: State, s': State, u: UserID, v: UserID, d: UserID, id: ChatID, key: string, key2: string)
    requires IsHidden(s, u, v, d, id, key, key2, {u}, [], 7)
    requires s1 == s.(threads := s.threads[7 := Proc(u, Invite(id, v, key2, 2), NeedSession, 0, {})])
    requires IsInvited(s1, s', 7, 2, u, Direct(2))
    ensures IsHidden(s', u, v, d, id, key, key2, {u, v}, [Joined(v)], 8)
  {
    assert {u} + {v} == {u, v};
  }

  /** Nobody holds the participants mutex, and neither of two members has seen the last that the other has. */
  ghost predicate OutOfOrder(s: State, o: RoomRef, u: UserID, v: UserID) {
    && IsShownIn(s, o, u) && IsShownIn(s, o, v) && s.IsFree(RoomLock(o))
    && s.Shows(u, s.rooms[o].id) && s.Shows(v, s.rooms[o].id)
    && var (a, b) := (s.clients[u][s.rooms[o].id].seen, s.clients[v][s.rooms[o].id].seen);
       !IsSuffix(a, b) && !IsSuffix(b, a)
  }

  /** Everything that a client should show of a chat is wrong. */
  ghost predicate IsWrong(s: State, u: UserID, d: UserID) {
    ShowsOthers(s, 1, u) && HasOtherKey(s, 1, u) && MissesChanges(s, 1, u) && OutOfOrder(s, 1, u, d)
  }

  /** As before, and the ID is given to a third chat, which a client then shows instead of the second: other users, another
      key, and their joins and leaves. A message in the second is dropped. */
  lemma RemovedTwice(home: string -> Host, u: UserID, v: UserID, d: UserID, key: string, key2: string) returns (r: Run)
    requires u != v && u != d && v != d && key != key2
    requires home(u) == home(v) == home(d) == home(NextName({}, home(u)))
    ensures IsRun(r) && Along(r, AllBut(UnlistEmpty))
    ensures r.state.dropped && IsUnlogged(r) && IsWrong(r.state, u, d)
  {
    var rules, id := AllBut(UnlistEmpty), NextName({}, home(u));
    r := GetsCutOff(home, u, v, d, key, rules);
    r := Overbuilds(r, rules, u, v, d, id, key, key2);
    r := InvitesThird(r, rules, u, v, d, id, key, key2);
    r := SendsHidden(r, rules, u, v, d, id, key, key2);
  }

  lemma {:induction false} SendsHidden(r: Run, rules: set<Rule>, u: UserID, v: UserID, d: UserID, id: ChatID, key: string,
                                       key2: string)
    returns (r': Run)
    requires Obedient(r, rules) && IsHidden(r.state, u, v, d, id, key, key2, {u, v}, [Joined(v)], 8) && key != key2
    ensures Obedient(r', rules) && r'.state.dropped && IsUnlogged(r') && IsWrong(r'.state, u, d)
  {
    var r1 := Asks(r, rules, 8, d, Send(id, ""));
    var r2 := Sends(r1, rules, 8, {}, 1);
    r' := Drops(r2, rules, 8, u);
    IsNowWrong(r.state, r1.state, r2.state, u, v, d, id, key, key2);
  }

  lemma IsNowWrong(s: State, s1: State, s2: State, u: UserID, v: UserID, d: UserID, id: ChatID, key: string, key2: string)
    requires IsHidden(s, u, v, d, id, key, key2, {u, v}, [Joined(v)], 8) && key != key2
    requires s1 == s.(threads := s.threads[8 := Proc(d, Send(id, ""), NeedSession, 0, {})]) && IsSending(s1, s2, 8, 1)
    requires CanDeliver(s2, 8, u)
    ensures IsWrong(DoDeliver(s2, 8, u), u, d)
  {
    LeavesHidden(s, s1, s2, u, v, d, id, key, key2);
    HiddenIsWrong(s, DoDeliver(s2, 8, u), u, v, d, id, key, key2);
  }

  lemma LeavesHidden(s: State, s1: State, s2: State, u: UserID, v: UserID, d: UserID, id: ChatID, key: string, key2: string)
    requires IsHidden(s, u, v, d, id, key, key2, {u, v}, [Joined(v)], 8)
    requires s1 == s.(threads := s.threads[8 := Proc(d, Send(id, ""), NeedSession, 0, {})]) && IsSending(s1, s2, 8, 1)
    requires CanDeliver(s2, 8, u)
    ensures var s' := DoDeliver(s2, 8, u); s'.rooms == s.rooms && s'.clients == s.clients && s'.IsFree(RoomLock(1))
  {
    assert d !in {u, v};
  }

  lemma HiddenIsWrong(s: State, s': State, u: UserID, v: UserID, d: UserID, id: ChatID, key: string, key2: string)
    requires IsHidden(s, u, v, d, id, key, key2, {u, v}, [Joined(v)], 8) && key != key2
    requires s'.rooms == s.rooms && s'.clients == s.clients && s'.IsFree(RoomLock(1))
    ensures IsWrong(s', u, d)
  {
    assert d in {d, u} && d !in {u, v};
    forall i: nat | i <= 1
      ensures [Joined(u)][i..] != [Joined(v)]
    {}
  }
}
