/** Building runs of interleaved threads out of whole operations, of which each goes on while the others rest. */
module ThreadWalks {
  import opened Wrappers
  import opened Identifiers
  import opened Threads

  /** A run whose steps obey the rules. */
  ghost predicate Obedient(r: Run, rules: set<Rule>) {
    IsRun(r) && Along(r, rules)
  }

  ghost predicate ObeysAll(s: State, a: Action, rules: set<Rule>) {
    forall rule :: rule in rules ==> Obeys(s, a, rule)
  }

  ghost predicate IsRuled(a: Action) {
    a.Unlist? || a.FileChat? || a.Close? || a.CallInvitee?
  }

  lemma Unruled(s: State, a: Action, rules: set<Rule>)
    requires !IsRuled(a)
    ensures ObeysAll(s, a, rules)
  {}

  lemma {:induction false} OpenStep(r: Run, rules: set<Rule>, a: Action, s: State) returns (r': Run)
    requires Obedient(r, rules) && OpenNext(r.state, a, s) && (IsRuled(a) ==> ObeysAll(r.state, a, rules))
    ensures Obedient(r', rules) && r'.state == s
  {
    if !IsRuled(a) {
      Unruled(r.state, a, rules);
    }
    r' := Then(r, a, s);
  }

  lemma {:induction false} SendStep(r: Run, rules: set<Rule>, a: Action, s: State) returns (r': Run)
    requires Obedient(r, rules) && SendNext(r.state, a, s)
    ensures Obedient(r', rules) && r' == Then(r, a, s)
  {
    Unruled(r.state, a, rules);
    r' := Then(r, a, s);
  }

  lemma {:induction false} InviteStep(r: Run, rules: set<Rule>, a: Action, s: State) returns (r': Run)
    requires Obedient(r, rules) && InviteNext(r.state, a, s) && (IsRuled(a) ==> ObeysAll(r.state, a, rules))
    ensures Obedient(r', rules) && r'.state == s
  {
    if !IsRuled(a) {
      Unruled(r.state, a, rules);
    }
    r' := Then(r, a, s);
  }

  lemma {:induction false} LeaveStep(r: Run, rules: set<Rule>, a: Action, s: State) returns (r': Run)
    requires Obedient(r, rules) && LeaveNext(r.state, a, s) && (IsRuled(a) ==> ObeysAll(r.state, a, rules))
    ensures Obedient(r', rules) && r'.state == s
  {
    if !IsRuled(a) {
      Unruled(r.state, a, rules);
    }
    r' := Then(r, a, s);
  }

  // ----- Who holds what -----

  /** No thread but `t` holds any mutex, except those of the sessions in `away`, whose users wait to have left or to have
      sent a message. */
  ghost predicate OnlyActive(s: State, t: Tid, away: set<UserID>) {
    forall t1 :: t1 in s.threads && t1 != t ==> Rests(s.threads[t1], away)
  }

  ghost predicate Rests(p: Proc, away: set<UserID>) {
    (!InSession(p.at) && !InRoom(p.at)) || (p.user in away && (p.at.Testing? || p.at.Unlisting? || p.at.Fanning?))
  }

  lemma OthersHoldNothing(s: State, t: Tid, away: set<UserID>, lock: Lock)
    requires OnlyActive(s, t, away) && (t in s.threads ==> !Holds(s.home, s.threads[t], lock))
    requires lock.SessionLock? ==> lock.user !in away
    ensures s.IsFree(lock)
  {}

  /** Every thread below `n` has ended, and there is no other. */
  ghost predicate AllEnded(s: State, n: Tid) {
    forall t :: t in s.threads ==> t < n && s.threads[t].at.Finished?
  }

  ghost predicate NothingSent(s: State) {
    forall t :: t in s.threads ==> !s.threads[t].at.Fanning?
  }

  /** Only thread `t` has moved. */
  ghost predicate OnlyMoved(s: State, s': State, t: Tid) {
    && t in s.threads && s'.threads.Keys == s.threads.Keys
    && s'.threads[t].user == s.threads[t].user && s'.threads[t].op == s.threads[t].op
    && forall t1 :: t1 in s.threads && t1 != t ==> s'.threads[t1] == s.threads[t1]
  }

  /** And nothing else has changed, but perhaps the clock. */
  ghost predicate MovedTo(s: State, s': State, t: Tid, at: Point) {
    OnlyMoved(s, s', t) && s'.threads[t].at == at && s' == s.(threads := s'.threads, clock := s'.clock)
  }

  ghost predicate HasEntry(s: State, user: UserID, id: ChatID, o: RoomRef) {
    user in s.sessions && id in s.sessions[user].entries && s.sessions[user].entries[id] == Direct(o)
  }

  ghost predicate HasNoEntry(s: State, user: UserID, id: ChatID) {
    && user in s.sessions && id !in s.sessions[user].entries && s.sessions[user].leaving == None
    && user in s.clients && id !in s.clients[user]
  }

  /** The thread is about to begin what its user asked for in the chat that the session leads to. */
  ghost predicate IsReady(s: State, t: Tid, away: set<UserID>, o: RoomRef) {
    && OnlyActive(s, t, away) && t in s.threads && s.threads[t].at.NeedSession? && s.threads[t].user !in away
    && !s.threads[t].op.Open? && Found(s, s.threads[t].user, s.threads[t].op.id) == Some(o)
  }

  lemma {:induction false} Finds(r: Run, rules: set<Rule>, t: Tid, away: set<UserID>, o: RoomRef) returns (r': Run)
    requires Obedient(r, rules) && IsReady(r.state, t, away, o)
    ensures Obedient(r', rules) && OnlyActive(r'.state, t, away) && MovedTo(r.state, r'.state, t, NeedRoom(o))
  {
    OthersHoldNothing(r.state, t, away, SessionLock(r.state.threads[t].user));
    r' := SendStep(r, rules, TakeSession(t), DoTakeSession(r.state, t));
    OthersHoldNothing(r'.state, t, away, ChatsLock(r'.state.home(r.state.threads[t].op.id)));
    r' := SendStep(r', rules, Find(t), DoFind(r'.state, t));
  }

  lemma {:induction false} Enters(r: Run, rules: set<Rule>, t: Tid, away: set<UserID>, o: RoomRef) returns (r': Run)
    requires Obedient(r, rules) && IsReady(r.state, t, away, o)
    ensures Obedient(r', rules) && OnlyActive(r'.state, t, away) && MovedTo(r.state, r'.state, t, HasRoom(o))
  {
    r' := Finds(r, rules, t, away, o);
    OthersHoldNothing(r'.state, t, away, RoomLock(o));
    r' := SendStep(r', rules, TakeRoom(t), DoTakeRoom(r'.state, t));
  }

  /** A client asks for something in a chat that it has. */
  lemma {:induction false} Asks(r: Run, rules: set<Rule>, t: Tid, u: UserID, op: Op) returns (r': Run)
    requires Obedient(r, rules) && CanBegin(r.state, t, u, op) && !op.Open?
    ensures Obedient(r', rules)
    ensures r'.state == r.state.(threads := r.state.threads[t := Proc(u, op, NeedSession, 0, {})])
  {
    r' := OpenStep(r, rules, Begin(t, u, op), DoBegin(r.state, t, u, op));
  }

  /** A new thread has the mutex of the room; nothing else has changed, but perhaps the clock. */
  ghost predicate HasEntered(s: State, s': State, t: Tid, u: UserID, op: Op, o: RoomRef) {
    IsNew(s, s', t, u, op) && s'.threads[t].at == HasRoom(o) && s' == s.(threads := s'.threads, clock := s'.clock)
  }

  ghost predicate IsNew(s: State, s': State, t: Tid, u: UserID, op: Op) {
    && s'.threads.Keys == s.threads.Keys + {t} && s'.threads[t].user == u && s'.threads[t].op == op
    && forall t1 :: t1 in s.threads && t1 != t ==> s'.threads[t1] == s.threads[t1]
  }

  lemma {:induction false} AsksAndEnters(r: Run, rules: set<Rule>, t: Tid, away: set<UserID>, u: UserID, op: Op, o: RoomRef)
    returns (r': Run)
    requires Obedient(r, rules) && CanBegin(r.state, t, u, op) && !op.Open?
    requires OnlyActive(r.state, t, away) && u !in away && Found(r.state, u, op.id) == Some(o)
    ensures Obedient(r', rules) && OnlyActive(r'.state, t, away) && HasEntered(r.state, r'.state, t, u, op, o)
  {
    r' := Asks(r, rules, t, u, op);
    r' := Enters(r', rules, t, away, o);
  }

  // ----- A new chat -----

  /** A new chat in its server's map alone. */
  ghost predicate IsListed(s: State, s': State, t: Tid, u: UserID, id: ChatID, key: string, o: RoomRef) {
    && s'.threads.Keys == s.threads.Keys + {t} && s'.threads[t] == Proc(u, Open(key), Owning(o), 0, {})
    && (forall t1 :: t1 in s.threads && t1 != t ==> s'.threads[t1] == s.threads[t1])
    && s'.rooms == s.rooms[o := Room(id, u, key, Listed(t), {u}, [], Idle)]
    && s' == s.(threads := s'.threads, rooms := s'.rooms, chats := s.chats[id := o])
  }

  lemma {:induction false} Lists(r: Run, rules: set<Rule>, t: Tid, away: set<UserID>, u: UserID, id: ChatID, key: string,
                                 o: RoomRef)
    returns (r': Run)
    requires Obedient(r, rules) && t !in r.state.threads && OnlyActive(r.state, t, away)
    requires u in r.state.sessions && o !in r.state.rooms
    requires id == NextName(r.state.chats.Keys, r.state.home(u))
    ensures Obedient(r', rules) && OnlyActive(r'.state, t, away) && IsListed(r.state, r'.state, t, u, id, key, o)
  {
    r' := OpenStep(r, rules, Begin(t, u, Open(key)), DoBegin(r.state, t, u, Open(key)));
    OthersHoldNothing(r'.state, t, away, ChatsLock(r'.state.home(u)));
    r' := OpenStep(r', rules, ListChat(t, o), DoListChat(r'.state, t, o));
  }

  /** A new chat in its server's map and in its creator's session, not yet on the creator's client. */
  ghost predicate IsOpened(s: State, s': State, t: Tid, u: UserID, id: ChatID, key: string, o: RoomRef) {
    && s'.threads.Keys == s.threads.Keys + {t} && s'.threads[t] == Proc(u, Open(key), Filing(o), 0, {})
    && (forall t1 :: t1 in s.threads && t1 != t ==> s'.threads[t1] == s.threads[t1])
    && u in s.sessions
    && s'.sessions == s.sessions[u := s.sessions[u].(entries := s.sessions[u].entries[id := Direct(o)])]
    && s'.rooms.Keys == s.rooms.Keys + {o} && s'.rooms[o] == Room(id, u, key, Entered(t), {u}, [], Idle)
    && (forall q :: q in s.rooms && q != o ==> s'.rooms[q] == s.rooms[q])
    && s'.chats == s.chats[id := o] && s'.clients == s.clients && s'.inbox == s.inbox && s'.home == s.home
  }

  lemma {:induction false} Creates(r: Run, rules: set<Rule>, t: Tid, away: set<UserID>, u: UserID, id: ChatID, key: string,
                                   o: RoomRef)
    returns (r': Run)
    requires Obedient(r, rules) && t !in r.state.threads && OnlyActive(r.state, t, away)
    requires u in r.state.sessions && u !in away && o !in r.state.rooms
    requires id == NextName(r.state.chats.Keys, r.state.home(u))
    ensures Obedient(r', rules) && OnlyActive(r'.state, t, away) && IsOpened(r.state, r'.state, t, u, id, key, o)
  {
    r' := Lists(r, rules, t, away, u, id, key, o);
    OthersHoldNothing(r'.state, t, away, SessionLock(u));
    r' := OpenStep(r', rules, OwnChat(t), DoOwnChat(r'.state, t));
  }

  /** And on the creator's client, with nobody else in it. */
  ghost predicate IsFiled(s: State, s': State, t: Tid, u: UserID, id: ChatID, key: string, o: RoomRef) {
    && s'.threads.Keys == s.threads.Keys + {t} && s'.threads[t] == Proc(u, Open(key), Finished, 0, {})
    && (forall t1 :: t1 in s.threads && t1 != t ==> s'.threads[t1] == s.threads[t1])
    && u in s.sessions && u in s.clients
    && s'.sessions == s.sessions[u := s.sessions[u].(entries := s.sessions[u].entries[id := Direct(o)])]
    && s'.rooms.Keys == s.rooms.Keys + {o} && s'.rooms[o] == Room(id, u, key, Filed(0), {u}, [], Idle)
    && (forall q :: q in s.rooms && q != o ==> s'.rooms[q] == s.rooms[q])
    && s'.clients == s.clients[u := s.clients[u][id := View({u}, key, o, [], [])]]
    && s'.chats == s.chats[id := o] && s'.inbox == s.inbox && s'.home == s.home
  }

  lemma {:induction false} Files(r: Run, rules: set<Rule>, t: Tid) returns (r': Run)
    requires Obedient(r, rules) && CanFileChat(r.state, t) && ObeysAll(r.state, FileChat(t), rules)
    ensures Obedient(r', rules) && r'.state == DoFileChat(r.state, t)
  {
    r' := OpenStep(r, rules, FileChat(t), DoFileChat(r.state, t));
  }

  lemma {:induction false} CreatesAndFiles(r: Run, rules: set<Rule>, t: Tid, away: set<UserID>, u: UserID, id: ChatID,
                                           key: string, o: RoomRef)
    returns (r': Run)
    requires Obedient(r, rules) && t !in r.state.threads && OnlyActive(r.state, t, away) && NothingSent(r.state)
    requires u in r.state.sessions && u in r.state.clients && u !in away && o !in r.state.rooms
    requires id == NextName(r.state.chats.Keys, r.state.home(u))
    ensures Obedient(r', rules) && OnlyActive(r'.state, t, away) && IsFiled(r.state, r'.state, t, u, id, key, o)
  {
    r' := Creates(r, rules, t, away, u, id, key, o);
    FilesAllowed(r'.state, rules, t);
    r' := Files(r', rules, t);
  }

  lemma FilesAllowed(s: State, rules: set<Rule>, t: Tid)
    requires CanFileChat(s, t) && NothingSent(s)
    requires var (o, u) := (s.threads[t].at.room, s.threads[t].user);
      && s.rooms[o].id in s.chats && s.chats[s.rooms[o].id] == o && s.rooms[o].members == {u} && s.rooms[o].busy.Idle?
    ensures ObeysAll(s, FileChat(t), rules)
  {
    assert FilesAlone(s, t) && FilesQuiet(s, t);
    assert FilesPresent(s, t);
  }

  // ----- Leaving a chat -----

  lemma {:induction false} Parts(r: Run, rules: set<Rule>, t: Tid) returns (r': Run)
    requires Obedient(r, rules) && CanPart(r.state, t)
    ensures Obedient(r', rules) && r'.state == DoPart(r.state, t)
  {
    r' := LeaveStep(r, rules, Part(t), DoPart(r.state, t));
  }

  lemma {:induction false} Tells(r: Run, rules: set<Rule>, t: Tid, to: UserID) returns (r': Run)
    requires Obedient(r, rules) && CanTell(r.state, t, to)
    ensures Obedient(r', rules) && r'.state == DoTell(r.state, t, to)
  {
    r' := LeaveStep(r, rules, Tell(t, to), DoTell(r.state, t, to));
  }

  lemma {:induction false} EndsTelling(r: Run, rules: set<Rule>, t: Tid) returns (r': Run)
    requires Obedient(r, rules) && CanEndTelling(r.state, t)
    ensures Obedient(r', rules) && r'.state == DoEndTelling(r.state, t)
  {
    r' := LeaveStep(r, rules, EndTelling(t), DoEndTelling(r.state, t));
  }

  /** Sessions are as before, but that of `user` may be taking it out of a chat. */
  ghost predicate IsLeavingOnly(s: State, s': State, user: UserID) {
    && s'.sessions.Keys == s.sessions.Keys
    && (forall u :: u in s.sessions ==> s'.sessions[u].entries == s.sessions[u].entries)
    && (forall u :: u in s.sessions && u != user ==> s'.sessions[u] == s.sessions[u])
  }

  /** The thread's user is out of room `o`; nothing else has changed but what others have been told. */
  ghost predicate IsOut(s: State, s': State, t: Tid, o: RoomRef, at: Point) {
    && OnlyMoved(s, s', t) && s'.threads[t].at == at
    && o in s.rooms && s'.rooms.Keys == s.rooms.Keys && (forall q :: q in s.rooms && q != o ==> s'.rooms[q] == s.rooms[q])
    && s'.rooms[o] == s.rooms[o].(members := s.rooms[o].members - {s.threads[t].user},
                                  history := s.rooms[o].history + [Left(s.threads[t].user)], busy := Idle)
    && IsLeavingOnly(s, s', s.threads[t].user)
    && s'.chats == s.chats && s'.inbox == s.inbox && s'.home == s.home && s'.clients.Keys == s.clients.Keys
  }

  lemma {:induction false} PartsAlone(r: Run, rules: set<Rule>, t: Tid, away: set<UserID>, o: RoomRef) returns (r': Run)
    requires Obedient(r, rules) && OnlyActive(r.state, t, away) && CanPart(r.state, t)
    requires r.state.threads[t].at == HasRoom(o) && r.state.rooms[o].members == {r.state.threads[t].user}
    ensures Obedient(r', rules) && OnlyActive(r'.state, t, away) && IsOut(r.state, r'.state, t, o, Testing(o))
    ensures r'.state.clients == r.state.clients
  {
    PartsLast(r.state, t, o);
    r' := Parts(r, rules, t);
    r' := EndsTelling(r', rules, t);
  }

  lemma PartsLast(s: State, t: Tid, o: RoomRef)
    requires CanPart(s, t) && s.threads[t].at == HasRoom(o) && s.rooms[o].members == {s.threads[t].user}
    ensures CanEndTelling(DoPart(s, t), t)
    ensures var s' := DoEndTelling(DoPart(s, t), t); IsOut(s, s', t, o, Testing(o)) && s'.clients == s.clients
  {
    HalfWayOut(s, t, o, {});
    EndsLeave(DoPart(s, t), t, o);
  }

  /** With one other member, who is told. */
  lemma {:induction false} PartsTelling(r: Run, rules: set<Rule>, t: Tid, away: set<UserID>, o: RoomRef, other: UserID)
    returns (r': Run)
    requires Obedient(r, rules) && OnlyActive(r.state, t, away) && CanPart(r.state, t) && r.state.threads[t].at == HasRoom(o)
    requires r.state.rooms[o].members == {r.state.threads[t].user, other} && other != r.state.threads[t].user
    requires r.state.Shows(other, r.state.rooms[o].id)
    ensures Obedient(r', rules) && OnlyActive(r'.state, t, away) && IsOut(r.state, r'.state, t, o, Testing(o))
    ensures OnlyTold(r.state, r'.state, other, r.state.rooms[o].id, r.state.threads[t].user)
  {
    PartsFromOther(r.state, t, o, other);
    r' := Parts(r, rules, t);
    r' := Tells(r', rules, t, other);
    r' := EndsTelling(r', rules, t);
  }

  /** Of all clients only that of `other` has been told something: that `leaver` has left. */
  ghost predicate OnlyTold(s: State, s': State, other: UserID, id: ChatID, leaver: UserID) {
    && s'.clients.Keys == s.clients.Keys && s.Shows(other, id)
    && (forall u :: u in s.clients && u != other ==> s'.clients[u] == s.clients[u])
    && s'.clients[other] == s.clients[other][id := HasLost(s.clients[other][id], leaver)]
  }

  ghost function HasLost(v: View, leaver: UserID): View {
    v.(users := v.users - {leaver}, seen := v.seen + [Left(leaver)])
  }

  lemma PartsFromOther(s: State, t: Tid, o: RoomRef, other: UserID)
    requires CanPart(s, t) && s.threads[t].at == HasRoom(o) && other != s.threads[t].user
    requires s.rooms[o].members == {s.threads[t].user, other} && s.Shows(other, s.rooms[o].id)
    ensures CanTell(DoPart(s, t), t, other) && CanEndTelling(DoTell(DoPart(s, t), t, other), t)
    ensures var s' := DoEndTelling(DoTell(DoPart(s, t), t, other), t);
      IsOut(s, s', t, o, Testing(o)) && OnlyTold(s, s', other, s.rooms[o].id, s.threads[t].user)
  {
    assert s.rooms[o].members - {s.threads[t].user} == {other};
    HalfWayOut(s, t, o, {other});
    ToldLast(DoPart(s, t), t, o, other);
  }

  /** The user is out, and the others are to be told. */
  ghost predicate IsHalfOut(s: State, s': State, t: Tid, o: RoomRef, rest: set<UserID>) {
    && OnlyMoved(s, s', t) && s'.threads[t].at == Spreading(o)
    && o in s.rooms && s'.rooms.Keys == s.rooms.Keys && (forall q :: q in s.rooms && q != o ==> s'.rooms[q] == s.rooms[q])
    && s'.rooms[o] == s.rooms[o].(members := rest, busy := Telling(t, Left(s.threads[t].user), rest))
    && IsLeavingOnly(s, s', s.threads[t].user)
    && s'.chats == s.chats && s'.inbox == s.inbox && s'.home == s.home && s'.clients == s.clients
  }

  lemma HalfWayOut(s: State, t: Tid, o: RoomRef, rest: set<UserID>)
    requires CanPart(s, t) && s.threads[t].at == HasRoom(o) && s.threads[t].user in s.rooms[o].members
    requires s.rooms[o].members - {s.threads[t].user} == rest
    ensures IsHalfOut(s, DoPart(s, t), t, o, rest)
  {}

  lemma EndsLeave(s: State, t: Tid, o: RoomRef)
    requires t in s.threads && s.threads[t].at == Spreading(o) && o in s.rooms
    requires s.rooms[o].busy.Telling? && s.rooms[o].busy.change.Left? && s.rooms[o].busy.todo == {}
    requires s.rooms[o].busy.change.who !in s.rooms[o].members
    ensures CanEndTelling(s, t)
    ensures var s' := DoEndTelling(s, t);
      && OnlyMoved(s, s', t) && s'.threads[t].at == Testing(o) && s'.rooms == s.rooms[o := s'.rooms[o]]
      && s'.rooms[o] == s.rooms[o].(history := s.rooms[o].history + [s.rooms[o].busy.change], busy := Idle)
      && s'.sessions == s.sessions && s'.chats == s.chats && s'.inbox == s.inbox && s'.home == s.home
      && s'.clients == s.clients
  {}

  lemma ToldLast(s: State, t: Tid, o: RoomRef, other: UserID)
    requires t in s.threads && s.threads[t].at == Spreading(o) && o in s.rooms && s.Shows(other, s.rooms[o].id)
    requires s.rooms[o].busy.Telling? && s.rooms[o].busy.change.Left? && s.rooms[o].busy.todo == {other}
    requires s.rooms[o].busy.change.who !in s.rooms[o].members
    ensures CanTell(s, t, other) && CanEndTelling(DoTell(s, t, other), t)
    ensures var s' := DoEndTelling(DoTell(s, t, other), t);
      && OnlyMoved(s, s', t) && s'.threads[t].at == Testing(o) && s'.rooms == s.rooms[o := s'.rooms[o]]
      && s'.rooms[o] == s.rooms[o].(history := s.rooms[o].history + [s.rooms[o].busy.change], busy := Idle)
      && s'.sessions == s.sessions && s'.chats == s.chats && s'.inbox == s.inbox && s'.home == s.home
      && OnlyTold(s, s', other, s.rooms[o].id, s.rooms[o].busy.change.who)
  {
    assert DoTell(s, t, other).rooms[o].busy.todo == {};
  }

  lemma {:induction false} Empties(r: Run, rules: set<Rule>, t: Tid, away: set<UserID>, o: RoomRef) returns (r': Run)
    requires Obedient(r, rules) && IsReady(r.state, t, away, o) && r.state.threads[t].op.Leave?
    requires o in r.state.rooms && r.state.rooms[o].members == {r.state.threads[t].user}
    ensures Obedient(r', rules) && OnlyActive(r'.state, t, away) && IsOut(r.state, r'.state, t, o, Unlisting(o))
    ensures r'.state.clients == r.state.clients
  {
    r' := Enters(r, rules, t, away, o);
    r' := PartsAlone(r', rules, t, away, o);
    r' := Tests(r', rules, t);
  }

  lemma {:induction false} Tests(r: Run, rules: set<Rule>, t: Tid) returns (r': Run)
    requires Obedient(r, rules) && CanTestEmpty(r.state, t)
    ensures Obedient(r', rules) && r'.state == DoTestEmpty(r.state, t)
  {
    r' := LeaveStep(r, rules, TestEmpty(t), DoTestEmpty(r.state, t));
  }

  lemma {:induction false} Forgets(r: Run, rules: set<Rule>, t: Tid) returns (r': Run)
    requires Obedient(r, rules) && CanForget(r.state, t)
    ensures Obedient(r', rules) && r'.state == DoForget(r.state, t)
  {
    r' := LeaveStep(r, rules, Forget(t), DoForget(r.state, t));
  }

  lemma {:induction false} Releases(r: Run, rules: set<Rule>, t: Tid) returns (r': Run)
    requires Obedient(r, rules) && CanRelease(r.state, t)
    ensures Obedient(r', rules) && r'.state == DoRelease(r.state, t)
  {
    r' := SendStep(r, rules, Release(t), DoRelease(r.state, t));
  }

  /** The map no longer has the ID, and the session has forgotten it. */
  ghost predicate IsGone(s: State, s': State, t: Tid) {
    && OnlyMoved(s, s', t) && s'.threads[t].at.Closing? && s.threads[t].op.Leave?
    && s'.chats == s.chats - {s.threads[t].op.id} && s'.sessions.Keys == s.sessions.Keys
    && s.threads[t].user in s.sessions
    && s'.sessions[s.threads[t].user] == Session(s.sessions[s.threads[t].user].entries - {s.threads[t].op.id}, None)
    && (forall u :: u in s.sessions && u != s.threads[t].user ==> s'.sessions[u] == s.sessions[u])
    && s'.rooms == s.rooms && s'.clients == s.clients && s'.inbox == s.inbox && s'.home == s.home
  }

  lemma {:induction false} Departs(r: Run, rules: set<Rule>, t: Tid, away: set<UserID>) returns (r': Run)
    requires Obedient(r, rules) && OnlyActive(r.state, t, away) && t in r.state.threads
    requires r.state.threads[t].at.Unlisting? && r.state.threads[t].op.Leave? && r.state.threads[t].user in r.state.sessions
    requires r.state.threads[t].op.id in r.state.chats
    requires CanUnlist(r.state, t) ==> ObeysAll(r.state, Unlist(t), rules)
    ensures Obedient(r', rules) && OnlyActive(r'.state, t, away) && IsGone(r.state, r'.state, t)
  {
    var s := r.state;
    OthersHoldNothing(s, t, away, ChatsLock(s.home(s.threads[t].op.id)));
    r' := LeaveStep(r, rules, Unlist(t), DoUnlist(s, t));
    r' := Forgets(r', rules, t);
    r' := Releases(r', rules, t);
  }

  lemma {:induction false} Closes(r: Run, rules: set<Rule>, t: Tid, u: UserID, id: ChatID) returns (r': Run)
    requires Obedient(r, rules) && CanClose(r.state, t) && r.state.threads[t].user == u && r.state.threads[t].op == Leave(id)
    requires CloseLeft in rules ==> ClosesLeft(r.state, t)
    ensures Obedient(r', rules)
    ensures r'.state == r.state.(threads := r.state.threads[t := r.state.threads[t].(at := Finished)],
                                 clients := r.state.clients[u := r.state.clients[u] - {id}])
  {
    r' := LeaveStep(r, rules, Close(t), DoClose(r.state, t));
  }

  // ----- Inviting a user -----

  /** What the invited user's session gets: the chat itself on the chat's own server, and elsewhere a stand-in. */
  ghost function ByHome(s: State, op: Op, o: RoomRef): Entry
    requires op.Invite?
  {
    if s.home(op.invitee) == s.home(op.id) then Direct(o) else ByName
  }

  lemma {:induction false} ChecksIn(r: Run, rules: set<Rule>, t: Tid, away: set<UserID>, o: RoomRef) returns (r': Run)
    requires Obedient(r, rules) && OnlyActive(r.state, t, away) && CanCheck(r.state, t) && r.state.threads[t].at == HasRoom(o)
    requires r.state.threads[t].op.invitee in r.state.sessions
    requires r.state.threads[t].op.invitee !in r.state.rooms[o].members
    ensures Obedient(r', rules) && OnlyActive(r'.state, t, away) && MovedTo(r.state, r'.state, t, NeedChats(o))
  {
    r' := InviteStep(r, rules, Check(t), DoCheck(r.state, t));
    OthersHoldNothing(r'.state, t, away, SessionsLock(r.state.home(r.state.threads[t].op.invitee)));
    r' := InviteStep(r', rules, TakeSessions(t), DoTakeSessions(r'.state, t));
  }

  lemma {:induction false} Approaches(r: Run, rules: set<Rule>, t: Tid, away: set<UserID>, o: RoomRef) returns (r': Run)
    requires Obedient(r, rules) && OnlyActive(r.state, t, away) && t in r.state.threads && r.state.threads[t].at == NeedChats(o)
    requires r.state.threads[t].op.Invite? && r.state.threads[t].op.id in r.state.chats
    requires r.state.threads[t].op.invitee !in away && r.state.threads[t].op.invitee != r.state.threads[t].user
    ensures Obedient(r', rules) && OnlyActive(r'.state, t, away) && MovedTo(r.state, r'.state, t, HasInvitee(o))
  {
    var op := r.state.threads[t].op;
    OthersHoldNothing(r.state, t, away, ChatsLock(r.state.home(op.id)));
    r' := InviteStep(r, rules, TakeChats(t), DoTakeChats(r.state, t));
    OthersHoldNothing(r'.state, t, away, SessionLock(op.invitee));
    r' := InviteStep(r', rules, TakeInvitee(t), DoTakeInvitee(r'.state, t));
  }

  ghost predicate HasGuest(s: State, s': State, o: RoomRef, host: UserID, guest: UserID) {
    && o in s.rooms && s'.rooms.Keys == s.rooms.Keys && (forall q :: q in s.rooms && q != o ==> s'.rooms[q] == s.rooms[q])
    && s'.rooms[o] == s.rooms[o].(members := {host, guest}, history := s.rooms[o].history + [Joined(guest)], busy := Idle)
  }

  ghost function HasHeard(v: View, guest: UserID): View {
    v.(users := v.users + {guest}, seen := v.seen + [Joined(guest)])
  }

  /** The invited user is in, and its client and that of the only other member show both. */
  ghost predicate IsInvited(s: State, s': State, t: Tid, o: RoomRef, host: UserID, entry: Entry) {
    && OnlyMoved(s, s', t) && s'.threads[t].at.Finished? && s.threads[t].op.Invite?
    && var (guest, id) := (s.threads[t].op.invitee, s.threads[t].op.id);
       && HasGuest(s, s', o, host, guest) && guest in s.sessions
       && s'.sessions == s.sessions[guest := s.sessions[guest].(entries := s.sessions[guest].entries[id := entry])]
       && s'.chats == s.chats && s'.inbox == s.inbox && s'.home == s.home
       && s'.clients.Keys == s.clients.Keys && guest in s.clients && host in s.clients && id in s.clients[host]
       && (forall u :: u in s.clients && u != guest && u != host ==> s'.clients[u] == s.clients[u])
       && s'.clients[guest] == s.clients[guest][id := View({host, guest}, s.threads[t].op.key, s.threads[t].op.of, [], [])]
       && s'.clients[host] == s.clients[host][id := HasHeard(s.clients[host][id], guest)]
  }

  /** The thread has told the invited user's client. */
  ghost predicate IsCalled(s: State, s': State, t: Tid, o: RoomRef, entry: Entry) {
    && OnlyMoved(s, s', t) && s'.threads[t].at == Spreading(o) && s.threads[t].op.Invite?
    && var (guest, id) := (s.threads[t].op.invitee, s.threads[t].op.id);
       && o in s.rooms && s'.rooms.Keys == s.rooms.Keys && (forall q :: q in s.rooms && q != o ==> s'.rooms[q] == s.rooms[q])
       && s'.rooms[o] == s.rooms[o].(busy := Telling(t, Joined(guest), s.rooms[o].members))
       && guest in s.sessions && guest in s.clients
       && s'.sessions == s.sessions[guest := s.sessions[guest].(entries := s.sessions[guest].entries[id := entry])]
       && s'.clients ==
          s.clients[guest := s.clients[guest][id := View(s.rooms[o].members + {guest}, s.threads[t].op.key,
                                                         s.threads[t].op.of, [], [])]]
       && s'.chats == s.chats && s'.inbox == s.inbox && s'.home == s.home
  }

  lemma {:induction false} Entertains(r: Run, rules: set<Rule>, t: Tid, away: set<UserID>, o: RoomRef) returns (r': Run)
    requires Obedient(r, rules) && OnlyActive(r.state, t, away) && CanEnterInvitee(r.state, t)
    requires var (s, op) := (r.state, r.state.threads[t].op);
      && s.threads[t].at == HasInvitee(o) && op.id in s.chats && s.chats[op.id] == o && op.id !in s.sessions[op.invitee].entries
    ensures Obedient(r', rules) && OnlyActive(r'.state, t, away)
    ensures var (s, s', op) := (r.state, r'.state, r.state.threads[t].op);
      && OnlyMoved(s, s', t) && s'.threads[t].at == Calling(o)
      && s'.rooms == s.rooms[o := s.rooms[o].(busy := Expecting(t, op.invitee))]
      && s'.sessions == s.sessions[op.invitee := s.sessions[op.invitee].(
                                     entries := s.sessions[op.invitee].entries[op.id := ByHome(s, op, o)])]
      && s'.clients == s.clients && s'.chats == s.chats && s'.inbox == s.inbox && s'.home == s.home
  {
    r' := InviteStep(r, rules, EnterInvitee(t), DoEnterInvitee(r.state, t));
  }

  /** As far as the rules ask for it, the invitation is one into that room. */
  ghost predicate MayInvite(s: State, op: Op, o: RoomRef, rules: set<Rule>)
    requires op.Invite? && o in s.rooms
  {
    (HandKey in rules ==> op.key == s.rooms[o].key) && (InviteMeant in rules ==> op.of == o)
  }

  lemma {:induction false} Calls(r: Run, rules: set<Rule>, t: Tid, away: set<UserID>, o: RoomRef) returns (r': Run)
    requires Obedient(r, rules) && OnlyActive(r.state, t, away) && CanCallInvitee(r.state, t)
    requires r.state.threads[t].at == Calling(o) && MayInvite(r.state, r.state.threads[t].op, o, rules)
    ensures Obedient(r', rules) && OnlyActive(r'.state, t, away)
    ensures OnlyMoved(r.state, r'.state, t) && r'.state.threads[t].at == Spreading(o)
    ensures r'.state == DoCallInvitee(r.state, t)
  {
    r' := InviteStep(r, rules, CallInvitee(t), DoCallInvitee(r.state, t));
  }

  lemma {:induction false} EntersAndCalls(r: Run, rules: set<Rule>, t: Tid, away: set<UserID>, o: RoomRef) returns (r': Run)
    requires Obedient(r, rules) && OnlyActive(r.state, t, away) && t in r.state.threads && r.state.threads[t].op.Invite?
    requires var (s, op) := (r.state, r.state.threads[t].op);
      && s.threads[t].at == HasInvitee(o) && o in s.rooms && s.rooms[o].id == op.id
      && op.id in s.chats && s.chats[op.id] == o && HasNoEntry(s, op.invitee, op.id)
      && MayInvite(s, op, o, rules)
    ensures Obedient(r', rules) && OnlyActive(r'.state, t, away) && IsCalled(r.state, r'.state, t, o, ByHome(r.state, r.state.threads[t].op, o))
  {
    r' := Entertains(r, rules, t, away, o);
    r' := Calls(r', rules, t, away, o);
  }

  /** And the only other member's client. */
  ghost predicate IsWelcomed(s: State, s': State, t: Tid, o: RoomRef, host: UserID) {
    && OnlyMoved(s, s', t) && s'.threads[t].at.Finished? && s.threads[t].op.Invite?
    && o in s.rooms && s'.rooms.Keys == s.rooms.Keys && (forall q :: q in s.rooms && q != o ==> s'.rooms[q] == s.rooms[q])
    && s'.rooms[o] == s.rooms[o].(members := {host, s.threads[t].op.invitee},
                                  history := s.rooms[o].history + [Joined(s.threads[t].op.invitee)], busy := Idle)
    && s'.sessions == s.sessions && s'.chats == s.chats && s'.inbox == s.inbox && s'.home == s.home
    && s'.clients.Keys == s.clients.Keys && (forall u :: u in s.clients && u != host ==> s'.clients[u] == s.clients[u])
    && s.Shows(host, s.rooms[o].id)
    && s'.clients[host] ==
       s.clients[host][s.rooms[o].id := HasHeard(s.clients[host][s.rooms[o].id], s.threads[t].op.invitee)]
  }

  lemma {:induction false} Welcomes(r: Run, rules: set<Rule>, t: Tid, away: set<UserID>, o: RoomRef, host: UserID)
    returns (r': Run)
    requires Obedient(r, rules) && OnlyActive(r.state, t, away) && CanTell(r.state, t, host)
    requires var s := r.state;
      && s.threads[t].at == Spreading(o) && s.threads[t].op.Invite? && s.rooms[o].members == {host}
      && s.rooms[o].busy == Telling(t, Joined(s.threads[t].op.invitee), {host}) && s.threads[t].op.invitee != host
      && s.rooms[o].id == s.threads[t].op.id && s.Shows(s.threads[t].op.invitee, s.threads[t].op.id)
    ensures Obedient(r', rules) && OnlyActive(r'.state, t, away)
    ensures IsWelcomed(r.state, r'.state, t, o, host)
  {
    TellsHost(r.state, t, o, host);
    r' := Tells(r, rules, t, host);
    r' := EndsTelling(r', rules, t);
    r' := Releases(r', rules, t);
  }

  lemma TellsHost(s: State, t: Tid, o: RoomRef, host: UserID)
    requires CanTell(s, t, host) && s.threads[t].at == Spreading(o) && s.threads[t].op.Invite? && s.rooms[o].members == {host}
    requires s.rooms[o].busy == Telling(t, Joined(s.threads[t].op.invitee), {host}) && s.threads[t].op.invitee != host
    ensures var s1 := DoTell(s, t, host);
      && CanEndTelling(s1, t) && CanRelease(DoEndTelling(s1, t), t)
      && IsWelcomed(s, DoRelease(DoEndTelling(s1, t), t), t, o, host)
  {
    assert DoTell(s, t, host).rooms[o].busy.todo == {};
  }

  lemma {:induction false} Invites(r: Run, rules: set<Rule>, t: Tid, away: set<UserID>, o: RoomRef) returns (r': Run)
    requires Obedient(r, rules) && IsReady(r.state, t, away, o) && r.state.threads[t].op.Invite?
    requires var (s, op, host) := (r.state, r.state.threads[t].op, r.state.threads[t].user);
      && o in s.rooms && s.rooms[o].members == {host} && s.rooms[o].id == op.id && op.id in s.chats && s.chats[op.id] == o
      && op.invitee != host && op.invitee !in away && HasNoEntry(s, op.invitee, op.id)
      && s.Shows(host, op.id) && MayInvite(s, op, o, rules)
    ensures Obedient(r', rules) && OnlyActive(r'.state, t, away)
    ensures IsInvited(r.state, r'.state, t, o, r.state.threads[t].user, ByHome(r.state, r.state.threads[t].op, o))
  {
    var r1 := Announces(r, rules, t, away, o);
    var r2 := EntersAndCalls(r1, rules, t, away, o);
    r' := Welcomes(r2, rules, t, away, o, r.state.threads[t].user);
    NowInvited(r.state, r1.state, r2.state, r'.state, t, o, r.state.threads[t].user, ByHome(r.state, r.state.threads[t].op, o));
  }

  lemma {:induction false} Announces(r: Run, rules: set<Rule>, t: Tid, away: set<UserID>, o: RoomRef) returns (r': Run)
    requires Obedient(r, rules) && IsReady(r.state, t, away, o) && r.state.threads[t].op.Invite?
    requires var (s, op, host) := (r.state, r.state.threads[t].op, r.state.threads[t].user);
      && o in s.rooms && op.id in s.chats && op.invitee in s.sessions && op.invitee !in s.rooms[o].members
      && op.invitee != host && op.invitee !in away
    ensures Obedient(r', rules) && OnlyActive(r'.state, t, away) && MovedTo(r.state, r'.state, t, HasInvitee(o))
  {
    r' := Enters(r, rules, t, away, o);
    r' := ChecksIn(r', rules, t, away, o);
    r' := Approaches(r', rules, t, away, o);
  }

  lemma NowInvited(s: State, s1: State, s2: State, s': State, t: Tid, o: RoomRef, host: UserID, entry: Entry)
    requires MovedTo(s, s1, t, HasInvitee(o)) && IsCalled(s1, s2, t, o, entry) && IsWelcomed(s2, s', t, o, host)
    requires s.Shows(host, s.threads[t].op.id) && s.threads[t].op.invitee != host
    requires o in s.rooms && s.rooms[o].id == s.threads[t].op.id && s.rooms[o].members == {host}
    ensures IsInvited(s, s', t, o, host, entry)
  {
    assert {host} + {s.threads[t].op.invitee} == {host, s.threads[t].op.invitee};
    MovedOn(s, s1, s2, t);
    MovedOn(s, s2, s', t);
    NowHasGuest(s, s1, s2, s', t, o, host, entry);
  }

  lemma NowHasGuest(s: State, s1: State, s2: State, s': State, t: Tid, o: RoomRef, host: UserID, entry: Entry)
    requires MovedTo(s, s1, t, HasInvitee(o)) && IsCalled(s1, s2, t, o, entry) && IsWelcomed(s2, s', t, o, host) && o in s.rooms
    ensures HasGuest(s, s', o, host, s.threads[t].op.invitee)
  {}

  lemma MovedOn(s: State, s1: State, s2: State, t: Tid)
    requires OnlyMoved(s, s1, t) && OnlyMoved(s1, s2, t)
    ensures OnlyMoved(s, s2, t)
  {}

  // ----- A message -----

  /** The message is on its way to everyone in room `o`. */
  ghost predicate IsSending(s: State, s': State, t: Tid, o: RoomRef) {
    && OnlyMoved(s, s', t) && o in s.rooms && s'.threads[t].at == Fanning(o, s.rooms[o].members) && s.threads[t].op.Send?
    && s' == s.(threads := s'.threads, clock := s'.clock)
  }

  lemma {:induction false} Sends(r: Run, rules: set<Rule>, t: Tid, away: set<UserID>, o: RoomRef) returns (r': Run)
    requires Obedient(r, rules) && IsReady(r.state, t, away, o) && r.state.threads[t].op.Send? && o in r.state.rooms
    ensures Obedient(r', rules) && OnlyActive(r'.state, t, away) && IsSending(r.state, r'.state, t, o)
  {
    r' := Enters(r, rules, t, away, o);
    r' := SendStep(r', rules, Snapshot(t), DoSnapshot(r'.state, t));
  }

  /** The last step of the run is a message to a participant, which its client does not log. */
  ghost predicate IsUnlogged(r: Run) {
    && r.Then? && r.action.Deliver? && CanDeliver(r.before.state, r.action.t, r.action.to)
    && IsShownIn(r.before.state, r.before.state.threads[r.action.t].at.room, r.action.to)
    && r.state.clients == r.before.state.clients
  }

  /** Its client does not show the sender. */
  lemma {:induction false} Drops(r: Run, rules: set<Rule>, t: Tid, to: UserID) returns (r': Run)
    requires Obedient(r, rules) && CanDeliver(r.state, t, to) && r.state.Shows(to, r.state.threads[t].op.id)
    requires r.state.threads[t].user !in r.state.clients[to][r.state.threads[t].op.id].users
    ensures Obedient(r', rules) && r'.state.dropped && r'.state == DoDeliver(r.state, t, to)
    ensures IsShownIn(r.state, r.state.threads[t].at.room, to) ==> IsUnlogged(r')
  {
    r' := SendStep(r, rules, Deliver(t, to), DoDeliver(r.state, t, to));
  }
}
