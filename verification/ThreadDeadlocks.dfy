/** A run in which every rule is obeyed and no call fails, and two threads wait for each other: an invitation holds the
    mutex of its server's chats and needs that of the invited user's session, and that user's leave holds the latter and
    needs the former, to remove a chat that it has left empty. */
module ThreadDeadlocks {
  import opened Wrappers
  import opened Identifiers
  import opened Threads
  import opened ThreadMail
  import opened ThreadWalks
  import opened ThreadRaces
  import opened ThreadProgress

  ghost predicate IsDeadlock(s: State, t1: Tid, t2: Tid) {
    && t1 in s.threads && t2 in s.threads
    && var (p1, p2) := (s.threads[t1], s.threads[t2]);
       && p1.at.NeedInvitee? && p1.op.Invite? && p1.op.invitee == p2.user && GuestIsLocal(s, p1)
       && p2.at.Unlisting? && p2.op.Leave? && s.home(p2.op.id) == s.home(p1.op.id)
  }

  ghost predicate SameThreads(s: State, s': State, t1: Tid, t2: Tid) {
    && t1 in s.threads && t2 in s.threads && t1 in s'.threads && t2 in s'.threads
    && s'.threads[t1] == s.threads[t1] && s'.threads[t2] == s.threads[t2]
  }

  lemma OpenStuck(s: State, a: Action, s': State, t1: Tid, t2: Tid)
    requires IsDeadlock(s, t1, t2) && OpenNext(s, a, s') && a.t != t1 && a.t != t2
    ensures IsDeadlock(s', t1, t2) && SameThreads(s, s', t1, t2)
  {}

  lemma SendStuck(s: State, a: Action, s': State, t1: Tid, t2: Tid)
    requires IsDeadlock(s, t1, t2) && SendNext(s, a, s') && a.t != t1 && a.t != t2
    ensures IsDeadlock(s', t1, t2) && SameThreads(s, s', t1, t2)
  {}

  lemma InviteStuck(s: State, a: Action, s': State, t1: Tid, t2: Tid)
    requires IsDeadlock(s, t1, t2) && InviteNext(s, a, s') && a.t != t1 && a.t != t2
    ensures IsDeadlock(s', t1, t2) && SameThreads(s, s', t1, t2)
  {}

  lemma LeaveStuck(s: State, a: Action, s': State, t1: Tid, t2: Tid)
    requires IsDeadlock(s, t1, t2) && LeaveNext(s, a, s') && a.t != t1 && a.t != t2
    ensures IsDeadlock(s', t1, t2) && SameThreads(s, s', t1, t2)
  {}

  lemma NextStuck(s: State, a: Action, s': State, t1: Tid, t2: Tid)
    requires IsDeadlock(s, t1, t2) && Next(s, a, s')
    ensures IsDeadlock(s', t1, t2) && SameThreads(s, s', t1, t2)
  {
    HoldEachOther(s, t1, t2);
    NobodyMoves(s, t1, t2);
    assert a.t != t1 && a.t != t2;
    if OpenNext(s, a, s') {
      OpenStuck(s, a, s', t1, t2);
    } else if SendNext(s, a, s') {
      SendStuck(s, a, s', t1, t2);
    } else if InviteNext(s, a, s') {
      InviteStuck(s, a, s', t1, t2);
    } else {
      LeaveStuck(s, a, s', t1, t2);
    }
  }

  lemma HoldEachOther(s: State, t1: Tid, t2: Tid)
    requires IsDeadlock(s, t1, t2)
    ensures Needs(s, t1, SessionLock(s.threads[t2].user)) && !s.IsFree(SessionLock(s.threads[t2].user))
    ensures Needs(s, t2, ChatsLock(s.home(s.threads[t1].op.id))) && !s.IsFree(ChatsLock(s.home(s.threads[t1].op.id)))
  {
    assert Holds(s.home, s.threads[t2], SessionLock(s.threads[t2].user));
    assert Holds(s.home, s.threads[t1], ChatsLock(s.home(s.threads[t1].op.id)));
  }

  /** However the run goes on, neither thread takes another step, and nobody of that server opens a chat any more. */
  lemma {:induction false} StuckForEver(r: Run, r0: Run, t1: Tid, t2: Tid)
    requires IsRun(r) && GoesOnFrom(r, r0) && IsDeadlock(r0.state, t1, t2)
    ensures IsDeadlock(r.state, t1, t2) && !CanMove(r.state, t1) && !CanMove(r.state, t2)
    ensures SameThreads(r0.state, r.state, t1, t2)
    ensures forall t, o :: CanListChat(r.state, t, o) ==>
              r.state.home(r.state.threads[t].user) != r.state.home(r.state.threads[t1].op.id)
  {
    if r != r0 {
      StuckForEver(r.before, r0, t1, t2);
      NextStuck(r.before.state, r.action, r.state, t1, t2);
    }
    HoldEachOther(r.state, t1, t2);
    NobodyMoves(r.state, t1, t2);
  }

  lemma NobodyMoves(s: State, t1: Tid, t2: Tid)
    requires t1 in s.threads && t2 in s.threads && IsKeptOut(s, t1) && IsKeptOut(s, t2)
    ensures !CanMove(s, t1) && !CanMove(s, t2)
  {
    forall a: Action, s' | (a.t == t1 || a.t == t2) && Next(s, a, s')
      ensures false
    {
      Stands(s, a.t, a, s');
    }
  }

  /** Two users of one server: one leaves a chat of its own, and the other invites it at the same time. */
  lemma Deadlock(home: string -> Host, u: UserID, v: UserID, key: string, rules: set<Rule>) returns (r: Run)
    requires u != v
    requires var (first, second) := (NextName({}, home(u)), NextName({NextName({}, home(u))}, home(v)));
      home(v) == home(first) == home(second)
    ensures IsRun(r) && Along(r, rules) && IsDeadlock(r.state, 3, 2)
  {
    var first, second := NextName({}, home(u)), NextName({NextName({}, home(u))}, home(v));
    var r1 := Opens(home, {u, v}, u, key, rules);
    assert r1.state.chats.Keys == {first};
    var r2 := CreatesAndFiles(r1, rules, 1, {}, v, second, key, 1);
    BothOwn(r1.state, r2.state, u, v, first, second, key);
    r := LeavesOwn(r2, rules, u, v, first, second, key);
    r := Crosses(r, rules, u, v, first, second, key);
  }

  /** Each has a chat. */
  ghost predicate HaveTheirOwn(s: State, u: UserID, v: UserID, first: ChatID, second: ChatID, key: string) {
    && u != v && s.sessions.Keys == s.clients.Keys == {u, v} && first != second
    && s.rooms.Keys == {0, 1} && s.rooms[0].members == {u} && first in s.chats
    && HasEntry(s, u, first, 0) && s.Shows(u, first) && s.clients[u][first] == View({u}, key, 0, [], [])
  }

  lemma BothOwn(s: State, s': State, u: UserID, v: UserID, first: ChatID, second: ChatID, key: string)
    requires HasOpened(s, {u, v}, u, first, key) && u != v && IsFiled(s, s', 1, v, second, key, 1)
    requires second == NextName({first}, s.home(v))
    ensures HaveTheirOwn(s', u, v, first, second, key) && AllEnded(s', 2)
    ensures s'.rooms[1].members == {v} && HasEntry(s', v, second, 1) && s'.Shows(v, second)
  {}

  lemma {:induction false} LeavesOwn(r: Run, rules: set<Rule>, u: UserID, v: UserID, first: ChatID, second: ChatID, key: string)
    returns (r': Run)
    requires Obedient(r, rules) && HaveTheirOwn(r.state, u, v, first, second, key) && AllEnded(r.state, 2)
    requires r.state.rooms[1].members == {v} && HasEntry(r.state, v, second, 1) && r.state.Shows(v, second)
    ensures Obedient(r', rules) && HaveTheirOwn(r'.state, u, v, first, second, key) && r'.state.home == r.state.home
    ensures OnlyActive(r'.state, 3, {v}) && 2 in r'.state.threads && 3 !in r'.state.threads
    ensures r'.state.threads[2].user == v && r'.state.threads[2].op == Leave(second) && r'.state.threads[2].at.Unlisting?
  {
    var r1 := Asks(r, rules, 2, v, Leave(second));
    r' := Empties(r1, rules, 2, {}, 1);
  }

  lemma {:induction false} Crosses(r: Run, rules: set<Rule>, u: UserID, v: UserID, first: ChatID, second: ChatID, key: string)
    returns (r': Run)
    requires Obedient(r, rules) && HaveTheirOwn(r.state, u, v, first, second, key)
    requires OnlyActive(r.state, 3, {v}) && 2 in r.state.threads && 3 !in r.state.threads
    requires r.state.threads[2].user == v && r.state.threads[2].op == Leave(second) && r.state.threads[2].at.Unlisting?
    requires r.state.home(v) == r.state.home(first) == r.state.home(second)
    ensures Obedient(r', rules) && IsDeadlock(r'.state, 3, 2)
  {
    MayAsk(r.state, u, v, first, second, key);
    var r1 := AsksAndEnters(r, rules, 3, {v}, u, Invite(first, v, key, 0), 0);
    MayCheck(r.state, r1.state, u, v, first, second, key);
    var r2 := ChecksIn(r1, rules, 3, {v}, 0);
    OthersHoldNothing(r2.state, 3, {v}, ChatsLock(r2.state.home(first)));
    r' := InviteStep(r2, rules, TakeChats(3), DoTakeChats(r2.state, 3));
    AreCrossed(r.state, r1.state, r2.state, u, v, first, second, key);
  }

  lemma MayAsk(s: State, u: UserID, v: UserID, first: ChatID, second: ChatID, key: string)
    requires HaveTheirOwn(s, u, v, first, second, key) && 3 !in s.threads
    ensures CanBegin(s, 3, u, Invite(first, v, key, 0)) && Found(s, u, first) == Some(0)
  {}

  lemma MayCheck(s: State, s1: State, u: UserID, v: UserID, first: ChatID, second: ChatID, key: string)
    requires HaveTheirOwn(s, u, v, first, second, key) && HasEntered(s, s1, 3, u, Invite(first, v, key, 0), 0)
    ensures CanCheck(s1, 3) && v in s1.sessions && v !in s1.rooms[0].members
  {}

  lemma AreCrossed(s: State, s1: State, s2: State, u: UserID, v: UserID, first: ChatID, second: ChatID, key: string)
    requires HaveTheirOwn(s, u, v, first, second, key) && 2 in s.threads && s.home(v) == s.home(first) == s.home(second)
    requires s.threads[2].user == v && s.threads[2].op == Leave(second) && s.threads[2].at.Unlisting?
    requires HasEntered(s, s1, 3, u, Invite(first, v, key, 0), 0) && MovedTo(s1, s2, 3, NeedChats(0)) && CanTakeChats(s2, 3)
    ensures IsDeadlock(DoTakeChats(s2, 3), 3, 2)
  {}
}
