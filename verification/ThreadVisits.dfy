/** A run in which everything goes as it should, whichever servers the users are of: someone is invited, says something,
    and leaves. */
module ThreadVisits {
  import opened Wrappers
  import opened Identifiers
  import opened Threads
  import opened ThreadWalks
  import opened ThreadRaces

  /** The chat of `u`, and what its client shows of it. */
  ghost predicate IsAt(s: State, u: UserID, d: UserID, id: ChatID, key: string, members: set<UserID>, seen: seq<Change>,
                       log: seq<Receipt>) {
    && u != d && s.sessions.Keys == s.clients.Keys == s.inbox.Keys == {u, d}
    && s.rooms.Keys == {0} && s.rooms[0] == Room(id, u, key, Filed(0), members, seen, Idle)
    && s.chats.Keys == {id} && s.chats[id] == 0 && Found(s, u, id) == Some(0)
    && s.Shows(u, id) && s.clients[u][id] == View(members, key, 0, seen, log)
    && s.inbox[u] == log && s.inbox[d] == log
  }

  /** And what the client of `d` shows, who is in it, too. */
  ghost predicate IsGuest(s: State, u: UserID, d: UserID, id: ChatID, key: string, log: seq<Receipt>) {
    && Found(s, d, id) == Some(0) && s.sessions[d].leaving == None
    && s.Shows(d, id) && s.clients[d][id] == View({u, d}, key, 0, [], log)
  }

  lemma {:induction false} ComesIn(r: Run, rules: set<Rule>, u: UserID, d: UserID, id: ChatID, key: string) returns (r': Run)
    requires Obedient(r, rules) && HasOpened(r.state, {u, d}, u, id, key) && u != d
    ensures Obedient(r', rules) && AllEnded(r'.state, 2) && r'.state.home == r.state.home
    ensures IsAt(r'.state, u, d, id, key, {u, d}, [Joined(d)], []) && IsGuest(r'.state, u, d, id, key, [])
  {
    var r1 := Asks(r, rules, 1, u, Invite(id, d, key, 0));
    r' := Invites(r1, rules, 1, {}, 0);
    IsNowIn(r.state, r1.state, r'.state, u, d, id, key, ByHome(r1.state, Invite(id, d, key, 0), 0));
  }

  lemma IsNowIn(s: State, s1: State, s': State, u: UserID, d: UserID, id: ChatID, key: string, entry: Entry)
    requires HasOpened(s, {u, d}, u, id, key) && u != d && entry in {Direct(0), ByName}
    requires s1 == s.(threads := s.threads[1 := Proc(u, Invite(id, d, key, 0), NeedSession, 0, {})])
    requires IsInvited(s1, s', 1, 0, u, entry)
    ensures AllEnded(s', 2)
    ensures IsAt(s', u, d, id, key, {u, d}, [Joined(d)], []) && IsGuest(s', u, d, id, key, [])
  {
    assert {u} + {d} == {u, d} && [] + [Joined(d)] == [Joined(d)];
    BothEnded(s, s1, s', Proc(u, Invite(id, d, key, 0), NeedSession, 0, {}));
    IsNowGuest(s, s1, s', u, d, id, key, entry);
  }

  lemma BothEnded(s: State, s1: State, s': State, p: Proc)
    requires s.threads.Keys == {0} && s.threads[0].at.Finished? && s1.threads == s.threads[1 := p]
    requires OnlyMoved(s1, s', 1) && s'.threads[1].at.Finished?
    ensures AllEnded(s', 2)
  {}

  lemma IsNowGuest(s: State, s1: State, s': State, u: UserID, d: UserID, id: ChatID, key: string, entry: Entry)
    requires HasOpened(s, {u, d}, u, id, key) && u != d && entry in {Direct(0), ByName}
    requires s1 == s.(threads := s.threads[1 := Proc(u, Invite(id, d, key, 0), NeedSession, 0, {})])
    requires IsInvited(s1, s', 1, 0, u, entry)
    ensures IsGuest(s', u, d, id, key, [])
  {}

  /** The message is with both. */
  lemma {:induction false} Says(r: Run, rules: set<Rule>, u: UserID, d: UserID, id: ChatID, key: string, text: string)
    returns (r': Run, m: Receipt)
    requires Obedient(r, rules) && AllEnded(r.state, 2)
    requires IsAt(r.state, u, d, id, key, {u, d}, [Joined(d)], []) && IsGuest(r.state, u, d, id, key, [])
    ensures Obedient(r', rules) && AllEnded(r'.state, 3) && r'.state.home == r.state.home
    ensures m.sender == d && m.id == id && m.text == text
    ensures IsAt(r'.state, u, d, id, key, {u, d}, [Joined(d)], [m]) && IsGuest(r'.state, u, d, id, key, [m])
  {
    var r1 := Asks(r, rules, 2, d, Send(id, text));
    var r2 := Sends(r1, rules, 2, {}, 0);
    m := Receipt(d, r2.state.threads[2].turn, id, text);
    IsNowSaying(r.state, r1.state, r2.state, u, d, id, key, text);
    IsNowSaid(r2.state, u, d, id, key, m);
    r' := SendStep(r2, rules, Deliver(2, u), DoDeliver(r2.state, 2, u));
    r' := SendStep(r', rules, Deliver(2, d), DoDeliver(r'.state, 2, d));
    r' := Releases(r', rules, 2);
  }

  /** The message is on its way to both. */
  ghost predicate IsSaying(s: State, u: UserID, d: UserID, id: ChatID, key: string, m: Receipt) {
    && IsAt(s, u, d, id, key, {u, d}, [Joined(d)], []) && IsGuest(s, u, d, id, key, [])
    && (forall t :: t in s.threads ==> t < 3 && (t != 2 ==> s.threads[t].at.Finished?))
    && 2 in s.threads && s.threads[2].user == d && s.threads[2].op == Send(id, m.text) && s.threads[2].at == Fanning(0, {u, d})
    && m == Receipt(d, s.threads[2].turn, id, m.text)
  }

  lemma IsNowSaying(s: State, s1: State, s2: State, u: UserID, d: UserID, id: ChatID, key: string, text: string)
    requires AllEnded(s, 2) && IsAt(s, u, d, id, key, {u, d}, [Joined(d)], []) && IsGuest(s, u, d, id, key, [])
    requires s1 == s.(threads := s.threads[2 := Proc(d, Send(id, text), NeedSession, 0, {})])
    requires IsSending(s1, s2, 2, 0)
    ensures s2.home == s.home && IsSaying(s2, u, d, id, key, Receipt(d, s2.threads[2].turn, id, text))
  {}

  lemma IsNowSaid(s: State, u: UserID, d: UserID, id: ChatID, key: string, m: Receipt)
    requires IsSaying(s, u, d, id, key, m)
    ensures CanDeliver(s, 2, u)
    ensures var s1 := DoDeliver(s, 2, u); CanDeliver(s1, 2, d) && CanRelease(DoDeliver(s1, 2, d), 2)
    ensures var s2 := DoRelease(DoDeliver(DoDeliver(s, 2, u), 2, d), 2);
      && AllEnded(s2, 3) && s2.home == s.home
      && IsAt(s2, u, d, id, key, {u, d}, [Joined(d)], [m]) && IsGuest(s2, u, d, id, key, [m])
  {
    assert {u, d} - {u} - {d} == {} && [] + [m] == [m];
  }

  lemma {:induction false} Goes(r: Run, rules: set<Rule>, u: UserID, d: UserID, id: ChatID, key: string, m: Receipt) returns (r': Run)
    requires Obedient(r, rules) && AllEnded(r.state, 3)
    requires IsAt(r.state, u, d, id, key, {u, d}, [Joined(d)], [m]) && IsGuest(r.state, u, d, id, key, [m])
    ensures Obedient(r', rules) && AllEnded(r'.state, 4) && r'.state.home == r.state.home
    ensures IsAt(r'.state, u, d, id, key, {u}, [Joined(d), Left(d)], [m]) && HasNoEntry(r'.state, d, id)
  {
    var r1 := AsksAndEnters(r, rules, 3, {}, d, Leave(id), 0);
    var r2 := PartsTelling(r1, rules, 3, {}, 0, u);
    IsNowGoing(r.state, r1.state, r2.state, u, d, id, key, m);
    r' := Tests(r2, rules, 3);
    r' := Forgets(r', rules, 3);
    r' := Releases(r', rules, 3);
    r' := Closes(r', rules, 3, d, id);
    IsNowGone(r2.state, u, d, id, key, m);
  }

  /** The guest is out; its session and its client have yet to forget the chat. */
  ghost predicate IsOnItsWay(s: State, u: UserID, d: UserID, id: ChatID, key: string, m: Receipt) {
    && IsAt(s, u, d, id, key, {u}, [Joined(d), Left(d)], [m])
    && (forall t :: t in s.threads ==> t < 4 && (t != 3 ==> s.threads[t].at.Finished?))
    && 3 in s.threads && s.threads[3].user == d && s.threads[3].op == Leave(id) && s.threads[3].at == Testing(0)
  }

  lemma IsNowGoing(s: State, s1: State, s2: State, u: UserID, d: UserID, id: ChatID, key: string, m: Receipt)
    requires AllEnded(s, 3) && IsAt(s, u, d, id, key, {u, d}, [Joined(d)], [m])
    requires HasEntered(s, s1, 3, d, Leave(id), 0) && IsOut(s1, s2, 3, 0, Testing(0)) && OnlyTold(s1, s2, u, id, d)
    ensures IsOnItsWay(s2, u, d, id, key, m)
  {
    assert {u, d} - {d} == {u} && [Joined(d)] + [Left(d)] == [Joined(d), Left(d)];
  }

  lemma IsNowGone(s: State, u: UserID, d: UserID, id: ChatID, key: string, m: Receipt)
    requires IsOnItsWay(s, u, d, id, key, m)
    ensures CanTestEmpty(s, 3) && CanForget(DoTestEmpty(s, 3), 3)
    ensures var s1 := DoForget(DoTestEmpty(s, 3), 3);
      && CanRelease(s1, 3) && CanClose(DoRelease(s1, 3), 3) && ClosesLeft(DoRelease(s1, 3), 3)
      && AllEnded(DoClose(DoRelease(s1, 3), 3), 4) && HasNoEntry(DoClose(DoRelease(s1, 3), 3), d, id)
      && IsAt(DoClose(DoRelease(s1, 3), 3), u, d, id, key, {u}, [Joined(d), Left(d)], [m])
  {}

  /** A user opens a chat and invites another, of the same server or of any other; the guest says something, which both
      see; and the guest leaves. Whatever rules there are, all are obeyed, and all that remains of the visit is what the first
      user has seen. */
  lemma Visit(home: string -> Host, u: UserID, d: UserID, key: string, text: string, rules: set<Rule>)
    returns (r: Run, m: Receipt)
    requires u != d
    ensures IsRun(r) && Along(r, rules) && r.state.home == home && AllEnded(r.state, 4)
    ensures m.sender == d && m.id == NextName({}, home(u)) && m.text == text
    ensures IsAt(r.state, u, d, NextName({}, home(u)), key, {u}, [Joined(d), Left(d)], [m])
    ensures HasNoEntry(r.state, d, NextName({}, home(u)))
  {
    r := Opens(home, {u, d}, u, key, rules);
    r, m := Visits(r, rules, u, d, NextName({}, home(u)), key, text);
  }

  lemma {:induction false} Visits(r: Run, rules: set<Rule>, u: UserID, d: UserID, id: ChatID, key: string, text: string)
    returns (r': Run, m: Receipt)
    requires Obedient(r, rules) && HasOpened(r.state, {u, d}, u, id, key) && u != d
    ensures Obedient(r', rules) && r'.state.home == r.state.home && AllEnded(r'.state, 4)
    ensures m.sender == d && m.id == id && m.text == text
    ensures IsAt(r'.state, u, d, id, key, {u}, [Joined(d), Left(d)], [m]) && HasNoEntry(r'.state, d, id)
  {
    r' := ComesIn(r, rules, u, d, id, key);
    r', m := Says(r', rules, u, d, id, key, text);
    r' := Goes(r', rules, u, d, id, key, m);
  }
}
