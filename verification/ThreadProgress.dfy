/** When a thread can go on: exactly if nobody holds the mutex that it needs next and the client that it calls next takes
    the call. */
module ThreadProgress {
  import opened Identifiers
  import opened Threads
  import opened ThreadSafety
  import opened ThreadRuns

  /** The next step of the thread takes the mutex, or for some the chats of a server that hold it are looked at. */
  ghost predicate Needs(s: State, t: Tid, lock: Lock) {
    && t in s.threads
    && var p := s.threads[t];
       match p.at
       case NeedName => lock == ChatsLock(s.home(p.user))
       case Owning(_) => lock == SessionLock(p.user)
       case NeedSession => lock == SessionLock(p.user)
       case HasSession =>
         && !p.op.Open? && p.user in s.sessions && p.op.id in s.sessions[p.user].entries
         && s.sessions[p.user].entries[p.op.id].ByName? && lock == ChatsLock(s.home(p.op.id))
       case NeedRoom(o) => lock == RoomLock(o)
       case NeedSessions(_) => p.op.Invite? && lock == SessionsLock(s.home(p.op.invitee))
       case NeedChats(_) => p.op.Invite? && GuestIsLocal(s, p) && lock == ChatsLock(s.home(p.op.id))
       case NeedInvitee(_) => p.op.Invite? && lock == SessionLock(p.op.invitee)
       case Unlisting(_) => p.op.Leave? && lock == ChatsLock(s.home(p.op.id))
       case _ => false
  }

  ghost predicate IsKeptOut(s: State, t: Tid) {
    exists lock :: Needs(s, t, lock) && !s.IsFree(lock)
  }

  /** The invited user's client has the chat already, or of those yet to be told of a join or leave nobody's client has
      it. */
  ghost predicate IsRefused(s: State, t: Tid) {
    && t in s.threads
    && var p := s.threads[t];
       match p.at
       case Calling(_) => p.op.Invite? && s.Shows(p.op.invitee, p.op.id)
       case Spreading(o) =>
         && o in s.rooms && s.rooms[o].busy.Telling? && s.rooms[o].busy.todo != {}
         && forall u :: u in s.rooms[o].busy.todo ==> !s.Shows(u, s.rooms[o].id)
       case _ => false
  }

  ghost predicate CanMove(s: State, t: Tid) {
    exists a: Action, s': State :: a.t == t && Next(s, a, s')
  }

  // ----- Whoever has a session has a client -----

  ghost predicate ReachesAt(s: State, t: Tid) {
    t in s.threads && s.threads[t].at.Fanning? ==> s.threads[t].at.todo <= s.sessions.Keys
  }

  ghost predicate Known(s: State) {
    s.clients.Keys == s.sessions.Keys == s.inbox.Keys && forall t :: ReachesAt(s, t)
  }

  ghost predicate SameKeys(s: State, s': State) {
    s'.clients.Keys == s.clients.Keys && s'.sessions.Keys == s.sessions.Keys && s'.inbox.Keys == s.inbox.Keys
  }

  lemma OpenKnown(s: State, a: Action, s': State)
    requires Known(s) && OpenNext(s, a, s')
    ensures SameKeys(s, s') && forall t :: ReachesAt(s', t)
  {
    forall t ensures ReachesAt(s', t) { assert ReachesAt(s, t); }
  }

  lemma SendKnown(s: State, a: Action, s': State)
    requires Known(s) && SendNext(s, a, s')
    requires a.Snapshot? ==> forall o, u :: MemberAt(s, o, u)
    ensures SameKeys(s, s') && forall t :: ReachesAt(s', t)
  {
    forall t
      ensures ReachesAt(s', t)
    {
      assert ReachesAt(s, t);
      if a.Snapshot? {
        forall u | u in s.rooms[s.threads[a.t].at.room].members
          ensures u in s.sessions
        {
          assert MemberAt(s, s.threads[a.t].at.room, u);
        }
      }
    }
  }

  lemma InviteKnown(s: State, a: Action, s': State)
    requires Known(s) && InviteNext(s, a, s')
    ensures SameKeys(s, s') && forall t :: ReachesAt(s', t)
  {
    forall t ensures ReachesAt(s', t) { assert ReachesAt(s, t); }
  }

  lemma LeaveKnown(s: State, a: Action, s': State)
    requires Known(s) && LeaveNext(s, a, s')
    ensures SameKeys(s, s') && forall t :: ReachesAt(s', t)
  {
    forall t ensures ReachesAt(s', t) { assert ReachesAt(s, t); }
  }

  lemma NextKnown(s: State, a: Action, s': State)
    requires Inv(s) && Known(s) && Next(s, a, s')
    ensures Known(s')
  {
    if OpenNext(s, a, s') {
      OpenKnown(s, a, s');
    } else if SendNext(s, a, s') {
      SendKnown(s, a, s');
    } else if InviteNext(s, a, s') {
      InviteKnown(s, a, s');
    } else {
      LeaveKnown(s, a, s');
    }
  }

  lemma {:induction false} RunKnown(r: Run)
    requires IsRun(r) && Along(r, {UnlistEmpty})
    ensures Known(r.state)
  {
    match r
    case Start(_) =>
    case Then(before, a, s) =>
      RunKnown(before);
      RunPlaced(before);
      NextKnown(before.state, a, s);
  }

  // ----- Steps -----

  lemma FreshRoom(rooms: set<RoomRef>) returns (o: RoomRef)
    ensures o !in rooms && forall q :: q in rooms ==> q < o
  {
    if rooms == {} {
      o := 0;
    } else {
      var q :| q in rooms;
      var o1 := FreshRoom(rooms - {q});
      o := if q < o1 then o1 else q + 1;
      assert forall q1 :: q1 in rooms ==> q1 == q || q1 in rooms - {q};
    }
  }

  lemma ByOpen(s: State, a: Action, s': State)
    requires OpenNext(s, a, s')
    ensures CanMove(s, a.t)
  {
    assert Next(s, a, s');
  }

  lemma BySend(s: State, a: Action, s': State)
    requires SendNext(s, a, s')
    ensures CanMove(s, a.t)
  {
    assert Next(s, a, s');
  }

  lemma ByInvite(s: State, a: Action, s': State)
    requires InviteNext(s, a, s')
    ensures CanMove(s, a.t)
  {
    assert Next(s, a, s');
  }

  lemma ByLeave(s: State, a: Action, s': State)
    requires LeaveNext(s, a, s')
    ensures CanMove(s, a.t)
  {
    assert Next(s, a, s');
  }

  lemma OpenMoves(s: State, t: Tid)
    requires ThreadAt(s, t) && Known(s) && t in s.threads && s.threads[t].op.Open? && !s.threads[t].at.Finished?
    requires !IsKeptOut(s, t)
    ensures CanMove(s, t)
  {
    var p := s.threads[t];
    match p.at
    case NeedName =>
      assert Needs(s, t, ChatsLock(s.home(p.user)));
      var o := FreshRoom(s.rooms.Keys);
      ByOpen(s, ListChat(t, o), DoListChat(s, t, o));
    case Owning(_) =>
      assert Needs(s, t, SessionLock(p.user));
      ByOpen(s, OwnChat(t), DoOwnChat(s, t));
    case Filing(_) =>
      ByOpen(s, FileChat(t), DoFileChat(s, t));
  }

  lemma EnterMoves(s: State, t: Tid)
    requires ThreadAt(s, t) && t in s.threads && !IsKeptOut(s, t)
    requires s.threads[t].at.NeedSession? || s.threads[t].at.HasSession? || s.threads[t].at.NeedRoom?
    ensures CanMove(s, t)
  {
    var p := s.threads[t];
    match p.at
    case NeedSession =>
      assert Needs(s, t, SessionLock(p.user));
      BySend(s, TakeSession(t), DoTakeSession(s, t));
    case HasSession =>
      assert Needs(s, t, ChatsLock(s.home(p.op.id))) || CanFind(s, t);
      BySend(s, Find(t), DoFind(s, t));
    case NeedRoom(o) =>
      assert Needs(s, t, RoomLock(o));
      BySend(s, TakeRoom(t), DoTakeRoom(s, t));
  }

  lemma SendMoves(s: State, t: Tid)
    requires ThreadAt(s, t) && Known(s) && t in s.threads && s.threads[t].op.Send?
    requires s.threads[t].at.HasRoom? || s.threads[t].at.Fanning?
    ensures CanMove(s, t)
  {
    assert ReachesAt(s, t);
    var p := s.threads[t];
    if p.at.HasRoom? {
      BySend(s, Snapshot(t), DoSnapshot(s, t));
    } else if p.at.todo == {} {
      BySend(s, Release(t), DoRelease(s, t));
    } else {
      var to :| to in p.at.todo;
      BySend(s, Deliver(t, to), DoDeliver(s, t, to));
    }
  }

  lemma InviteMoves(s: State, t: Tid)
    requires ThreadAt(s, t) && Known(s) && t in s.threads && s.threads[t].op.Invite? && !IsKeptOut(s, t) && !IsRefused(s, t)
    requires InRoom(s.threads[t].at) && !s.threads[t].at.Spreading?
    requires KeptAt(s, s.threads[t].at.room) && BusyAt(s, s.threads[t].at.room)
    ensures CanMove(s, t)
  {
    var p := s.threads[t];
    match p.at
    case HasRoom(_) =>
      ByInvite(s, Check(t), DoCheck(s, t));
    case NeedSessions(_) =>
      assert Needs(s, t, SessionsLock(s.home(p.op.invitee)));
      ByInvite(s, TakeSessions(t), DoTakeSessions(s, t));
    case NeedChats(_) =>
      assert GuestIsLocal(s, p) ==> Needs(s, t, ChatsLock(s.home(p.op.id)));
      ByInvite(s, TakeChats(t), DoTakeChats(s, t));
    case NeedInvitee(_) =>
      assert Needs(s, t, SessionLock(p.op.invitee));
      ByInvite(s, TakeInvitee(t), DoTakeInvitee(s, t));
    case HasInvitee(o) =>
      ByInvite(s, EnterInvitee(t), DoEnterInvitee(s, t));
    case Calling(o) =>
      ByInvite(s, CallInvitee(t), DoCallInvitee(s, t));
  }

  lemma TellMoves(s: State, t: Tid)
    requires ThreadAt(s, t) && t in s.threads && s.threads[t].at.Spreading? && !IsRefused(s, t)
    ensures CanMove(s, t)
  {
    var room := s.rooms[s.threads[t].at.room];
    if room.busy.todo == {} {
      ByLeave(s, EndTelling(t), DoEndTelling(s, t));
    } else {
      var to :| to in room.busy.todo && s.Shows(to, room.id);
      ByLeave(s, Tell(t, to), DoTell(s, t, to));
    }
  }

  lemma LeaveMoves(s: State, t: Tid)
    requires ThreadAt(s, t) && Known(s) && t in s.threads && s.threads[t].op.Leave?
    requires s.threads[t].at.HasRoom? || s.threads[t].at.Testing?
    ensures CanMove(s, t)
  {
    if s.threads[t].at.HasRoom? {
      ByLeave(s, Part(t), DoPart(s, t));
    } else {
      ByLeave(s, TestEmpty(t), DoTestEmpty(s, t));
    }
  }

  lemma ForgetMoves(s: State, t: Tid)
    requires ThreadAt(s, t) && Known(s) && t in s.threads && s.threads[t].op.Leave? && !IsKeptOut(s, t)
    requires s.threads[t].at.Unlisting? || s.threads[t].at.Forgetting? || s.threads[t].at.Closing?
    ensures CanMove(s, t)
  {
    var p := s.threads[t];
    match p.at
    case Unlisting(_) =>
      assert Needs(s, t, ChatsLock(s.home(p.op.id)));
      ByLeave(s, Unlist(t), DoUnlist(s, t));
    case Forgetting =>
      ByLeave(s, Forget(t), DoForget(s, t));
    case Closing =>
      ByLeave(s, Close(t), DoClose(s, t));
  }

  lemma Moves(s: State, t: Tid)
    requires Inv(s) && Known(s) && t in s.threads && !s.threads[t].at.Finished? && !IsKeptOut(s, t) && !IsRefused(s, t)
    ensures CanMove(s, t)
  {
    Knows(s, t);
    var p := s.threads[t];
    if p.op.Open? {
      OpenMoves(s, t);
    } else if p.at.NeedSession? || p.at.HasSession? || p.at.NeedRoom? {
      EnterMoves(s, t);
    } else if p.at.Releasing? {
      BySend(s, Release(t), DoRelease(s, t));
    } else if p.at.Spreading? {
      TellMoves(s, t);
    } else if p.op.Send? {
      SendMoves(s, t);
    } else if p.op.Invite? {
      KnowsRoom(s, p.at.room);
      InviteMoves(s, t);
    } else if p.at.HasRoom? || p.at.Testing? {
      LeaveMoves(s, t);
    } else {
      ForgetMoves(s, t);
    }
  }

  lemma OpenStands(s: State, t: Tid, a: Action, s': State)
    requires t in s.threads && a.t == t && OpenNext(s, a, s')
    ensures !s.threads[t].at.Finished? && !IsRefused(s, t) && !IsKeptOut(s, t)
  {}

  lemma SendStands(s: State, t: Tid, a: Action, s': State)
    requires t in s.threads && a.t == t && SendNext(s, a, s')
    ensures !s.threads[t].at.Finished? && !IsRefused(s, t) && !IsKeptOut(s, t)
  {}

  lemma InviteStands(s: State, t: Tid, a: Action, s': State)
    requires t in s.threads && a.t == t && InviteNext(s, a, s')
    ensures !s.threads[t].at.Finished? && !IsRefused(s, t) && !IsKeptOut(s, t)
  {}

  lemma LeaveStands(s: State, t: Tid, a: Action, s': State)
    requires t in s.threads && a.t == t && LeaveNext(s, a, s')
    ensures !s.threads[t].at.Finished? && !IsRefused(s, t) && !IsKeptOut(s, t)
  {}

  lemma Stands(s: State, t: Tid, a: Action, s': State)
    requires t in s.threads && a.t == t && Next(s, a, s')
    ensures !s.threads[t].at.Finished? && !IsRefused(s, t) && !IsKeptOut(s, t)
  {
    if OpenNext(s, a, s') {
      OpenStands(s, t, a, s');
    } else if SendNext(s, a, s') {
      SendStands(s, t, a, s');
    } else if InviteNext(s, a, s') {
      InviteStands(s, t, a, s');
    } else {
      LeaveStands(s, t, a, s');
    }
  }

  /** In every run a thread that has not ended can go on exactly if nobody holds the mutex that it needs next, and the
      client that it calls next takes the call. */
  lemma GoesOn(r: Run, t: Tid)
    requires IsRun(r) && Along(r, {UnlistEmpty}) && t in r.state.threads
    ensures CanMove(r.state, t) <==> !r.state.threads[t].at.Finished? && !IsKeptOut(r.state, t) && !IsRefused(r.state, t)
  {
    RunPlaced(r);
    RunKnown(r);
    if CanMove(r.state, t) {
      var a: Action, s': State :| a.t == t && Next(r.state, a, s');
      Stands(r.state, t, a, s');
    } else if !r.state.threads[t].at.Finished? && !IsKeptOut(r.state, t) && !IsRefused(r.state, t) {
      Moves(r.state, t);
    }
  }

  // ----- All threads together -----

  ghost predicate SomeMove(s: State) {
    exists t :: t in s.threads && CanMove(s, t)
  }

  /** No client refuses a call, and no invitation is kept out of the session of the user that it invites: that is the one
      mutex that is taken out of turn. */
  ghost predicate IsSmooth(s: State) {
    forall t :: t in s.threads ==> !IsRefused(s, t) && !(s.threads[t].at.NeedInvitee? && IsKeptOut(s, t))
  }

  lemma MovesOrWaits(s: State, t: Tid)
    requires Inv(s) && Known(s) && IsSmooth(s) && t in s.threads && !s.threads[t].at.Finished?
    ensures SomeMove(s) || (IsKeptOut(s, t) && !s.threads[t].at.NeedInvitee?)
  {
    if !IsKeptOut(s, t) {
      Moves(s, t);
    }
  }

  lemma ChatsHeld(s: State, host: Host)
    requires Inv(s) && Known(s) && IsSmooth(s) && !s.IsFree(ChatsLock(host))
    ensures SomeMove(s)
  {
    var t :| t in s.threads && Holds(s.home, s.threads[t], ChatsLock(host));
    MovesOrWaits(s, t);
  }

  lemma SessionsHeld(s: State, host: Host)
    requires Inv(s) && Known(s) && IsSmooth(s) && !s.IsFree(SessionsLock(host))
    ensures SomeMove(s)
  {
    var t :| t in s.threads && Holds(s.home, s.threads[t], SessionsLock(host));
    MovesOrWaits(s, t);
    if !SomeMove(s) {
      ChatsHeld(s, s.home(s.threads[t].op.id));
    }
  }

  lemma RoomHeld(s: State, o: RoomRef)
    requires Inv(s) && Known(s) && IsSmooth(s) && !s.IsFree(RoomLock(o))
    ensures SomeMove(s)
  {
    var t :| t in s.threads && Holds(s.home, s.threads[t], RoomLock(o));
    MovesOrWaits(s, t);
    if !SomeMove(s) {
      var lock :| Needs(s, t, lock) && !s.IsFree(lock);
      if lock.ChatsLock? {
        ChatsHeld(s, lock.host);
      } else {
        SessionsHeld(s, lock.host);
      }
    }
  }

  lemma SessionHeld(s: State, user: UserID)
    requires Inv(s) && Known(s) && IsSmooth(s) && !s.IsFree(SessionLock(user))
    ensures SomeMove(s)
  {
    var t :| t in s.threads && Holds(s.home, s.threads[t], SessionLock(user));
    MovesOrWaits(s, t);
    if !SomeMove(s) {
      var lock :| Needs(s, t, lock) && !s.IsFree(lock);
      match lock
      case ChatsLock(host) => ChatsHeld(s, host);
      case SessionsLock(host) => SessionsHeld(s, host);
      case RoomLock(o) => RoomHeld(s, o);
      case SessionLock(_) =>
    }
  }

  /** In every run: as long as any thread has not ended some thread can go on, unless a client refuses a call or an
      invitation waits for the session of the user that it invites. */
  lemma SomeoneGoesOn(r: Run, t: Tid)
    requires IsRun(r) && Along(r, {UnlistEmpty}) && t in r.state.threads && !r.state.threads[t].at.Finished?
    requires IsSmooth(r.state)
    ensures SomeMove(r.state)
  {
    RunPlaced(r);
    RunKnown(r);
    MovesOrWaits(r.state, t);
    if !SomeMove(r.state) {
      var lock :| Needs(r.state, t, lock) && !r.state.IsFree(lock);
      match lock
      case ChatsLock(host) => ChatsHeld(r.state, host);
      case SessionsLock(host) => SessionsHeld(r.state, host);
      case RoomLock(o) => RoomHeld(r.state, o);
      case SessionLock(user) => SessionHeld(r.state, user);
    }
  }
}
