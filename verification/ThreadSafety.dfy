/** What every step of every interleaving keeps of rooms, maps, sessions and threads, as long as removeChat removes a
    chat without participants, and only as long as it does. */
module ThreadSafety {
  import opened Wrappers
  import opened Identifiers
  import opened Threads

  // ----- The invariant, each clause a predicate of what it is about -----

  /** Two threads never hold one mutex. */
  ghost predicate ExclusiveAt(s: State, t1: Tid, t2: Tid, lock: Lock) {
    t1 in s.threads && t2 in s.threads && Holds(s.home, s.threads[t1], lock) && Holds(s.home, s.threads[t2], lock) ==> t1 == t2
  }

  /** A room with members is the one in its server's map. */
  ghost predicate KeptAt(s: State, o: RoomRef) {
    o in s.rooms && s.rooms[o].members != {} ==> s.rooms[o].id in s.chats && s.chats[s.rooms[o].id] == o
  }

  ghost predicate ListedAt(s: State, id: ChatID) {
    id in s.chats ==> s.chats[id] in s.rooms && s.rooms[s.chats[id]].id == id
  }

  ghost predicate LeadsTo(s: State, user: UserID, id: ChatID, o: RoomRef) {
    user in s.sessions && id in s.sessions[user].entries && s.sessions[user].entries[id] in {Direct(o), ByName}
  }

  /** A member's session leads to the room, once its creation has come that far. */
  ghost predicate MemberAt(s: State, o: RoomRef, user: UserID) {
    o in s.rooms && user in s.rooms[o].members ==>
      user in s.sessions && (s.rooms[o].stage.Listed? || LeadsTo(s, user, s.rooms[o].id, o))
  }

  ghost predicate Belongs(s: State, o: RoomRef, user: UserID, id: ChatID) {
    && o in s.rooms && s.rooms[o].id == id && !s.rooms[o].stage.Listed?
    && (user in s.rooms[o].members || s.rooms[o].Guest() == Some(user))
  }

  ghost predicate IsLeaving(s: State, user: UserID, id: ChatID) {
    user in s.sessions && s.sessions[user].leaving.Some? && s.sessions[user].leaving.value.1 == id
  }

  /** A session that leads to a chat is that of a member, of a user being invited, or of one being taken out. */
  ghost predicate EntryAt(s: State, user: UserID, id: ChatID) {
    user in s.sessions && id in s.sessions[user].entries ==>
      match s.sessions[user].entries[id]
      case Direct(o) => o in s.rooms && s.rooms[o].id == id && (Belongs(s, o, user, id) || IsLeaving(s, user, id))
      case ByName => (id in s.chats && Belongs(s, s.chats[id], user, id)) || IsLeaving(s, user, id)
  }

  ghost predicate LeavingAt(s: State, user: UserID) {
    user in s.sessions && s.sessions[user].leaving.Some? ==>
      var (t, id) := s.sessions[user].leaving.value;
      && t in s.threads && s.threads[t].user == user && s.threads[t].op == Leave(id) && Departing(s.threads[t].at)
      && id in s.sessions[user].entries
  }

  ghost predicate Departing(at: Point) {
    at.Spreading? || at.Testing? || at.Unlisting? || at.Forgetting?
  }

  /** Until its session has forgotten the chat, a user who was taken out does not come back in. */
  ghost predicate OutAt(s: State, o: RoomRef, user: UserID) {
    o in s.rooms && IsLeaving(s, user, s.rooms[o].id) ==>
      (user in s.rooms[o].members ==> s.rooms[o].stage.Listed?) && s.rooms[o].Guest() != Some(user)
  }

  /** A room that is only in the map has only its creator; a busy one has a thread at work in it. */
  ghost predicate BusyAt(s: State, o: RoomRef) {
    o in s.rooms ==>
      var room := s.rooms[o];
      && (room.stage.Listed? ==> room.members == {room.creator} && room.history == [] && room.busy.Idle?)
      && match room.busy
         case Idle => true
         case Expecting(t, guest) => Works(s, t, Calling(o), room.id) && IsInviting(s, t, o, guest)
         case Telling(t, Joined(guest), todo) =>
           Works(s, t, Spreading(o), room.id) && IsInviting(s, t, o, guest) && todo <= room.members
         case Telling(t, Left(who), todo) =>
           && Works(s, t, Spreading(o), room.id) && s.threads[t].op.Leave? && s.threads[t].user == who
           && who !in room.members && todo <= room.members
  }

  ghost predicate Works(s: State, t: Tid, at: Point, id: ChatID) {
    t in s.threads && s.threads[t].at == at && !s.threads[t].op.Open? && s.threads[t].op.id == id
  }

  ghost predicate IsInviting(s: State, t: Tid, o: RoomRef, guest: UserID)
    requires t in s.threads && o in s.rooms
  {
    && s.threads[t].op.Invite? && s.threads[t].op.invitee == guest
    && guest !in s.rooms[o].members && LeadsTo(s, guest, s.rooms[o].id, o)
  }

  /** A thread that is creating a chat, and the room it creates. */
  ghost predicate MakerAt(s: State, t: Tid) {
    t in s.threads ==>
      var p := s.threads[t];
      && (p.at.NeedName? || p.at.Owning? || p.at.Filing? ==> p.op.Open?)
      && (p.at.Owning? || p.at.Filing? ==>
            && p.at.room in s.rooms && s.rooms[p.at.room].creator == p.user && s.rooms[p.at.room].key == p.op.key
            && s.rooms[p.at.room].stage == if p.at.Owning? then Listed(t) else Entered(t))
  }

  /** What a thread's control point says of the room it works on. */
  ghost predicate ThreadAt(s: State, t: Tid) {
    t in s.threads ==>
      var p := s.threads[t];
      && p.user in s.sessions && MakerAt(s, t)
      && (p.op.Open? ==> p.at.NeedName? || p.at.Owning? || p.at.Filing? || p.at.Finished?)
      && (p.op.Invite? ==> p.op.invitee != p.user)
      && (HasTarget(p.at) ==>
            p.at.room in s.rooms && s.rooms[p.at.room].id == p.op.id && !s.rooms[p.at.room].stage.Listed?)
      && match p.at
         case NeedRoom(o) => Belongs(s, o, p.user, p.op.id)
         case HasRoom(o) => p.user in s.rooms[o].members && s.rooms[o].busy.Idle?
         case Fanning(o, todo) => p.op.Send? && p.user in s.rooms[o].members && todo <= p.snapshot
         case NeedSessions(o) => CanGoOn(s, p, o)
         case NeedChats(o) => CanGoOn(s, p, o) && p.op.invitee in s.sessions
         case NeedInvitee(o) => CanGoOn(s, p, o) && p.op.invitee in s.sessions
         case HasInvitee(o) => CanGoOn(s, p, o) && p.op.invitee in s.sessions
         case Calling(o) => p.op.Invite? && p.user in s.rooms[o].members && s.rooms[o].busy == Expecting(t, p.op.invitee)
         case Spreading(o) =>
           && (p.op.Invite? || p.op.Leave?) && s.rooms[o].busy.Telling? && s.rooms[o].busy.owner == t
           && (p.op.Invite? ==> p.user in s.rooms[o].members && s.rooms[o].busy.change == Joined(p.op.invitee))
           && (p.op.Leave? ==> s.rooms[o].busy.change == Left(p.user) && s.sessions[p.user].leaving == Some((t, p.op.id)))
         case Testing(o) => p.op.Leave? && s.sessions[p.user].leaving == Some((t, p.op.id))
         case Unlisting(o) =>
           p.op.Leave? && s.sessions[p.user].leaving == Some((t, p.op.id)) && s.rooms[o].members == {}
         case Forgetting => p.op.Leave? && s.sessions[p.user].leaving == Some((t, p.op.id))
         case Closing => p.op.Leave?
         case _ => true
  }

  ghost predicate HasTarget(at: Point) {
    InRoom(at) || at.NeedRoom? || at.Fanning? || at.Testing? || at.Unlisting?
  }

  ghost predicate CanGoOn(s: State, p: Proc, o: RoomRef)
    requires o in s.rooms
  {
    && p.op.Invite? && p.user in s.rooms[o].members && s.rooms[o].busy.Idle?
    && p.op.invitee !in s.rooms[o].members
  }

  ghost predicate RoomInv(s: State) {
    && (forall o :: KeptAt(s, o))
    && (forall c :: ListedAt(s, c))
    && (forall o, u :: MemberAt(s, o, u))
    && (forall u, c :: EntryAt(s, u, c))
    && (forall u :: LeavingAt(s, u))
    && (forall o, u :: OutAt(s, o, u))
  }

  ghost predicate BusyInv(s: State) {
    forall o :: BusyAt(s, o)
  }

  ghost predicate Exclusive(s: State) {
    forall t1, t2, l :: ExclusiveAt(s, t1, t2, l)
  }

  ghost predicate ThreadInv(s: State) {
    Exclusive(s) && forall t :: ThreadAt(s, t)
  }

  ghost predicate Inv(s: State) {
    RoomInv(s) && BusyInv(s) && ThreadInv(s)
  }

  lemma InvInitial(s: State)
    requires Initial(s)
    ensures Inv(s)
  {}

  lemma Knows(s: State, t: Tid)
    requires Inv(s)
    ensures ThreadAt(s, t)
  {}

  lemma KnowsRoom(s: State, o: RoomRef)
    requires Inv(s)
    ensures BusyAt(s, o) && KeptAt(s, o)
  {}

  // ----- Steps that move one thread and leave rooms, maps and sessions alone -----

  /** The thread is not the one at work in a room, nor taking its user out of a chat. */
  ghost predicate Bystander(at: Point) {
    !at.Calling? && !Departing(at)
  }

  /** What holding the mutexes it held, and free ones, is to a thread. */
  ghost predicate TakesOnlyFree(s: State, t: Tid, p: Proc)
    requires t in s.threads
  {
    forall l :: Holds(s.home, p, l) ==> Holds(s.home, s.threads[t], l) || s.IsFree(l)
  }

  ghost predicate SamePlaces(s: State, s': State) {
    s'.rooms == s.rooms && s'.chats == s.chats && s'.sessions == s.sessions && s'.home == s.home
  }

  /** Nothing but the control point of one thread, and what clients hold, is different. */
  ghost predicate Moved(s: State, s': State, t: Tid, p: Proc) {
    && t in s.threads && p.user == s.threads[t].user && p.op == s.threads[t].op
    && SamePlaces(s, s') && s'.threads == s.threads[t := p]
  }

  lemma MovedExclusive(s: State, s': State, t: Tid, p: Proc)
    requires t in s.threads && s'.threads == s.threads[t := p] && s'.home == s.home && TakesOnlyFree(s, t, p)
    requires Exclusive(s)
    ensures Exclusive(s')
  {
    forall t1, t2, l
      ensures ExclusiveAt(s', t1, t2, l)
    {
      assert ExclusiveAt(s, t1, t2, l);
    }
  }

  lemma MovedKeeps(s: State, s': State, t: Tid, p: Proc)
    requires Inv(s) && Moved(s, s', t, p) && TakesOnlyFree(s, t, p)
    requires Bystander(s.threads[t].at) || (Departing(s.threads[t].at) && Departing(p.at) && !s.threads[t].at.Spreading?)
    requires ThreadAt(s', t)
    ensures Inv(s')
  {
    MovedExclusive(s, s', t, p);
    forall o ensures KeptAt(s', o) && BusyAt(s', o) { assert KeptAt(s, o) && BusyAt(s, o); }
    forall c ensures ListedAt(s', c) { assert ListedAt(s, c); }
    forall o, u ensures MemberAt(s', o, u) && OutAt(s', o, u) { assert MemberAt(s, o, u) && OutAt(s, o, u); }
    forall u, c ensures EntryAt(s', u, c) { assert EntryAt(s, u, c); }
    forall u ensures LeavingAt(s', u) { assert LeavingAt(s, u); }
    forall t1 ensures ThreadAt(s', t1) { assert ThreadAt(s, t1); }
  }

  // ----- What the mutexes exclude -----

  /** Only the thread that holds the session's mutex can be taking the user out of a chat. */
  lemma LeaverHolds(s: State, t: Tid, user: UserID)
    requires Inv(s) && t in s.threads && Holds(s.home, s.threads[t], SessionLock(user))
    ensures user in s.sessions && s.sessions[user].leaving.Some? ==>
      s.sessions[user].leaving.value.0 == t && s.threads[t].user == user && Departing(s.threads[t].at)
  {
    assert LeavingAt(s, user);
    if user in s.sessions && s.sessions[user].leaving.Some? {
      assert ExclusiveAt(s, t, s.sessions[user].leaving.value.0, SessionLock(user));
    }
  }

  lemma NobodyLeavesFree(s: State, user: UserID)
    requires Inv(s)
    ensures s.IsFree(SessionLock(user)) && user in s.sessions ==> s.sessions[user].leaving == None
  {
    assert LeavingAt(s, user);
    if user in s.sessions && s.sessions[user].leaving.Some? {
      assert Holds(s.home, s.threads[s.sessions[user].leaving.value.0], SessionLock(user));
    }
  }

  /** A room whose mutex is free is not busy. */
  lemma FreeIsIdle(s: State, o: RoomRef)
    requires Inv(s) && o in s.rooms
    ensures s.IsFree(RoomLock(o)) ==> s.rooms[o].busy.Idle?
  {
    assert BusyAt(s, o);
    match s.rooms[o].busy
    case Idle =>
    case Expecting(t, _) => assert Holds(s.home, s.threads[t], RoomLock(o));
    case Telling(t, _, _) => assert Holds(s.home, s.threads[t], RoomLock(o));
  }

  // ----- Steps between data -----

  lemma BeginKeeps(s: State, t: Tid, user: UserID, op: Op)
    requires Inv(s) && CanBegin(s, t, user, op)
    ensures Inv(DoBegin(s, t, user, op))
  {
    var s' := DoBegin(s, t, user, op);
    forall t1, t2, l ensures ExclusiveAt(s', t1, t2, l) { assert ExclusiveAt(s, t1, t2, l); }
    forall o ensures KeptAt(s', o) && BusyAt(s', o) { assert KeptAt(s, o) && BusyAt(s, o); }
    forall c ensures ListedAt(s', c) { assert ListedAt(s, c); }
    forall o, u ensures MemberAt(s', o, u) && OutAt(s', o, u) { assert MemberAt(s, o, u) && OutAt(s, o, u); }
    forall u, c ensures EntryAt(s', u, c) { assert EntryAt(s, u, c); }
    forall u ensures LeavingAt(s', u) { assert LeavingAt(s, u); }
    forall t1 ensures ThreadAt(s', t1) { assert ThreadAt(s, t1); }
  }

  lemma TakeSessionKeeps(s: State, t: Tid)
    requires Inv(s) && CanTakeSession(s, t)
    ensures Inv(DoTakeSession(s, t))
  {
    Knows(s, t);
    MovedKeeps(s, DoTakeSession(s, t), t, DoTakeSession(s, t).threads[t]);
  }

  /** A session that is not taking its user out leads to a chat that the user is in, or is being invited into. */
  lemma FindsOwn(s: State, t: Tid)
    requires Inv(s) && CanFind(s, t)
    ensures var found := Found(s, s.threads[t].user, s.threads[t].op.id);
      found.Some? ==> Belongs(s, found.value, s.threads[t].user, s.threads[t].op.id)
  {
    var p := s.threads[t];
    assert EntryAt(s, p.user, p.op.id);
    LeaverHolds(s, t, p.user);
  }

  lemma FindKeeps(s: State, t: Tid)
    requires Inv(s) && CanFind(s, t)
    ensures Inv(DoFind(s, t))
  {
    FindsOwn(s, t);
    Knows(s, t);
    MovedKeeps(s, DoFind(s, t), t, DoFind(s, t).threads[t]);
  }

  lemma TakeRoomKeeps(s: State, t: Tid)
    requires Inv(s) && CanTakeRoom(s, t)
    ensures Inv(DoTakeRoom(s, t))
  {
    Knows(s, t);
    FreeIsIdle(s, s.threads[t].at.room);
    MovedKeeps(s, DoTakeRoom(s, t), t, DoTakeRoom(s, t).threads[t]);
  }

  lemma SnapshotKeeps(s: State, t: Tid)
    requires Inv(s) && CanSnapshot(s, t)
    ensures Inv(DoSnapshot(s, t))
  {
    Knows(s, t);
    MovedKeeps(s, DoSnapshot(s, t), t, DoSnapshot(s, t).threads[t]);
  }

  lemma CheckKeeps(s: State, t: Tid)
    requires Inv(s) && CanCheck(s, t)
    ensures Inv(DoCheck(s, t))
  {
    Knows(s, t);
    MovedKeeps(s, DoCheck(s, t), t, DoCheck(s, t).threads[t]);
  }

  lemma TakeSessionsKeeps(s: State, t: Tid)
    requires Inv(s) && CanTakeSessions(s, t)
    ensures Inv(DoTakeSessions(s, t))
  {
    Knows(s, t);
    MovedKeeps(s, DoTakeSessions(s, t), t, DoTakeSessions(s, t).threads[t]);
  }

  lemma TakeChatsKeeps(s: State, t: Tid)
    requires Inv(s) && CanTakeChats(s, t)
    ensures Inv(DoTakeChats(s, t))
  {
    Knows(s, t);
    MovedKeeps(s, DoTakeChats(s, t), t, DoTakeChats(s, t).threads[t]);
  }

  lemma TakeInviteeKeeps(s: State, t: Tid)
    requires Inv(s) && CanTakeInvitee(s, t)
    ensures Inv(DoTakeInvitee(s, t))
  {
    Knows(s, t);
    MovedKeeps(s, DoTakeInvitee(s, t), t, DoTakeInvitee(s, t).threads[t]);
  }

  lemma TestEmptyKeeps(s: State, t: Tid)
    requires Inv(s) && CanTestEmpty(s, t)
    ensures Inv(DoTestEmpty(s, t))
  {
    Knows(s, t);
    MovedKeeps(s, DoTestEmpty(s, t), t, DoTestEmpty(s, t).threads[t]);
  }

  lemma ReleaseKeeps(s: State, t: Tid)
    requires Inv(s) && CanRelease(s, t)
    ensures Inv(DoRelease(s, t))
  {
    Knows(s, t);
    MovedKeeps(s, DoRelease(s, t), t, DoRelease(s, t).threads[t]);
  }

  lemma CloseKeeps(s: State, t: Tid)
    requires Inv(s) && CanClose(s, t)
    ensures Inv(DoClose(s, t))
  {
    Knows(s, t);
    MovedKeeps(s, DoClose(s, t), t, DoClose(s, t).threads[t]);
  }

  lemma DeliverKeeps(s: State, t: Tid, to: UserID)
    requires Inv(s) && CanDeliver(s, t, to)
    ensures Inv(DoDeliver(s, t, to))
  {
    Knows(s, t);
    MovedKeeps(s, DoDeliver(s, t, to), t, DoDeliver(s, t, to).threads[t]);
  }

  // ----- What the steps of one thread leave alone -----

  /** What a thread relies on is still there, although another thread has moved. */
  ghost predicate StaysFor(s: State, s': State, p: Proc) {
    && s'.sessions.Keys == s.sessions.Keys
    && (p.user in s.sessions && InSession(p.at) ==> s'.sessions[p.user].leaving == s.sessions[p.user].leaving)
    && (HasTarget(p.at) && p.at.room in s.rooms ==>
          var o := p.at.room;
          && o in s'.rooms && (!s.rooms[o].stage.Listed? ==> !s'.rooms[o].stage.Listed?)
          && (s'.rooms[o] == s.rooms[o].(stage := s'.rooms[o].stage)
              || (!InRoom(p.at) && RoomStaysFor(s.rooms[o], s'.rooms[o], p.user))))
    && ((p.at.Owning? || p.at.Filing?) && p.at.room in s.rooms ==>
          var o := p.at.room;
          && o in s'.rooms && s'.rooms[o].stage == s.rooms[o].stage
          && s'.rooms[o].creator == s.rooms[o].creator && s'.rooms[o].key == s.rooms[o].key)
  }

  ghost predicate RoomStaysFor(r: Room, r': Room, user: UserID) {
    && r'.id == r.id && (user in r.members ==> user in r'.members) && (r.members == {} ==> r'.members == {})
    && (r.Guest() == Some(user) ==> r'.Guest() == Some(user) || user in r'.members)
  }

  lemma ThreadStays(s: State, s': State, t: Tid)
    requires t in s.threads && t in s'.threads && s'.threads[t] == s.threads[t]
    requires Inv(s) && StaysFor(s, s', s.threads[t])
    ensures ThreadAt(s', t)
  {
    Knows(s, t);
  }

  /** So is the room it works in. */
  ghost predicate BusyStaysIn(s: State, s': State, o: RoomRef) {
    && (o in s'.rooms ==> o in s.rooms && s'.rooms[o] == s.rooms[o])
    && (o in s.rooms && !s.rooms[o].busy.Idle? && s.rooms[o].busy.owner in s.threads ==>
          var t := s.rooms[o].busy.owner;
          t in s'.threads && s'.threads[t] == s.threads[t])
    && (o in s.rooms && s.rooms[o].Guest().Some? ==>
          var guest, id := s.rooms[o].Guest().value, s.rooms[o].id;
          LeadsTo(s, guest, id, o) ==> LeadsTo(s', guest, id, o))
  }

  lemma BusyStays(s: State, s': State, o: RoomRef)
    requires Inv(s) && BusyStaysIn(s, s', o)
    ensures BusyAt(s', o)
  {
    KnowsRoom(s, o);
  }

  /** Whoever invites is a member, so a room with a guest is the one in its server's map. */
  lemma HostIsMember(s: State, o: RoomRef)
    requires Inv(s) && o in s.rooms && s.rooms[o].Guest().Some?
    ensures s.rooms[o].members != {} && s.rooms[o].id in s.chats && s.chats[s.rooms[o].id] == o
  {
    KnowsRoom(s, o);
    Knows(s, s.rooms[o].busy.owner);
  }

  /** The threads that hold a mutex of thread `t` are `t`. */
  lemma Alone(s: State, t: Tid, t1: Tid)
    requires Inv(s) && t in s.threads && t1 in s.threads && t1 != t
    ensures InRoom(s.threads[t].at) && InRoom(s.threads[t1].at) ==> s.threads[t1].at.room != s.threads[t].at.room
    ensures InSession(s.threads[t].at) && InSession(s.threads[t1].at) ==> s.threads[t1].user != s.threads[t].user
  {
    assert !InRoom(s.threads[t].at) || ExclusiveAt(s, t, t1, RoomLock(s.threads[t].at.room));
    assert ExclusiveAt(s, t, t1, SessionLock(s.threads[t].user));
  }

  // ----- Steps that change what is stored: invite -----

  /** The invited user's session gets an entry that leads to the room, unless it has one under that ID. */
  lemma EnterInviteeEntry(s: State, t: Tid)
    requires Inv(s) && CanEnterInvitee(s, t)
    ensures var p, o := s.threads[t], s.threads[t].at.room;
      && p.op.id in s.chats && s.chats[p.op.id] == o && s.sessions[p.op.invitee].leaving == None
      && s.rooms[o].id == p.op.id && p.op.invitee !in s.rooms[o].members && p.user in s.rooms[o].members
      && s.rooms[o].busy.Idle? && !s.rooms[o].stage.Listed?
  {
    Knows(s, t);
    KnowsRoom(s, s.threads[t].at.room);
    LeaverHolds(s, t, s.threads[t].op.invitee);
  }

  lemma EnterInviteeRooms(s: State, t: Tid)
    requires Inv(s) && CanEnterInvitee(s, t) && s.threads[t].op.id !in s.sessions[s.threads[t].op.invitee].entries
    ensures RoomInv(DoEnterInvitee(s, t))
  {
    var s' := DoEnterInvitee(s, t);
    EnterInviteeEntry(s, t);
    forall q ensures KeptAt(s', q) { assert KeptAt(s, q); }
    forall c ensures ListedAt(s', c) { assert ListedAt(s, c); }
    forall q, u ensures MemberAt(s', q, u) { assert MemberAt(s, q, u); }
    forall u, c ensures EntryAt(s', u, c) { assert EntryAt(s, u, c); }
    forall u ensures LeavingAt(s', u) { assert LeavingAt(s, u); }
    forall q, u ensures OutAt(s', q, u) { assert OutAt(s, q, u); }
  }

  lemma EnterInviteeBusy(s: State, t: Tid)
    requires Inv(s) && CanEnterInvitee(s, t) && s.threads[t].op.id !in s.sessions[s.threads[t].op.invitee].entries
    ensures BusyInv(DoEnterInvitee(s, t))
  {
    var s', o := DoEnterInvitee(s, t), s.threads[t].at.room;
    EnterInviteeEntry(s, t);
    forall q
      ensures BusyAt(s', q)
    {
      KnowsRoom(s, q);
      if q != o {
        BusyStays(s, s', q);
      }
    }
  }

  lemma EnterInviteeThreads(s: State, t: Tid)
    requires Inv(s) && CanEnterInvitee(s, t) && s.threads[t].op.id !in s.sessions[s.threads[t].op.invitee].entries
    ensures ThreadInv(DoEnterInvitee(s, t))
  {
    var s' := DoEnterInvitee(s, t);
    EnterInviteeEntry(s, t);
    Knows(s, t);
    MovedExclusive(s, s', t, s'.threads[t]);
    forall t1
      ensures ThreadAt(s', t1)
    {
      if t1 in s.threads && t1 != t {
        Alone(s, t, t1);
        ThreadStays(s, s', t1);
      }
    }
  }

  lemma EnterInviteeKeeps(s: State, t: Tid)
    requires Inv(s) && CanEnterInvitee(s, t)
    ensures Inv(DoEnterInvitee(s, t))
  {
    if s.threads[t].op.id in s.sessions[s.threads[t].op.invitee].entries {
      Knows(s, t);
      MovedKeeps(s, DoEnterInvitee(s, t), t, DoEnterInvitee(s, t).threads[t]);
    } else {
      EnterInviteeRooms(s, t);
      EnterInviteeBusy(s, t);
      EnterInviteeThreads(s, t);
    }
  }

  lemma CallInviteeRooms(s: State, t: Tid)
    requires Inv(s) && CanCallInvitee(s, t)
    ensures RoomInv(DoCallInvitee(s, t))
  {
    var s', o := DoCallInvitee(s, t), s.threads[t].at.room;
    Knows(s, t);
    KnowsRoom(s, o);
    forall q ensures KeptAt(s', q) { assert KeptAt(s, q); }
    forall c ensures ListedAt(s', c) { assert ListedAt(s, c); }
    forall q, u ensures MemberAt(s', q, u) { assert MemberAt(s, q, u); }
    forall u, c ensures EntryAt(s', u, c) { assert EntryAt(s, u, c); }
    forall u ensures LeavingAt(s', u) { assert LeavingAt(s, u); }
    forall q, u ensures OutAt(s', q, u) { assert OutAt(s, q, u); }
  }

  lemma CallInviteeBusy(s: State, t: Tid)
    requires Inv(s) && CanCallInvitee(s, t)
    ensures BusyInv(DoCallInvitee(s, t))
  {
    var s', o := DoCallInvitee(s, t), s.threads[t].at.room;
    Knows(s, t);
    KnowsRoom(s, o);
    forall q
      ensures BusyAt(s', q)
    {
      KnowsRoom(s, q);
      if q != o {
        BusyStays(s, s', q);
      }
    }
  }

  lemma CallInviteeThreads(s: State, t: Tid)
    requires Inv(s) && CanCallInvitee(s, t)
    ensures ThreadInv(DoCallInvitee(s, t))
  {
    var s' := DoCallInvitee(s, t);
    Knows(s, t);
    MovedExclusive(s, s', t, s'.threads[t]);
    forall t1
      ensures ThreadAt(s', t1)
    {
      if t1 in s.threads && t1 != t {
        Alone(s, t, t1);
        ThreadStays(s, s', t1);
      }
    }
  }

  lemma CallInviteeKeeps(s: State, t: Tid)
    requires Inv(s) && CanCallInvitee(s, t)
    ensures Inv(DoCallInvitee(s, t))
  {
    CallInviteeRooms(s, t);
    CallInviteeBusy(s, t);
    CallInviteeThreads(s, t);
  }

  // ----- Steps that change what is stored: leave -----

  lemma PartRooms(s: State, t: Tid)
    requires Inv(s) && CanPart(s, t) && s.threads[t].user in s.rooms[s.threads[t].at.room].members
    ensures RoomInv(DoPart(s, t))
  {
    var s', o := DoPart(s, t), s.threads[t].at.room;
    Knows(s, t);
    KnowsRoom(s, o);
    LeaverHolds(s, t, s.threads[t].user);
    forall q ensures KeptAt(s', q) { assert KeptAt(s, q); }
    forall c ensures ListedAt(s', c) { assert ListedAt(s, c); }
    forall q, u ensures MemberAt(s', q, u) { assert MemberAt(s, q, u); }
    forall u, c ensures EntryAt(s', u, c) { assert EntryAt(s, u, c); }
    forall u
      ensures LeavingAt(s', u)
    {
      assert LeavingAt(s, u) && MemberAt(s, o, u);
    }
    forall q, u
      ensures OutAt(s', q, u)
    {
      assert OutAt(s, q, u);
      KnowsRoom(s, q);
      if q in s.rooms && s.rooms[q].Guest().Some? {
        HostIsMember(s, q);
      }
    }
  }

  lemma PartBusy(s: State, t: Tid)
    requires Inv(s) && CanPart(s, t) && s.threads[t].user in s.rooms[s.threads[t].at.room].members
    ensures BusyInv(DoPart(s, t))
  {
    var s', o := DoPart(s, t), s.threads[t].at.room;
    Knows(s, t);
    LeaverHolds(s, t, s.threads[t].user);
    forall q
      ensures BusyAt(s', q)
    {
      KnowsRoom(s, q);
      if q != o {
        BusyStays(s, s', q);
      }
    }
  }

  lemma PartThreads(s: State, t: Tid)
    requires Inv(s) && CanPart(s, t) && s.threads[t].user in s.rooms[s.threads[t].at.room].members
    ensures ThreadInv(DoPart(s, t))
  {
    var s' := DoPart(s, t);
    Knows(s, t);
    LeaverHolds(s, t, s.threads[t].user);
    MovedExclusive(s, s', t, s'.threads[t]);
    forall t1
      ensures ThreadAt(s', t1)
    {
      if t1 in s.threads && t1 != t {
        Alone(s, t, t1);
        ThreadStays(s, s', t1);
      }
    }
  }

  lemma PartKeeps(s: State, t: Tid)
    requires Inv(s) && CanPart(s, t)
    ensures Inv(DoPart(s, t))
  {
    Knows(s, t);
    PartRooms(s, t);
    PartBusy(s, t);
    PartThreads(s, t);
  }

  lemma UnlistRooms(s: State, t: Tid)
    requires Inv(s) && CanUnlist(s, t) && UnlistsEmpty(s, t)
    ensures RoomInv(DoUnlist(s, t))
  {
    var s' := DoUnlist(s, t);
    forall q ensures KeptAt(s', q) { assert KeptAt(s, q); }
    forall c ensures ListedAt(s', c) { assert ListedAt(s, c); }
    forall q, u ensures MemberAt(s', q, u) { assert MemberAt(s, q, u); }
    forall u, c
      ensures EntryAt(s', u, c)
    {
      assert EntryAt(s, u, c) && ListedAt(s, c);
      if c in s.chats && s.rooms[s.chats[c]].Guest().Some? {
        HostIsMember(s, s.chats[c]);
      }
    }
    forall u ensures LeavingAt(s', u) { assert LeavingAt(s, u); }
    forall q, u ensures OutAt(s', q, u) { assert OutAt(s, q, u); }
  }

  lemma UnlistBusy(s: State, t: Tid)
    requires Inv(s) && CanUnlist(s, t) && UnlistsEmpty(s, t)
    ensures BusyInv(DoUnlist(s, t))
  {
    var s' := DoUnlist(s, t);
    forall q
      ensures BusyAt(s', q)
    {
      KnowsRoom(s, q);
      BusyStays(s, s', q);
    }
  }

  lemma UnlistThreads(s: State, t: Tid)
    requires Inv(s) && CanUnlist(s, t) && UnlistsEmpty(s, t)
    ensures ThreadInv(DoUnlist(s, t))
  {
    var s' := DoUnlist(s, t);
    Knows(s, t);
    MovedExclusive(s, s', t, s'.threads[t]);
    forall t1
      ensures ThreadAt(s', t1)
    {
      if t1 in s.threads && t1 != t {
        Alone(s, t, t1);
        Knows(s, t1);
        ThreadStays(s, s', t1);
      }
    }
  }

  /** If the map no longer has the chat, the session never forgets it; if it has one with participants under that ID,
      those are cut off: removing an empty chat is what keeps the invariant, and nothing else does. */
  lemma UnlistExact(s: State, t: Tid)
    requires Inv(s) && CanUnlist(s, t)
    ensures Inv(DoUnlist(s, t)) <==> UnlistsEmpty(s, t)
  {
    if UnlistsEmpty(s, t) {
      UnlistRooms(s, t);
      UnlistBusy(s, t);
      UnlistThreads(s, t);
    } else {
      UnlistBreaks(s, t);
    }
  }

  lemma UnlistBreaks(s: State, t: Tid)
    requires Inv(s) && CanUnlist(s, t) && !UnlistsEmpty(s, t)
    ensures !Inv(DoUnlist(s, t))
  {
    var s', p := DoUnlist(s, t), s.threads[t];
    Knows(s, t);
    assert LeavingAt(s, p.user) && ListedAt(s, p.op.id);
    if p.op.id in s.chats {
      assert !KeptAt(s', s.chats[p.op.id]);
    } else {
      assert EntryAt(s, p.user, p.op.id);
      var entry := s.sessions[p.user].entries[p.op.id];
      assert entry.Direct? ==> OutAt(s, entry.room, p.user);
      assert !EntryAt(s', p.user, p.op.id);
    }
  }

  lemma ForgetRooms(s: State, t: Tid)
    requires Inv(s) && CanForget(s, t)
    ensures RoomInv(DoForget(s, t))
  {
    var s' := DoForget(s, t);
    Knows(s, t);
    forall q ensures KeptAt(s', q) { assert KeptAt(s, q); }
    forall c ensures ListedAt(s', c) { assert ListedAt(s, c); }
    forall q, u
      ensures MemberAt(s', q, u)
    {
      assert MemberAt(s, q, u) && OutAt(s, q, u);
    }
    forall u, c ensures EntryAt(s', u, c) { assert EntryAt(s, u, c); }
    forall u ensures LeavingAt(s', u) { assert LeavingAt(s, u); }
    forall q, u ensures OutAt(s', q, u) { assert OutAt(s, q, u); }
  }

  lemma ForgetBusy(s: State, t: Tid)
    requires Inv(s) && CanForget(s, t)
    ensures BusyInv(DoForget(s, t))
  {
    var s' := DoForget(s, t);
    Knows(s, t);
    forall q
      ensures BusyAt(s', q)
    {
      KnowsRoom(s, q);
      assert OutAt(s, q, s.threads[t].user);
      BusyStays(s, s', q);
    }
  }

  lemma ForgetThreads(s: State, t: Tid)
    requires Inv(s) && CanForget(s, t)
    ensures ThreadInv(DoForget(s, t))
  {
    var s' := DoForget(s, t);
    MovedExclusive(s, s', t, s'.threads[t]);
    forall t1
      ensures ThreadAt(s', t1)
    {
      if t1 in s.threads && t1 != t {
        Alone(s, t, t1);
        ThreadStays(s, s', t1);
      }
    }
  }

  lemma ForgetKeeps(s: State, t: Tid)
    requires Inv(s) && CanForget(s, t)
    ensures Inv(DoForget(s, t))
  {
    ForgetRooms(s, t);
    ForgetBusy(s, t);
    ForgetThreads(s, t);
  }

  // ----- Steps that change what is stored: telling the participants -----

  lemma TellRooms(s: State, t: Tid, to: UserID)
    requires Inv(s) && CanTell(s, t, to)
    ensures RoomInv(DoTell(s, t, to))
  {
    var s' := DoTell(s, t, to);
    forall q ensures KeptAt(s', q) { assert KeptAt(s, q); }
    forall c ensures ListedAt(s', c) { assert ListedAt(s, c); }
    forall q, u ensures MemberAt(s', q, u) { assert MemberAt(s, q, u); }
    forall u, c ensures EntryAt(s', u, c) { assert EntryAt(s, u, c); }
    forall u ensures LeavingAt(s', u) { assert LeavingAt(s, u); }
    forall q, u ensures OutAt(s', q, u) { assert OutAt(s, q, u); }
  }

  lemma TellBusy(s: State, t: Tid, to: UserID)
    requires Inv(s) && CanTell(s, t, to)
    ensures BusyInv(DoTell(s, t, to))
  {
    var s', o := DoTell(s, t, to), s.threads[t].at.room;
    forall q
      ensures BusyAt(s', q)
    {
      KnowsRoom(s, q);
      if q != o {
        BusyStays(s, s', q);
      }
    }
  }

  lemma TellThreads(s: State, t: Tid, to: UserID)
    requires Inv(s) && CanTell(s, t, to)
    ensures ThreadInv(DoTell(s, t, to))
  {
    var s' := DoTell(s, t, to);
    Knows(s, t);
    forall t1, t2, l ensures ExclusiveAt(s', t1, t2, l) { assert ExclusiveAt(s, t1, t2, l); }
    forall t1
      ensures ThreadAt(s', t1)
    {
      if t1 in s.threads && t1 != t {
        Alone(s, t, t1);
        ThreadStays(s, s', t1);
      }
    }
  }

  lemma TellKeeps(s: State, t: Tid, to: UserID)
    requires Inv(s) && CanTell(s, t, to)
    ensures Inv(DoTell(s, t, to))
  {
    TellRooms(s, t, to);
    TellBusy(s, t, to);
    TellThreads(s, t, to);
  }

  lemma EndTellingRooms(s: State, t: Tid)
    requires Inv(s) && CanEndTelling(s, t)
    ensures RoomInv(DoEndTelling(s, t))
  {
    var s', o := DoEndTelling(s, t), s.threads[t].at.room;
    Knows(s, t);
    KnowsRoom(s, o);
    forall q ensures KeptAt(s', q) { assert KeptAt(s, q); }
    forall c ensures ListedAt(s', c) { assert ListedAt(s, c); }
    forall q, u ensures MemberAt(s', q, u) { assert MemberAt(s, q, u); }
    forall u, c ensures EntryAt(s', u, c) { assert EntryAt(s, u, c); }
    forall u ensures LeavingAt(s', u) { assert LeavingAt(s, u); }
    forall q, u ensures OutAt(s', q, u) { assert OutAt(s, q, u); }
  }

  lemma EndTellingBusy(s: State, t: Tid)
    requires Inv(s) && CanEndTelling(s, t)
    ensures BusyInv(DoEndTelling(s, t))
  {
    var s', o := DoEndTelling(s, t), s.threads[t].at.room;
    forall q
      ensures BusyAt(s', q)
    {
      KnowsRoom(s, q);
      if q != o {
        BusyStays(s, s', q);
      }
    }
  }

  lemma EndTellingThreads(s: State, t: Tid)
    requires Inv(s) && CanEndTelling(s, t)
    ensures ThreadInv(DoEndTelling(s, t))
  {
    var s' := DoEndTelling(s, t);
    Knows(s, t);
    MovedExclusive(s, s', t, s'.threads[t]);
    forall t1
      ensures ThreadAt(s', t1)
    {
      if t1 in s.threads && t1 != t {
        Alone(s, t, t1);
        ThreadStays(s, s', t1);
      }
    }
  }

  lemma EndTellingKeeps(s: State, t: Tid)
    requires Inv(s) && CanEndTelling(s, t)
    ensures Inv(DoEndTelling(s, t))
  {
    EndTellingRooms(s, t);
    EndTellingBusy(s, t);
    EndTellingThreads(s, t);
  }

  // ----- Steps that change what is stored: a new chat -----

  lemma ListChatRooms(s: State, t: Tid, o: RoomRef)
    requires Inv(s) && CanListChat(s, t, o)
    ensures RoomInv(DoListChat(s, t, o))
  {
    var s' := DoListChat(s, t, o);
    Knows(s, t);
    forall q ensures KeptAt(s', q) { assert KeptAt(s, q); }
    forall c ensures ListedAt(s', c) { assert ListedAt(s, c); }
    forall q, u ensures MemberAt(s', q, u) { assert MemberAt(s, q, u); }
    forall u, c ensures EntryAt(s', u, c) { assert EntryAt(s, u, c); }
    forall u ensures LeavingAt(s', u) { assert LeavingAt(s, u); }
    forall q, u ensures OutAt(s', q, u) { assert OutAt(s, q, u); }
  }

  lemma ListChatBusy(s: State, t: Tid, o: RoomRef)
    requires Inv(s) && CanListChat(s, t, o)
    ensures BusyInv(DoListChat(s, t, o))
  {
    var s' := DoListChat(s, t, o);
    forall q
      ensures BusyAt(s', q)
    {
      KnowsRoom(s, q);
      if q != o {
        BusyStays(s, s', q);
      }
    }
  }

  lemma ListChatThreads(s: State, t: Tid, o: RoomRef)
    requires Inv(s) && CanListChat(s, t, o)
    ensures ThreadInv(DoListChat(s, t, o))
  {
    var s' := DoListChat(s, t, o);
    Knows(s, t);
    MovedExclusive(s, s', t, s'.threads[t]);
    forall t1
      ensures ThreadAt(s', t1)
    {
      if t1 in s.threads && t1 != t {
        ThreadStays(s, s', t1);
      }
    }
  }

  lemma ListChatKeeps(s: State, t: Tid, o: RoomRef)
    requires Inv(s) && CanListChat(s, t, o)
    ensures Inv(DoListChat(s, t, o))
  {
    ListChatRooms(s, t, o);
    ListChatBusy(s, t, o);
    ListChatThreads(s, t, o);
  }

  lemma OwnChatRooms(s: State, t: Tid)
    requires Inv(s) && CanOwnChat(s, t)
    ensures RoomInv(DoOwnChat(s, t))
  {
    var s', o := DoOwnChat(s, t), s.threads[t].at.room;
    Knows(s, t);
    KnowsRoom(s, o);
    NobodyLeavesFree(s, s.threads[t].user);
    forall q ensures KeptAt(s', q) { assert KeptAt(s, q); }
    forall c ensures ListedAt(s', c) { assert ListedAt(s, c); }
    forall q, u
      ensures MemberAt(s', q, u)
    {
      assert MemberAt(s, q, u);
      KnowsRoom(s, q);
    }
    forall u, c ensures EntryAt(s', u, c) { assert EntryAt(s, u, c); }
    forall u ensures LeavingAt(s', u) { assert LeavingAt(s, u); }
    forall q, u ensures OutAt(s', q, u) { assert OutAt(s, q, u); }
  }

  lemma OwnChatBusy(s: State, t: Tid)
    requires Inv(s) && CanOwnChat(s, t)
    ensures BusyInv(DoOwnChat(s, t))
  {
    var s', o := DoOwnChat(s, t), s.threads[t].at.room;
    Knows(s, t);
    KnowsRoom(s, o);
    NobodyLeavesFree(s, s.threads[t].user);
    forall q
      ensures BusyAt(s', q)
    {
      KnowsRoom(s, q);
      if q != o {
        if q in s.rooms && s.rooms[q].Guest().Some? {
          HostIsMember(s, q);
        }
        BusyStays(s, s', q);
      }
    }
  }

  lemma OwnChatThreads(s: State, t: Tid)
    requires Inv(s) && CanOwnChat(s, t)
    ensures ThreadInv(DoOwnChat(s, t))
  {
    var s' := DoOwnChat(s, t);
    Knows(s, t);
    NobodyLeavesFree(s, s.threads[t].user);
    MovedExclusive(s, s', t, s'.threads[t]);
    forall t1
      ensures ThreadAt(s', t1)
    {
      if t1 in s.threads && t1 != t {
        Alone(s, t, t1);
        Knows(s, t1);
        ThreadStays(s, s', t1);
      }
    }
  }

  lemma OwnChatKeeps(s: State, t: Tid)
    requires Inv(s) && CanOwnChat(s, t)
    ensures Inv(DoOwnChat(s, t))
  {
    OwnChatRooms(s, t);
    OwnChatBusy(s, t);
    OwnChatThreads(s, t);
  }

  lemma FileChatRooms(s: State, t: Tid)
    requires Inv(s) && CanFileChat(s, t)
    ensures RoomInv(DoFileChat(s, t))
  {
    var s' := DoFileChat(s, t);
    Knows(s, t);
    forall q ensures KeptAt(s', q) { assert KeptAt(s, q); }
    forall c ensures ListedAt(s', c) { assert ListedAt(s, c); }
    forall q, u ensures MemberAt(s', q, u) { assert MemberAt(s, q, u); }
    forall u, c ensures EntryAt(s', u, c) { assert EntryAt(s, u, c); }
    forall u ensures LeavingAt(s', u) { assert LeavingAt(s, u); }
    forall q, u ensures OutAt(s', q, u) { assert OutAt(s, q, u); }
  }

  lemma FileChatBusy(s: State, t: Tid)
    requires Inv(s) && CanFileChat(s, t)
    ensures BusyInv(DoFileChat(s, t))
  {
    var s', o := DoFileChat(s, t), s.threads[t].at.room;
    KnowsRoom(s, o);
    forall q
      ensures BusyAt(s', q)
    {
      KnowsRoom(s, q);
      if q != o {
        BusyStays(s, s', q);
      }
    }
  }

  lemma FileChatThreads(s: State, t: Tid)
    requires Inv(s) && CanFileChat(s, t)
    ensures ThreadInv(DoFileChat(s, t))
  {
    var s' := DoFileChat(s, t);
    Knows(s, t);
    MovedExclusive(s, s', t, s'.threads[t]);
    forall t1
      ensures ThreadAt(s', t1)
    {
      if t1 in s.threads && t1 != t {
        Knows(s, t1);
        ThreadStays(s, s', t1);
      }
    }
  }

  lemma FileChatKeeps(s: State, t: Tid)
    requires Inv(s) && CanFileChat(s, t)
    ensures Inv(DoFileChat(s, t))
  {
    FileChatRooms(s, t);
    FileChatBusy(s, t);
    FileChatThreads(s, t);
  }

  // ----- All steps -----

  lemma OpenStepKeeps(s: State, a: Action, s': State)
    requires Inv(s) && OpenNext(s, a, s')
    ensures Inv(s')
  {
    match a
    case Begin(t, user, op) => BeginKeeps(s, t, user, op);
    case ListChat(t, room) => ListChatKeeps(s, t, room);
    case OwnChat(t) => OwnChatKeeps(s, t);
    case FileChat(t) => FileChatKeeps(s, t);
  }

  lemma SendStepKeeps(s: State, a: Action, s': State)
    requires Inv(s) && SendNext(s, a, s')
    ensures Inv(s')
  {
    match a
    case TakeSession(t) => TakeSessionKeeps(s, t);
    case Find(t) => FindKeeps(s, t);
    case TakeRoom(t) => TakeRoomKeeps(s, t);
    case Snapshot(t) => SnapshotKeeps(s, t);
    case Deliver(t, to) => DeliverKeeps(s, t, to);
    case Release(t) => ReleaseKeeps(s, t);
  }

  lemma InviteStepKeeps(s: State, a: Action, s': State)
    requires Inv(s) && InviteNext(s, a, s')
    ensures Inv(s')
  {
    match a
    case Check(t) => CheckKeeps(s, t);
    case TakeSessions(t) => TakeSessionsKeeps(s, t);
    case TakeChats(t) => TakeChatsKeeps(s, t);
    case TakeInvitee(t) => TakeInviteeKeeps(s, t);
    case EnterInvitee(t) => EnterInviteeKeeps(s, t);
    case CallInvitee(t) => CallInviteeKeeps(s, t);
  }

  lemma LeaveStepExact(s: State, a: Action, s': State)
    requires Inv(s) && LeaveNext(s, a, s')
    ensures Inv(s') <==> Obeys(s, a, UnlistEmpty)
  {
    match a
    case Part(t) => PartKeeps(s, t);
    case Tell(t, to) => TellKeeps(s, t, to);
    case EndTelling(t) => EndTellingKeeps(s, t);
    case TestEmpty(t) => TestEmptyKeeps(s, t);
    case Unlist(t) => UnlistExact(s, t);
    case Forget(t) => ForgetKeeps(s, t);
    case Close(t) => CloseKeeps(s, t);
  }

  /** A step keeps the invariant exactly if it obeys the rule. */
  lemma NextExact(s: State, a: Action, s': State)
    requires Inv(s) && Next(s, a, s')
    ensures Inv(s') <==> Obeys(s, a, UnlistEmpty)
  {
    if OpenNext(s, a, s') {
      OpenStepKeeps(s, a, s');
    } else if SendNext(s, a, s') {
      SendStepKeeps(s, a, s');
    } else if InviteNext(s, a, s') {
      InviteStepKeeps(s, a, s');
    } else {
      LeaveStepExact(s, a, s');
    }
  }
}
