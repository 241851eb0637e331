/** What clients show of the chats their users are in: whom, with which key, and for how long. Each property is kept by
    every step of every interleaving as long as the steps obey its rule, and only as long. */
module ThreadViews {
  import opened Wrappers
  import opened Identifiers
  import opened Threads
  import opened ThreadSafety
  import opened ThreadNames

  // ----- The properties, each of one room and one user -----

  /** A client shows everyone it has to show. */
  ghost predicate CoverAt(s: State, o: RoomRef, user: UserID) {
    o in s.rooms && s.Shows(user, s.rooms[o].id) ==> s.rooms[o].Due(user) <= s.clients[user][s.rooms[o].id].users
  }

  ghost predicate SelfAt(s: State, user: UserID, id: ChatID) {
    s.Shows(user, id) ==> user in s.clients[user][id].users
  }

  /** Whoever is still to get a message, and still has the chat, shows its sender. */
  ghost predicate FanAt(s: State, t: Tid, to: UserID, id: ChatID) {
    t in s.threads && Awaits(s.threads[t], to, id) && s.Shows(to, id) ==> s.threads[t].user in s.clients[to][id].users
  }

  ghost predicate CoverInv(s: State) {
    (forall o, u :: CoverAt(s, o, u)) && (forall u, c :: SelfAt(s, u, c))
  }

  ghost predicate FanInv(s: State) {
    !s.dropped && forall t, u, c :: FanAt(s, t, u, c)
  }

  ghost predicate ScreenInv(s: State) {
    CoverInv(s) && FanInv(s)
  }

  /** A client shows exactly whom it has to, or also a leaver of whom it has yet to be told. */
  ghost predicate UsersAt(s: State, o: RoomRef, user: UserID) {
    o in s.rooms && s.rooms[o].ShownTo(user) ==>
      && s.Shows(user, s.rooms[o].id)
      && IsUpToDate(s.rooms[o], user, s.clients[user][s.rooms[o].id].users)
  }

  ghost predicate IsUpToDate(room: Room, user: UserID, users: set<UserID>) {
    || users == room.Due(user)
    || (room.busy.Telling? && room.busy.change.Left? && user in room.busy.todo
        && users == room.Due(user) + {room.busy.change.who})
  }

  ghost predicate UsersInv(s: State) {
    forall o, u :: UsersAt(s, o, u)
  }

  ghost predicate KeyAt(s: State, o: RoomRef, user: UserID) {
    o in s.rooms && s.rooms[o].ShownTo(user) && s.Shows(user, s.rooms[o].id) ==>
      s.clients[user][s.rooms[o].id].key == s.rooms[o].key
  }

  ghost predicate KeyInv(s: State) {
    forall o, u :: KeyAt(s, o, u)
  }

  /** A client shows a chat only while its user is in it, or one of its threads is going to close it. */
  ghost predicate LastsAt(s: State, user: UserID, id: ChatID) {
    s.Shows(user, id) ==> IsIn(s, user, id) || IsGoing(s, user, id)
  }

  ghost predicate LastsInv(s: State) {
    forall u, c :: LastsAt(s, u, c)
  }

  lemma ViewsInitial(s: State)
    requires Initial(s)
    ensures ScreenInv(s) && UsersInv(s) && KeyInv(s) && LastsInv(s)
  {}

  // ----- Steps that change what is shown or what is to be shown, for one room and one user -----

  /** What was right of the client of `user` in room `o` still is. */
  ghost predicate GoesOn(s: State, s': State, o: RoomRef, user: UserID) {
    (UsersAt(s, o, user) ==> UsersAt(s', o, user)) && (KeyAt(s, o, user) ==> KeyAt(s', o, user))
  }

  /** Of all rooms that have had one ID only the one in the map has anyone to be shown to. */
  lemma Elsewhere(s: State, o: RoomRef, user: UserID)
    requires Inv(s) && o in s.rooms && (s.rooms[o].id in s.chats ==> s.chats[s.rooms[o].id] != o)
    ensures s.rooms[o].members == {} && s.rooms[o].Guest() == None
    ensures s.rooms[o].Due(user) == {} && !s.rooms[o].ShownTo(user)
  {
    assert KeptAt(s, o);
    if s.rooms[o].Guest().Some? {
      HostIsMember(s, o);
    }
  }

  lemma DeliverViews(s: State, t: Tid, to: UserID, q: RoomRef, u: UserID)
    requires CanDeliver(s, t, to)
    ensures GoesOn(s, DoDeliver(s, t, to), q, u)
    ensures CoverAt(s, q, u) ==> CoverAt(DoDeliver(s, t, to), q, u)
  {}

  lemma EnterInviteeViews(s: State, t: Tid, q: RoomRef, u: UserID)
    requires Inv(s) && CanEnterInvitee(s, t)
    ensures GoesOn(s, DoEnterInvitee(s, t), q, u)
    ensures CoverAt(s, q, u) ==> CoverAt(DoEnterInvitee(s, t), q, u)
  {
    EnterInviteeEntry(s, t);
  }

  lemma CallInviteeViews(s: State, t: Tid, q: RoomRef, u: UserID)
    requires Inv(s) && CanCallInvitee(s, t)
    ensures CoverAt(s, q, u) ==> CoverAt(DoCallInvitee(s, t), q, u)
    ensures UsersAt(s, q, u) ==> UsersAt(DoCallInvitee(s, t), q, u)
    ensures KeyAt(s, q, u) && HandsKey(s, t) ==> KeyAt(DoCallInvitee(s, t), q, u)
  {
    var o := s.threads[t].at.room;
    Knows(s, t);
    KnowsRoom(s, o);
    if q in s.rooms && q != o && s.rooms[q].id == s.rooms[o].id {
      Elsewhere(s, q, u);
    }
  }

  lemma PartViews(s: State, t: Tid, q: RoomRef, u: UserID)
    requires Inv(s) && CanPart(s, t)
    ensures GoesOn(s, DoPart(s, t), q, u)
    ensures CoverAt(s, q, u) ==> CoverAt(DoPart(s, t), q, u)
  {
    var o := s.threads[t].at.room;
    Knows(s, t);
    KnowsRoom(s, o);
    if q == o {
      var room, rest := s.rooms[o], s.rooms[o].members - {s.threads[t].user};
      assert u in rest ==> room.Due(u) == rest + {s.threads[t].user};
    }
  }

  lemma TellViews(s: State, t: Tid, to: UserID, q: RoomRef, u: UserID)
    requires Inv(s) && CanTell(s, t, to)
    ensures GoesOn(s, DoTell(s, t, to), q, u)
    ensures CoverAt(s, q, u) ==> CoverAt(DoTell(s, t, to), q, u)
  {
    var o := s.threads[t].at.room;
    Knows(s, t);
    KnowsRoom(s, o);
    assert to in s.rooms[o].members;
    if q == o {
      TellsRoom(s, t, to, u);
    } else if q in s.rooms && s.rooms[q].id == s.rooms[o].id {
      Elsewhere(s, q, u);
    }
  }

  lemma TellsRoom(s: State, t: Tid, to: UserID, u: UserID)
    requires Inv(s) && CanTell(s, t, to)
    ensures GoesOn(s, DoTell(s, t, to), s.threads[t].at.room, u)
    ensures CoverAt(s, s.threads[t].at.room, u) ==> CoverAt(DoTell(s, t, to), s.threads[t].at.room, u)
  {
    KnowsRoom(s, s.threads[t].at.room);
  }

  lemma EndTellingViews(s: State, t: Tid, q: RoomRef, u: UserID)
    requires Inv(s) && CanEndTelling(s, t)
    ensures GoesOn(s, DoEndTelling(s, t), q, u)
    ensures CoverAt(s, q, u) ==> CoverAt(DoEndTelling(s, t), q, u)
  {
    KnowsRoom(s, s.threads[t].at.room);
  }

  lemma CloseViews(s: State, t: Tid, q: RoomRef, u: UserID)
    requires Inv(s) && CanClose(s, t)
    ensures CoverAt(s, q, u) ==> CoverAt(DoClose(s, t), q, u)
    ensures UsersAt(s, q, u) && ClosesLeft(s, t) ==> UsersAt(DoClose(s, t), q, u)
    ensures KeyAt(s, q, u) ==> KeyAt(DoClose(s, t), q, u)
  {
    if q in s.rooms && (s.rooms[q].id in s.chats ==> s.chats[s.rooms[q].id] != q) {
      Elsewhere(s, q, u);
    }
  }

  /** What the new room's creator shows under that ID is a chat that was, and it shows itself there. */
  lemma ListChatViews(s: State, t: Tid, o: RoomRef, q: RoomRef, u: UserID)
    requires CanListChat(s, t, o)
    ensures GoesOn(s, DoListChat(s, t, o), q, u)
    ensures CoverAt(s, q, u) && (forall c :: SelfAt(s, u, c)) ==> CoverAt(DoListChat(s, t, o), q, u)
  {
    var id := NextName(s.chats.Keys, s.home(s.threads[t].user));
    assert (forall c :: SelfAt(s, u, c)) ==> SelfAt(s, u, id);
  }

  lemma OwnChatViews(s: State, t: Tid, q: RoomRef, u: UserID)
    requires Inv(s) && CanOwnChat(s, t)
    ensures GoesOn(s, DoOwnChat(s, t), q, u)
    ensures CoverAt(s, q, u) ==> CoverAt(DoOwnChat(s, t), q, u)
  {
  }

  lemma FileChatViews(s: State, t: Tid, q: RoomRef, u: UserID)
    requires Inv(s) && CanFileChat(s, t) && FilesAlone(s, t)
    ensures CoverAt(s, q, u) ==> CoverAt(DoFileChat(s, t), q, u)
    ensures UsersAt(s, q, u) ==> UsersAt(DoFileChat(s, t), q, u)
  {
    Knows(s, t);
    if q in s.rooms && u == s.threads[t].user && s.rooms[q].id == s.rooms[s.threads[t].at.room].id {
      FilesShown(s, t, q);
    }
  }

  lemma FilesShown(s: State, t: Tid, q: RoomRef)
    requires Inv(s) && CanFileChat(s, t) && FilesAlone(s, t)
    requires q in s.rooms && s.rooms[q].id == s.rooms[s.threads[t].at.room].id
    ensures var (s', u) := (DoFileChat(s, t), s.threads[t].user); CoverAt(s', q, u) && UsersAt(s', q, u)
  {
    if s.rooms[q].id in s.chats && s.chats[s.rooms[q].id] == q {
      FilesOnly(s, t, q, s.threads[t].user);
    } else {
      Elsewhere(s, q, s.threads[t].user);
    }
  }

  lemma FilesOnly(s: State, t: Tid, q: RoomRef, u: UserID)
    requires Inv(s) && CanFileChat(s, t) && q in s.rooms && s.rooms[q].id in s.chats && s.chats[s.rooms[q].id] == q
    requires u == s.threads[t].user && s.rooms[q].id == s.rooms[s.threads[t].at.room].id && FilesAlone(s, t)
    ensures s.rooms[q].Due(u) <= {u}
    ensures u in s.rooms[q].members || (s.rooms[q].busy.Telling? && s.rooms[q].Guest() == Some(u)) ==> s.rooms[q].Due(u) == {u}
  {
    KnowsRoom(s, q);
  }

  lemma FileChatKeys(s: State, t: Tid, q: RoomRef, u: UserID)
    requires Inv(s) && NameInv(s) && CanFileChat(s, t)
    ensures KeyAt(s, q, u) ==> KeyAt(DoFileChat(s, t), q, u)
  {
    Knows(s, t);
    assert NewAt(s, s.threads[t].at.room);
    if q in s.rooms && q != s.threads[t].at.room && s.rooms[q].id == s.rooms[s.threads[t].at.room].id {
      Elsewhere(s, q, u);
    }
  }

  // ----- Messages under way -----

  /** No message is under way that was not before. */
  ghost predicate NothingSent(s: State, s': State) {
    forall t, u, c :: t in s'.threads && Awaits(s'.threads[t], u, c) ==>
      t in s.threads && Awaits(s.threads[t], u, c) && s.threads[t].user == s'.threads[t].user
  }

  /** A client shows of its chats at least whom it showed. */
  ghost predicate ShowsOn(s: State, s': State) {
    forall u, c :: s'.Shows(u, c) ==> s.Shows(u, c) && s.clients[u][c].users <= s'.clients[u][c].users
  }

  lemma FansGoOn(s: State, s': State)
    requires FanInv(s) && NothingSent(s, s') && ShowsOn(s, s') && s'.dropped == s.dropped
    ensures FanInv(s')
  {
    forall t, u, c ensures FanAt(s', t, u, c) { assert FanAt(s, t, u, c); }
  }

  /** A sender is in the room that its message goes to, which is the one in the map. */
  lemma SenderIsMember(s: State, t: Tid, to: UserID, o: RoomRef)
    requires Inv(s) && t in s.threads && o in s.rooms && Awaits(s.threads[t], to, s.rooms[o].id)
    requires s.rooms[o].members != {}
    ensures s.threads[t].user in s.rooms[o].members
  {
    Knows(s, t);
    KnowsRoom(s, s.threads[t].at.room);
    KnowsRoom(s, o);
  }

  lemma SnapshotScreens(s: State, t: Tid)
    requires Inv(s) && ScreenInv(s) && CanSnapshot(s, t)
    ensures FanInv(DoSnapshot(s, t))
  {
    var s', o := DoSnapshot(s, t), s.threads[t].at.room;
    Knows(s, t);
    forall t1, u, c ensures FanAt(s', t1, u, c) { assert FanAt(s, t1, u, c) && CoverAt(s, o, u); }
  }

  /** The branch for a message from a user who is not shown is not taken. */
  lemma DeliverScreens(s: State, t: Tid, to: UserID)
    requires FanInv(s) && CanDeliver(s, t, to)
    ensures FanInv(DoDeliver(s, t, to))
  {
    var s' := DoDeliver(s, t, to);
    assert FanAt(s, t, to, s.threads[t].op.id);
    forall t1, u, c ensures FanAt(s', t1, u, c) { assert FanAt(s, t1, u, c); }
  }

  lemma CallInviteeScreens(s: State, t: Tid)
    requires Inv(s) && FanInv(s) && CanCallInvitee(s, t)
    ensures FanInv(DoCallInvitee(s, t))
  {
    var s', o := DoCallInvitee(s, t), s.threads[t].at.room;
    Knows(s, t);
    forall t1, u, c
      ensures FanAt(s', t1, u, c)
    {
      assert FanAt(s, t1, u, c);
      if t1 in s.threads && c == s.rooms[o].id && Awaits(s.threads[t1], u, c) {
        SenderIsMember(s, t1, u, o);
      }
    }
  }

  lemma TellScreens(s: State, t: Tid, to: UserID)
    requires Inv(s) && FanInv(s) && CanTell(s, t, to)
    ensures FanInv(DoTell(s, t, to))
  {
    var s', o := DoTell(s, t, to), s.threads[t].at.room;
    KnowsRoom(s, o);
    forall t1, u, c
      ensures FanAt(s', t1, u, c)
    {
      assert FanAt(s, t1, u, c);
      if t1 in s.threads && c == s.rooms[o].id && Awaits(s.threads[t1], u, c) {
        SenderIsMember(s, t1, u, o);
      }
    }
  }

  /** What the client files shows only its user: if there is anyone else to show, the client does not, and otherwise
      nobody is lost from view. */
  lemma FileChatCovers(s: State, t: Tid)
    requires Inv(s) && CoverInv(s) && CanFileChat(s, t)
    ensures CoverInv(DoFileChat(s, t)) <==> FilesAlone(s, t)
  {
    var s', id, user := DoFileChat(s, t), s.rooms[s.threads[t].at.room].id, s.threads[t].user;
    if FilesAlone(s, t) {
      forall q, u ensures CoverAt(s', q, u) { FileChatViews(s, t, q, u); }
      forall u, c ensures SelfAt(s', u, c) { assert SelfAt(s, u, c); }
    } else {
      assert ListedAt(s, id);
      assert !CoverAt(s', s.chats[id], user);
    }
  }

  /** And if anyone else's message is on its way, the client does not show its sender. */
  lemma FileChatScreens(s: State, t: Tid)
    requires FanInv(s) && CanFileChat(s, t)
    ensures FanInv(DoFileChat(s, t)) <==> FilesQuiet(s, t)
  {
    var s', id, user := DoFileChat(s, t), s.rooms[s.threads[t].at.room].id, s.threads[t].user;
    if FilesQuiet(s, t) {
      forall t1, u, c ensures FanAt(s', t1, u, c) { assert FanAt(s, t1, u, c); }
    } else {
      var t1 :| t1 in s.threads && Awaits(s.threads[t1], user, id) && s.threads[t1].user != user;
      assert s'.threads[t1] == s.threads[t1] && !FanAt(s', t1, user, id);
    }
  }

  /** What is lost: someone else's message that is on its way is dropped when it comes, and so is the next message that
      goes out to the user while its client shows nothing more. */
  lemma FilingLoses(s: State, t: Tid, t1: Tid)
    requires CanFileChat(s, t) && t1 in s.threads && t1 != t && s.threads[t].user in s.inbox && s.threads[t1].op.Send?
    requires s.threads[t1].user != s.threads[t].user && s.threads[t1].op.id == s.rooms[s.threads[t].at.room].id
    ensures var (s', user) := (DoFileChat(s, t), s.threads[t].user);
      && (Awaits(s.threads[t1], user, s.threads[t1].op.id) ==> CanDeliver(s', t1, user) && DoDeliver(s', t1, user).dropped)
      && (CanSnapshot(s', t1) && user in s'.rooms[s.threads[t1].at.room].members ==>
            CanDeliver(DoSnapshot(s', t1), t1, user) && DoDeliver(DoSnapshot(s', t1), t1, user).dropped)
  {}

  // ----- All steps -----

  lemma OpenViews(s: State, a: Action, s': State, q: RoomRef, u: UserID)
    requires Inv(s) && OpenNext(s, a, s') && !a.FileChat?
    ensures GoesOn(s, s', q, u)
    ensures CoverAt(s, q, u) && (forall c :: SelfAt(s, u, c)) ==> CoverAt(s', q, u)
  {
    if a.ListChat? {
      ListChatViews(s, a.t, a.room, q, u);
    } else if a.OwnChat? {
      OwnChatViews(s, a.t, q, u);
    }
  }

  lemma SendViews(s: State, a: Action, s': State, q: RoomRef, u: UserID)
    requires SendNext(s, a, s')
    ensures GoesOn(s, s', q, u) && (CoverAt(s, q, u) ==> CoverAt(s', q, u))
  {
    if a.Deliver? {
      DeliverViews(s, a.t, a.to, q, u);
    }
  }

  lemma InviteViews(s: State, a: Action, s': State, q: RoomRef, u: UserID)
    requires Inv(s) && InviteNext(s, a, s') && !a.CallInvitee?
    ensures GoesOn(s, s', q, u) && (CoverAt(s, q, u) ==> CoverAt(s', q, u))
  {
    if a.EnterInvitee? {
      EnterInviteeViews(s, a.t, q, u);
    }
  }

  lemma LeaveViews(s: State, a: Action, s': State, q: RoomRef, u: UserID)
    requires Inv(s) && LeaveNext(s, a, s') && !a.Close?
    ensures GoesOn(s, s', q, u) && (CoverAt(s, q, u) ==> CoverAt(s', q, u))
  {
    if a.Part? {
      PartViews(s, a.t, q, u);
    } else if a.Tell? {
      TellViews(s, a.t, a.to, q, u);
    } else if a.EndTelling? {
      EndTellingViews(s, a.t, q, u);
    }
  }

  /** Steps that no rule is about. */
  lemma PlainViews(s: State, a: Action, s': State, q: RoomRef, u: UserID)
    requires Inv(s) && Next(s, a, s') && !a.CallInvitee? && !a.Close? && !a.FileChat?
    ensures GoesOn(s, s', q, u)
    ensures CoverAt(s, q, u) && (forall c :: SelfAt(s, u, c)) ==> CoverAt(s', q, u)
  {
    if OpenNext(s, a, s') {
      OpenViews(s, a, s', q, u);
    } else if SendNext(s, a, s') {
      SendViews(s, a, s', q, u);
    } else if InviteNext(s, a, s') {
      InviteViews(s, a, s', q, u);
    } else {
      LeaveViews(s, a, s', q, u);
    }
  }

  /** A step keeps what clients must show at least exactly if it obeys the rule. */
  lemma NextCovers(s: State, a: Action, s': State)
    requires Inv(s) && CoverInv(s) && Next(s, a, s')
    ensures CoverInv(s') <==> Obeys(s, a, FileAlone)
  {
    if a.FileChat? {
      FileChatCovers(s, a.t);
    } else {
      forall q, u ensures CoverAt(s', q, u) { CoverGoesOn(s, a, s', q, u); }
      forall u, c ensures SelfAt(s', u, c) { SelfGoesOn(s, a, s', u, c); }
    }
  }

  lemma CoverGoesOn(s: State, a: Action, s': State, q: RoomRef, u: UserID)
    requires Inv(s) && CoverInv(s) && Next(s, a, s') && !a.FileChat?
    ensures CoverAt(s', q, u)
  {
    assert CoverAt(s, q, u);
    if a.CallInvitee? {
      CallInviteeViews(s, a.t, q, u);
    } else if a.Close? {
      CloseViews(s, a.t, q, u);
    } else {
      PlainViews(s, a, s', q, u);
    }
  }

  lemma SelfGoesOn(s: State, a: Action, s': State, u: UserID, c: ChatID)
    requires Inv(s) && CoverInv(s) && Next(s, a, s') && !a.FileChat?
    ensures SelfAt(s', u, c)
  {
    assert SelfAt(s, u, c);
    if !FillsScreens(a) {
      NothingAdded(s, a, s');
    } else if a.Tell? {
      KnowsRoom(s, s.threads[a.t].at.room);
    }
  }

  /** A step keeps the messages that are under way safe, too, exactly if it obeys the rule. */
  lemma NextScreens(s: State, a: Action, s': State)
    requires Inv(s) && ScreenInv(s) && Next(s, a, s')
    ensures FanInv(s') <==> Obeys(s, a, FileQuiet)
  {
    if a.Snapshot? {
      SnapshotScreens(s, a.t);
    } else if a.Deliver? {
      DeliverScreens(s, a.t, a.to);
    } else if a.CallInvitee? {
      CallInviteeScreens(s, a.t);
    } else if a.Tell? {
      TellScreens(s, a.t, a.to);
    } else if a.FileChat? {
      FileChatScreens(s, a.t);
    } else {
      NothingAdded(s, a, s');
      FansGoOn(s, s');
    }
  }

  ghost predicate FillsScreens(a: Action) {
    a.Snapshot? || a.Deliver? || a.CallInvitee? || a.Tell? || a.FileChat?
  }

  ghost predicate AddsNothing(s: State, s': State) {
    NothingSent(s, s') && ShowsOn(s, s') && s'.dropped == s.dropped
  }

  lemma OpenAddsNothing(s: State, a: Action, s': State)
    requires OpenNext(s, a, s') && !a.FileChat?
    ensures AddsNothing(s, s')
  {}

  lemma SendAddsNothing(s: State, a: Action, s': State)
    requires SendNext(s, a, s') && !a.Snapshot? && !a.Deliver?
    ensures AddsNothing(s, s')
  {}

  lemma InviteAddsNothing(s: State, a: Action, s': State)
    requires InviteNext(s, a, s') && !a.CallInvitee?
    ensures AddsNothing(s, s')
  {}

  lemma LeaveAddsNothing(s: State, a: Action, s': State)
    requires LeaveNext(s, a, s') && !a.Tell?
    ensures AddsNothing(s, s')
  {}

  lemma NothingAdded(s: State, a: Action, s': State)
    requires Next(s, a, s') && !FillsScreens(a)
    ensures AddsNothing(s, s')
  {
    if OpenNext(s, a, s') {
      OpenAddsNothing(s, a, s');
    } else if SendNext(s, a, s') {
      SendAddsNothing(s, a, s');
    } else if InviteNext(s, a, s') {
      InviteAddsNothing(s, a, s');
    } else {
      LeaveAddsNothing(s, a, s');
    }
  }

  lemma UsersGoOn(s: State, a: Action, s': State, q: RoomRef, u: UserID)
    requires Inv(s) && UsersAt(s, q, u) && Next(s, a, s') && Obeys(s, a, FileAlone) && Obeys(s, a, CloseLeft)
    ensures UsersAt(s', q, u)
  {
    if a.CallInvitee? {
      CallInviteeViews(s, a.t, q, u);
    } else if a.Close? {
      CloseViews(s, a.t, q, u);
    } else if a.FileChat? {
      FileChatViews(s, a.t, q, u);
    } else {
      PlainViews(s, a, s', q, u);
    }
  }

  /** A step keeps what clients show exactly if it obeys the rule. */
  lemma NextUsers(s: State, a: Action, s': State)
    requires Inv(s) && UsersInv(s) && Next(s, a, s') && Obeys(s, a, FileAlone)
    ensures UsersInv(s') <==> Obeys(s, a, CloseLeft)
  {
    if Obeys(s, a, CloseLeft) {
      forall q, u ensures UsersAt(s', q, u) { UsersGoOn(s, a, s', q, u); }
    } else {
      CloseBreaks(s, a.t);
    }
  }

  lemma CloseBreaks(s: State, t: Tid)
    requires Inv(s) && CanClose(s, t) && !ClosesLeft(s, t)
    ensures !UsersInv(DoClose(s, t))
  {
    var id := s.threads[t].op.id;
    assert ListedAt(s, id);
    assert !UsersAt(DoClose(s, t), s.chats[id], s.threads[t].user);
  }

  lemma KeyGoesOn(s: State, a: Action, s': State, q: RoomRef, u: UserID)
    requires Inv(s) && NameInv(s) && KeyAt(s, q, u) && Next(s, a, s') && Obeys(s, a, HandKey)
    ensures KeyAt(s', q, u)
  {
    if a.CallInvitee? {
      CallInviteeViews(s, a.t, q, u);
    } else if a.Close? {
      CloseViews(s, a.t, q, u);
    } else if a.FileChat? {
      FileChatKeys(s, a.t, q, u);
    } else {
      PlainViews(s, a, s', q, u);
    }
  }

  /** A step keeps the keys that clients have exactly if it obeys the rule. */
  lemma NextKeys(s: State, a: Action, s': State)
    requires Inv(s) && NameInv(s) && KeyInv(s) && Next(s, a, s')
    ensures KeyInv(s') <==> Obeys(s, a, HandKey)
  {
    if Obeys(s, a, HandKey) {
      forall q, u ensures KeyAt(s', q, u) { KeyGoesOn(s, a, s', q, u); }
    } else {
      CallInviteeBreaks(s, a.t);
    }
  }

  lemma CallInviteeBreaks(s: State, t: Tid)
    requires Inv(s) && CanCallInvitee(s, t) && !HandsKey(s, t)
    ensures !KeyInv(DoCallInvitee(s, t))
  {
    Knows(s, t);
    assert !KeyAt(DoCallInvitee(s, t), s.threads[t].at.room, s.threads[t].op.invitee);
  }

  // ----- How long a client shows a chat -----

  /** No thread is on its way to close a chat any longer. */
  ghost predicate ExitsOn(s: State, s': State) {
    forall t :: t in s.threads ==>
      && t in s'.threads && s'.threads[t].user == s.threads[t].user && s'.threads[t].op == s.threads[t].op
      && (s.threads[t].op.Leave? && s'.threads[t].at.Finished? ==> s.threads[t].at.Finished?)
  }

  lemma ExitsStay(s: State, s': State, u: UserID, c: ChatID)
    requires ExitsOn(s, s')
    ensures IsGoing(s, u, c) ==> IsGoing(s', u, c)
  {
    if t :| t in s.threads && IsExit(s.threads[t], u, c) {
      assert IsExit(s'.threads[t], u, c);
    }
  }

  lemma PartGoes(s: State, t: Tid, u: UserID, c: ChatID)
    requires Inv(s) && CanPart(s, t) && IsIn(s, u, c)
    ensures IsIn(DoPart(s, t), u, c) || IsGoing(DoPart(s, t), u, c)
  {
    var s' := DoPart(s, t);
    Knows(s, t);
    assert ListedAt(s, c);
    if s.chats[c] == s.threads[t].at.room && u == s.threads[t].user {
      assert IsExit(s'.threads[t], u, c);
    }
  }

  lemma UnlistGoes(s: State, t: Tid, u: UserID, c: ChatID)
    requires Inv(s) && CanUnlist(s, t) && UnlistsEmpty(s, t) && IsIn(s, u, c)
    ensures IsIn(DoUnlist(s, t), u, c)
  {
    var o := s.chats[c];
    if s.rooms[o].Guest().Some? {
      HostIsMember(s, o);
    }
  }

  lemma OpenStays(s: State, a: Action, s': State, u: UserID, c: ChatID)
    requires OpenNext(s, a, s') && IsIn(s, u, c)
    ensures IsIn(s', u, c)
  {}

  lemma SendStays(s: State, a: Action, s': State, u: UserID, c: ChatID)
    requires SendNext(s, a, s') && IsIn(s, u, c)
    ensures IsIn(s', u, c)
  {}

  lemma InviteStays(s: State, a: Action, s': State, u: UserID, c: ChatID)
    requires Inv(s) && InviteNext(s, a, s') && IsIn(s, u, c)
    ensures IsIn(s', u, c)
  {
    if a.EnterInvitee? {
      EnterInviteeEntry(s, a.t);
    } else if a.CallInvitee? {
      Knows(s, a.t);
    }
  }

  lemma LeaveStays(s: State, a: Action, s': State, u: UserID, c: ChatID)
    requires Inv(s) && LeaveNext(s, a, s') && Obeys(s, a, UnlistEmpty) && IsIn(s, u, c)
    ensures IsIn(s', u, c) || IsGoing(s', u, c)
  {
    if a.Part? {
      PartGoes(s, a.t, u, c);
    } else if a.Unlist? {
      UnlistGoes(s, a.t, u, c);
    } else if a.EndTelling? {
      KnowsRoom(s, s.threads[a.t].at.room);
    }
  }

  /** Nobody is put out of a chat but by its own thread. */
  lemma StaysOrGoes(s: State, a: Action, s': State, u: UserID, c: ChatID)
    requires Inv(s) && Next(s, a, s') && Obeys(s, a, UnlistEmpty) && IsIn(s, u, c)
    ensures IsIn(s', u, c) || IsGoing(s', u, c)
  {
    if OpenNext(s, a, s') {
      OpenStays(s, a, s', u, c);
    } else if SendNext(s, a, s') {
      SendStays(s, a, s', u, c);
    } else if InviteNext(s, a, s') {
      InviteStays(s, a, s', u, c);
    } else {
      LeaveStays(s, a, s', u, c);
    }
  }

  lemma OpenExits(s: State, a: Action, s': State)
    requires Inv(s) && OpenNext(s, a, s')
    ensures ExitsOn(s, s')
  {
    if !a.Begin? {
      Knows(s, a.t);
    }
  }

  lemma SendExits(s: State, a: Action, s': State)
    requires SendNext(s, a, s')
    ensures ExitsOn(s, s')
  {}

  lemma InviteExits(s: State, a: Action, s': State)
    requires InviteNext(s, a, s')
    ensures ExitsOn(s, s')
  {}

  lemma LeaveExits(s: State, a: Action, s': State)
    requires LeaveNext(s, a, s') && !a.Close?
    ensures ExitsOn(s, s')
  {}

  lemma NextExits(s: State, a: Action, s': State)
    requires Inv(s) && Next(s, a, s') && !a.Close?
    ensures ExitsOn(s, s')
  {
    if OpenNext(s, a, s') {
      OpenExits(s, a, s');
    } else if SendNext(s, a, s') {
      SendExits(s, a, s');
    } else if InviteNext(s, a, s') {
      InviteExits(s, a, s');
    } else {
      LeaveExits(s, a, s');
    }
  }

  lemma NewlyShown(s: State, a: Action, s': State, u: UserID, c: ChatID)
    requires Next(s, a, s')
    ensures s'.Shows(u, c) ==>
      || s.Shows(u, c)
      || (a.CallInvitee? && s.threads[a.t].op.invitee == u && s.threads[a.t].op.id == c)
      || (a.FileChat? && s.threads[a.t].user == u && s.rooms[s.threads[a.t].at.room].id == c)
  {
    if !FillsScreens(a) {
      NothingAdded(s, a, s');
    } else if a.Deliver? {
      DeliverShows(s, a.t, a.to, u, c);
    }
  }

  lemma DeliverShows(s: State, t: Tid, to: UserID, u: UserID, c: ChatID)
    requires CanDeliver(s, t, to)
    ensures DoDeliver(s, t, to).Shows(u, c) <==> s.Shows(u, c)
  {}

  /** Clients show chats for no longer than that exactly if the step obeys the rule. */
  lemma NextLasts(s: State, a: Action, s': State)
    requires Inv(s) && LastsInv(s) && Next(s, a, s') && Obeys(s, a, UnlistEmpty)
    ensures LastsInv(s') <==> Obeys(s, a, FilePresent)
  {
    if Obeys(s, a, FilePresent) {
      forall u, c
        ensures LastsAt(s', u, c)
      {
        assert LastsAt(s, u, c);
        if a.Close? {
          CloseLasts(s, a.t, u, c);
        } else if s'.Shows(u, c) {
          StepLasts(s, a, s', u, c);
        }
      }
    } else {
      FileBreaks(s, a.t);
    }
  }

  lemma CloseLasts(s: State, t: Tid, u: UserID, c: ChatID)
    requires CanClose(s, t) && LastsAt(s, u, c)
    ensures LastsAt(DoClose(s, t), u, c)
  {
    var s' := DoClose(s, t);
    if t1 :| t1 in s.threads && IsExit(s.threads[t1], u, c) {
      assert s'.Shows(u, c) ==> t1 in s'.threads && IsExit(s'.threads[t1], u, c);
    }
  }

  lemma StepLasts(s: State, a: Action, s': State, u: UserID, c: ChatID)
    requires Inv(s) && Next(s, a, s') && LastsAt(s, u, c) && s'.Shows(u, c) && !a.Close?
    requires Obeys(s, a, UnlistEmpty) && Obeys(s, a, FilePresent)
    ensures IsIn(s', u, c) || IsGoing(s', u, c)
  {
    if IsIn(s, u, c) {
      StaysOrGoes(s, a, s', u, c);
    } else if IsGoing(s, u, c) {
      NextExits(s, a, s');
      ExitsStay(s, s', u, c);
    } else {
      NewlyShown(s, a, s', u, c);
      Knows(s, a.t);
      KnowsRoom(s, s.threads[a.t].at.room);
    }
  }

  lemma FileBreaks(s: State, t: Tid)
    requires CanFileChat(s, t) && !FilesPresent(s, t)
    ensures !LastsInv(DoFileChat(s, t))
  {
    var s', id, user := DoFileChat(s, t), s.rooms[s.threads[t].at.room].id, s.threads[t].user;
    forall t1 | t1 in s'.threads
      ensures !IsExit(s'.threads[t1], user, id)
    {
      assert !IsExit(s.threads[t1], user, id);
    }
    assert !LastsAt(s', user, id);
  }
}
