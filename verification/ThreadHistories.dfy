/** What clients have seen of joins and leaves: it is the last that the chat tells them in every interleaving that keeps
    rooms and maps in order, and all since the user got the chat if no two chats under creation share an ID. */
module ThreadHistories {
  import opened Sequences
  import opened Identifiers
  import opened Threads
  import opened ThreadSafety
  import opened ThreadNames
  import opened ThreadViews

  /** What a client has seen is the last that the room tells it. */
  ghost predicate OrderAt(s: State, o: RoomRef, user: UserID) {
    o in s.rooms && s.rooms[o].ShownTo(user) && s.Shows(user, s.rooms[o].id) ==>
      IsSuffix(s.clients[user][s.rooms[o].id].seen, s.rooms[o].Story(user))
  }

  ghost predicate OrderInv(s: State) {
    forall o, u :: OrderAt(s, o, u)
  }

  /** It is all since the user got the chat. */
  ghost predicate SeenAt(s: State, o: RoomRef, user: UserID) {
    o in s.rooms && s.rooms[o].ShownTo(user) && s.Shows(user, s.rooms[o].id) ==>
      s.rooms[o].IsSeen(user, s.clients[user][s.rooms[o].id].seen)
  }

  /** A chat was not filed later than now. */
  ghost predicate FiledAt(s: State, o: RoomRef) {
    o in s.rooms && s.rooms[o].stage.Filed? ==> s.rooms[o].stage.at <= |s.rooms[o].Story(s.rooms[o].creator)|
  }

  ghost predicate SeenInv(s: State) {
    (forall o, u :: SeenAt(s, o, u)) && (forall o :: FiledAt(s, o))
  }

  lemma HistoriesInitial(s: State)
    requires Initial(s)
    ensures OrderInv(s) && SeenInv(s)
  {
    forall o, u ensures OrderAt(s, o, u) && SeenAt(s, o, u) {}
    forall o ensures FiledAt(s, o) {}
  }

  // ----- Steps -----

  /** Nothing has changed of what the user has been told of the room, and is to have been told. */
  ghost predicate ToldNothing(s: State, s': State, o: RoomRef, user: UserID) {
    o in s'.rooms && s'.rooms[o].ShownTo(user) && s'.Shows(user, s'.rooms[o].id) ==>
      && o in s.rooms && s.rooms[o].ShownTo(user) && s.Shows(user, s.rooms[o].id)
      && s'.rooms[o].id == s.rooms[o].id && s'.rooms[o].creator == s.rooms[o].creator
      && (user == s.rooms[o].creator ==> s'.rooms[o].stage == s.rooms[o].stage)
      && s'.rooms[o].Story(user) == s.rooms[o].Story(user)
      && s'.clients[user][s.rooms[o].id].seen == s.clients[user][s.rooms[o].id].seen
  }

  lemma ToldAsBefore(s: State, s': State, o: RoomRef, user: UserID)
    requires ToldNothing(s, s', o, user)
    ensures OrderAt(s, o, user) ==> OrderAt(s', o, user)
    ensures SeenAt(s, o, user) ==> SeenAt(s', o, user)
  {}

  /** The story only grows, and a filed chat stays one. */
  ghost predicate FiledOn(s: State, s': State, o: RoomRef) {
    o in s'.rooms && s'.rooms[o].stage.Filed? ==>
      && o in s.rooms && s.rooms[o].stage == s'.rooms[o].stage && s.rooms[o].creator == s'.rooms[o].creator
      && |s.rooms[o].Story(s.rooms[o].creator)| <= |s'.rooms[o].Story(s.rooms[o].creator)|
  }

  lemma OpenTells(s: State, a: Action, s': State, o: RoomRef, user: UserID)
    requires Inv(s) && OpenNext(s, a, s') && !a.FileChat?
    ensures ToldNothing(s, s', o, user) && FiledOn(s, s', o)
  {
    if a.OwnChat? {
      Knows(s, a.t);
    }
  }

  lemma SendTells(s: State, a: Action, s': State, o: RoomRef, user: UserID)
    requires SendNext(s, a, s')
    ensures ToldNothing(s, s', o, user) && FiledOn(s, s', o)
  {}

  lemma InviteTells(s: State, a: Action, s': State, o: RoomRef, user: UserID)
    requires Inv(s) && InviteNext(s, a, s')
    ensures !a.CallInvitee? ==> ToldNothing(s, s', o, user)
    ensures FiledOn(s, s', o)
  {
    if a.EnterInvitee? {
      EnterInviteeEntry(s, a.t);
    } else if a.CallInvitee? {
      Knows(s, a.t);
    }
  }

  lemma LeaveTells(s: State, a: Action, s': State, o: RoomRef, user: UserID)
    requires Inv(s) && LeaveNext(s, a, s')
    ensures !a.Tell? ==> ToldNothing(s, s', o, user)
    ensures FiledOn(s, s', o)
  {
    if a.Part? || a.Tell? || a.EndTelling? {
      Knows(s, a.t);
    }
  }

  lemma CallInviteeTells(s: State, t: Tid, q: RoomRef, u: UserID)
    requires Inv(s) && CanCallInvitee(s, t)
    ensures OrderAt(s, q, u) ==> OrderAt(DoCallInvitee(s, t), q, u)
    ensures FiledAt(s, q) && SeenAt(s, q, u) ==> SeenAt(DoCallInvitee(s, t), q, u)
  {
    var o := s.threads[t].at.room;
    Knows(s, t);
    KnowsRoom(s, o);
    if q == o && u == s.threads[t].op.invitee {
      assert u !in s.rooms[o].members;
    } else {
      if q in s.rooms && s.rooms[q].id == s.rooms[o].id && q != o {
        Elsewhere(s, q, u);
      }
      ToldAsBefore(s, DoCallInvitee(s, t), q, u);
    }
  }

  lemma TellTells(s: State, t: Tid, to: UserID, q: RoomRef, u: UserID)
    requires Inv(s) && CanTell(s, t, to)
    ensures OrderAt(s, q, u) ==> OrderAt(DoTell(s, t, to), q, u)
    ensures SeenAt(s, q, u) ==> SeenAt(DoTell(s, t, to), q, u)
  {
    var o := s.threads[t].at.room;
    KnowsRoom(s, o);
    if q == o && u == to {
      TellsOneMore(s, t, to);
    } else {
      if q in s.rooms && s.rooms[q].id == s.rooms[o].id && q != o {
        Elsewhere(s, q, u);
      }
      ToldAsBefore(s, DoTell(s, t, to), q, u);
    }
  }

  lemma TellsOneMore(s: State, t: Tid, to: UserID)
    requires Inv(s) && CanTell(s, t, to)
    ensures var (o, s') := (s.threads[t].at.room, DoTell(s, t, to));
      (OrderAt(s, o, to) ==> OrderAt(s', o, to)) && (SeenAt(s, o, to) ==> SeenAt(s', o, to))
  {
    var o, s' := s.threads[t].at.room, DoTell(s, t, to);
    KnowsRoom(s, o);
    var room, seen, change := s.rooms[o], s.clients[to][s.rooms[o].id].seen, s.rooms[o].busy.change;
    assert s'.rooms[o].Story(to) == room.Story(to) + [change] && s'.clients[to][room.id].seen == seen + [change];
  }

  lemma FileChatTells(s: State, t: Tid, q: RoomRef, u: UserID)
    requires Inv(s) && CanFileChat(s, t)
    ensures OrderAt(s, q, u) ==> OrderAt(DoFileChat(s, t), q, u)
    ensures FiledAt(s, q) ==> FiledAt(DoFileChat(s, t), q)
  {
    Knows(s, t);
  }

  /** What the client files over is not another chat under that ID. */
  lemma FileChatTellsAll(s: State, t: Tid, q: RoomRef, u: UserID)
    requires Inv(s) && NameInv(s) && CanFileChat(s, t)
    ensures SeenAt(s, q, u) ==> SeenAt(DoFileChat(s, t), q, u)
  {
    var o := s.threads[t].at.room;
    Knows(s, t);
    if q == o {
      FilesNow(s, t, u);
    } else {
      assert NewAt(s, o);
      if q in s.rooms && s.rooms[q].id == s.rooms[o].id {
        Elsewhere(s, q, u);
      }
      ToldAsBefore(s, DoFileChat(s, t), q, u);
    }
  }

  lemma FilesNow(s: State, t: Tid, u: UserID)
    requires Inv(s) && CanFileChat(s, t)
    ensures SeenAt(s, s.threads[t].at.room, u) ==> SeenAt(DoFileChat(s, t), s.threads[t].at.room, u)
  {
    Knows(s, t);
  }

  lemma NextTells(s: State, a: Action, s': State, o: RoomRef, user: UserID)
    requires Inv(s) && Next(s, a, s') && !a.FileChat?
    ensures !a.CallInvitee? && !a.Tell? ==> ToldNothing(s, s', o, user)
    ensures FiledOn(s, s', o)
  {
    if OpenNext(s, a, s') {
      OpenTells(s, a, s', o, user);
    } else if SendNext(s, a, s') {
      SendTells(s, a, s', o, user);
    } else if InviteNext(s, a, s') {
      InviteTells(s, a, s', o, user);
    } else {
      LeaveTells(s, a, s', o, user);
    }
  }

  lemma OrderGoesOn(s: State, a: Action, s': State, q: RoomRef, u: UserID)
    requires Inv(s) && OrderAt(s, q, u) && Next(s, a, s')
    ensures OrderAt(s', q, u)
  {
    if a.CallInvitee? {
      CallInviteeTells(s, a.t, q, u);
    } else if a.Tell? {
      TellTells(s, a.t, a.to, q, u);
    } else if a.FileChat? {
      FileChatTells(s, a.t, q, u);
    } else {
      NextTells(s, a, s', q, u);
      ToldAsBefore(s, s', q, u);
    }
  }

  /** Every step keeps it that clients have seen the last that they are told. */
  lemma NextOrder(s: State, a: Action, s': State)
    requires Inv(s) && OrderInv(s) && Next(s, a, s')
    ensures OrderInv(s')
  {
    forall q, u ensures OrderAt(s', q, u) { OrderGoesOn(s, a, s', q, u); }
  }

  lemma SeenGoesOn(s: State, a: Action, s': State, q: RoomRef, u: UserID)
    requires Inv(s) && NameInv(s) && SeenInv(s) && Next(s, a, s')
    ensures SeenAt(s', q, u)
  {
    assert SeenAt(s, q, u) && FiledAt(s, q);
    if a.CallInvitee? {
      CallInviteeTells(s, a.t, q, u);
    } else if a.Tell? {
      TellTells(s, a.t, a.to, q, u);
    } else if a.FileChat? {
      FileChatTellsAll(s, a.t, q, u);
    } else {
      NextTells(s, a, s', q, u);
      ToldAsBefore(s, s', q, u);
    }
  }

  lemma FiledGoesOn(s: State, a: Action, s': State, q: RoomRef)
    requires Inv(s) && SeenInv(s) && Next(s, a, s')
    ensures FiledAt(s', q)
  {
    assert FiledAt(s, q);
    if q in s'.rooms {
      if a.FileChat? {
        FileChatTells(s, a.t, q, s'.rooms[q].creator);
      } else {
        NextTells(s, a, s', q, s'.rooms[q].creator);
      }
    }
  }

  /** Every step keeps it that they have seen all of it. */
  lemma NextSeen(s: State, a: Action, s': State)
    requires Inv(s) && NameInv(s) && SeenInv(s) && Next(s, a, s')
    ensures SeenInv(s')
  {
    forall q, u ensures SeenAt(s', q, u) { SeenGoesOn(s, a, s', q, u); }
    forall q ensures FiledAt(s', q) { FiledGoesOn(s, a, s', q); }
  }
}
