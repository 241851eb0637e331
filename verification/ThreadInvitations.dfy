/** What the rules about filing a chat and about handing over its key come to: all of them are obeyed as long as every
    invitation comes into the chat that the inviting client had in view. */
module ThreadInvitations {
  import opened Identifiers
  import opened Threads
  import opened ThreadSafety
  import opened ThreadNames

  /** A client's key is that of a chat that has been filed. */
  ghost predicate ViewAt(s: State, user: UserID, id: ChatID) {
    s.Shows(user, id) ==> HasKey(s, s.clients[user][id].of, s.clients[user][id].key)
  }

  ghost predicate HasKey(s: State, o: RoomRef, key: string) {
    o in s.rooms && s.rooms[o].stage.Filed? && s.rooms[o].key == key
  }

  /** So is the key that comes with an invitation. */
  ghost predicate OpAt(s: State, t: Tid) {
    t in s.threads && s.threads[t].op.Invite? ==> HasKey(s, s.threads[t].op.of, s.threads[t].op.key)
  }

  /** Nobody but its creator is in a chat that has yet to be filed, and the creator is, or is on its way out. */
  ghost predicate AloneAt(s: State, o: RoomRef) {
    o in s.rooms && !s.rooms[o].stage.Filed? ==>
      var room := s.rooms[o];
      && room.members <= {room.creator} && !(room.busy.Telling? && room.busy.change.Joined?)
      && (room.creator in room.members || exists t :: t in s.threads && IsOnWayOut(s.threads[t], o, room.creator, room.id))
  }

  ghost predicate IsOnWayOut(p: Proc, o: RoomRef, user: UserID, id: ChatID) {
    p.user == user && p.op == Leave(id) && p.at in {Spreading(o), Testing(o), Unlisting(o)}
  }

  ghost predicate KeysInv(s: State) {
    (forall u, c :: ViewAt(s, u, c)) && (forall t :: OpAt(s, t))
  }

  ghost predicate AloneInv(s: State) {
    forall o :: AloneAt(s, o)
  }

  lemma MeantInitial(s: State)
    requires Initial(s)
    ensures KeysInv(s) && AloneInv(s)
  {}

  // ----- Keys -----

  ghost predicate KeysStay(s: State, s': State) {
    forall o, key :: HasKey(s, o, key) ==> HasKey(s', o, key)
  }

  lemma OpenKeysStay(s: State, a: Action, s': State)
    requires Inv(s) && OpenNext(s, a, s')
    ensures KeysStay(s, s')
  {
    if !a.Begin? {
      Knows(s, a.t);
    }
  }

  lemma SendKeysStay(s: State, a: Action, s': State)
    requires SendNext(s, a, s')
    ensures KeysStay(s, s')
  {}

  lemma InviteKeysStay(s: State, a: Action, s': State)
    requires InviteNext(s, a, s')
    ensures KeysStay(s, s')
  {}

  lemma LeaveKeysStay(s: State, a: Action, s': State)
    requires LeaveNext(s, a, s')
    ensures KeysStay(s, s')
  {}

  lemma OpenKeys(s: State, a: Action, s': State)
    requires Inv(s) && KeysInv(s) && OpenNext(s, a, s')
    ensures KeysInv(s')
  {
    OpenKeysStay(s, a, s');
    if a.Begin? && a.op.Invite? {
      assert ViewAt(s, a.user, a.op.id);
    } else if a.FileChat? {
      Knows(s, a.t);
    }
    forall u, c ensures ViewAt(s', u, c) { assert ViewAt(s, u, c); }
    forall t ensures OpAt(s', t) { assert OpAt(s, t); }
  }

  lemma SendKeys(s: State, a: Action, s': State)
    requires KeysInv(s) && SendNext(s, a, s')
    ensures KeysInv(s')
  {
    SendKeysStay(s, a, s');
    forall u, c ensures ViewAt(s', u, c) { assert ViewAt(s, u, c); }
    forall t ensures OpAt(s', t) { assert OpAt(s, t); }
  }

  lemma InviteKeys(s: State, a: Action, s': State)
    requires KeysInv(s) && InviteNext(s, a, s')
    ensures KeysInv(s')
  {
    InviteKeysStay(s, a, s');
    assert OpAt(s, a.t);
    forall u, c ensures ViewAt(s', u, c) { assert ViewAt(s, u, c); }
    forall t ensures OpAt(s', t) { assert OpAt(s, t); }
  }

  lemma LeaveKeys(s: State, a: Action, s': State)
    requires KeysInv(s) && LeaveNext(s, a, s')
    ensures KeysInv(s')
  {
    LeaveKeysStay(s, a, s');
    forall u, c ensures ViewAt(s', u, c) { assert ViewAt(s, u, c); }
    forall t ensures OpAt(s', t) { assert OpAt(s, t); }
  }

  /** Every step keeps it that clients' keys are those of the chats they are taken for. */
  lemma NextMarks(s: State, a: Action, s': State)
    requires Inv(s) && KeysInv(s) && Next(s, a, s')
    ensures KeysInv(s')
  {
    if OpenNext(s, a, s') {
      OpenKeys(s, a, s');
    } else if SendNext(s, a, s') {
      SendKeys(s, a, s');
    } else if InviteNext(s, a, s') {
      InviteKeys(s, a, s');
    } else {
      LeaveKeys(s, a, s');
    }
  }

  // ----- Chats that are being created -----

  lemma OpenAlone(s: State, a: Action, s': State, o: RoomRef)
    requires Inv(s) && AloneAt(s, o) && OpenNext(s, a, s')
    ensures AloneAt(s', o)
  {
    if a.OwnChat? {
      Knows(s, a.t);
    }
    if t :| o in s.rooms && t in s.threads && IsOnWayOut(s.threads[t], o, s.rooms[o].creator, s.rooms[o].id) {
      assert t in s'.threads && IsOnWayOut(s'.threads[t], o, s'.rooms[o].creator, s'.rooms[o].id);
    }
  }

  lemma SendAlone(s: State, a: Action, s': State, o: RoomRef)
    requires AloneAt(s, o) && SendNext(s, a, s')
    ensures AloneAt(s', o)
  {
    if t :| o in s.rooms && t in s.threads && IsOnWayOut(s.threads[t], o, s.rooms[o].creator, s.rooms[o].id) {
      assert t in s'.threads && IsOnWayOut(s'.threads[t], o, s'.rooms[o].creator, s'.rooms[o].id);
    }
  }

  lemma InviteAlone(s: State, a: Action, s': State, o: RoomRef)
    requires AloneAt(s, o) && InviteNext(s, a, s')
    requires a.CallInvitee? && o in s.rooms && !s.rooms[o].stage.Filed? ==> s.threads[a.t].at.room != o
    ensures AloneAt(s', o)
  {
    if t :| o in s.rooms && t in s.threads && IsOnWayOut(s.threads[t], o, s.rooms[o].creator, s.rooms[o].id) {
      assert t in s'.threads && IsOnWayOut(s'.threads[t], o, s'.rooms[o].creator, s'.rooms[o].id);
    }
  }

  lemma PartAlone(s: State, t: Tid, o: RoomRef)
    requires Inv(s) && AloneAt(s, o) && CanPart(s, t)
    ensures AloneAt(DoPart(s, t), o)
  {
    var s' := DoPart(s, t);
    Knows(s, t);
    if o == s.threads[t].at.room {
      assert IsOnWayOut(s'.threads[t], o, s.threads[t].user, s.rooms[o].id);
    } else if t1 :| o in s.rooms && t1 in s.threads && IsOnWayOut(s.threads[t1], o, s.rooms[o].creator, s.rooms[o].id) {
      assert IsOnWayOut(s'.threads[t1], o, s'.rooms[o].creator, s'.rooms[o].id);
    }
  }

  lemma LeaveAlone(s: State, a: Action, s': State, o: RoomRef)
    requires Inv(s) && NameInv(s) && AloneAt(s, o) && LeaveNext(s, a, s') && Obeys(s, a, UnlistFiled)
    ensures AloneAt(s', o)
  {
    KnowsRoom(s, o);
    if a.Part? {
      PartAlone(s, a.t, o);
    } else if t :| o in s.rooms && t in s.threads && IsOnWayOut(s.threads[t], o, s.rooms[o].creator, s.rooms[o].id) {
      assert NewAt(s, o);
      assert !s.rooms[o].stage.Filed? && s.rooms[o].creator !in s.rooms[o].members ==>
        t in s'.threads && IsOnWayOut(s'.threads[t], o, s'.rooms[o].creator, s'.rooms[o].id);
    }
  }

  /** A step in which nobody is invited by mistake keeps the creators of new chats alone in them. */
  lemma NextAlone(s: State, a: Action, s': State)
    requires Inv(s) && NameInv(s) && KeysInv(s) && AloneInv(s) && Next(s, a, s')
    requires Obeys(s, a, UnlistFiled) && Obeys(s, a, InviteMeant)
    ensures AloneInv(s')
  {
    forall o
      ensures AloneAt(s', o)
    {
      assert AloneAt(s, o);
      if OpenNext(s, a, s') {
        OpenAlone(s, a, s', o);
      } else if SendNext(s, a, s') {
        SendAlone(s, a, s', o);
      } else if InviteNext(s, a, s') {
        assert OpAt(s, a.t);
        InviteAlone(s, a, s', o);
      } else {
        LeaveAlone(s, a, s', o);
      }
    }
  }

  // ----- The rules that follow -----

  /** The creator is alone in the chat that its client files, or about to be out of it. */
  lemma FilesWell(s: State, t: Tid)
    requires Inv(s) && NameInv(s) && AloneInv(s) && CanFileChat(s, t)
    ensures FilesAlone(s, t) && FilesQuiet(s, t) && FilesPresent(s, t)
  {
    var o, user := s.threads[t].at.room, s.threads[t].user;
    Knows(s, t);
    assert NewAt(s, o) && AloneAt(s, o);
    forall t1 | t1 in s.threads && Awaits(s.threads[t1], user, s.rooms[o].id)
      ensures s.threads[t1].user == user
    {
      Knows(s, t1);
      KnowsRoom(s, s.threads[t1].at.room);
    }
    if user !in s.rooms[o].members {
      var t1 :| t1 in s.threads && IsOnWayOut(s.threads[t1], o, user, s.rooms[o].id);
      assert IsExit(s.threads[t1], user, s.rooms[o].id);
    }
  }

  lemma HandsRight(s: State, t: Tid)
    requires KeysInv(s) && CanCallInvitee(s, t) && s.threads[t].op.of == s.threads[t].at.room
    ensures HandsKey(s, t)
  {
    assert OpAt(s, t);
  }

  ghost predicate Meant(s: State) { Inv(s) && NameInv(s) && KeysInv(s) && AloneInv(s) }

  /** If removeChat removes nothing but chats that are empty and filed, and invitations come into the chats they were
      meant for, then chats are filed and keys are handed over as they should be. */
  lemma {:induction false} MeantInvitations(r: Run, rules: set<Rule>)
    requires IsRun(r) && Along(r, rules) && {UnlistEmpty, UnlistFiled, InviteMeant} <= rules
    ensures Along(r, rules + {FileAlone, FileQuiet, FilePresent, HandKey})
    ensures Meant(r.state)
  {
    match r
    case Start(s) =>
      InvInitial(s);
      MeantInitial(s);
    case Then(before, a, s) =>
      MeantInvitations(before, rules);
      MeantStep(before.state, a, s);
  }

  lemma MeantStep(s: State, a: Action, s': State)
    requires Meant(s) && Next(s, a, s')
    requires Obeys(s, a, UnlistEmpty) && Obeys(s, a, UnlistFiled) && Obeys(s, a, InviteMeant)
    ensures Obeys(s, a, FileAlone) && Obeys(s, a, FileQuiet) && Obeys(s, a, FilePresent) && Obeys(s, a, HandKey)
    ensures Meant(s')
  {
    NextExact(s, a, s');
    NextNames(s, a, s');
    NextMarks(s, a, s');
    NextAlone(s, a, s');
    if a.FileChat? && CanFileChat(s, a.t) {
      FilesWell(s, a.t);
    } else if a.CallInvitee? && CanCallInvitee(s, a.t) {
      HandsRight(s, a.t);
    }
  }
}
