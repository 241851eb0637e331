/** Two chats that are being created never have one ID, as long as removeChat leaves chats alone that are being
    created, and only as long as it does. */
module ThreadNames {
  import opened Threads
  import opened ThreadSafety

  /** A chat that its creator's client has yet to file is the one in its server's map. */
  ghost predicate NewAt(s: State, o: RoomRef) {
    o in s.rooms && !s.rooms[o].stage.Filed? ==> s.rooms[o].id in s.chats && s.chats[s.rooms[o].id] == o
  }

  ghost predicate NameInv(s: State) {
    && (forall c :: ListedAt(s, c))
    && (forall t :: MakerAt(s, t))
    && (forall o :: NewAt(s, o))
  }

  /** A step of a thread that is not creating a chat: the rooms stay what they were made as. */
  ghost predicate MakesNothing(s: State, s': State, t: Tid) {
    && s'.chats == s.chats && s'.rooms.Keys == s.rooms.Keys
    && (forall o :: o in s.rooms ==>
          && s'.rooms[o].id == s.rooms[o].id && s'.rooms[o].creator == s.rooms[o].creator
          && s'.rooms[o].stage == s.rooms[o].stage && s'.rooms[o].key == s.rooms[o].key)
    && (forall t1 :: t1 in s'.threads && t1 != t ==> t1 in s.threads && s'.threads[t1] == s.threads[t1])
    && t in s'.threads && !s'.threads[t].at.Owning? && !s'.threads[t].at.Filing?
    && (s'.threads[t].at.NeedName? ==> s'.threads[t].op.Open?)
  }

  lemma NothingMade(s: State, s': State, t: Tid)
    requires NameInv(s) && MakesNothing(s, s', t)
    ensures NameInv(s')
  {
    forall c ensures ListedAt(s', c) { assert ListedAt(s, c); }
    forall t1 ensures MakerAt(s', t1) { assert MakerAt(s, t1); }
    forall o ensures NewAt(s', o) { assert NewAt(s, o); }
  }

  lemma ListChatNames(s: State, t: Tid, o: RoomRef)
    requires NameInv(s) && CanListChat(s, t, o)
    ensures NameInv(DoListChat(s, t, o))
  {
    var s' := DoListChat(s, t, o);
    forall c ensures ListedAt(s', c) { assert ListedAt(s, c); }
    forall t1 ensures MakerAt(s', t1) { assert MakerAt(s, t1); }
    forall q ensures NewAt(s', q) { assert NewAt(s, q); }
  }

  lemma OwnChatNames(s: State, t: Tid)
    requires NameInv(s) && CanOwnChat(s, t)
    ensures NameInv(DoOwnChat(s, t))
  {
    var s' := DoOwnChat(s, t);
    assert MakerAt(s, t);
    forall c ensures ListedAt(s', c) { assert ListedAt(s, c); }
    forall t1 ensures MakerAt(s', t1) { assert MakerAt(s, t1); }
    forall q ensures NewAt(s', q) { assert NewAt(s, q); }
  }

  lemma FileChatNames(s: State, t: Tid)
    requires NameInv(s) && CanFileChat(s, t)
    ensures NameInv(DoFileChat(s, t))
  {
    var s' := DoFileChat(s, t);
    assert MakerAt(s, t);
    forall c ensures ListedAt(s', c) { assert ListedAt(s, c); }
    forall t1 ensures MakerAt(s', t1) { assert MakerAt(s, t1); }
    forall q ensures NewAt(s', q) { assert NewAt(s, q); }
  }

  lemma UnlistNames(s: State, t: Tid)
    requires NameInv(s) && CanUnlist(s, t)
    ensures NameInv(DoUnlist(s, t)) <==> UnlistsFiled(s, t)
  {
    var s', id := DoUnlist(s, t), s.threads[t].op.id;
    assert ListedAt(s, id);
    if UnlistsFiled(s, t) {
      forall c ensures ListedAt(s', c) { assert ListedAt(s, c); }
      forall t1 ensures MakerAt(s', t1) { assert MakerAt(s, t1); }
      forall o ensures NewAt(s', o) { assert NewAt(s, o); }
    } else {
      assert !NewAt(s', s.chats[id]);
    }
  }

  lemma SendStepMakes(s: State, a: Action, s': State)
    requires SendNext(s, a, s')
    ensures MakesNothing(s, s', a.t)
  {}

  lemma InviteStepMakes(s: State, a: Action, s': State)
    requires InviteNext(s, a, s')
    ensures MakesNothing(s, s', a.t)
  {}

  lemma LeaveStepMakes(s: State, a: Action, s': State)
    requires LeaveNext(s, a, s') && !a.Unlist?
    ensures MakesNothing(s, s', a.t)
  {}

  lemma OpenStepNames(s: State, a: Action, s': State)
    requires NameInv(s) && OpenNext(s, a, s')
    ensures NameInv(s')
  {
    match a
    case Begin(t, _, _) => NothingMade(s, s', t);
    case ListChat(t, o) => ListChatNames(s, t, o);
    case OwnChat(t) => OwnChatNames(s, t);
    case FileChat(t) => FileChatNames(s, t);
  }

  lemma LeaveStepNames(s: State, a: Action, s': State)
    requires NameInv(s) && LeaveNext(s, a, s')
    ensures NameInv(s') <==> Obeys(s, a, UnlistFiled)
  {
    if a.Unlist? {
      UnlistNames(s, a.t);
    } else {
      LeaveStepMakes(s, a, s');
      NothingMade(s, s', a.t);
    }
  }

  /** A step keeps the invariant exactly if it obeys the rule. */
  lemma NextNames(s: State, a: Action, s': State)
    requires NameInv(s) && Next(s, a, s')
    ensures NameInv(s') <==> Obeys(s, a, UnlistFiled)
  {
    if OpenNext(s, a, s') {
      OpenStepNames(s, a, s');
    } else if SendNext(s, a, s') {
      SendStepMakes(s, a, s');
      NothingMade(s, s', a.t);
    } else if InviteNext(s, a, s') {
      InviteStepMakes(s, a, s');
      NothingMade(s, s', a.t);
    } else {
      LeaveStepNames(s, a, s');
    }
  }
}
