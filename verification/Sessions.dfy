/** What a client can ask of its session (src/server/session.cpp), and the login that makes one
    (src/server/authentication.cpp). */
module Sessions {
  import opened Identifiers
  import opened Security
  import opened Rooms
  import opened ClientBackend
  import opened Servers
  import opened Worlds
  import opened Federation

  /** What holds between any two requests, whatever has failed. */
  ghost predicate Valid(net: Network)
    reads net, net.Repr
  {
    net.Tied() && Sound(net.world, net.home)
  }

  /** Where a logged-in user's session is. */
  lemma SessionOf(net: Network, self: UserID)
    requires net.Tied() && CallbackAt(net.world, self) && self in net.world.sessions
    ensures net.home(self) in net.servers && net.servers[net.home(self)] in net.Repr
    ensures net.servers[net.home(self)].hostname == net.home(self)
    ensures self in net.servers[net.home(self)].sessions && self in net.world.callbacks
    ensures net.world.callbacks[self] in net.world.screens
    ensures var s := net.servers[net.home(self)].sessions[self];
      && s in net.Repr && s.self == self && s.chats == net.world.sessions[self] && s.callback == net.world.callbacks[self]
  {
    assert net.SessionTied(net.home(self), self);
  }

  predicate IsLocal(net: Network, self: UserID, id: ChatID) {
    net.home(id) == net.home(self)
  }

  /** What becomes of an exception that is neither of the two a request declares: the one of its own for a chat of the
      user's server, and the other for a chat elsewhere. */
  function Declare(r: Outcome, local: bool, ours: Exn): (d: Outcome)
    ensures d in {Done, Threw(ours), Threw(InterServer)}
    ensures d.Done? <==> r.Done?
    ensures r in {Threw(ours), Threw(InterServer)} ==> d == r
    ensures r.Threw? && r !in {Threw(ours), Threw(InterServer)} ==> (d == Threw(ours) <==> local || ours == InterServer)
  {
    if r.Done? || r.exn == ours || r.exn.InterServer? then r else Threw(if local then ours else InterServer)
  }

  // ----- Invite and send -----

  /** `sameKey` says whether the record of the invited user bears the key that the session's own record bears. */
  method Invite(net: Network, self: UserID, user: UserID, sameKey: bool, id: ChatID, sealedKey: Bytes) returns (r: Outcome)
    requires Valid(net) && self in net.world.sessions
    modifies net.Repr
    ensures Valid(net) && old(net.Repr) <= net.Repr && fresh(net.Repr - old(net.Repr))
    ensures !old(net.world).HasEntry(self, id) || user !in old(net.world).sessions || (user == self && sameKey)
            || (old(net.world).Takes(self, id) && old(net.world).Takes(user, id)) ==>
      r.Threw? && net.world == old(net.world)
    ensures net.reliable && old(net.world).HasEntry(self, id) && old(net.world).Takes(self, id)
            && Invitable(old(net.world), net.home, old(net.world).chats[id], user)
            && AllReached(old(net.world), old(net.world).chats[id]) && DecryptRSA(net.cipher, net.keys(user), sealedKey).Success? ==>
      && r.Done?
      && net.world == Invited(old(net.world), net.home, old(net.world).chats[id], user,
                              DecryptRSA(net.cipher, net.keys(user), sealedKey).value)
    ensures r.Done? && (old(net.world).Takes(self, id) || net.home(self) != net.home(id)) ==>
      && id in old(net.world).chats && DecryptRSA(net.cipher, net.keys(user), sealedKey).Success?
      && Entered(old(net.world), net.world, net.home, net.servers.Keys, old(net.world).chats[id], user,
                 DecryptRSA(net.cipher, net.keys(user), sealedKey).value)
      && net.world.Takes(user, id) && net.world.HasEntry(user, id)
    ensures r.Threw? ==>
      || NotEntered(old(net.world), net.world, net.home, id, user)
      || (&& !IsLocal(net, self, id) && id in old(net.world).chats && DecryptRSA(net.cipher, net.keys(user), sealedKey).Success?
          && Entered(old(net.world), net.world, net.home, net.servers.Keys, old(net.world).chats[id], user,
                     DecryptRSA(net.cipher, net.keys(user), sealedKey).value))
    ensures if (user == self && sameKey) || IsLocal(net, self, id) then r in {Done, Threw(UserHandling)}
            else r in {Done, Threw(InterServer)}
  {
    if user == self && sameKey {
      return Threw(UserHandling);
    }
    assert CallbackAt(net.world, self);
    SessionOf(net, self);
    if id !in net.servers[net.home(self)].sessions[self].chats {
      r := Threw(SessionError);
    } else {
      r := net.ChatInvite(self, id, user, sealedKey);
      assert FiledAt(old(net.world), id);
      if r.Done? && (old(net.world).Takes(self, id) || net.home(self) != net.home(id)) {
        EnteredIsIn(old(net.world), net.world, net.home, net.servers.Keys, id, user,
                    DecryptRSA(net.cipher, net.keys(user), sealedKey).value);
      }
    }
    r := Declare(r, IsLocal(net, self, id), UserHandling);
  }

  method SendMessage(net: Network, self: UserID, message: Bytes, id: ChatID) returns (r: Outcome)
    requires Valid(net) && self in net.world.sessions
    modifies net.Repr
    ensures Valid(net) && net.Repr == old(net.Repr) && OnlyScreens(old(net.world), net.world)
    ensures !old(net.world).HasEntry(self, id) ==> r.Threw? && net.world == old(net.world)
    ensures net.reliable && old(net.world).HasEntry(self, id) && old(net.world).Takes(self, id)
            && AllReached(old(net.world), old(net.world).chats[id]) ==>
      && r.Done?
      && net.world == TellAll(old(net.world), old(net.world).chats[id],
                              old(net.world).participants[old(net.world).chats[id]].Keys, HasSaid(net.cipher, self, message))
    ensures r.Done? && (old(net.world).Takes(self, id) || net.home(self) != net.home(id)) ==>
      && id in old(net.world).chats
      && WentRound(old(net.world), net.world, net.servers.Keys, old(net.world).chats[id], HasSaid(net.cipher, self, message))
    ensures if !old(net.world).HasEntry(self, id) || IsLocal(net, self, id) then r in {Done, Threw(MessageError)}
            else r in {Done, Threw(InterServer)}
  {
    assert CallbackAt(net.world, self);
    SessionOf(net, self);
    if id !in net.servers[net.home(self)].sessions[self].chats {
      return Threw(MessageError);
    }
    r := net.ChatSend(self, id, message);
    r := Declare(r, IsLocal(net, self, id), MessageError);
  }

  // ----- Open a chat -----

  /** The names a server generates lead back to it: Identifiers.ChatNameOwner. */
  ghost predicate Routed(home: string -> Host) {
    forall i: nat, h :: home(ChatName(i, h)) == h
  }

  /** The new chat is in the server's map, and not yet in the session's. */
  ghost function Listed(w: World, o: LocalChat, self: UserID): World
    requires self in w.callbacks
  {
    w.(chats := w.chats[o.chatID := o],
       participants := w.participants[o := map[self := LocalParticipant(self, w.callbacks[self])]])
  }

  /** createLocalChat at the user's server. */
  method ListChat(net: Network, self: UserID) returns (o: LocalChat)
    requires net.Tied() && CallbackAt(net.world, self) && Routed(net.home) && self in net.world.sessions
    modifies net.Repr
    ensures net.Tied() && net.Repr == old(net.Repr) + {o} && fresh(o)
    ensures o.chatID == NextName(old(net.world).chats.Keys, net.home(self))
    ensures o.chatID !in old(net.world).chats && net.home(o.chatID) == net.home(self)
    ensures self in old(net.world).callbacks && net.world == Listed(old(net.world), o, self)
  {
    SessionOf(net, self);
    var server := net.servers[net.home(self)];
    NamesMatch(net, self);
    o := server.CreateLocalChat(self, server.sessions[self].callback);
    ghost var id := o.chatID;
    assert old(net.ChatTied(net.home(self), id));
    net.world := Listed(net.world, o, self);
    net.Repr := net.Repr + {o};
    net.TiedAfterListing((server, id));
  }

  lemma NamesMatch(net: Network, self: UserID)
    requires net.Tied() && Routed(net.home) && net.home(self) in net.servers
    ensures NextName(net.servers[net.home(self)].chats.Keys, net.home(self)) == NextName(net.world.chats.Keys, net.home(self))
    ensures net.home(NextName(net.world.chats.Keys, net.home(self))) == net.home(self)
  {
    var h := net.home(self);
    var n := FirstFree(net.servers[h].chats.Keys, h, 0);
    forall j: nat
      ensures ChatName(j, h) in net.servers[h].chats <==> ChatName(j, h) in net.world.chats
    {
      assert net.ChatTied(h, ChatName(j, h));
    }
    NextNameIs(net.world.chats.Keys, h, n);
  }

  method OwnChat(net: Network, self: UserID, o: LocalChat)
    requires net.Tied() && self in net.world.sessions && self in net.world.callbacks && net.home(self) in net.servers
    modifies net.Repr
    ensures net.Tied() && net.Repr == old(net.Repr)
    ensures net.world == AddEntry(old(net.world), self, o.chatID, Local(o))
  {
    assert net.SessionTied(net.home(self), self);
    var s := net.servers[net.home(self)].sessions[self];
    s.chats := s.chats[o.chatID := Local(o)];
    net.world := AddEntry(net.world, self, o.chatID, Local(o));
    net.TiedAfterEntry(s);
  }

  method InitChat(net: Network, self: UserID) returns (id: ChatID, ghost o: LocalChat)
    requires Valid(net) && Routed(net.home) && self in net.world.sessions
    modifies net.Repr
    ensures Valid(net) && old(net.Repr) <= net.Repr && fresh(net.Repr - old(net.Repr))
    ensures o.chatID == id == NextName(old(net.world).chats.Keys, net.home(self))
    ensures id !in old(net.world).chats && net.home(id) == net.home(self) && o !in old(net.world).participants
    ensures self in old(net.world).callbacks && net.world == AddChat(old(net.world), o, self)
  {
    assert CallbackAt(net.world, self);
    SessionOf(net, self);
    var chat := ListChat(net, self);
    SoundAddChat(old(net.world), net.home, chat, self);
    OwnChat(net, self, chat);
    id, o := chat.chatID, chat;
  }

  // ----- Log in -----

  /** login, for a user whose password is right; the account decides the server (see Authentication). */
  method Login(net: Network, self: UserID) returns (r: Outcome, ghost k: Client)
    requires Valid(net) && net.home(self) in net.servers
    modifies net.Repr
    ensures Valid(net) && old(net.Repr) <= net.Repr && fresh(net.Repr - old(net.Repr))
    ensures self in old(net.world).sessions ==> r.Threw?
    ensures net.reliable && self !in old(net.world).sessions ==> r.Done?
    ensures r.Done? ==> k.user == self && k !in old(net.world).screens && net.world == AddSession(old(net.world), self, k)
    ensures r.Threw? ==> r == Threw(Authentication) && net.world == old(net.world)
  {
    var client := new Client(self, net.keys(self), net.cipher);
    var s := new Session(self, client);
    k := client;
    var echo := net.Transmit();
    if echo.Delivered? {
      assert CallbackAt(net.world, self);
      var ok := EnterSession(net, s, client);
      if ok {
        SoundAddSession(old(net.world), net.home, self, k);
        return Done, k;
      }
    }
    return Threw(Authentication), k;
  }

  method EnterSession(net: Network, s: Session, k: Client) returns (ok: bool)
    requires net.Tied() && net.home(s.self) in net.servers && (s.self in net.world.sessions <==> s.self in net.world.callbacks)
    requires s !in net.Repr && k !in net.Repr && k !in net.world.screens
    requires s.callback == k && s.chats == map[] && k.chats == map[]
    requires k.user == s.self && k.cipher == net.cipher && k.keys == net.keys(s.self)
    modifies net.Repr
    ensures net.Tied() && (net.Repr == if ok then old(net.Repr) + {s, k} else old(net.Repr))
    ensures ok <==> s.self !in old(net.world).sessions
    ensures net.world == if ok then AddSession(old(net.world), s.self, k) else old(net.world)
  {
    var server := net.servers[net.home(s.self)];
    assert net.SessionTied(net.home(s.self), s.self);
    ok := server.AddSession(s.self, s);
    if ok {
      net.world := AddSession(net.world, s.self, k);
      net.Repr := net.Repr + {s, k};
      net.TiedAfterLogin((server, s, k));
    }
  }

  // ----- Leave and log out -----

  method DropChat(net: Network, self: UserID, id: ChatID)
    requires Valid(net) && net.world.HasEntry(self, id)
    requires net.world.Takes(self, id) ==> net.world.participants[net.world.chats[id]][self].RemoteParticipant?
    modifies net.Repr
    ensures Valid(net) && net.Repr == old(net.Repr)
    ensures net.world == DropEntry(old(net.world), self, id)
  {
    assert CallbackAt(net.world, self);
    SoundDropEntry(net.world, net.home, self, id);
    SessionOf(net, self);
    var s := net.servers[net.home(self)].sessions[self];
    s.chats := s.chats - {id};
    net.world := DropEntry(net.world, self, id);
    net.TiedAfterEntry(s);
  }

  /** Whether or not it throws, afterwards the user is in no chat of its own server under this ID. If it does not throw, the
      user is out of the chat wherever that is, all the rest have had their turn to hear of it, and the session has
      forgotten the chat; if it does, the session has not. */
  method LeaveChat(net: Network, self: UserID, id: ChatID) returns (r: Outcome)
    requires Valid(net) && self in net.world.sessions
    modifies net.Repr
    ensures Valid(net) && net.Repr == old(net.Repr)
    ensures self in net.world.sessions && net.world.callbacks == old(net.world).callbacks
    ensures net.home(self) == net.home(id) ==> !net.world.Takes(self, id)
    ensures r.Done? ==>
      && old(net.world).Takes(self, id) && !net.world.Takes(self, id) && !net.world.HasEntry(self, id)
      && WentRound(RemoveParticipant(old(net.world), old(net.world).chats[id], self),
                   net.world.(sessions := old(net.world).sessions), net.servers.Keys, old(net.world).chats[id], HasLeft(self))
    ensures r.Threw? ==> net.world.sessions == old(net.world).sessions
    ensures r.Threw? ==>
      || net.world == old(net.world)
      || (&& old(net.world).Takes(self, id)
          && OnlyScreens(RemoveParticipant(old(net.world), old(net.world).chats[id], self), net.world))
    ensures !old(net.world).HasEntry(self, id) ==> r.Threw? && net.world == old(net.world)
    ensures net.reliable && old(net.world).HasEntry(self, id) && old(net.world).Takes(self, id)
            && AllReached(RemoveParticipant(old(net.world), old(net.world).chats[id], self), old(net.world).chats[id]) ==>
      r.Done? && net.world == DropEntry(Parted(old(net.world), old(net.world).chats[id], self), self, id)
    ensures if !old(net.world).HasEntry(self, id) || IsLocal(net, self, id) then r in {Done, Threw(SessionError)}
            else r in {Done, Threw(InterServer)}
  {
    assert CallbackAt(net.world, self);
    SessionOf(net, self);
    if IsLocal(net, self, id) {
      EntryOfMember(net.world, net.home, self, id);
    }
    if id !in net.servers[net.home(self)].sessions[self].chats {
      return Threw(SessionError);
    }
    ghost var w := net.world;
    r := net.ChatLeave(self, id);
    OutOfIt(w, net.world, net.home, self, id);
    if r.Done? {
      DropChat(net, self, id);
    }
    r := Declare(r, IsLocal(net, self, id), SessionError);
  }

  /** A user who is in a chat of its own server has an entry for it. */
  lemma EntryOfMember(w: World, home: string -> Host, self: UserID, id: ChatID)
    requires Sound(w, home) && home(self) == home(id)
    ensures w.Takes(self, id) ==> w.HasEntry(self, id)
  {
    if w.Takes(self, id) {
      assert FiledAt(w, id) && ParticipantAt(w, home, w.chats[id], self) && JoinedAt(w, self, id);
    }
  }

  /** `w'` is `w`, or `w` after a leave at the chat's server that perhaps did not reach everyone. */
  lemma OutOfIt(w: World, w': World, home: string -> Host, self: UserID, id: ChatID)
    requires Sound(w, home) && Sound(w', home)
    requires w' == w || (w.Takes(self, id) && OnlyScreens(RemoveParticipant(w, w.chats[id], self), w'))
    requires w.Takes(self, id) && w' == w ==> home(self) != home(id)
    ensures w'.sessions == w.sessions && w'.callbacks == w.callbacks
    ensures home(self) == home(id) ==> !w'.Takes(self, id)
    ensures w'.Takes(self, id) ==> w'.participants[w'.chats[id]][self].RemoteParticipant?
    ensures forall c :: w'.Takes(self, c) ==> w.Takes(self, c)
    ensures forall v, c :: v != self ==> (w'.Takes(v, c) <==> w.Takes(v, c))
  {
    forall v, c | v != self
      ensures w'.Takes(v, c) <==> w.Takes(v, c)
    {
      assert FiledAt(w, c) && FiledAt(w, id);
      if w.Takes(v, id) && w' != w {
        assert v in w.participants[w.chats[id]] - {self};
      }
    }
    if w'.Takes(self, id) {
      assert FiledAt(w', id) && ParticipantAt(w', home, w'.chats[id], self);
    }
    assert FiledAt(w, id);
  }

  /** Where a logout has come to when it has been through the chats in `done`: nothing is claimed of the sessions
      and screens of the user who is going. */
  ghost predicate LoggingOut(w: World, t: Table, self: UserID, done: set<ChatID>) {
    Agrees(w, LeaveMany(t, self, done), Lag(self, done), Lag(self, done))
  }

  ghost function Lag(self: UserID, done: set<ChatID>): set<(UserID, ChatID)> {
    set c | c in done :: (self, c)
  }

  lemma LogoutStarts(w: World, t: Table, self: UserID)
    requires Agrees(w, t, {}, {})
    ensures LoggingOut(w, t, self, {})
  {
    assert LeaveMany(t, self, {}).rooms == t.rooms;
    assert Lag(self, {}) == {};
  }

  lemma LogoutGoesOn(w: World, home: string -> Host, t: Table, self: UserID, done: set<ChatID>, id: ChatID)
    requires Sound(w, home) && LoggingOut(w, t, self, done) && WellFormed(t) && t.IsMember(self, id) && id !in done
    ensures w.Takes(self, id) && AllReached(RemoveParticipant(w, w.chats[id], self), w.chats[id])
    ensures LoggingOut(Parted(w, w.chats[id], self), t, self, done + {id})
  {
    assert LeaveMany(t, self, done).IsMember(self, id);
    assert RoomAt(w, LeaveMany(t, self, done), id);
    LeaveAgrees(w, home, LeaveMany(t, self, done), Lag(self, done), Lag(self, done), id, self);
    LeaveOneMore(t, self, done, id);
    LagsOneMore(self, done, id);
  }

  lemma LagsOneMore(self: UserID, done: set<ChatID>, id: ChatID)
    ensures Lag(self, done) + {(self, id)} == Lag(self, done + {id})
  {}

  /** One round of the loop of a logout. */
  method LeaveNext(net: Network, self: UserID, id: ChatID, ghost t: Table, ghost done: set<ChatID>)
    requires Valid(net) && net.world.HasEntry(self, id) && id !in done
    requires net.reliable ==> LoggingOut(net.world, t, self, done) && t.IsMember(self, id) && WellFormed(t)
    modifies net.Repr
    ensures Valid(net) && net.Repr == old(net.Repr)
    ensures net.world.sessions == old(net.world).sessions && net.world.callbacks == old(net.world).callbacks
    ensures net.home(self) == net.home(id) ==> !net.world.Takes(self, id)
    ensures forall c :: net.world.Takes(self, c) ==> old(net.world).Takes(self, c)
    ensures forall v, c :: v != self ==> (net.world.Takes(v, c) <==> old(net.world).Takes(v, c))
    ensures net.reliable ==> LoggingOut(net.world, t, self, done + {id})
  {
    ghost var w := net.world;
    if net.reliable {
      LogoutGoesOn(w, net.home, t, self, done, id);
    }
    var _ := net.ChatLeave(self, id);
    OutOfIt(w, net.world, net.home, self, id);
  }

  /** removeSession, once the user is in no chat of its own server. */
  method CloseSession(net: Network, self: UserID)
    requires Valid(net) && self in net.world.sessions
    requires forall c :: net.home(self) == net.home(c) ==> !net.world.Takes(self, c)
    modifies net.Repr
    ensures Valid(net) && net.Repr == old(net.Repr)
    ensures net.world == RemoveSession(old(net.world), self)
  {
    assert CallbackAt(net.world, self);
    SessionOf(net, self);
    StrangersAreRemote(net.world, net.home, self);
    SoundRemoveSession(net.world, net.home, self);
    DropSession(net, self);
  }

  lemma StrangersAreRemote(w: World, home: string -> Host, self: UserID)
    requires Sound(w, home) && forall c :: home(self) == home(c) ==> !w.Takes(self, c)
    ensures forall c :: w.Takes(self, c) ==> w.participants[w.chats[c]][self].RemoteParticipant?
  {
    forall c | w.Takes(self, c)
      ensures w.participants[w.chats[c]][self].RemoteParticipant?
    {
      assert FiledAt(w, c) && ParticipantAt(w, home, w.chats[c], self);
    }
  }

  method DropSession(net: Network, self: UserID)
    requires net.Tied() && net.home(self) in net.servers && self in net.world.sessions && self in net.world.callbacks
    modifies net.Repr
    ensures net.Tied() && net.Repr == old(net.Repr)
    ensures net.world == RemoveSession(old(net.world), self)
  {
    assert net.SessionTied(net.home(self), self);
    var server := net.servers[net.home(self)];
    var r := server.RemoveSession(self);
    net.world := RemoveSession(net.world, self);
    net.TiedAfterSessions((server, self));
  }

  /** Afterwards the user has no session and is in no chat of its own server, whichever of its leaves failed, and all others
      are where they were; when nothing fails, the user is in no chat at all. */
  method Logout(net: Network, self: UserID, ghost t: Table) returns (r: Outcome)
    requires Valid(net) && self in net.world.sessions
    requires net.reliable ==> Agrees(net.world, t, {}, {})
    modifies net.Repr
    ensures Valid(net) && net.Repr == old(net.Repr)
    ensures r.Done? && net.world.sessions == old(net.world).sessions - {self}
    ensures forall v, c :: v != self ==> (net.world.Takes(v, c) <==> old(net.world).Takes(v, c))
    ensures forall c :: net.home(self) == net.home(c) ==> !net.world.Takes(self, c)
    ensures net.reliable ==> Agrees(net.world, Rooms.Logout(t, self), {}, {})
  {
    assert CallbackAt(net.world, self);
    SessionOf(net, self);
    ghost var w := net.world;
    var values := net.servers[net.home(self)].sessions[self].chats.Keys;
    var todo := values;
    if net.reliable {
      LogoutStarts(w, t, self);
      LogoutEnds(w, net.home, t, self);
    }
    OwnChatsFound(w, net.home, self);
    assert values - todo == {};
    while todo != {}
      invariant Valid(net) && net.Repr == old(net.Repr) && todo <= values
      invariant net.world.sessions == w.sessions && net.world.callbacks == w.callbacks
      invariant forall c :: net.world.Takes(self, c) ==> w.Takes(self, c)
      invariant forall v, c :: v != self ==> (net.world.Takes(v, c) <==> w.Takes(v, c))
      invariant forall c :: net.home(self) == net.home(c) && c in values - todo ==> !net.world.Takes(self, c)
      invariant net.reliable ==> LoggingOut(net.world, t, self, values - todo)
      decreases todo
    {
      var c :| c in todo;
      LeaveNext(net, self, c, t, values - todo);
      OneFewer(values, todo, c);
      todo := todo - {c};
    }
    assert values - todo == values;
    ghost var left := net.world;
    CloseSession(net, self);
    if net.reliable {
      GoneFromEverywhere(left, t, self, values);
    }
    r := Done;
  }

  lemma OwnChatsFound(w: World, home: string -> Host, self: UserID)
    requires Sound(w, home) && self in w.sessions
    ensures forall c :: home(self) == home(c) && w.Takes(self, c) ==> c in w.sessions[self]
  {
    forall c | home(self) == home(c) && w.Takes(self, c)
      ensures c in w.sessions[self]
    {
      EntryOfMember(w, home, self, c);
    }
  }

  lemma LogoutEnds(w: World, home: string -> Host, t: Table, self: UserID)
    requires Agrees(w, t, {}, {}) && self in w.sessions
    ensures WellFormed(t) && forall c :: c in w.sessions[self] <==> t.IsMember(self, c)
  {
    forall c
      ensures c in w.sessions[self] <==> t.IsMember(self, c)
      ensures c in t.rooms ==> t.rooms[c].logs != map[] && t.rooms[c].Members() <= t.online
    {
      assert SessionAt(w, t, self, c) && RoomAt(w, t, c);
    }
  }

  lemma GoneFromEverywhere(w: World, t: Table, self: UserID, values: set<ChatID>)
    requires LoggingOut(w, t, self, values) && forall c :: t.IsMember(self, c) ==> c in values
    ensures Agrees(RemoveSession(w, self), Rooms.Logout(t, self), {}, {})
  {
    LeaveManyEnough(t, self, values);
    LogoutAgrees(w, LeaveMany(t, self, values), Lag(self, values), Lag(self, values), self);
  }
}
