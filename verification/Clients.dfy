/** What client programs do (src/client/backend/chat.cpp, src/client/backend/session.cpp): they make and seal
    the keys, ask their session, and keep their own map of chats. As long as nothing fails, any sequence of
    client requests does to the federation exactly what it does to the abstract table of Rooms. */
module Clients {
  import opened Wrappers
  import opened Identifiers
  import opened Security
  import opened Rooms
  import opened ClientBackend
  import opened Servers
  import opened Worlds
  import opened Federation
  import opened Sessions

  /** Keys are of the size the client asks its generator for; RSA moduli are whole numbers of octets. */
  ghost predicate GoodKeys(keys: UserID -> KeyPair, t: Table) {
    && (forall u :: keys(u).Valid() && keys(u).bits % 8 == 0)
    && (forall id :: id in t.rooms ==> |t.rooms[id].key| == SESSION_KEY_SIZE)
  }

  /** Between requests, as long as nothing has failed, the federation is what the table says. */
  ghost predicate Settled(net: Network, t: Table)
    reads net
  {
    net.reliable ==> Agrees(net.world, t, {}, {}) && GoodKeys(net.keys, t)
  }

  /** The client is logged in. */
  ghost predicate Live(net: Network, k: Client)
    reads net
  {
    k.user in net.world.sessions && k.user in net.world.callbacks && net.world.callbacks[k.user] == k
  }

  // ----- Open a chat -----

  lemma OpenAgrees(w: World, home: string -> Host, keys: UserID -> KeyPair, t: Table, o: LocalChat, user: UserID, key: Bytes)
    requires GoodKeys(keys, t) && |key| == SESSION_KEY_SIZE
    requires Sound(w, home) && Agrees(w, t, {}, {})
    requires user in w.sessions && user in w.callbacks && o !in w.participants && o.chatID !in w.chats
    requires home(user) == home(o.chatID)
    ensures w.callbacks[user] in w.screens && w.chats.Keys == t.rooms.Keys
    ensures Agrees(SetView(AddChat(w, o, user), w.callbacks[user], o.chatID, View({user}, key, [])),
                   Create(t, user, o.chatID, key), {}, {})
    ensures GoodKeys(keys, Create(t, user, o.chatID, key))
  {
    assert CallbackAt(w, user);
    forall c ensures c in w.chats <==> c in t.rooms { assert RoomAt(w, t, c); }
    SoundAddChat(w, home, o, user);
    CreateAgrees(w, home, t, o, user, key);
    CreatedAgrees(AddChat(w, o, user), home, Create(t, user, o.chatID, key), o.chatID, user);
  }

  method ShowNewChat(net: Network, k: Client, id: ChatID, key: Bytes) returns (ghost chat: ClientChat)
    requires Valid(net) && k in net.world.screens
    modifies net.Repr
    ensures Valid(net) && net.Repr == old(net.Repr) + {chat} && fresh(chat)
    ensures net.world == SetView(old(net.world), k, id, View({k.user}, key, []))
  {
    assert net.ScreenTied(k);
    k.ChatCreated(id, key);
    chat := k.chats[id];
    net.world := SetView(net.world, k, id, k.chats[id].Now());
    net.Repr := net.Repr + {chat};
    net.TiedAfterOpening((k, id));
    SoundWhateverIsShown(old(net.world), net.home, net.world.screens);
  }

  method AskForChat(net: Network, k: Client) returns (r: Option<ChatID>, ghost o: LocalChat?)
    requires Valid(net) && Routed(net.home) && Live(net, k)
    modifies net.Repr
    ensures Valid(net) && old(net.Repr) <= net.Repr && fresh(net.Repr - old(net.Repr))
    ensures net.reliable ==> r.Some?
    ensures k in net.world.screens
    ensures r.Some? ==>
      && o != null && o !in old(net.world).participants && o.chatID !in old(net.world).chats
      && o.chatID == r.value == NextName(old(net.world).chats.Keys, net.home(k.user)) && net.home(k.user) == net.home(o.chatID)
      && net.world == AddChat(old(net.world), o, k.user)
  {
    assert CallbackAt(net.world, k.user);
    var f := net.Transmit();
    if f.RequestLost? || f.Refused? {
      return None, null;
    }
    var id;
    id, o := InitChat(net, k.user);
    r := if f.ReplyLost? then None else Some(id);
  }

  /** What the request does whether or not the table is kept. */
  method OpenChat(net: Network, k: Client, key: Bytes) returns (ok: bool, ghost o: LocalChat?)
    requires Valid(net) && Routed(net.home) && Live(net, k)
    modifies net.Repr
    ensures Valid(net) && old(net.Repr) <= net.Repr && fresh(net.Repr - old(net.Repr))
    ensures net.reliable ==> ok
    ensures ok ==>
      && o != null && o !in old(net.world).participants && o.chatID !in old(net.world).chats
      && o.chatID == NextName(old(net.world).chats.Keys, net.home(k.user)) && net.home(k.user) == net.home(o.chatID)
      && k in AddChat(old(net.world), o, k.user).screens
      && net.world == SetView(AddChat(old(net.world), o, k.user), k, o.chatID, View({k.user}, key, []))
  {
    var r;
    r, o := AskForChat(net, k);
    ok := r.Some?;
    if ok {
      ghost var _ := ShowNewChat(net, k, r.value, key);
    }
  }

  method RunInitChat(net: Network, k: Client, key: Bytes, ghost t: Table) returns (ok: bool)
    requires Valid(net) && Settled(net, t) && Routed(net.home) && Live(net, k) && |key| == SESSION_KEY_SIZE
    modifies net.Repr
    ensures Valid(net) && old(net.Repr) <= net.Repr && fresh(net.Repr - old(net.Repr))
    ensures Settled(net, Create(t, k.user, NextName(t.rooms.Keys, net.home(k.user)), key))
    ensures net.reliable ==> ok
    ensures ok ==>
      var id := NextName(old(net.world).chats.Keys, net.home(k.user));
      id !in old(net.world).chats && net.world.Takes(k.user, id) && net.world.HasEntry(k.user, id) && net.world.Shows(k.user, id)
  {
    ghost var w := net.world;
    ghost var o;
    ok, o := OpenChat(net, k, key);
    if net.reliable {
      OpenAgrees(w, net.home, net.keys, t, o, k.user, key);
    }
  }

  // ----- Invite -----

  /** The client seals the key of the chat for the invited user. */
  method AskToInvite(net: Network, k: Client, id: ChatID, user: UserID, sameKey: bool, random: Randomness) returns (ok: bool)
    requires Valid(net) && Live(net, k) && k in net.world.screens && id in net.world.screens[k] && Fits(net.keys(user), random)
    modifies net.Repr
    ensures Valid(net) && old(net.Repr) <= net.Repr && fresh(net.Repr - old(net.Repr))
    ensures user !in old(net.world).sessions || (old(net.world).Takes(k.user, id) && old(net.world).Takes(user, id)) ==>
              !ok && net.world == old(net.world)
    ensures net.reliable && net.keys(user).Valid() && net.keys(user).bits % 8 == 0
            && old(net.world).HasEntry(k.user, id) && old(net.world).Takes(k.user, id)
            && Invitable(old(net.world), net.home, old(net.world).chats[id], user)
            && AllReached(old(net.world), old(net.world).chats[id]) ==>
              && ok
              && net.world == Invited(old(net.world), net.home, old(net.world).chats[id], user, old(net.world).screens[k][id].key)
    ensures ok && old(net.world).Takes(k.user, id) ==> net.world.Takes(user, id) && net.world.HasEntry(user, id)
  {
    assert net.ScreenTied(k);
    var key := k.chats[id].key;
    var sealedKey := EncryptRSA(net.cipher, net.keys(user), random, key);
    if net.keys(user).Valid() {
      RSARoundTrip(net.cipher, net.keys(user), random, key);
    }
    var f := net.Transmit();
    if sealedKey.Failure? || f.RequestLost? || f.Refused? {
      return false;
    }
    var r := Sessions.Invite(net, k.user, user, sameKey, id, sealedKey.value);
    ok := r.Done? && !f.ReplyLost?;
  }

  lemma InviteGoesThrough(w: World, home: string -> Host, keys: UserID -> KeyPair, t: Table,
                          self: UserID, user: UserID, id: ChatID)
    requires GoodKeys(keys, t) && Sound(w, home) && Agrees(w, t, {}, {}) && w.Shows(self, id)
    ensures t.IsMember(self, id) && w.ViewOf(self, id).key == t.rooms[id].key
    ensures w.HasEntry(self, id) && w.Takes(self, id) && AllReached(w, w.chats[id])
    ensures CanInvite(t, self, user, id) ==>
      && Invitable(w, home, w.chats[id], user)
      && Agrees(Invited(w, home, w.chats[id], user, t.rooms[id].key), Join(t, user, id), {}, {})
    ensures !CanInvite(t, self, user, id) ==> user !in w.sessions || w.Takes(user, id)
    ensures GoodKeys(keys, Rooms.Invite(t, self, user, id))
  {
    assert SessionAt(w, t, self, id) && ScreenAt(w, t, self, id);
    Reachable(w, home, t, id);
    if CanInvite(t, self, user, id) {
      InvitableIn(w, home, t, id, user);
      InviteAgrees(w, home, t, id, user);
    }
  }

  method RunInvite(net: Network, k: Client, id: ChatID, user: UserID, sameKey: bool, random: Randomness, ghost t: Table)
    returns (ok: bool)
    requires Valid(net) && Settled(net, t) && Live(net, k) && k in net.world.screens && id in net.world.screens[k]
    requires Fits(net.keys(user), random)
    modifies net.Repr
    ensures Valid(net) && old(net.Repr) <= net.Repr && fresh(net.Repr - old(net.Repr))
    ensures Settled(net, Rooms.Invite(t, k.user, user, id))
    ensures net.reliable ==> (ok <==> CanInvite(t, k.user, user, id)) && (ok || net.world == old(net.world))
    ensures ok && old(net.world).Takes(k.user, id) ==> net.world.Takes(user, id) && net.world.HasEntry(user, id)
  {
    if net.reliable {
      InviteGoesThrough(net.world, net.home, net.keys, t, k.user, user, id);
    }
    ok := AskToInvite(net, k, id, user, sameKey, random);
  }

  // ----- Send -----

  method AskToSend(net: Network, k: Client, id: ChatID, text: Bytes, iv: Bytes) returns (ok: bool, ghost message: Bytes)
    requires Valid(net) && Live(net, k) && k in net.world.screens && id in net.world.screens[k]
    requires |iv| == |net.world.screens[k][id].key|
    modifies net.Repr
    ensures Valid(net) && net.Repr == old(net.Repr) && OnlyScreens(old(net.world), net.world)
    ensures old(net.world).screens[k][id].key != [] ==>
              DecryptAES(net.cipher, old(net.world).screens[k][id].key, message) == Success(text)
    ensures net.reliable && old(net.world).screens[k][id].key != []
            && old(net.world).HasEntry(k.user, id) && old(net.world).Takes(k.user, id)
            && AllReached(old(net.world), old(net.world).chats[id]) ==>
              && ok
              && net.world == TellAll(old(net.world), old(net.world).chats[id],
                                      old(net.world).participants[old(net.world).chats[id]].Keys,
                                      HasSaid(net.cipher, k.user, message))
    ensures ok && old(net.world).Takes(k.user, id) ==>
      WentRound(old(net.world), net.world, net.servers.Keys, old(net.world).chats[id], HasSaid(net.cipher, k.user, message))
  {
    assert net.ScreenTied(k);
    var key := k.chats[id].key;
    var sealed := EncryptAES(net.cipher, key, iv, text);
    if sealed.Failure? {
      return false, [];
    }
    AESRoundTrip(net.cipher, key, iv, text);
    message := sealed.value;
    var f := net.Transmit();
    if f.RequestLost? || f.Refused? {
      return false, message;
    }
    var r := Sessions.SendMessage(net, k.user, sealed.value, id);
    ok := r.Done? && !f.ReplyLost?;
  }

  lemma SendGoesThrough(w: World, home: string -> Host, keys: UserID -> KeyPair, t: Table, self: UserID, id: ChatID,
                        cipher: BlockCipher, message: Bytes, text: Bytes)
    requires GoodKeys(keys, t) && Sound(w, home) && Agrees(w, t, {}, {}) && w.Shows(self, id)
    requires DecryptAES(cipher, w.ViewOf(self, id).key, message) == Success(text)
    ensures t.IsMember(self, id) && w.HasEntry(self, id) && w.Takes(self, id) && AllReached(w, w.chats[id])
    ensures Agrees(TellAll(w, w.chats[id], w.participants[w.chats[id]].Keys, HasSaid(cipher, self, message)),
                   Send(t, self, id, text), {}, {})
    ensures GoodKeys(keys, Send(t, self, id, text))
  {
    assert SessionAt(w, t, self, id) && ScreenAt(w, t, self, id);
    Reachable(w, home, t, id);
    SendAgrees(w, home, t, id, cipher, self, message, text);
  }

  method RunSend(net: Network, k: Client, id: ChatID, text: Bytes, iv: Bytes, ghost t: Table)
    returns (ok: bool, ghost message: Bytes)
    requires Valid(net) && Settled(net, t) && Live(net, k) && k in net.world.screens && id in net.world.screens[k]
    requires |iv| == |net.world.screens[k][id].key|
    modifies net.Repr
    ensures Valid(net) && net.Repr == old(net.Repr)
    ensures Settled(net, Send(t, k.user, id, text))
    ensures net.reliable ==> ok && t.IsMember(k.user, id)
    ensures ok && old(net.world).Takes(k.user, id) ==>
      && (old(net.world).screens[k][id].key != [] ==>
            DecryptAES(net.cipher, old(net.world).screens[k][id].key, message) == Success(text))
      && WentRound(old(net.world), net.world, net.servers.Keys, old(net.world).chats[id], HasSaid(net.cipher, k.user, message))
  {
    ghost var w := net.world;
    assert net.reliable ==> ScreenAt(w, t, k.user, id);
    ok, message := AskToSend(net, k, id, text, iv);
    if net.reliable {
      SendGoesThrough(w, net.home, net.keys, t, k.user, id, net.cipher, message, text);
    }
  }

  // ----- Leave -----

  method CloseChat(net: Network, k: Client, id: ChatID)
    requires Valid(net) && k in net.world.screens
    modifies net.Repr
    ensures Valid(net) && net.Repr == old(net.Repr)
    ensures net.world == DropView(old(net.world), k, id)
  {
    assert net.ScreenTied(k);
    k.ChatLeft(id);
    net.world := DropView(net.world, k, id);
    net.TiedAfterClosing((k, id));
    SoundWhateverIsShown(old(net.world), net.home, net.world.screens);
  }

  method AskToLeave(net: Network, k: Client, id: ChatID) returns (ok: bool)
    requires Valid(net) && Live(net, k)
    modifies net.Repr
    ensures Valid(net) && net.Repr == old(net.Repr) && Live(net, k)
    ensures net.reliable && !old(net.world).HasEntry(k.user, id) ==> !ok && net.world == old(net.world)
    ensures net.reliable && old(net.world).HasEntry(k.user, id) && old(net.world).Takes(k.user, id)
            && AllReached(RemoveParticipant(old(net.world), old(net.world).chats[id], k.user), old(net.world).chats[id]) ==>
              ok && net.world == DropEntry(Parted(old(net.world), old(net.world).chats[id], k.user), k.user, id)
    ensures ok ==> old(net.world).Takes(k.user, id) && !net.world.Takes(k.user, id) && !net.world.HasEntry(k.user, id)
  {
    var f := net.Transmit();
    if f.RequestLost? || f.Refused? {
      return false;
    }
    var r := Sessions.LeaveChat(net, k.user, id);
    ok := r.Done? && !f.ReplyLost?;
  }

  lemma LeaveGoesThrough(w: World, home: string -> Host, t: Table, self: UserID, id: ChatID)
    requires Sound(w, home) && Agrees(w, t, {}, {}) && t.IsMember(self, id)
    ensures w.HasEntry(self, id) && w.Takes(self, id) && self in w.callbacks
    ensures AllReached(RemoveParticipant(w, w.chats[id], self), w.chats[id])
  {
    assert SessionAt(w, t, self, id) && RoomAt(w, t, id) && CallbackAt(w, self);
    LeaveAgrees(w, home, t, {}, {}, id, self);
  }

  lemma LeaveCloses(w: World, w1: World, home: string -> Host, t: Table, self: UserID, id: ChatID)
    requires Sound(w, home) && Agrees(w, t, {}, {}) && t.IsMember(self, id) && Sound(w1, home)
    requires w.Takes(self, id) && self in w.sessions && w1 == DropEntry(Parted(w, w.chats[id], self), self, id)
    requires self in w.callbacks && w.callbacks[self] in w1.screens
    ensures Agrees(DropView(w1, w.callbacks[self], id), Leave(t, self, id), {}, {})
  {
    LeaveAgrees(w, home, t, {}, {}, id, self);
    var w0, t' := Parted(w, w.chats[id], self), Leave(t, self, id);
    var at := {(self, id)};
    assert {} + at == at && at - at == {};
    DropEntryAgrees(w0, t', at, at, id, self);
    DropViewAgrees(w1, home, t', {}, at, id, self);
  }

  lemma NothingToLeave(w: World, t: Table, k: Client, id: ChatID)
    requires Agrees(w, t, {}, {}) && !t.IsMember(k.user, id)
    requires k.user in w.callbacks && w.callbacks[k.user] == k && k in w.screens
    ensures !w.HasEntry(k.user, id) && DropView(w, k, id) == w
  {
    assert SessionAt(w, t, k.user, id) && ScreenAt(w, t, k.user, id);
    assert w.screens[k] - {id} == w.screens[k];
    assert w.screens[k := w.screens[k]] == w.screens;
  }

  /** What AskToLeave promises is enough, for members and for others. */
  lemma LeaveSettles(w: World, w1: World, w2: World, home: string -> Host, keys: UserID -> KeyPair, t: Table,
                     k: Client, id: ChatID, ok: bool)
    requires GoodKeys(keys, t)
    requires Sound(w, home) && Agrees(w, t, {}, {}) && Sound(w1, home)
    requires k.user in w.sessions && k.user in w.callbacks && w.callbacks[k.user] == k && k in w.screens && k in w1.screens
    requires !w.HasEntry(k.user, id) ==> !ok && w1 == w
    requires w.HasEntry(k.user, id) && w.Takes(k.user, id) && AllReached(RemoveParticipant(w, w.chats[id], k.user), w.chats[id]) ==>
               ok && w1 == DropEntry(Parted(w, w.chats[id], k.user), k.user, id)
    requires w2 == DropView(w1, k, id)
    ensures Agrees(w2, Leave(t, k.user, id), {}, {}) && GoodKeys(keys, Leave(t, k.user, id))
    ensures ok <==> t.IsMember(k.user, id)
  {
    if t.IsMember(k.user, id) {
      LeaveGoesThrough(w, home, t, k.user, id);
      LeaveCloses(w, w1, home, t, k.user, id);
    } else {
      NothingToLeave(w, t, k, id);
    }
  }

  /** The log is saved first (see Accounts); `saved` says whether that worked. If not, the server never hears that
      the user leaves. Whatever happens, the client no longer shows the chat. */
  method RunLeaveChat(net: Network, k: Client, id: ChatID, saved: bool, ghost t: Table) returns (ok: bool)
    requires Valid(net) && Settled(net, t) && Live(net, k)
    modifies net.Repr
    ensures Valid(net) && net.Repr == old(net.Repr) && Live(net, k)
    ensures k in net.world.screens && id !in net.world.screens[k]
    ensures saved ==> Settled(net, Leave(t, k.user, id)) && (net.reliable ==> (ok <==> t.IsMember(k.user, id)))
    ensures !saved ==> !ok && k in old(net.world).screens && net.world == DropView(old(net.world), k, id)
    ensures ok ==> old(net.world).Takes(k.user, id) && !net.world.Takes(k.user, id) && !net.world.HasEntry(k.user, id)
  {
    ghost var w := net.world;
    assert CallbackAt(w, k.user);
    ok := false;
    if saved {
      ok := AskToLeave(net, k, id);
    }
    assert CallbackAt(net.world, k.user);
    ghost var w1 := net.world;
    CloseChat(net, k, id);
    if net.reliable && saved {
      LeaveSettles(w, w1, net.world, net.home, net.keys, t, k, id, ok);
    }
  }

  // ----- Log in and out -----

  method LeaveAllChats(net: Network, k: Client, ghost t: Table) returns (ghost left: set<ChatID>)
    requires Valid(net) && Settled(net, t) && Live(net, k) && (net.reliable ==> WellFormed(t))
    modifies net.Repr
    ensures Valid(net) && net.Repr == old(net.Repr) && Live(net, k)
    ensures Settled(net, LeaveMany(t, k.user, left))
  {
    assert CallbackAt(net.world, k.user);
    assert net.ScreenTied(k);
    var chatList := k.chats.Keys;
    var todo := chatList;
    assert chatList - todo == {} && LeaveMany(t, k.user, {}).rooms == t.rooms;
    while todo != {}
      invariant todo <= chatList
      invariant Valid(net) && net.Repr == old(net.Repr) && Live(net, k)
      invariant Settled(net, LeaveMany(t, k.user, chatList - todo))
      decreases todo
    {
      var c :| c in todo;
      var save := net.Transmit();
      var _ := RunLeaveChat(net, k, c, save.Delivered?, LeaveMany(t, k.user, chatList - todo));
      if net.reliable {
        LeaveOneMore(t, k.user, chatList - todo, c);
      }
      OneFewer(chatList, todo, c);
      todo := todo - {c};
    }
    left := chatList - todo;
  }

  lemma LogoutAfterLeaving(t: Table, user: UserID, ids: set<ChatID>)
    requires WellFormed(t)
    ensures Rooms.Logout(LeaveMany(t, user, ids), user) == Rooms.Logout(t, user)
  {
    forall c | c in t.rooms && user !in t.rooms[c].logs
      ensures t.rooms[c].(logs := t.rooms[c].logs - {user}) == t.rooms[c] && t.rooms[c].Members() != {user}
    {
      assert t.rooms[c].logs - {user} == t.rooms[c].logs;
    }
    forall c | c in t.rooms && c in ids
      ensures t.rooms[c].logs - {user} - {user} == t.rooms[c].logs - {user}
      ensures (t.rooms[c].logs - {user}).Keys != {user}
    {
      assert user !in t.rooms[c].logs - {user};
    }
    assert Rooms.Logout(LeaveMany(t, user, ids), user).rooms == Rooms.Logout(t, user).rooms;
  }

  method RunLogout(net: Network, k: Client, ghost t: Table) returns (ok: bool)
    requires Valid(net) && Settled(net, t) && Live(net, k) && (net.reliable ==> WellFormed(t))
    modifies net.Repr
    ensures Valid(net) && net.Repr == old(net.Repr)
    ensures Settled(net, Rooms.Logout(t, k.user))
    ensures ok || net.reliable ==> k.user !in net.world.sessions
    ensures ok || net.reliable ==> forall c :: net.home(k.user) == net.home(c) ==> !net.world.Takes(k.user, c)
  {
    ghost var left := LeaveAllChats(net, k, t);
    if net.reliable {
      LogoutAfterLeaving(t, k.user, left);
    }
    var f := net.Transmit();
    if f.RequestLost? || f.Refused? {
      return false;
    }
    var r := Sessions.Logout(net, k.user, LeaveMany(t, k.user, left));
    ok := r.Done? && !f.ReplyLost?;
  }

  method RunLogin(net: Network, user: UserID, ghost t: Table) returns (ok: bool)
    requires Valid(net) && Settled(net, t) && net.home(user) in net.servers
    modifies net.Repr
    ensures Valid(net) && old(net.Repr) <= net.Repr && fresh(net.Repr - old(net.Repr))
    ensures Settled(net, Rooms.Login(t, user))
    ensures net.reliable ==> (ok <==> user !in t.online)
    ensures ok ==> user !in old(net.world).sessions && user in net.world.sessions
  {
    ghost var w := net.world;
    var r;
    ghost var k;
    r, k := Sessions.Login(net, user);
    ok := r.Done?;
    if net.reliable {
      if ok {
        LoginAgrees(w, net.home, t, user, k);
      } else {
        assert t.online + {user} == t.online;
      }
    }
  }
}
