/** One value for the whole federation: every registry, session, chat and client screen, joined over all
    servers. The invariants live here, away from the heap. */
module Worlds {
  import opened Wrappers
  import opened Sequences
  import opened Identifiers
  import opened Security
  import opened Rooms
  import opened ClientBackend
  import opened Servers

  datatype World = World(
    sessions: map<UserID, map<ChatID, Chat>>,
    callbacks: map<UserID, Client>,
    chats: map<ChatID, LocalChat>,
    participants: map<LocalChat, map<UserID, Participant>>,
    screens: map<Client, map<ChatID, View>>)
  {
    ghost predicate HasEntry(user: UserID, id: ChatID) {
      user in sessions && id in sessions[user]
    }

    ghost predicate Shows(user: UserID, id: ChatID) {
      user in callbacks && callbacks[user] in screens && id in screens[callbacks[user]]
    }

    ghost function ViewOf(user: UserID, id: ChatID): View
      requires Shows(user, id)
    {
      screens[callbacks[user]][id]
    }

    ghost predicate Takes(user: UserID, id: ChatID) {
      id in chats && chats[id] in participants && user in participants[chats[id]]
    }

    /** The client that a notification to `p` ends at: directly, or through the session at the user's server. */
    ghost function EndClient(p: Participant): Client? {
      match p
      case LocalParticipant(_, proxy) => proxy
      case RemoteParticipant(user, _) => if user in callbacks then callbacks[user] else null
    }
  }

  ghost predicate SameBut<K(!new), V>(a: map<K, V>, b: map<K, V>, x: K) {
    forall k :: k != x ==> (k in a <==> k in b) && (k in a && k in b ==> a[k] == b[k])
  }

  // ----- What no failure can break. Each clause is a predicate of the IDs it is about. -----

  /** A session's callback is its user's own client. */
  ghost predicate CallbackAt(w: World, user: UserID) {
    && (user in w.sessions <==> user in w.callbacks)
    && (user in w.callbacks ==> w.callbacks[user] in w.screens && w.callbacks[user].user == user)
  }

  /** A chat in a server's map is filed under its own ID and has someone in it. */
  ghost predicate FiledAt(w: World, id: ChatID) {
    id in w.chats ==>
      w.chats[id].chatID == id && w.chats[id] in w.participants && w.participants[w.chats[id]].Keys != {}
  }

  ghost predicate ParticipantValid(w: World, home: string -> Host, id: ChatID, user: UserID, p: Participant) {
    match p
    case LocalParticipant(self, proxy) => self == user && home(user) == home(id) && proxy in w.screens && proxy.user == user
    case RemoteParticipant(self, host) => self == user && home(user) == host != home(id)
  }

  ghost predicate ParticipantAt(w: World, home: string -> Host, o: LocalChat, user: UserID) {
    o in w.participants && user in w.participants[o] ==>
      ParticipantValid(w, home, o.chatID, user, w.participants[o][user])
  }

  /** A session points at chat objects of its own server, and at stand-ins for chats of other servers. */
  ghost predicate EntryAt(w: World, home: string -> Host, user: UserID, id: ChatID) {
    w.HasEntry(user, id) ==>
      match w.sessions[user][id]
      case Local(o) => o in w.participants && o.chatID == id && home(user) == home(id)
      case Remote(c) => c == id && home(user) != home(id)
  }

  /** A local participant of a chat in a server's map has a live session whose entry for the chat is that
      same chat object, and is called back through that session's client. */
  ghost predicate JoinedAt(w: World, user: UserID, id: ChatID) {
    w.Takes(user, id) && w.participants[w.chats[id]][user].LocalParticipant? ==>
      && w.HasEntry(user, id) && w.sessions[user][id] == Local(w.chats[id])
      && user in w.callbacks && w.participants[w.chats[id]][user].proxy == w.callbacks[user]
  }

  /** A session may still point at a chat that is gone from the map, but then its user is not in it. */
  ghost predicate DepartedAt(w: World, user: UserID, id: ChatID) {
    w.HasEntry(user, id) && w.sessions[user][id].Local? ==>
      var o := w.sessions[user][id].chat;
      (id in w.chats && w.chats[id] == o) || o !in w.participants || user !in w.participants[o]
  }

  ghost predicate Sound(w: World, home: string -> Host) {
    && (forall u :: CallbackAt(w, u))
    && (forall c :: FiledAt(w, c))
    && (forall o, u :: o in w.participants ==> ParticipantAt(w, home, o, u))
    && (forall u, c :: EntryAt(w, home, u, c))
    && (forall u, c :: JoinedAt(w, u, c))
    && (forall u, c :: DepartedAt(w, u, c))
  }

  // ----- The changes that operations make -----

  ghost function AddEntry(w: World, user: UserID, id: ChatID, chat: Chat): World
    requires user in w.sessions
  {
    w.(sessions := w.sessions[user := w.sessions[user][id := chat]])
  }

  ghost function DropEntry(w: World, user: UserID, id: ChatID): World
    requires user in w.sessions
  {
    w.(sessions := w.sessions[user := w.sessions[user] - {id}])
  }

  ghost function AddParticipant(w: World, o: LocalChat, p: Participant): World
    requires o in w.participants
  {
    w.(participants := w.participants[o := w.participants[o][p.self := p]])
  }

  /** The chat loses a participant, and leaves its server's map with the last one. */
  ghost function RemoveParticipant(w: World, o: LocalChat, user: UserID): World
    requires o in w.participants
  {
    var rest := w.participants[o] - {user};
    w.(participants := w.participants[o := rest], chats := if rest == map[] then w.chats - {o.chatID} else w.chats)
  }

  ghost function AddChat(w: World, o: LocalChat, user: UserID): World
    requires user in w.sessions && user in w.callbacks
  {
    w.(chats := w.chats[o.chatID := o],
       participants := w.participants[o := map[user := LocalParticipant(user, w.callbacks[user])]],
       sessions := w.sessions[user := w.sessions[user][o.chatID := Local(o)]])
  }

  ghost function AddSession(w: World, user: UserID, k: Client): World {
    w.(sessions := w.sessions[user := map[]], callbacks := w.callbacks[user := k], screens := w.screens[k := map[]])
  }

  ghost function RemoveSession(w: World, user: UserID): World {
    w.(sessions := w.sessions - {user}, callbacks := w.callbacks - {user})
  }

  ghost function SetView(w: World, k: Client, id: ChatID, v: View): World
    requires k in w.screens
  {
    w.(screens := w.screens[k := w.screens[k][id := v]])
  }

  ghost function DropView(w: World, k: Client, id: ChatID): World
    requires k in w.screens
  {
    w.(screens := w.screens[k := w.screens[k] - {id}])
  }

  // ----- Soundness through every change -----

  /** Soundness says nothing about what screens show. */
  lemma SoundWhateverIsShown(w: World, home: string -> Host, screens: map<Client, map<ChatID, View>>)
    requires Sound(w, home) && screens.Keys >= w.screens.Keys
    ensures Sound(w.(screens := screens), home)
  {
    var w' := w.(screens := screens);
    forall u ensures CallbackAt(w', u) { assert CallbackAt(w, u); }
    forall c ensures FiledAt(w', c) { assert FiledAt(w, c); }
    forall o', u | o' in w'.participants ensures ParticipantAt(w', home, o', u) { assert ParticipantAt(w, home, o', u); }
    forall u, c ensures EntryAt(w', home, u, c) { assert EntryAt(w, home, u, c); }
    forall u, c ensures JoinedAt(w', u, c) { assert JoinedAt(w, u, c); }
    forall u, c ensures DepartedAt(w', u, c) { assert DepartedAt(w, u, c); }
  }

  /** An invited user's session learns of the chat first ... */
  lemma SoundAddEntry(w: World, home: string -> Host, user: UserID, id: ChatID)
    requires Sound(w, home) && user in w.sessions && !w.HasEntry(user, id)
    requires home(user) == home(id) ==> id in w.chats
    ensures Sound(AddEntry(w, user, id, if home(user) == home(id) then Local(w.chats[id]) else Remote(id)), home)
  {
    var w' := AddEntry(w, user, id, if home(user) == home(id) then Local(w.chats[id]) else Remote(id));
    forall u ensures CallbackAt(w', u) { assert CallbackAt(w, u); }
    forall c ensures FiledAt(w', c) { assert FiledAt(w, c); }
    forall o', u | o' in w'.participants ensures ParticipantAt(w', home, o', u) { assert ParticipantAt(w, home, o', u); }
    forall u, c ensures EntryAt(w', home, u, c) { assert EntryAt(w, home, u, c); assert FiledAt(w, c); }
    forall u, c ensures JoinedAt(w', u, c) { assert JoinedAt(w, u, c); }
    forall u, c ensures DepartedAt(w', u, c) { assert DepartedAt(w, u, c); }
  }

  /** ... and it becomes a participant last. The entry it got is for the chat in the map, which is `o` unless
      `o` is gone from the map. */
  lemma SoundAddParticipant(w: World, home: string -> Host, o: LocalChat, p: Participant)
    requires Sound(w, home) && o in w.participants && ParticipantValid(w, home, o.chatID, p.self, p)
    requires p.self !in w.participants[o]
    requires p.LocalParticipant? ==>
      && w.HasEntry(p.self, o.chatID) && o.chatID in w.chats && p.self in w.callbacks && p.proxy == w.callbacks[p.self]
      && w.sessions[p.self][o.chatID] == Local(w.chats[o.chatID])
    ensures Sound(AddParticipant(w, o, p), home)
  {
    var w' := AddParticipant(w, o, p);
    forall u ensures CallbackAt(w', u) { assert CallbackAt(w, u); }
    forall c ensures FiledAt(w', c) { assert FiledAt(w, c); assert p.self in w'.participants[o]; }
    forall o', u | o' in w'.participants ensures ParticipantAt(w', home, o', u) { assert ParticipantAt(w, home, o', u); }
    forall u, c ensures EntryAt(w', home, u, c) { assert EntryAt(w, home, u, c); }
    forall u, c ensures JoinedAt(w', u, c) { assert JoinedAt(w, u, c); assert FiledAt(w, c); }
    forall u, c ensures DepartedAt(w', u, c) { assert DepartedAt(w, u, c); assert EntryAt(w, home, u, c); }
  }

  lemma SoundRemoveParticipant(w: World, home: string -> Host, o: LocalChat, user: UserID)
    requires Sound(w, home) && o in w.participants && o.chatID in w.chats && w.chats[o.chatID] == o
    ensures Sound(RemoveParticipant(w, o, user), home)
  {
    var w' := RemoveParticipant(w, o, user);
    forall u ensures CallbackAt(w', u) { assert CallbackAt(w, u); }
    forall c ensures FiledAt(w', c) { assert FiledAt(w, c); }
    forall o', u | o' in w'.participants ensures ParticipantAt(w', home, o', u) { assert ParticipantAt(w, home, o', u); }
    forall u, c ensures EntryAt(w', home, u, c) { assert EntryAt(w, home, u, c); }
    forall u, c ensures JoinedAt(w', u, c) { assert JoinedAt(w, u, c); assert FiledAt(w, c); }
    forall u, c ensures DepartedAt(w', u, c) { assert DepartedAt(w, u, c); assert EntryAt(w, home, u, c); }
  }

  lemma SoundDropEntry(w: World, home: string -> Host, user: UserID, id: ChatID)
    requires Sound(w, home) && w.HasEntry(user, id)
    requires w.Takes(user, id) ==> w.participants[w.chats[id]][user].RemoteParticipant?
    ensures Sound(DropEntry(w, user, id), home)
  {
    var w' := DropEntry(w, user, id);
    forall u ensures CallbackAt(w', u) { assert CallbackAt(w, u); }
    forall c ensures FiledAt(w', c) { assert FiledAt(w, c); }
    forall o', u | o' in w'.participants ensures ParticipantAt(w', home, o', u) { assert ParticipantAt(w, home, o', u); }
    forall u, c ensures EntryAt(w', home, u, c) { assert EntryAt(w, home, u, c); }
    forall u, c ensures JoinedAt(w', u, c) { assert JoinedAt(w, u, c); }
    forall u, c ensures DepartedAt(w', u, c) { assert DepartedAt(w, u, c); }
  }

  lemma SoundAddChat(w: World, home: string -> Host, o: LocalChat, user: UserID)
    requires Sound(w, home) && user in w.sessions && user in w.callbacks && home(user) == home(o.chatID)
    requires o !in w.participants && o.chatID !in w.chats
    ensures Sound(AddChat(w, o, user), home)
  {
    var w' := AddChat(w, o, user);
    forall u ensures CallbackAt(w', u) { assert CallbackAt(w, u); }
    forall c ensures FiledAt(w', c) { assert FiledAt(w, c); assert user in w'.participants[o]; }
    forall o', u | o' in w'.participants
      ensures ParticipantAt(w', home, o', u)
    {
      assert ParticipantAt(w, home, o', u) && CallbackAt(w, user);
    }
    forall u, c ensures EntryAt(w', home, u, c) { assert EntryAt(w, home, u, c); }
    forall u, c ensures JoinedAt(w', u, c) { assert JoinedAt(w, u, c); assert FiledAt(w, c); }
    forall u, c ensures DepartedAt(w', u, c) { assert DepartedAt(w, u, c); assert EntryAt(w, home, u, c); }
  }

  lemma SoundAddSession(w: World, home: string -> Host, user: UserID, k: Client)
    requires Sound(w, home) && user !in w.sessions && k !in w.screens && k.user == user
    ensures Sound(AddSession(w, user, k), home)
  {
    var w' := AddSession(w, user, k);
    forall u ensures CallbackAt(w', u) { assert CallbackAt(w, u); }
    forall c ensures FiledAt(w', c) { assert FiledAt(w, c); }
    forall o', u | o' in w'.participants ensures ParticipantAt(w', home, o', u) { assert ParticipantAt(w, home, o', u); }
    forall u, c ensures EntryAt(w', home, u, c) { assert EntryAt(w, home, u, c); }
    forall u, c ensures JoinedAt(w', u, c) { assert JoinedAt(w, u, c); assert CallbackAt(w, u); }
    forall u, c ensures DepartedAt(w', u, c) { assert DepartedAt(w, u, c); }
  }

  /** A user may go once no chat of the user's own server has it as a participant. */
  lemma SoundRemoveSession(w: World, home: string -> Host, user: UserID)
    requires Sound(w, home)
    requires forall c :: w.Takes(user, c) ==> w.participants[w.chats[c]][user].RemoteParticipant?
    ensures Sound(RemoveSession(w, user), home)
  {
    var w' := RemoveSession(w, user);
    forall u ensures CallbackAt(w', u) { assert CallbackAt(w, u); }
    forall c ensures FiledAt(w', c) { assert FiledAt(w, c); }
    forall o', u | o' in w'.participants ensures ParticipantAt(w', home, o', u) { assert ParticipantAt(w, home, o', u); }
    forall u, c ensures EntryAt(w', home, u, c) { assert EntryAt(w, home, u, c); }
    forall u, c ensures JoinedAt(w', u, c) { assert JoinedAt(w, u, c); }
    forall u, c ensures DepartedAt(w', u, c) { assert DepartedAt(w, u, c); }
  }

  // ----- News that chats pass on to client screens -----

  /** What a loop that takes `x` off its `todo` set adds to what is done. */
  lemma OneFewer<T>(all: set<T>, todo: set<T>, x: T)
    requires x in todo && todo <= all
    ensures all - todo + {x} == all - (todo - {x})
  {}

  ghost predicate Hears(w: World, o: LocalChat, k: Client)
    requires o in w.participants
  {
    k.user in w.participants[o] && w.EndClient(w.participants[o][k.user]) == k
  }

  /** One client hears the news about chat `id`. */
  ghost function Tell(w: World, k: Client, id: ChatID, news: News): World
    requires k in w.screens
  {
    if id in w.screens[k] then SetView(w, k, id, Heard(w.screens[k][id], news)) else w
  }

  /** Only what screens show has changed. */
  ghost predicate OnlyScreens(w: World, w': World) {
    w' == w.(screens := w'.screens) && w'.screens.Keys == w.screens.Keys
  }

  /** What client `k` shows when all participants in `whom` have heard the news. */
  ghost function Screen(w: World, o: LocalChat, whom: set<UserID>, news: News, k: Client): map<ChatID, View>
    requires o in w.participants && k in w.screens
  {
    if k.user in whom && Hears(w, o, k) && o.chatID in w.screens[k]
    then w.screens[k][o.chatID := Heard(w.screens[k][o.chatID], news)] else w.screens[k]
  }

  /** All participants in `whom` have heard the news. */
  ghost function TellAll(w: World, o: LocalChat, whom: set<UserID>, news: News): (w': World)
    requires o in w.participants
    ensures OnlyScreens(w, w')
  {
    w.(screens := map k | k in w.screens :: Screen(w, o, whom, news, k))
  }

  /** What that makes of one user's view of one chat. */
  lemma ViewAfterTelling(w: World, o: LocalChat, whom: set<UserID>, news: News, user: UserID, id: ChatID)
    requires o in w.participants && CallbackAt(w, user)
    ensures var w' := TellAll(w, o, whom, news);
      && (w'.Shows(user, id) <==> w.Shows(user, id))
      && (w.Shows(user, id) ==>
            w'.ViewOf(user, id) == if id == o.chatID && user in whom && Hears(w, o, w.callbacks[user])
                                   then Heard(w.ViewOf(user, id), news) else w.ViewOf(user, id))
  {}

  lemma TellNobody(w: World, o: LocalChat, news: News)
    requires o in w.participants
    ensures TellAll(w, o, {}, news) == w
  {
    assert TellAll(w, o, {}, news).screens == w.screens;
  }

  /** Every participant has a screen that shows the chat. */
  ghost predicate AllReached(w: World, o: LocalChat)
    requires o in w.participants
  {
    forall v :: v in w.participants[o] ==>
      var k := w.EndClient(w.participants[o][v]); k != null && k in w.screens && o.chatID in w.screens[k]
  }

  lemma TellOneMore(w: World, o: LocalChat, done: set<UserID>, v: UserID, news: News)
    requires o in w.participants && v in w.participants[o] && v !in done
    requires var k := w.EndClient(w.participants[o][v]); k != null && k in w.screens && k.user == v
    ensures var k := w.EndClient(w.participants[o][v]);
            Tell(TellAll(w, o, done, news), k, o.chatID, news) == TellAll(w, o, done + {v}, news)
  {
    var w1, w2 := TellAll(w, o, done, news), TellAll(w, o, done + {v}, news);
    forall k1 | k1 in w.screens
      ensures w2.screens[k1] == Tell(w1, w.EndClient(w.participants[o][v]), o.chatID, news).screens[k1]
    {
      TellOneMoreAt(w, o, done, v, news, k1);
    }
    assert w2.screens == Tell(w1, w.EndClient(w.participants[o][v]), o.chatID, news).screens;
  }

  lemma TellOneMoreAt(w: World, o: LocalChat, done: set<UserID>, v: UserID, news: News, k1: Client)
    requires o in w.participants && v in w.participants[o] && v !in done && k1 in w.screens
    requires var k := w.EndClient(w.participants[o][v]); k != null && k in w.screens && k.user == v
    ensures var (k, w1, w2) := (w.EndClient(w.participants[o][v]), TellAll(w, o, done, news), TellAll(w, o, done + {v}, news));
      w2.screens[k1] == Tell(w1, k, o.chatID, news).screens[k1]
  {
    assert k1.user == v && Hears(w, o, k1) <==> k1 == w.EndClient(w.participants[o][v]);
  }

  /** A participant stays a valid one, whatever screens show meanwhile. */
  lemma StillValid(w: World, w': World, home: string -> Host, o: LocalChat, v: UserID)
    requires Sound(w, home) && OnlyScreens(w, w')
    requires o in w.participants && v in w.participants[o]
    ensures Sound(w', home)
    ensures ParticipantValid(w', home, o.chatID, v, w.participants[o][v])
    ensures w'.EndClient(w.participants[o][v]) == w.EndClient(w.participants[o][v])
  {
    assert ParticipantAt(w, home, o, v);
    SoundWhateverIsShown(w, home, w'.screens);
  }

  // ----- Agreement with the abstract table, when nothing fails -----

  ghost predicate RoomAt(w: World, t: Table, id: ChatID) {
    && (id in w.chats <==> id in t.rooms)
    && (id in w.chats ==>
          && w.chats[id] in w.participants && w.participants[w.chats[id]].Keys == t.rooms[id].Members()
          && t.rooms[id].logs != map[] && t.rooms[id].Members() <= t.online)
  }

  ghost predicate SessionAt(w: World, t: Table, user: UserID, id: ChatID) {
    w.HasEntry(user, id) <==> t.IsMember(user, id)
  }

  ghost predicate ScreenAt(w: World, t: Table, user: UserID, id: ChatID) {
    && (w.Shows(user, id) <==> t.IsMember(user, id))
    && (t.IsMember(user, id) ==>
          w.ViewOf(user, id) == View(t.rooms[id].Members(), t.rooms[id].key, t.rooms[id].logs[user]))
  }

  /** The places that store who is in which chat all say what the table says; nothing is claimed of the
      sessions and the screens that have yet to hear of a change. */
  ghost predicate Agrees(w: World, t: Table, sessionLag: set<(UserID, ChatID)>, screenLag: set<(UserID, ChatID)>) {
    && w.sessions.Keys == t.online
    && (forall c :: RoomAt(w, t, c))
    && (forall u, c :: (u, c) !in sessionLag ==> SessionAt(w, t, u, c))
    && (forall u, c :: (u, c) !in screenLag ==> ScreenAt(w, t, u, c))
  }

  /** The places that store who is in which chat agree: the user's session, the chat at its server and the user's
      client, which shows exactly the participants. */
  lemma MembershipAgrees(w: World, home: string -> Host, t: Table, user: UserID, id: ChatID)
    requires Sound(w, home) && Agrees(w, t, {}, {})
    ensures w.HasEntry(user, id) <==> w.Takes(user, id)
    ensures w.HasEntry(user, id) <==> w.Shows(user, id)
    ensures w.Shows(user, id) ==> w.ViewOf(user, id).users == w.participants[w.chats[id]].Keys
  {
    assert RoomAt(w, t, id) && SessionAt(w, t, user, id) && ScreenAt(w, t, user, id) && FiledAt(w, id);
  }

  /** Any two members see the same users and hold the same key, and one has seen the last messages that the other
      has seen. */
  lemma MembersAgree(w: World, t: Table, id: ChatID, m: UserID, n: UserID)
    requires Agrees(w, t, {}, {}) && SameOrder(t) && w.Shows(m, id) && w.Shows(n, id)
    ensures w.ViewOf(m, id).users == w.ViewOf(n, id).users && w.ViewOf(m, id).key == w.ViewOf(n, id).key
    ensures IsSuffix(w.ViewOf(m, id).log, w.ViewOf(n, id).log) || IsSuffix(w.ViewOf(n, id).log, w.ViewOf(m, id).log)
  {
    assert ScreenAt(w, t, m, id) && ScreenAt(w, t, n, id) && SameOrderAt(t, id, m, n);
  }

  /** Where an operation on chat `id` starts from: the chat object, its participants and their screens. */
  lemma Reachable(w: World, home: string -> Host, t: Table, id: ChatID)
    requires Sound(w, home) && Agrees(w, t, {}, {}) && id in t.rooms
    ensures id in w.chats && w.chats[id].chatID == id && w.chats[id] in w.participants
    ensures w.participants[w.chats[id]].Keys == t.rooms[id].Members()
    ensures AllReached(w, w.chats[id])
    ensures forall k :: k in w.screens ==>
              (Hears(w, w.chats[id], k) <==> k.user in t.rooms[id].logs && k.user in w.callbacks && w.callbacks[k.user] == k)
  {
    assert RoomAt(w, t, id) && FiledAt(w, id);
    var o := w.chats[id];
    forall v | v in w.participants[o]
      ensures v in w.callbacks && w.callbacks[v].user == v && w.EndClient(w.participants[o][v]) == w.callbacks[v]
      ensures w.callbacks[v] in w.screens && id in w.screens[w.callbacks[v]]
    {
      assert ParticipantAt(w, home, o, v) && JoinedAt(w, v, id) && CallbackAt(w, v) && ScreenAt(w, t, v, id);
      assert w.Takes(v, id) && t.IsMember(v, id);
    }
  }

  // ----- Invite -----

  /** The participant object that an invitation makes, and the entry that goes into the session. */
  ghost function PartyOf(w: World, home: string -> Host, user: UserID, id: ChatID): Participant
    requires user in w.callbacks
  {
    if home(user) == home(id) then LocalParticipant(user, w.callbacks[user]) else RemoteParticipant(user, home(user))
  }

  ghost function EntryOf(w: World, home: string -> Host, user: UserID, id: ChatID): Chat
    requires home(user) == home(id) ==> id in w.chats
  {
    if home(user) == home(id) then Local(w.chats[id]) else Remote(id)
  }

  /** The session and the client of the invited user know of the chat. */
  ghost function Admitted(w: World, home: string -> Host, o: LocalChat, user: UserID, key: Bytes): World
    requires o in w.participants && (home(user) == home(o.chatID) ==> o.chatID in w.chats)
    requires user in w.sessions && user in w.callbacks && w.callbacks[user] in w.screens
  {
    SetView(AddEntry(w, user, o.chatID, EntryOf(w, home, user, o.chatID)), w.callbacks[user], o.chatID,
            View(w.participants[o].Keys + {user}, key, []))
  }

  /** The whole effect of an invitation that goes through. */
  ghost function Invited(w: World, home: string -> Host, o: LocalChat, user: UserID, key: Bytes): World
    requires o in w.participants && (home(user) == home(o.chatID) ==> o.chatID in w.chats)
    requires user in w.sessions && user in w.callbacks && w.callbacks[user] in w.screens
  {
    AddParticipant(TellAll(Admitted(w, home, o, user, key), o, w.participants[o].Keys, HasJoined(user)), o,
                   PartyOf(w, home, user, o.chatID))
  }

  /** Nothing stands in the way of an invitation. */
  ghost predicate Invitable(w: World, home: string -> Host, o: LocalChat, user: UserID) {
    && o in w.participants && o.chatID in w.chats && user !in w.participants[o]
    && user in w.sessions && user in w.callbacks && w.callbacks[user] in w.screens
    && !w.HasEntry(user, o.chatID) && !w.Shows(user, o.chatID)
  }

  lemma InvitableIn(w: World, home: string -> Host, t: Table, id: ChatID, user: UserID)
    requires Sound(w, home) && Agrees(w, t, {}, {})
    requires id in t.rooms && user in t.online && !t.IsMember(user, id)
    ensures id in w.chats && Invitable(w, home, w.chats[id], user) && w.chats[id].chatID == id
  {
    Reachable(w, home, t, id);
    assert SessionAt(w, t, user, id) && ScreenAt(w, t, user, id) && CallbackAt(w, user);
  }

  lemma InviteAgrees(w: World, home: string -> Host, t: Table, id: ChatID, user: UserID)
    requires Sound(w, home) && Agrees(w, t, {}, {})
    requires id in t.rooms && user in t.online && !t.IsMember(user, id)
    requires id in w.chats && Invitable(w, home, w.chats[id], user)
    ensures Agrees(Invited(w, home, w.chats[id], user, t.rooms[id].key), Join(t, user, id), {}, {})
  {
    Reachable(w, home, t, id);
    var o, members := w.chats[id], t.rooms[id].Members();
    var w', t' := Invited(w, home, o, user, t.rooms[id].key), Join(t, user, id);
    assert t'.rooms[id].Members() == members + {user};
    forall c ensures RoomAt(w', t', c) { assert RoomAt(w, t, c) && FiledAt(w, c); }
    forall u, c ensures SessionAt(w', t', u, c) { assert SessionAt(w, t, u, c); }
    forall u, c ensures ScreenAt(w', t', u, c) { InviteScreenAt(w, home, t, id, user, u, c); }
  }

  lemma InviteScreenAt(w: World, home: string -> Host, t: Table, id: ChatID, user: UserID, u: UserID, c: ChatID)
    requires Sound(w, home) && Agrees(w, t, {}, {})
    requires id in t.rooms && user in t.online && !t.IsMember(user, id)
    requires id in w.chats && Invitable(w, home, w.chats[id], user)
    ensures ScreenAt(Invited(w, home, w.chats[id], user, t.rooms[id].key), Join(t, user, id), u, c)
  {
    Reachable(w, home, t, id);
    assert Join(t, user, id).rooms[id].Members() == t.rooms[id].Members() + {user};
    assert ScreenAt(w, t, u, c) && CallbackAt(w, u) && CallbackAt(w, user);
  }

  lemma SoundInvited(w: World, home: string -> Host, o: LocalChat, user: UserID)
    requires Sound(w, home) && o in w.participants && user !in w.participants[o]
    requires user in w.sessions && user in w.callbacks
    requires home(user) == home(o.chatID) ==>
               o.chatID in w.chats && w.HasEntry(user, o.chatID) && w.sessions[user][o.chatID] == Local(w.chats[o.chatID])
    ensures Sound(AddParticipant(w, o, PartyOf(w, home, user, o.chatID)), home)
  {
    assert CallbackAt(w, user);
    SoundAddParticipant(w, home, o, PartyOf(w, home, user, o.chatID));
  }

  /** What an invitation has done by the time it calls the participants: nothing, or an entry in the session of
      the invited user and perhaps something on its screen. */
  ghost predicate Admitting(w: World, w': World, home: string -> Host, user: UserID, id: ChatID) {
    || w' == w
    || (&& user in w.sessions && user in w.callbacks && !w.HasEntry(user, id) && (home(user) == home(id) ==> id in w.chats)
        && OnlyScreens(AddEntry(w, user, id, EntryOf(w, home, user, id)), w'))
  }

  lemma SoundAdmitting(w: World, w': World, home: string -> Host, user: UserID, id: ChatID)
    requires Sound(w, home) && Admitting(w, w', home, user, id)
    ensures Sound(w', home)
  {
    if w' != w {
      SoundAddEntry(w, home, user, id);
      SoundWhateverIsShown(AddEntry(w, user, id, EntryOf(w, home, user, id)), home, w'.screens);
    }
  }

  /** The same a little later: only screens have changed since, and the invited user may be entered. */
  lemma AdmittingStays(w: World, w1: World, w2: World, home: string -> Host, user: UserID, o: LocalChat)
    requires Sound(w, home) && Admitting(w, w1, home, user, o.chatID) && w1 != w && OnlyScreens(w1, w2)
    requires o in w.participants && user !in w.participants[o]
    ensures Sound(w2, home) && Sound(AddParticipant(w2, o, PartyOf(w, home, user, o.chatID)), home)
  {
    SoundAdmitting(w, w1, home, user, o.chatID);
    SoundWhateverIsShown(w1, home, w2.screens);
    SoundInvited(w2, home, o, user);
  }

  lemma AdmittedReached(w: World, home: string -> Host, o: LocalChat, user: UserID, key: Bytes)
    requires Invitable(w, home, o, user) && AllReached(w, o)
    ensures AllReached(Admitted(w, home, o, user, key), o)
  {}

  // ----- Send -----

  lemma SendAgrees(w: World, home: string -> Host, t: Table, id: ChatID, cipher: BlockCipher,
                   sender: UserID, message: Bytes, text: Bytes)
    requires Sound(w, home) && Agrees(w, t, {}, {}) && t.IsMember(sender, id)
    requires DecryptAES(cipher, t.rooms[id].key, message) == Success(text)
    requires id in w.chats && w.chats[id] in w.participants
    ensures Agrees(TellAll(w, w.chats[id], t.rooms[id].Members(), HasSaid(cipher, sender, message)),
                   Send(t, sender, id, text), {}, {})
  {
    Reachable(w, home, t, id);
    var w' := TellAll(w, w.chats[id], t.rooms[id].Members(), HasSaid(cipher, sender, message));
    var t' := Send(t, sender, id, text);
    assert t'.rooms[id].Members() == t.rooms[id].Members();
    forall c ensures RoomAt(w', t', c) { assert RoomAt(w, t, c) && FiledAt(w, c); }
    forall u, c
      ensures SessionAt(w', t', u, c)
    {
      assert SessionAt(w, t, u, c);
      SendMovesNobody(t, sender, id, text, u, c);
    }
    forall u, c ensures ScreenAt(w', t', u, c) { SendScreenAt(w, home, t, id, cipher, sender, message, text, u, c); }
  }

  lemma SendMovesNobody(t: Table, sender: UserID, id: ChatID, text: Bytes, u: UserID, c: ChatID)
    ensures Send(t, sender, id, text).IsMember(u, c) <==> t.IsMember(u, c)
  {}

  lemma SendScreenAt(w: World, home: string -> Host, t: Table, id: ChatID, cipher: BlockCipher,
                     sender: UserID, message: Bytes, text: Bytes, u: UserID, c: ChatID)
    requires Sound(w, home) && Agrees(w, t, {}, {}) && t.IsMember(sender, id)
    requires DecryptAES(cipher, t.rooms[id].key, message) == Success(text)
    requires id in w.chats && w.chats[id] in w.participants
    ensures ScreenAt(TellAll(w, w.chats[id], t.rooms[id].Members(), HasSaid(cipher, sender, message)),
                     Send(t, sender, id, text), u, c)
  {
    Reachable(w, home, t, id);
    assert ScreenAt(w, t, u, c) && CallbackAt(w, u);
    ViewAfterTelling(w, w.chats[id], t.rooms[id].Members(), HasSaid(cipher, sender, message), u, c);
    SendMovesNobody(t, sender, id, text, u, c);
    if c == id && t.IsMember(u, id) {
      SendLogs(t, sender, id, text, u);
      assert Hears(w, w.chats[id], w.callbacks[u]);
    } else if t.IsMember(u, c) {
      assert Send(t, sender, id, text).rooms[c] == t.rooms[c];
    }
  }

  lemma SendLogs(t: Table, sender: UserID, id: ChatID, text: Bytes, u: UserID)
    requires t.IsMember(sender, id) && t.IsMember(u, id)
    ensures var room := Send(t, sender, id, text).rooms[id];
      && room.Members() == t.rooms[id].Members() && room.key == t.rooms[id].key
      && u in room.logs && room.logs[u] == t.rooms[id].logs[u] + [Message(sender, text)]
  {}

  // ----- Leave -----

  /** A participant that lags behind nothing is reached through the client of its live session. */
  lemma ReachableAt(w: World, home: string -> Host, t: Table, sessionLag: set<(UserID, ChatID)>,
                    screenLag: set<(UserID, ChatID)>, id: ChatID, v: UserID)
    requires Sound(w, home) && Agrees(w, t, sessionLag, screenLag)
    requires t.IsMember(v, id) && (v, id) !in screenLag
    ensures id in w.chats && w.chats[id] in w.participants && v in w.participants[w.chats[id]]
    ensures v in w.callbacks && w.EndClient(w.participants[w.chats[id]][v]) == w.callbacks[v]
    ensures w.callbacks[v].user == v && w.callbacks[v] in w.screens && id in w.screens[w.callbacks[v]]
  {
    assert RoomAt(w, t, id) && FiledAt(w, id);
    var o := w.chats[id];
    assert ParticipantAt(w, home, o, v) && JoinedAt(w, v, id) && CallbackAt(w, v) && ScreenAt(w, t, v, id);
    assert w.Takes(v, id);
  }

  /** The effect at the chat of one participant leaving. */
  ghost function Parted(w: World, o: LocalChat, user: UserID): World
    requires o in w.participants
  {
    TellAll(RemoveParticipant(w, o, user), o, w.participants[o].Keys - {user}, HasLeft(user))
  }

  lemma LeaveReaches(w: World, home: string -> Host, t: Table, sessionLag: set<(UserID, ChatID)>,
                     screenLag: set<(UserID, ChatID)>, id: ChatID, user: UserID)
    requires Sound(w, home) && Agrees(w, t, sessionLag, screenLag) && t.IsMember(user, id)
    requires forall x :: x in screenLag ==> x.0 == user
    requires id in w.chats && w.chats[id] in w.participants
    ensures AllReached(RemoveParticipant(w, w.chats[id], user), w.chats[id])
    ensures w.chats[id].chatID == id && w.participants[w.chats[id]].Keys == t.rooms[id].Members()
    ensures forall v :: v in w.participants[w.chats[id]] && v != user ==>
              v in w.callbacks && w.EndClient(w.participants[w.chats[id]][v]) == w.callbacks[v] && w.callbacks[v].user == v
  {
    assert RoomAt(w, t, id) && FiledAt(w, id);
    forall v | v in w.participants[w.chats[id]] && v != user
      ensures v in w.callbacks && w.EndClient(w.participants[w.chats[id]][v]) == w.callbacks[v]
      ensures w.callbacks[v].user == v && w.callbacks[v] in w.screens && id in w.screens[w.callbacks[v]]
    {
      ReachableAt(w, home, t, sessionLag, screenLag, id, v);
    }
  }

  lemma LeaveScreenAt(w: World, home: string -> Host, t: Table, sessionLag: set<(UserID, ChatID)>,
                      screenLag: set<(UserID, ChatID)>, id: ChatID, user: UserID, u: UserID, c: ChatID)
    requires Sound(w, home) && Agrees(w, t, sessionLag, screenLag) && t.IsMember(user, id)
    requires forall x :: x in screenLag ==> x.0 == user
    requires id in w.chats && w.chats[id] in w.participants
    requires (u, c) !in screenLag + {(user, id)}
    ensures ScreenAt(Parted(w, w.chats[id], user), Leave(t, user, id), u, c)
  {
    LeaveReaches(w, home, t, sessionLag, screenLag, id, user);
    assert ScreenAt(w, t, u, c) && CallbackAt(w, u);
    var o := w.chats[id];
    var w1 := RemoveParticipant(w, o, user);
    assert CallbackAt(w1, u) && w1.participants[o].Keys == w.participants[o].Keys - {user};
    ViewAfterTelling(w1, o, w.participants[o].Keys - {user}, HasLeft(user), u, c);
    assert c == id && t.rooms[id].Members() != {user} ==> Leave(t, user, id).rooms[id].Members() == t.rooms[id].Members() - {user};
  }

  lemma LeaveRoomAt(w: World, home: string -> Host, t: Table, sessionLag: set<(UserID, ChatID)>,
                    screenLag: set<(UserID, ChatID)>, id: ChatID, user: UserID, c: ChatID)
    requires Sound(w, home) && Agrees(w, t, sessionLag, screenLag) && t.IsMember(user, id)
    requires forall x :: x in screenLag ==> x.0 == user
    requires id in w.chats && w.chats[id] in w.participants
    ensures RoomAt(Parted(w, w.chats[id], user), Leave(t, user, id), c)
  {
    LeaveReaches(w, home, t, sessionLag, screenLag, id, user);
    var rest := w.participants[w.chats[id]] - {user};
    assert rest.Keys == t.rooms[id].Members() - {user} && (rest == map[] <==> rest.Keys == {});
    assert RoomAt(w, t, c) && FiledAt(w, c);
  }

  lemma LeaveAgrees(w: World, home: string -> Host, t: Table, sessionLag: set<(UserID, ChatID)>,
                    screenLag: set<(UserID, ChatID)>, id: ChatID, user: UserID)
    requires Sound(w, home) && Agrees(w, t, sessionLag, screenLag) && t.IsMember(user, id)
    requires forall x :: x in screenLag ==> x.0 == user
    requires id in w.chats && w.chats[id] in w.participants
    ensures AllReached(RemoveParticipant(w, w.chats[id], user), w.chats[id])
    ensures Agrees(Parted(w, w.chats[id], user), Leave(t, user, id), sessionLag + {(user, id)}, screenLag + {(user, id)})
  {
    LeaveReaches(w, home, t, sessionLag, screenLag, id, user);
    var w', t' := Parted(w, w.chats[id], user), Leave(t, user, id);
    forall c ensures RoomAt(w', t', c) { LeaveRoomAt(w, home, t, sessionLag, screenLag, id, user, c); }
    forall u, c | (u, c) !in sessionLag + {(user, id)}
      ensures SessionAt(w', t', u, c)
    {
      assert SessionAt(w, t, u, c);
    }
    forall u, c | (u, c) !in screenLag + {(user, id)}
      ensures ScreenAt(w', t', u, c)
    {
      LeaveScreenAt(w, home, t, sessionLag, screenLag, id, user, u, c);
    }
  }

  lemma DropEntryAgrees(w: World, t: Table, sessionLag: set<(UserID, ChatID)>, screenLag: set<(UserID, ChatID)>,
                        id: ChatID, user: UserID)
    requires Agrees(w, t, sessionLag, screenLag) && user in w.sessions && !t.IsMember(user, id)
    ensures Agrees(DropEntry(w, user, id), t, sessionLag - {(user, id)}, screenLag)
  {
    var w' := DropEntry(w, user, id);
    forall c ensures RoomAt(w', t, c) { assert RoomAt(w, t, c); }
    forall u, c | (u, c) !in sessionLag - {(user, id)}
      ensures SessionAt(w', t, u, c)
    {
      assert (u, c) !in sessionLag ==> SessionAt(w, t, u, c);
    }
    forall u, c | (u, c) !in screenLag ensures ScreenAt(w', t, u, c) { assert ScreenAt(w, t, u, c); }
  }

  lemma DropViewAgrees(w: World, home: string -> Host, t: Table, sessionLag: set<(UserID, ChatID)>,
                       screenLag: set<(UserID, ChatID)>, id: ChatID, user: UserID)
    requires Sound(w, home) && Agrees(w, t, sessionLag, screenLag) && user in w.sessions && !t.IsMember(user, id)
    requires user in w.callbacks && w.callbacks[user] in w.screens
    ensures Agrees(DropView(w, w.callbacks[user], id), t, sessionLag, screenLag - {(user, id)})
  {
    var w' := DropView(w, w.callbacks[user], id);
    forall c ensures RoomAt(w', t, c) { assert RoomAt(w, t, c); }
    forall u, c | (u, c) !in sessionLag ensures SessionAt(w', t, u, c) { assert SessionAt(w, t, u, c); }
    forall u, c | (u, c) !in screenLag - {(user, id)}
      ensures ScreenAt(w', t, u, c)
    {
      assert (u, c) !in screenLag ==> ScreenAt(w, t, u, c);
      assert CallbackAt(w, u) && CallbackAt(w, user);
    }
  }

  // ----- Create -----

  /** An ID that is free on its server is free everywhere: no session and no screen still holds an earlier
      chat under it. */
  lemma FreeIdIsFreeEverywhere(w: World, t: Table, id: ChatID)
    requires Agrees(w, t, {}, {}) && id !in w.chats
    ensures forall u :: !w.HasEntry(u, id) && !w.Shows(u, id)
  {
    assert RoomAt(w, t, id);
    forall u
      ensures !w.HasEntry(u, id) && !w.Shows(u, id)
    {
      assert SessionAt(w, t, u, id) && ScreenAt(w, t, u, id);
    }
  }

  lemma CreateAgrees(w: World, home: string -> Host, t: Table, o: LocalChat, user: UserID, key: Bytes)
    requires Sound(w, home) && Agrees(w, t, {}, {})
    requires user in w.sessions && user in w.callbacks && o !in w.participants && o.chatID !in w.chats
    ensures Agrees(AddChat(w, o, user), Create(t, user, o.chatID, key), {}, {(user, o.chatID)})
  {
    var w', t' := AddChat(w, o, user), Create(t, user, o.chatID, key);
    assert user in t'.rooms[o.chatID].logs;
    forall c ensures RoomAt(w', t', c) { assert RoomAt(w, t, c) && FiledAt(w, c); }
    forall u, c
      ensures SessionAt(w', t', u, c) && ((u, c) != (user, o.chatID) ==> ScreenAt(w', t', u, c))
    {
      CreatePlaceAt(w, t, o, user, key, u, c);
    }
  }

  lemma CreatePlaceAt(w: World, t: Table, o: LocalChat, user: UserID, key: Bytes, u: UserID, c: ChatID)
    requires Agrees(w, t, {}, {}) && user in w.sessions && user in w.callbacks && o.chatID !in w.chats
    ensures SessionAt(AddChat(w, o, user), Create(t, user, o.chatID, key), u, c)
    ensures (u, c) != (user, o.chatID) ==> ScreenAt(AddChat(w, o, user), Create(t, user, o.chatID, key), u, c)
  {
    FreeIdIsFreeEverywhere(w, t, o.chatID);
    assert SessionAt(w, t, u, c) && ScreenAt(w, t, u, c);
  }

  lemma CreatedAgrees(w: World, home: string -> Host, t: Table, id: ChatID, user: UserID)
    requires Sound(w, home) && Agrees(w, t, {}, {(user, id)})
    requires user in w.callbacks && w.callbacks[user] in w.screens
    requires t.IsMember(user, id) && t.rooms[id].logs == map[user := []]
    ensures Agrees(SetView(w, w.callbacks[user], id, View({user}, t.rooms[id].key, [])), t, {}, {})
  {
    var w' := SetView(w, w.callbacks[user], id, View({user}, t.rooms[id].key, []));
    forall c ensures RoomAt(w', t, c) { assert RoomAt(w, t, c); }
    forall u, c ensures SessionAt(w', t, u, c) { assert SessionAt(w, t, u, c); }
    forall u, c
      ensures ScreenAt(w', t, u, c)
    {
      assert (u, c) != (user, id) ==> ScreenAt(w, t, u, c);
      assert CallbackAt(w, u) && CallbackAt(w, user);
    }
  }

  // ----- Log in and out -----

  lemma LoginAgrees(w: World, home: string -> Host, t: Table, user: UserID, k: Client)
    requires Sound(w, home) && Agrees(w, t, {}, {}) && user !in w.sessions && k !in w.screens && k.user == user
    ensures Agrees(AddSession(w, user, k), Login(t, user), {}, {})
  {
    var w', t' := AddSession(w, user, k), Login(t, user);
    forall c ensures RoomAt(w', t', c) { assert RoomAt(w, t, c); }
    forall u, c ensures SessionAt(w', t', u, c) { assert SessionAt(w, t, u, c); }
    forall u, c ensures ScreenAt(w', t', u, c) { assert ScreenAt(w, t, u, c) && CallbackAt(w, u) && RoomAt(w, t, c); }
  }

  lemma LogoutAgrees(w: World, t: Table, sessionLag: set<(UserID, ChatID)>, screenLag: set<(UserID, ChatID)>, user: UserID)
    requires Agrees(w, t, sessionLag, screenLag)
    requires forall x :: x in sessionLag + screenLag ==> x.0 == user
    requires forall c :: !t.IsMember(user, c)
    ensures Agrees(RemoveSession(w, user), t.(online := t.online - {user}), {}, {})
  {
    var w', t' := RemoveSession(w, user), t.(online := t.online - {user});
    forall c ensures RoomAt(w', t', c) { assert RoomAt(w, t, c) && !t.IsMember(user, c); }
    forall u, c
      ensures SessionAt(w', t', u, c)
    {
      assert u != user ==> SessionAt(w, t, u, c);
      assert !t.IsMember(user, c);
    }
    forall u, c
      ensures ScreenAt(w', t', u, c)
    {
      assert u != user ==> ScreenAt(w, t, u, c);
      assert !t.IsMember(user, c);
    }
  }
}
