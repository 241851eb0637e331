/** The calls between clients and servers and among servers: who calls whom, what each caller does with an
    exception, and what the whole federation looks like afterwards. Every call that leaves a process may be
    refused or lost, before or after it took effect, unless the network is reliable. */
module Federation {
  import opened Identifiers
  import opened Security
  import opened ClientBackend
  import opened Servers
  import opened Worlds

  /** What happens to one remote call. A refused call throws a declared exception and has no effect. */
  datatype Fate = Delivered | Refused | RequestLost | ReplyLost

  /** What happens to the two calls that bring news to a participant: the one to the participant's server, if that is
      not the chat's own, and the one to the client. */
  datatype Path = Path(toServer: Fate, toClient: Fate)

  ghost predicate GetsThrough(f: Fate) {
    f.Delivered? || f.ReplyLost?
  }

  /** The news comes to the participant's client. */
  ghost predicate Arrives(w: World, hosts: set<Host>, p: Participant, path: Path) {
    && GetsThrough(path.toClient)
    && (p.RemoteParticipant? ==> GetsThrough(path.toServer) && p.host in hosts && p.self in w.callbacks)
  }

  /** The exception that a notification declares. */
  function Declared(news: News): Exn {
    if news.HasSaid? then MessageCallback else Participation
  }

  /** What the chat hears of it. A client without the chat refuses. A local participant swallows the declared
      exception of a leave, a remote one every declared exception. */
  ghost function Answer(w: World, hosts: set<Host>, p: Participant, id: ChatID, news: News, path: Path): Outcome {
    match p
    case LocalParticipant(_, proxy) =>
      if path.toClient.RequestLost? || path.toClient.ReplyLost? then Threw(Transport)
      else if path.toClient.Delivered? && proxy in w.screens && id in w.screens[proxy] then Done
      else if news.HasLeft? then Done
      else Threw(Declared(news))
    case RemoteParticipant(_, host) =>
      if path.toServer.RequestLost? || path.toServer.ReplyLost? || host !in hosts then Threw(Transport) else Done
  }

  /** What happens to one participant's calls keeps a loop from going on: a transport failure, and if someone has joined
      also that the client of a participant of the chat's own server cannot be told. */
  ghost predicate Breaks(w: World, hosts: set<Host>, p: Participant, id: ChatID, news: News, path: Path) {
    match p
    case LocalParticipant(_, proxy) =>
      || path.toClient.RequestLost? || path.toClient.ReplyLost?
      || (news.HasJoined? && (path.toClient.Refused? || proxy !in w.screens || id !in w.screens[proxy]))
    case RemoteParticipant(_, host) =>
      path.toServer.RequestLost? || path.toServer.ReplyLost? || host !in hosts
  }

  lemma AnswerBreaks(w: World, hosts: set<Host>, p: Participant, id: ChatID, news: News, path: Path)
    ensures Breaks(w, hosts, p, id, news, path) <==>
      var r := Answer(w, hosts, p, id, news, path); r.Threw? && (news.HasSaid? ==> r == Threw(Transport))
  {}

  /** Everyone has had a turn: the news of a change in `o` is with exactly those participants whose own calls got through,
      and nobody's kept it from going on to the next. */
  ghost predicate WentRound(w: World, w': World, hosts: set<Host>, o: LocalChat, news: News) {
    o in w.participants && exists weather: UserID -> Path :: WentRoundIn(w, w', hosts, o, news, weather)
  }

  ghost predicate WentRoundIn(w: World, w': World, hosts: set<Host>, o: LocalChat, news: News, weather: UserID -> Path)
    requires o in w.participants
  {
    && w' == TellAll(w, o, Reached(w, hosts, o, weather), news)
    && forall v :: v in w.participants[o] ==> !Breaks(w, hosts, w.participants[o][v], o.chatID, news, weather(v))
  }

  /** The news is with some of the participants, and nothing else has changed. */
  ghost predicate ToldSome(w: World, w': World, o: LocalChat, news: News)
    requires o in w.participants
  {
    exists told :: told <= w.participants[o].Keys && w' == TellAll(w, o, told, news)
  }

  /** The invited user has a session without the chat and a client that does not show it. */
  ghost predicate CanAdmit(w: World, home: string -> Host, o: LocalChat, user: UserID) {
    && o in w.participants && user in w.sessions && user in w.callbacks && w.callbacks[user] in w.screens
    && !w.HasEntry(user, o.chatID) && !w.Shows(user, o.chatID) && (home(user) == home(o.chatID) ==> o.chatID in w.chats)
  }

  /** An invitation has had its whole effect: the user's session and client have got the chat, with the key; then the loop
      went round; and then the user was entered. */
  ghost predicate Entered(w: World, w': World, home: string -> Host, hosts: set<Host>, o: LocalChat, user: UserID, key: Bytes) {
    && CanAdmit(w, home, o, user) && user !in w.participants[o]
    && WentRound(Admitted(w, home, o, user, key), w'.(participants := w.participants), hosts, o, HasJoined(user))
    && w'.participants == w.participants[o := w.participants[o][user := PartyOf(w, home, user, o.chatID)]]
  }

  lemma EnteredIsIn(w: World, w': World, home: string -> Host, hosts: set<Host>, id: ChatID, user: UserID, key: Bytes)
    requires id in w.chats && w.chats[id].chatID == id && Entered(w, w', home, hosts, w.chats[id], user, key)
    ensures w'.Takes(user, id) && w'.HasEntry(user, id)
  {
    var w1, w2 := Admitted(w, home, w.chats[id], user, key), w'.(participants := w.participants);
    assert OnlyScreens(w1, w2);
    assert w2.chats == w.chats && w2.sessions == w1.sessions;
  }

  /** An invitation has not entered the user; its session may have got the chat, and clients may have heard of it. */
  ghost predicate NotEntered(w: World, w': World, home: string -> Host, id: ChatID, user: UserID) {
    || OnlyScreens(w, w')
    || (&& user in w.sessions && !w.HasEntry(user, id) && (home(user) == home(id) ==> id in w.chats)
        && OnlyScreens(AddEntry(w, user, id, EntryOf(w, home, user, id)), w'))
  }

  /** The participants of a chat that news arrives at; what becomes of one does not depend on the others. */
  ghost function Reached(w: World, hosts: set<Host>, o: LocalChat, weather: UserID -> Path): set<UserID>
    requires o in w.participants
  {
    set v | v in w.participants[o] && Arrives(w, hosts, w.participants[o][v], weather(v))
  }

  /** All servers of the federation and everything they reach. */
  class Network {
    const servers: map<Host, Server>
    const reliable: bool
    const cipher: BlockCipher
    const keys: UserID -> KeyPair
    /** getServerFromID. It is a constant here to keep its definition out of the proofs below. */
    const home: string -> Host

    /** What all the objects hold. */
    ghost var world: World
    ghost var Repr: set<object>

    constructor (servers: map<Host, Server>, reliable: bool, cipher: BlockCipher, keys: UserID -> KeyPair)
      requires forall h :: h in servers ==>
                 servers[h].hostname == h && servers[h].sessions == map[] && servers[h].chats == map[]
      ensures this.servers == servers && this.reliable == reliable && this.cipher == cipher && this.keys == keys
      ensures home == HostOf && Tied() && world == World(map[], map[], map[], map[], map[])
      ensures Repr == servers.Values + {this}
    {
      this.servers, this.reliable, this.cipher, this.keys, this.home := servers, reliable, cipher, keys, HostOf;
      world := World(map[], map[], map[], map[], map[]);
      Repr := servers.Values + {this};
    }

    // ----- The objects hold what `world` says -----

    ghost predicate SessionTied(h: Host, u: UserID)
      requires h in servers && servers[h] in Repr
      reads this, Repr
    {
      var server := servers[h];
      && (u in server.sessions <==> u in world.sessions && u in world.callbacks && home(u) == h)
      && (u in server.sessions ==>
            var s := server.sessions[u];
            && s in Repr && s.self == u
            && s.chats == world.sessions[u] && s.callback == world.callbacks[u])
    }

    ghost predicate ChatTied(h: Host, c: ChatID)
      requires h in servers && servers[h] in Repr
      reads this, Repr
    {
      var server := servers[h];
      && (c in server.chats <==> c in world.chats && home(c) == h)
      && (c in server.chats ==> server.chats[c] == world.chats[c])
    }

    ghost predicate RosterTied(o: LocalChat)
      reads this, Repr
    {
      o in Repr && o in world.participants && o.participants == world.participants[o] && home(o.chatID) in servers
    }

    ghost predicate ScreenTied(k: Client)
      reads this, Repr
    {
      && k in Repr && k in world.screens
      && k.cipher == cipher && k.keys == keys(k.user)
      && k.chats.Keys == world.screens[k].Keys
      && (forall c :: c in k.chats ==>
            var chat := k.chats[c];
            && chat in Repr && chat.owner == k && chat.chatID == c
            && chat.Now() == world.screens[k][c])
    }

    ghost predicate ServersTied()
      reads this, Repr
    {
      && (forall h :: h in servers ==> servers[h] in Repr && servers[h].hostname == h)
      && (forall h, u :: h in servers ==> SessionTied(h, u))
      && (forall h, c :: h in servers ==> ChatTied(h, c))
      && (forall u :: u in world.sessions ==> home(u) in servers)
      && (forall c :: c in world.chats ==> home(c) in servers)
    }

    ghost predicate RostersTied()
      reads this, Repr
    {
      forall o :: o in world.participants ==> RosterTied(o)
    }

    ghost predicate ScreensTied()
      reads this, Repr
    {
      forall k :: k in world.screens ==> ScreenTied(k)
    }

    ghost predicate Tied()
      reads this, Repr
    {
      this in Repr && ServersTied() && RostersTied() && ScreensTied()
    }

    /** Nothing on the servers has changed. */
    twostate lemma ServersStayTied()
      requires old(ServersTied() && RostersTied()) && OnlyScreens(old(world), world) && old(Repr) <= Repr
      requires forall x :: x in old(Repr) && (x is Server || x is Session || x is LocalChat) ==> unchanged(x)
      ensures ServersTied() && RostersTied()
    {
      forall h, u | h in servers ensures SessionTied(h, u) { assert old(SessionTied(h, u)); }
      forall h, c | h in servers ensures ChatTied(h, c) { assert old(ChatTied(h, c)); }
      forall o | o in world.participants ensures RosterTied(o) { assert old(RosterTied(o)); }
    }

    /** One chat object on one client's screen has changed. */
    twostate lemma TiedAfterNews(chat: ClientChat)
      requires old(Tied()) && chat.owner in old(world.screens) && chat.chatID in old(chat.owner.chats)
      requires old(chat.owner.chats[chat.chatID]) == chat
      requires Repr == old(Repr)
      requires forall x :: x in Repr && x != this && x != chat ==> unchanged(x)
      requires chat.chatID in old(world.screens[chat.owner])
      requires world == SetView(old(world), chat.owner, chat.chatID, chat.Now())
      ensures Tied()
    {
      ServersStayTied();
      forall k | k in world.screens
        ensures ScreenTied(k)
      {
        assert old(ScreenTied(k));
        forall c | c in k.chats
          ensures k.chats[c].Now() == world.screens[k][c]
        {
          assert k.chats[c] == chat ==> k == chat.owner && c == chat.chatID;
        }
      }
    }

    /** A new chat object has been put on one client's screen. */
    twostate lemma TiedAfterOpening(at: (Client, ChatID))
      requires old(Tied()) && at.0 in old(world.screens) && at.1 in at.0.chats
      requires at.0.chats == old(at.0.chats)[at.1 := at.0.chats[at.1]] && fresh(at.0.chats[at.1])
      requires at.0.chats[at.1].owner == at.0 && at.0.chats[at.1].chatID == at.1
      requires Repr == old(Repr) + {at.0.chats[at.1]}
      requires forall x :: x in old(Repr) && x != this && x != at.0 ==> unchanged(x)
      requires world == SetView(old(world), at.0, at.1, at.0.chats[at.1].Now())
      ensures Tied()
    {
      ServersStayTied();
      forall k | k in world.screens ensures ScreenTied(k) { assert old(ScreenTied(k)); }
    }

    /** One chat has gone from one client's screen. */
    twostate lemma TiedAfterClosing(at: (Client, ChatID))
      requires old(Tied()) && at.0 in old(world.screens) && at.0.chats == old(at.0.chats) - {at.1}
      requires Repr == old(Repr)
      requires forall x :: x in old(Repr) && x != this && x != at.0 ==> unchanged(x)
      requires world == DropView(old(world), at.0, at.1)
      ensures Tied()
    {
      ServersStayTied();
      forall k | k in world.screens
        ensures ScreenTied(k)
      {
        assert old(ScreenTied(k)) && (k != at.0 ==> k.chats == old(k.chats));
      }
    }

    /** One session has gained or lost an entry. */
    twostate lemma TiedAfterEntry(s: Session)
      requires old(Tied()) && s.self in old(world.sessions) && s.self in old(world.callbacks)
      requires home(s.self) in servers && old(servers[home(s.self)] in Repr)
      requires s.self in old(servers[home(s.self)].sessions) && old(servers[home(s.self)].sessions[s.self]) == s
      requires Repr == old(Repr)
      requires forall x :: x in Repr && x != this && x != s ==> unchanged(x)
      requires world == old(world).(sessions := old(world).sessions[s.self := s.chats])
      ensures Tied()
    {
      assert ServersTied() by {
        forall h, u | h in servers ensures SessionTied(h, u) { assert old(SessionTied(h, u)); }
        forall h, c | h in servers ensures ChatTied(h, c) { assert old(ChatTied(h, c)); }
      }
      forall o | o in world.participants ensures RosterTied(o) { assert old(RosterTied(o)); }
      forall k | k in world.screens ensures ScreenTied(k) { assert old(ScreenTied(k)); }
    }

    /** One chat has gained or lost a participant. */
    twostate lemma TiedAfterRoster(o: LocalChat)
      requires old(Tied()) && o in old(world.participants)
      requires Repr == old(Repr)
      requires forall x :: x in Repr && x != this && x != o ==> unchanged(x)
      requires world == old(world).(participants := old(world).participants[o := o.participants])
      ensures Tied()
    {
      assert ServersTied() by {
        forall h, u | h in servers ensures SessionTied(h, u) { assert old(SessionTied(h, u)); }
        forall h, c | h in servers ensures ChatTied(h, c) { assert old(ChatTied(h, c)); }
      }
      forall q | q in world.participants ensures RosterTied(q) { assert old(RosterTied(q)); }
      forall k | k in world.screens ensures ScreenTied(k) { assert old(ScreenTied(k)); }
    }

    /** One chat has come into or gone from one server's map. */
    twostate lemma TiedAfterListing(at: (Server, ChatID))
      requires old(Tied()) && at.0.hostname in servers && servers[at.0.hostname] == at.0
      requires old(Repr) <= Repr && ChatTied(at.0.hostname, at.1) && home(at.1) == at.0.hostname
      requires forall x :: x in old(Repr) && x != this && x != at.0 ==> unchanged(x)
      requires at.0.sessions == old(at.0.sessions)
      requires SameBut(at.0.chats, old(at.0.chats), at.1) && SameBut(world.chats, old(world).chats, at.1)
      requires world == old(world).(chats := world.chats, participants := world.participants)
      requires forall o :: o in world.participants ==>
                 (o in old(world).participants && world.participants[o] == old(world).participants[o]) || RosterTied(o)
      ensures Tied()
    {
      assert ServersTied() by {
        forall h, u | h in servers ensures SessionTied(h, u) { assert old(SessionTied(h, u)); }
        forall h, c | h in servers
          ensures ChatTied(h, c) && (c in world.chats ==> home(c) in servers)
        {
          assert old(ChatTied(h, c));
        }
      }
      forall o | o in world.participants
        ensures RosterTied(o)
      {
        assert o in old(world).participants ==> old(RosterTied(o));
      }
      forall k | k in world.screens ensures ScreenTied(k) { assert old(ScreenTied(k)); }
    }

    /** One session has come into or gone from one server's map, perhaps with a new client. */
    twostate lemma TiedAfterSessions(at: (Server, UserID))
      requires old(Tied()) && at.0.hostname in servers && servers[at.0.hostname] == at.0
      requires old(Repr) <= Repr && SessionTied(at.0.hostname, at.1) && home(at.1) == at.0.hostname
      requires forall x :: x in old(Repr) && x != this && x != at.0 ==> unchanged(x)
      requires at.0.chats == old(at.0.chats)
      requires SameBut(at.0.sessions, old(at.0.sessions), at.1) && SameBut(world.sessions, old(world).sessions, at.1)
      requires SameBut(world.callbacks, old(world).callbacks, at.1)
      requires world == old(world).(sessions := world.sessions, callbacks := world.callbacks, screens := world.screens)
      requires forall k :: k in world.screens ==>
                 (k in old(world).screens && world.screens[k] == old(world).screens[k]) || ScreenTied(k)
      ensures Tied()
    {
      assert ServersTied() by {
        forall h, u | h in servers
          ensures SessionTied(h, u) && (u in world.sessions ==> home(u) in servers)
        {
          assert old(SessionTied(h, u));
        }
        forall h, c | h in servers ensures ChatTied(h, c) { assert old(ChatTied(h, c)); }
      }
      forall o | o in world.participants ensures RosterTied(o) { assert old(RosterTied(o)); }
      forall k | k in world.screens
        ensures ScreenTied(k)
      {
        assert k in old(world).screens ==> old(ScreenTied(k));
      }
    }

    /** A session and its client, both new to the network, have come into one server's map. */
    twostate lemma TiedAfterLogin(at: (Server, Session, Client))
      requires var (server, s, k) := at;
        && old(Tied()) && home(s.self) in servers && servers[home(s.self)] == server
        && s !in old(Repr) && k !in old(Repr) && k !in old(world).screens
        && s.callback == k && s.chats == map[] && k.chats == map[]
        && k.user == s.self && k.cipher == cipher && k.keys == keys(s.self)
        && server.sessions == old(server.sessions)[s.self := s] && server.chats == old(server.chats)
        && Repr == old(Repr) + {s, k} && world == AddSession(old(world), s.self, k)
      requires forall x :: x in old(Repr) && x != this && x != at.0 ==> unchanged(x)
      ensures Tied()
    {
      TiedAfterSessions((at.0, at.1.self));
    }

    // ----- Calls to clients -----

    method Transmit() returns (f: Fate)
      ensures reliable ==> f == Delivered
    {
      if reliable {
        return Delivered;
      }
      f := *;
    }

    /** What will happen to the calls of one loop over participants. */
    method Weather() returns (weather: UserID -> Path)
      ensures reliable ==> forall u :: weather(u) == Path(Delivered, Delivered)
    {
      if reliable {
        return _ => Path(Delivered, Delivered);
      }
      weather := *;
    }

    /** addChatParticipant, removeChatParticipant or appendMessageToChat at the client. */
    method Deliver(client: Client, id: ChatID, news: News) returns (ok: bool)
      requires Tied() && client in world.screens && (news.HasSaid? ==> news.cipher == cipher)
      modifies Repr
      ensures Tied() && Repr == old(Repr)
      ensures world == Tell(old(world), client, id, news)
      ensures ok <==> id in old(world).screens[client]
    {
      assert ScreenTied(client);
      ok := client.Callback(news, id);
      world := Tell(world, client, id, news);
      if ok {
        TiedAfterNews(client.chats[id]);
      }
    }

    method CallClient(client: Client, id: ChatID, news: News, f: Fate) returns (r: Outcome)
      requires Tied() && client in world.screens && (news.HasSaid? ==> news.cipher == cipher)
      modifies Repr
      ensures Tied() && Repr == old(Repr)
      ensures world == if GetsThrough(f) then Tell(old(world), client, id, news) else old(world)
      ensures r == if f.RequestLost? || f.ReplyLost? then Threw(Transport)
                   else if f.Delivered? && id in old(world).screens[client] then Done
                   else Threw(Declared(news))
    {
      if f.RequestLost? || f.Refused? {
        return Threw(if f.Refused? then Declared(news) else Transport);
      }
      var ok := Deliver(client, id, news);
      r := if f.ReplyLost? then Threw(Transport) else if ok then Done else Threw(Declared(news));
    }

    /** The client's own exception is not declared for this callback, so every failure is a transport failure. */
    method CallInitChat(client: Client, users: set<UserID>, id: ChatID, sealedKey: Bytes) returns (r: Outcome)
      requires Tied() && client in world.screens
      modifies Repr
      ensures Tied() && old(Repr) <= Repr && fresh(Repr - old(Repr))
      ensures world == old(world)
        || (&& id !in old(world).screens[client] && DecryptRSA(cipher, keys(client.user), sealedKey).Success?
            && world == SetView(old(world), client, id,
                                View(users + {client.user}, DecryptRSA(cipher, keys(client.user), sealedKey).value, [])))
      ensures r.Done? ==> id !in old(world).screens[client] && world != old(world)
      ensures reliable && id !in old(world).screens[client] && DecryptRSA(cipher, keys(client.user), sealedKey).Success? ==>
                r.Done?
      ensures r in {Done, Threw(Transport)}
    {
      var f := Transmit();
      if f.RequestLost? {
        return Threw(Transport);
      }
      assert ScreenTied(client);
      var ok := client.InitChat(users, id, sealedKey, !f.Refused?);
      if ok {
        world := SetView(world, client, id, client.chats[id].Now());
        Repr := Repr + {client.chats[id]};
        TiedAfterOpening((client, id));
      }
      r := if ok && !f.ReplyLost? then Done else Threw(Transport);
    }

    // ----- Calls to the server of a remote participant (src/server/interserver.cpp) -----

    /** clientAddChatParticipant, clientRemoveChatParticipant or clientAppendMessageToChat: whatever goes wrong
        becomes the declared exception. */
    method NotifyAtServer(host: Host, user: UserID, id: ChatID, news: News, f: Fate) returns (r: Outcome)
      requires Tied() && Sound(world, home) && host in servers && home(user) == host
      requires news.HasSaid? ==> news.cipher == cipher
      modifies Repr
      ensures Tied() && Repr == old(Repr)
      ensures user !in old(world).callbacks ==> r == Threw(Declared(news)) && world == old(world)
      ensures user in old(world).callbacks ==>
        && old(world).callbacks[user] in old(world).screens
        && world == (if GetsThrough(f) then Tell(old(world), old(world).callbacks[user], id, news) else old(world))
        && r == if f.Delivered? && old(world).Shows(user, id) then Done else Threw(Declared(news))
    {
      assert SessionTied(host, user) && CallbackAt(world, user);
      if user !in servers[host].sessions {
        return Threw(Declared(news));
      }
      r := CallClient(servers[host].sessions[user].callback, id, news, f);
      if r.Threw? {
        r := Threw(Declared(news));
      }
    }

    // ----- Participants (src/server/participant.cpp): what is swallowed and what propagates -----

    method Notify(p: Participant, id: ChatID, news: News, path: Path) returns (r: Outcome)
      requires Tied() && Sound(world, home) && ParticipantValid(world, home, id, p.self, p)
      requires news.HasSaid? ==> news.cipher == cipher
      modifies Repr
      ensures Tied() && Repr == old(Repr)
      ensures r == Answer(old(world), servers.Keys, p, id, news, path)
      ensures p.RemoteParticipant? ==>
        && r in {Done, Threw(Transport)}
        && (r.Threw? <==> path.toServer.RequestLost? || path.toServer.ReplyLost? || p.host !in servers)
      ensures p.LocalParticipant? ==>
        && (r == Threw(Transport) <==> path.toClient.RequestLost? || path.toClient.ReplyLost?)
        && (r.Threw? && r != Threw(Transport) <==>
              !news.HasLeft? && (path.toClient.Refused? || (path.toClient.Delivered? && id !in old(world).screens[p.proxy])))
      ensures r in {Done, Threw(Transport), Threw(if news.HasSaid? then MessageCallback else Participation)}
      ensures p.LocalParticipant? ==>
        && p.proxy in old(world).screens
        && world == if path.toClient.Delivered? || path.toClient.ReplyLost? then Tell(old(world), p.proxy, id, news)
                    else old(world)
      ensures p.RemoteParticipant? ==>
        if p.host in servers && p.self in old(world).callbacks && (path.toServer.Delivered? || path.toServer.ReplyLost?)
           && (path.toClient.Delivered? || path.toClient.ReplyLost?) then
          old(world).callbacks[p.self] in old(world).screens
          && world == Tell(old(world), old(world).callbacks[p.self], id, news)
        else world == old(world)
      ensures Arrives(old(world), servers.Keys, p, path) ==>
        && old(world).EndClient(p) != null && old(world).EndClient(p) in old(world).screens
        && world == Tell(old(world), old(world).EndClient(p), id, news)
      ensures !Arrives(old(world), servers.Keys, p, path) ==> world == old(world)
    {
      match p
      case LocalParticipant(_, proxy) =>
        r := CallClient(proxy, id, news, path.toClient);
        if news.HasLeft? && r == Threw(Participation) {
          r := Done;
        }
      case RemoteParticipant(user, host) =>
        if path.toServer.RequestLost? || host !in servers {
          return Threw(Transport);
        }
        if path.toServer.Refused? {
          return Done;
        }
        var _ := NotifyAtServer(host, user, id, news, path.toClient);
        r := if path.toServer.ReplyLost? then Threw(Transport) else Done;
    }

    // ----- Invitations: the session of the invited user first, then its client -----

    lemma SameEntries(w: World, user: UserID)
      requires user in w.sessions
      ensures w.(sessions := w.sessions[user := w.sessions[user]]) == w
    {
      assert w.sessions[user := w.sessions[user]] == w.sessions;
    }

    /** addChatTo at the chat's own server. */
    method AddLocalEntry(user: UserID, id: ChatID) returns (r: Outcome)
      requires Tied() && CallbackAt(world, user) && home(user) == home(id) && home(id) in servers
      modifies Repr
      ensures Tied() && Repr == old(Repr)
      ensures r == if user in old(world).sessions && id in old(world).chats && !old(world).HasEntry(user, id)
                   then Done else Threw(UserHandling)
      ensures world == if r.Done? then AddEntry(old(world), user, id, Local(old(world).chats[id])) else old(world)
    {
      var server := servers[home(id)];
      assert SessionTied(home(id), user) && ChatTied(home(id), id);
      r := server.AddChatTo(user, id);
      if user in server.sessions {
        var s := server.sessions[user];
        world := world.(sessions := world.sessions[user := s.chats]);
        TiedAfterEntry(s);
        SameEntries(old(world), user);
      }
    }

    /** addRemoteChatTo at the invited user's server: the stand-in asks for the chat's server. */
    method AddRemoteEntry(user: UserID, id: ChatID) returns (r: Outcome)
      requires Tied() && CallbackAt(world, user) && home(user) in servers && home(id) in servers
      modifies Repr
      ensures Tied() && Repr == old(Repr)
      ensures r.Done? ==> user in old(world).sessions && !old(world).HasEntry(user, id)
      ensures reliable && user in old(world).sessions && !old(world).HasEntry(user, id) ==> r.Done?
      ensures world == if r.Done? then AddEntry(old(world), user, id, Remote(id)) else old(world)
    {
      var server := servers[home(user)];
      assert SessionTied(home(user), user);
      var f := Transmit();
      r := server.AddRemoteChatTo(user, id, f.Delivered?);
      if user in server.sessions {
        var s := server.sessions[user];
        world := world.(sessions := world.sessions[user := s.chats]);
        TiedAfterEntry(s);
        SameEntries(old(world), user);
      }
    }

    // ----- Chats (src/server/chat.cpp) -----

    /** How far a loop over the participants of `o` that started in `w` has come. */
    ghost predicate Told(w: World, o: LocalChat, done: set<UserID>, news: News, weather: UserID -> Path)
      requires o in w.participants
      reads this
    {
      world == TellAll(w, o, done * Reached(w, servers.Keys, o, weather), news)
    }

    /** What the loop hears of participant `v`. */
    ghost function AnswerOf(w: World, o: LocalChat, v: UserID, news: News, weather: UserID -> Path): Outcome
      requires o in w.participants && v in w.participants[o]
    {
      Answer(w, servers.Keys, w.participants[o][v], o.chatID, news, weather(v))
    }

    ghost predicate BreaksAt(w: World, o: LocalChat, v: UserID, news: News, weather: UserID -> Path)
      requires o in w.participants && v in w.participants[o]
    {
      Breaks(w, servers.Keys, w.participants[o][v], o.chatID, news, weather(v))
    }

    /** One round of such a loop, for the participant's client and for the others. */
    lemma TellOneOrNone(w: World, w1: World, o: LocalChat, done: set<UserID>, v: UserID, news: News, weather: UserID -> Path)
      requires Sound(w, home) && o in w.participants && v in w.participants[o] && v !in done
      requires w1 == TellAll(w, o, done * Reached(w, servers.Keys, o, weather), news)
      ensures Sound(w1, home) && ParticipantValid(w1, home, o.chatID, v, w.participants[o][v])
      ensures Answer(w1, servers.Keys, w.participants[o][v], o.chatID, news, weather(v)) == AnswerOf(w, o, v, news, weather)
      ensures var (w2, k) := (TellAll(w, o, (done + {v}) * Reached(w, servers.Keys, o, weather), news), w1.EndClient(w.participants[o][v]));
        if Arrives(w1, servers.Keys, w.participants[o][v], weather(v)) then
          k != null && k in w1.screens && w2 == Tell(w1, k, o.chatID, news)
        else w2 == w1
    {
      var reached := Reached(w, servers.Keys, o, weather);
      assert ParticipantAt(w, home, o, v) && CallbackAt(w, v);
      StillValid(w, w1, home, o, v);
      AnswerStays(w, w1, w.participants[o][v], o.chatID, news, weather(v));
      if v in reached {
        assert (done + {v}) * reached == done * reached + {v};
        TellOneMore(w, o, done * reached, v, news);
      } else {
        assert (done + {v}) * reached == done * reached;
      }
    }

    method NotifyNext(ghost w: World, o: LocalChat, ghost todo: set<UserID>, v: UserID, p: Participant, news: News,
                      weather: UserID -> Path)
      returns (r: Outcome)
      requires Tied() && Sound(w, home) && o in w.participants && v in todo && todo <= w.participants[o].Keys
      requires Told(w, o, w.participants[o].Keys - todo, news, weather) && w.participants[o][v] == p
      requires news.HasSaid? ==> news.cipher == cipher
      modifies Repr
      ensures Tied() && Repr == old(Repr)
      ensures Told(w, o, w.participants[o].Keys - (todo - {v}), news, weather)
      ensures r == AnswerOf(w, o, v, news, weather)
    {
      ghost var all := w.participants[o].Keys;
      assert ParticipantAt(w, home, o, v);
      OneFewer(all, todo, v);
      TellOneOrNone(w, world, o, all - todo, v, news, weather);
      r := Notify(p, o.chatID, news, weather(v));
    }

    lemma AnswerStays(w: World, w': World, p: Participant, id: ChatID, news: News, path: Path)
      requires OnlyScreens(w, w') && forall k :: k in w.screens ==> w'.screens[k].Keys == w.screens[k].Keys
      ensures Answer(w', servers.Keys, p, id, news, path) == Answer(w, servers.Keys, p, id, news, path)
      ensures Arrives(w', servers.Keys, p, path) <==> Arrives(w, servers.Keys, p, path)
    {}

    /** The client of a participant of the chat's own server answers that it cannot take the news. */
    ghost predicate RefusesNews(w: World, o: LocalChat, v: UserID, news: News, weather: UserID -> Path)
      requires o in w.participants && v in w.participants[o]
    {
      && w.participants[o][v].LocalParticipant?
      && (weather(v).toClient.Refused?
          || (weather(v).toClient.Delivered?
              && (w.participants[o][v].proxy !in w.screens || o.chatID !in w.screens[w.participants[o][v].proxy])))
    }

    lemma DeclaredIsLocal(w: World, o: LocalChat, v: UserID, news: News, weather: UserID -> Path)
      requires o in w.participants && v in w.participants[o]
      ensures var r := AnswerOf(w, o, v, news, weather);
        r.Threw? && r != Threw(Transport) ==>
          RefusesNews(w, o, v, news, weather) && !news.HasLeft? && r == Threw(if news.HasSaid? then MessageCallback else Participation)
    {}

    /** The loop of inviteUser and of leaveChat over the participants: it stops at the first exception. `told` are those
        whose turn has come. */
    method Spread(o: LocalChat, news: News, weather: UserID -> Path) returns (r: Outcome, ghost told: set<UserID>)
      requires Tied() && Sound(world, home) && o in world.participants && !news.HasSaid?
      modifies Repr
      ensures Tied() && Repr == old(Repr) && OnlyScreens(old(world), world)
      ensures r.Done? <==> forall v :: v in old(world).participants[o] ==> !BreaksAt(old(world), o, v, news, weather)
      ensures told <= old(world).participants[o].Keys && (r.Done? ==> told == old(world).participants[o].Keys)
      ensures world == TellAll(old(world), o, told * Reached(old(world), servers.Keys, o, weather), news)
      ensures r.Threw? ==>
        exists v :: v in old(world).participants[o] && r == AnswerOf(old(world), o, v, news, weather)
      ensures r.Threw? && r != Threw(Transport) ==>
        && r == Threw(Participation) && news.HasJoined?
        && exists v :: v in old(world).participants[o] && RefusesNews(old(world), o, v, news, weather)
    {
      assert RosterTied(o);
      var values := o.participants;
      var todo := values.Keys;
      TellNobody(world, o, news);
      while todo != {}
        invariant Tied() && Repr == old(Repr) && values == old(world).participants[o]
        invariant todo <= values.Keys
        invariant Told(old(world), o, values.Keys - todo, news, weather)
        invariant forall v :: v in values && v !in todo ==> !BreaksAt(old(world), o, v, news, weather)
        decreases todo
      {
        var v :| v in todo;
        r := NotifyNext(old(world), o, todo, v, values[v], news, weather);
        todo := todo - {v};
        AnswerBreaks(old(world), servers.Keys, values[v], o.chatID, news, weather(v));
        if r.Threw? {
          told := values.Keys - todo;
          DeclaredIsLocal(old(world), o, v, news, weather);
          return;
        }
      }
      told := values.Keys;
      assert values.Keys - todo == values.Keys;
      r := Done;
    }

    /** Goes through a snapshot of the participants; a client that cannot take the message is only noted, and the others
        still get it, but a transport failure ends the loop. */
    method AppendMessageFrom(o: LocalChat, sender: UserID, message: Bytes, weather: UserID -> Path)
      returns (r: Outcome, ghost told: set<UserID>)
      requires Tied() && Sound(world, home) && o in world.participants
      modifies Repr
      ensures Tied() && Repr == old(Repr) && OnlyScreens(old(world), world)
      ensures var news := HasSaid(cipher, sender, message);
        && (r.Done? <==> forall v :: v in old(world).participants[o] ==> !BreaksAt(old(world), o, v, news, weather))
        && world == TellAll(old(world), o, told * Reached(old(world), servers.Keys, o, weather), news)
      ensures told <= old(world).participants[o].Keys && (r.Done? ==> told == old(world).participants[o].Keys)
      ensures r in {Done, Threw(Transport)}
    {
      assert RosterTied(o);
      var snapshot := o.participants;
      var todo := snapshot.Keys;
      var failures: seq<UserID> := [];
      var news := HasSaid(cipher, sender, message);
      TellNobody(world, o, news);
      while todo != {}
        invariant Tied() && Repr == old(Repr) && snapshot == old(world).participants[o]
        invariant todo <= snapshot.Keys
        invariant Told(old(world), o, snapshot.Keys - todo, news, weather)
        invariant forall v :: v in snapshot && v !in todo ==> !BreaksAt(old(world), o, v, news, weather)
        decreases todo
      {
        var v :| v in todo;
        r := NotifyNext(old(world), o, todo, v, snapshot[v], news, weather);
        todo := todo - {v};
        if r == Threw(MessageCallback) {
          failures := failures + [v];
        } else if r.Threw? {
          told := snapshot.Keys - todo;
          return;
        }
      }
      told := snapshot.Keys;
      assert snapshot.Keys - todo == snapshot.Keys;
      r := Done;
    }

    /** A loop of joins that ends well has reached every participant of the chat's own server. */
    lemma OwnUsersKnow(w: World, o: LocalChat, news: News, weather: UserID -> Path, v: UserID)
      requires o in w.participants && v in w.participants[o] && w.participants[o][v].LocalParticipant? && news.HasJoined?
      requires !BreaksAt(w, o, v, news, weather)
      ensures v in Reached(w, servers.Keys, o, weather)
      ensures w.participants[o][v].proxy in w.screens && o.chatID in w.screens[w.participants[o][v].proxy]
    {}

    /** In fair weather every participant is reached whose client shows the chat. */
    lemma FairWeather(o: LocalChat, news: News, weather: UserID -> Path)
      requires Tied() && Sound(world, home) && o in world.participants && AllReached(world, o)
      requires forall u :: weather(u) == Path(Delivered, Delivered)
      ensures Reached(world, servers.Keys, o, weather) == world.participants[o].Keys
      ensures forall v :: v in world.participants[o] ==> !BreaksAt(world, o, v, news, weather)
    {
      forall v | v in world.participants[o]
        ensures v in Reached(world, servers.Keys, o, weather) && !BreaksAt(world, o, v, news, weather)
      {
        assert ParticipantAt(world, home, o, v) && CallbackAt(world, v);
      }
    }

    /** What a loop that has come to `told` has done. */
    lemma RoundOrPart(w: World, o: LocalChat, news: News, weather: UserID -> Path, told: set<UserID>)
      requires o in w.participants && told <= w.participants[o].Keys
      requires world == TellAll(w, o, told * Reached(w, servers.Keys, o, weather), news)
      ensures ToldSome(w, world, o, news)
      ensures told == w.participants[o].Keys && (forall v :: v in w.participants[o] ==> !BreaksAt(w, o, v, news, weather)) ==>
                WentRound(w, world, servers.Keys, o, news)
    {
      var reached := Reached(w, servers.Keys, o, weather);
      assert told * reached <= w.participants[o].Keys;
      if told == w.participants[o].Keys && forall v :: v in w.participants[o] ==> !BreaksAt(w, o, v, news, weather) {
        assert told * reached == reached;
        assert WentRoundIn(w, world, servers.Keys, o, news, weather);
      }
    }

    lemma RoundOfNobody(o: LocalChat, news: News)
      requires o in world.participants && world.participants[o] == map[]
      ensures WentRound(world, world, servers.Keys, o, news)
    {
      TellNobody(world, o, news);
      var weather: UserID -> Path := _ => Path(Delivered, Delivered);
      assert Reached(world, servers.Keys, o, weather) == {};
      assert WentRoundIn(world, world, servers.Keys, o, news, weather);
    }

    /** Spread, in whatever weather there is. */
    method SpreadOut(o: LocalChat, news: News) returns (r: Outcome)
      requires Tied() && Sound(world, home) && o in world.participants && !news.HasSaid?
      modifies Repr
      ensures Tied() && Repr == old(Repr) && OnlyScreens(old(world), world)
      ensures reliable && AllReached(old(world), o) ==>
        r.Done? && world == TellAll(old(world), o, old(world).participants[o].Keys, news)
      ensures r.Done? ==> WentRound(old(world), world, servers.Keys, o, news)
      ensures ToldSome(old(world), world, o, news)
      ensures r in {Done, Threw(Transport), Threw(Participation)} && (news.HasLeft? ==> r != Threw(Participation))
    {
      var weather := Weather();
      if reliable && AllReached(world, o) {
        FairWeather(o, news, weather);
      }
      ghost var told;
      r, told := Spread(o, news, weather);
      assert told == old(world).participants[o].Keys ==> told * told == told;
      RoundOrPart(old(world), o, news, weather, told);
    }

    /** AppendMessageFrom, in whatever weather there is. */
    method SendOut(o: LocalChat, sender: UserID, message: Bytes) returns (r: Outcome)
      requires Tied() && Sound(world, home) && o in world.participants
      modifies Repr
      ensures Tied() && Repr == old(Repr) && OnlyScreens(old(world), world)
      ensures reliable && AllReached(old(world), o) ==>
        r.Done? && world == TellAll(old(world), o, old(world).participants[o].Keys, HasSaid(cipher, sender, message))
      ensures r.Done? ==> WentRound(old(world), world, servers.Keys, o, HasSaid(cipher, sender, message))
      ensures ToldSome(old(world), world, o, HasSaid(cipher, sender, message))
      ensures r in {Done, Threw(Transport)}
    {
      var weather := Weather();
      if reliable && AllReached(world, o) {
        FairWeather(o, HasSaid(cipher, sender, message), weather);
      }
      ghost var told;
      r, told := AppendMessageFrom(o, sender, message, weather);
      assert told == old(world).participants[o].Keys ==> told * told == told;
      RoundOrPart(old(world), o, HasSaid(cipher, sender, message), weather, told);
    }

    /** clientInitChat, at the server of the invited user. */
    method ClientInitChat(user: UserID, users: set<UserID>, id: ChatID, sealedKey: Bytes) returns (r: Outcome)
      requires Tied() && Sound(world, home) && home(user) != home(id) && home(user) in servers && home(id) in servers
      modifies Repr
      ensures Tied() && old(Repr) <= Repr && fresh(Repr - old(Repr))
      ensures user !in old(world).sessions ==> r.Threw? && world == old(world)
      ensures world == old(world)
        || (&& user in old(world).sessions && !old(world).HasEntry(user, id)
            && OnlyScreens(AddEntry(old(world), user, id, Remote(id)), world))
      ensures reliable && user in old(world).sessions && user in old(world).callbacks
              && !old(world).HasEntry(user, id) && !old(world).Shows(user, id)
              && DecryptRSA(cipher, keys(user), sealedKey).Success? ==>
        r.Done?
      ensures r.Done? ==>
        && user in old(world).sessions && user in old(world).callbacks && !old(world).HasEntry(user, id)
        && !old(world).Shows(user, id) && DecryptRSA(cipher, keys(user), sealedKey).Success?
        && old(world).callbacks[user] in old(world).screens
        && world == SetView(AddEntry(old(world), user, id, Remote(id)), old(world).callbacks[user], id,
                            View(users + {user}, DecryptRSA(cipher, keys(user), sealedKey).value, []))
      ensures reliable && user in old(world).sessions ==> world.HasEntry(user, id)
      ensures r in {Done, Threw(ChatError)}
    {
      assert CallbackAt(world, user) && SessionTied(home(user), user);
      r := AddRemoteEntry(user, id);
      if r.Threw? {
        return Threw(ChatError);
      }
      assert SessionTied(home(user), user);
      r := CallInitChat(servers[home(user)].sessions[user].callback, users, id, sealedKey);
      if r.Threw? {
        r := Threw(ChatError);
      }
    }

    /** The participant object for an invited user, and its invitation. */
    method Admit(o: LocalChat, user: UserID, sealedKey: Bytes) returns (r: Outcome, p: Participant)
      requires Tied() && Sound(world, home) && o in world.participants
      modifies Repr
      ensures Tied() && old(Repr) <= Repr && fresh(Repr - old(Repr))
      ensures user !in old(world).sessions ==> r.Threw? && world == old(world)
      ensures Admitting(old(world), world, home, user, o.chatID)
      ensures reliable && Invitable(old(world), home, o, user) && DecryptRSA(cipher, keys(user), sealedKey).Success? ==> r.Done?
      ensures r.Done? ==>
        && CanAdmit(old(world), home, o, user) && DecryptRSA(cipher, keys(user), sealedKey).Success?
        && world == Admitted(old(world), home, o, user, DecryptRSA(cipher, keys(user), sealedKey).value)
        && p == PartyOf(old(world), home, user, o.chatID) && world != old(world)
      ensures user in old(world).sessions && (if home(user) == home(o.chatID) then o.chatID in old(world).chats else reliable) ==>
                world.HasEntry(user, o.chatID)
      ensures r in {Done, Threw(UserHandling), Threw(ChatError), Threw(Transport)}
    {
      var id := o.chatID;
      assert RosterTied(o) && CallbackAt(world, user);
      p := RemoteParticipant(user, home(user));
      if home(user) == home(id) {
        r, p := AdmitLocal(o, user, sealedKey);
      } else {
        var f := Transmit();
        if f.RequestLost? || f.Refused? || home(user) !in servers {
          return Threw(if f.Refused? then ChatError else Transport), p;
        }
        r := ClientInitChat(user, o.participants.Keys, id, sealedKey);
        if f.ReplyLost? {
          r := Threw(Transport);
        }
      }
    }

    /** The same for a user of the chat's own server. */
    method AdmitLocal(o: LocalChat, user: UserID, sealedKey: Bytes) returns (r: Outcome, p: Participant)
      requires Tied() && Sound(world, home) && o in world.participants && home(user) == home(o.chatID)
      modifies Repr
      ensures Tied() && old(Repr) <= Repr && fresh(Repr - old(Repr))
      ensures user !in old(world).sessions ==> r.Threw? && world == old(world)
      ensures Admitting(old(world), world, home, user, o.chatID)
      ensures reliable && Invitable(old(world), home, o, user) && DecryptRSA(cipher, keys(user), sealedKey).Success? ==> r.Done?
      ensures r.Done? ==>
        && CanAdmit(old(world), home, o, user) && DecryptRSA(cipher, keys(user), sealedKey).Success?
        && world == Admitted(old(world), home, o, user, DecryptRSA(cipher, keys(user), sealedKey).value)
        && p == PartyOf(old(world), home, user, o.chatID) && world != old(world)
      ensures user in old(world).sessions && o.chatID in old(world).chats ==> world.HasEntry(user, o.chatID)
      ensures r in {Done, Threw(UserHandling), Threw(ChatError), Threw(Transport)}
    {
      var id := o.chatID;
      assert RosterTied(o) && CallbackAt(world, user);
      p := RemoteParticipant(user, home(user));
      r := AddLocalEntry(user, id);
      if r.Threw? {
        return;
      }
      assert SessionTied(home(id), user) && RosterTied(o);
      p := LocalParticipant(user, servers[home(id)].sessions[user].callback);
      r := CallInitChat(servers[home(id)].sessions[user].callback, o.participants.Keys, id, sealedKey);
    }

    method SetParticipants(o: LocalChat, participants: map<UserID, Participant>)
      requires Tied() && o in world.participants
      modifies Repr
      ensures Tied() && Repr == old(Repr)
      ensures world == old(world).(participants := old(world).participants[o := participants])
    {
      assert RosterTied(o);
      o.participants := participants;
      world := world.(participants := world.participants[o := participants]);
      TiedAfterRoster(o);
    }

    /** The invited user's session has got the chat before anyone hears of the join, and keeps it even if the invitation
        then fails. */
    method InviteUser(o: LocalChat, user: UserID, sealedKey: Bytes) returns (r: Outcome)
      requires Tied() && Sound(world, home) && o in world.participants
      modifies Repr
      ensures Tied() && old(Repr) <= Repr && fresh(Repr - old(Repr)) && Sound(world, home)
      ensures user in old(world).participants[o] || user !in old(world).sessions ==> r.Threw? && world == old(world)
      ensures reliable && Invitable(old(world), home, o, user) && AllReached(old(world), o)
              && DecryptRSA(cipher, keys(user), sealedKey).Success? ==>
        r.Done? && world == Invited(old(world), home, o, user, DecryptRSA(cipher, keys(user), sealedKey).value)
      ensures r.Done? ==>
        && DecryptRSA(cipher, keys(user), sealedKey).Success?
        && Entered(old(world), world, home, servers.Keys, o, user, DecryptRSA(cipher, keys(user), sealedKey).value)
      ensures r.Threw? ==> NotEntered(old(world), world, home, o.chatID, user)
      ensures user !in old(world).participants[o] && user in old(world).sessions
              && (if home(user) == home(o.chatID) then o.chatID in old(world).chats else reliable) ==>
        world.HasEntry(user, o.chatID)
      ensures r in {Done, Threw(UserHandling), Threw(ChatError), Threw(Transport), Threw(Participation)}
    {
      assert RosterTied(o);
      if user in o.participants {
        return Threw(UserHandling);
      }
      var p;
      r, p := Admit(o, user, sealedKey);
      SoundAdmitting(old(world), world, home, user, o.chatID);
      if r.Threw? {
        return;
      }
      ghost var admitted := world;
      if reliable && Invitable(old(world), home, o, user) && AllReached(old(world), o)
         && DecryptRSA(cipher, keys(user), sealedKey).Success? {
        AdmittedReached(old(world), home, o, user, DecryptRSA(cipher, keys(user), sealedKey).value);
      }
      r := SpreadOut(o, HasJoined(user));
      AdmittingStays(old(world), admitted, world, home, user, o);
      if r.Threw? {
        return;
      }
      assert RosterTied(o);
      SetParticipants(o, o.participants[user := p]);
    }

    /** The user is out before anyone is told, and the chat leaves the map with its last participant. */
    method LeaveChat(o: LocalChat, user: UserID) returns (r: Outcome)
      requires Tied() && Sound(world, home) && o in world.participants
      requires user in world.participants[o] ==> o.chatID in world.chats && world.chats[o.chatID] == o
      modifies Repr
      ensures Tied() && Repr == old(Repr) && Sound(world, home)
      ensures user !in old(world).participants[o] ==> r == Threw(SessionError) && world == old(world)
      ensures user in old(world).participants[o] ==>
        r != Threw(SessionError) && OnlyScreens(RemoveParticipant(old(world), o, user), world)
      ensures r.Done? ==>
        && user in old(world).participants[o]
        && WentRound(RemoveParticipant(old(world), o, user), world, servers.Keys, o, HasLeft(user))
      ensures reliable && user in old(world).participants[o] && AllReached(RemoveParticipant(old(world), o, user), o) ==>
        r.Done? && world == Parted(old(world), o, user)
      ensures r in {Done, Threw(SessionError), Threw(Transport)}
    {
      assert RosterTied(o);
      if user !in o.participants {
        return Threw(SessionError);
      }
      ghost var removed := RemoveParticipant(world, o, user);
      assert removed.participants[o].Keys == world.participants[o].Keys - {user};
      SoundRemoveParticipant(world, home, o, user);
      SetParticipants(o, o.participants - {user});
      r := TellTheRest(o, user, removed);
    }

    /** leaveChat once the participant is gone; `removed` is where the servers will be afterwards. */
    method TellTheRest(o: LocalChat, user: UserID, ghost removed: World) returns (r: Outcome)
      requires Tied() && Sound(removed, home) && o in removed.participants && world == removed.(chats := world.chats)
      requires world.participants[o] != map[] ==> world.chats == removed.chats
      requires world.participants[o] == map[] ==> o.chatID in world.chats && removed.chats == world.chats - {o.chatID}
      modifies Repr
      ensures Tied() && Repr == old(Repr) && Sound(world, home) && OnlyScreens(removed, world)
      ensures reliable && AllReached(removed, o) ==>
        r.Done? && world == TellAll(removed, o, removed.participants[o].Keys, HasLeft(user))
      ensures r.Done? ==> WentRound(removed, world, servers.Keys, o, HasLeft(user))
      ensures r in {Done, Threw(Transport)}
    {
      assert RosterTied(o);
      if o.participants == map[] {
        r := UnlistChat(o.chatID);
        assert world == removed && removed.participants[o].Keys == {};
        TellNobody(removed, o, HasLeft(user));
        RoundOfNobody(o, HasLeft(user));
      } else {
        assert world == removed;
        r := SpreadOut(o, HasLeft(user));
        SoundWhateverIsShown(removed, home, world.screens);
      }
    }

    /** removeChat at the chat's server. */
    method UnlistChat(id: ChatID) returns (r: Outcome)
      requires Tied() && id in world.chats
      modifies Repr
      ensures Tied() && Repr == old(Repr)
      ensures r.Done? && world == old(world).(chats := old(world).chats - {id})
    {
      var server := servers[home(id)];
      assert ChatTied(home(id), id);
      r := server.RemoveChat(id);
      world := world.(chats := world.chats - {id});
      TiedAfterListing((server, id));
    }

    // ----- Entry points for a chat that another server owns (src/server/interserver.cpp) -----

    method InviteAtServer(user: UserID, id: ChatID, sealedKey: Bytes) returns (r: Outcome)
      requires Tied() && Sound(world, home) && home(id) in servers
      modifies Repr
      ensures Tied() && old(Repr) <= Repr && fresh(Repr - old(Repr)) && Sound(world, home)
      ensures user !in old(world).sessions || old(world).Takes(user, id) || id !in old(world).chats ==>
                r.Threw? && world == old(world)
      ensures reliable && id in old(world).chats && Invitable(old(world), home, old(world).chats[id], user)
              && AllReached(old(world), old(world).chats[id]) && DecryptRSA(cipher, keys(user), sealedKey).Success? ==>
        r.Done? && world == Invited(old(world), home, old(world).chats[id], user,
                                    DecryptRSA(cipher, keys(user), sealedKey).value)
      ensures r.Done? ==>
        && id in old(world).chats && DecryptRSA(cipher, keys(user), sealedKey).Success?
        && Entered(old(world), world, home, servers.Keys, old(world).chats[id], user,
                   DecryptRSA(cipher, keys(user), sealedKey).value)
      ensures r.Threw? ==> NotEntered(old(world), world, home, id, user)
      ensures r in {Done, Threw(InterServer)}
    {
      assert ChatTied(home(id), id) && FiledAt(world, id);
      if id !in servers[home(id)].chats {
        return Threw(InterServer);
      }
      r := InviteUser(servers[home(id)].chats[id], user, sealedKey);
      if r.Threw? {
        r := Threw(InterServer);
      }
    }

    method SendAtServer(sender: UserID, message: Bytes, id: ChatID) returns (r: Outcome)
      requires Tied() && Sound(world, home) && home(id) in servers
      modifies Repr
      ensures Tied() && Repr == old(Repr) && Sound(world, home) && OnlyScreens(old(world), world)
      ensures reliable && id in old(world).chats && old(world).chats[id] in old(world).participants
              && AllReached(old(world), old(world).chats[id]) ==>
        r.Done? && world == TellAll(old(world), old(world).chats[id],
                                    old(world).participants[old(world).chats[id]].Keys, HasSaid(cipher, sender, message))
      ensures r.Done? ==>
        && id in old(world).chats
        && WentRound(old(world), world, servers.Keys, old(world).chats[id], HasSaid(cipher, sender, message))
      ensures r in {Done, Threw(InterServer)}
    {
      assert ChatTied(home(id), id) && FiledAt(world, id);
      if id !in servers[home(id)].chats {
        return Threw(InterServer);
      }
      r := SendOut(servers[home(id)].chats[id], sender, message);
      SoundWhateverIsShown(old(world), home, world.screens);
      if r.Threw? {
        r := Threw(InterServer);
      }
    }

    method LeaveAtServer(user: UserID, id: ChatID) returns (r: Outcome)
      requires Tied() && Sound(world, home) && home(id) in servers
      modifies Repr
      ensures Tied() && Repr == old(Repr) && Sound(world, home)
      ensures !old(world).Takes(user, id) ==> r.Threw? && world == old(world)
      ensures old(world).Takes(user, id) ==> OnlyScreens(RemoveParticipant(old(world), old(world).chats[id], user), world)
      ensures reliable && old(world).Takes(user, id)
              && AllReached(RemoveParticipant(old(world), old(world).chats[id], user), old(world).chats[id]) ==>
                r.Done? && world == Parted(old(world), old(world).chats[id], user)
      ensures r.Done? ==>
        && old(world).Takes(user, id)
        && WentRound(RemoveParticipant(old(world), old(world).chats[id], user), world, servers.Keys, old(world).chats[id],
                     HasLeft(user))
      ensures r in {Done, Threw(InterServer)}
    {
      assert ChatTied(home(id), id) && FiledAt(world, id);
      if id !in servers[home(id)].chats {
        return Threw(InterServer);
      }
      r := LeaveChat(servers[home(id)].chats[id], user);
      if r.Threw? {
        r := Threw(InterServer);
      }
    }

    // ----- What a session holds for a chat: LocalChat or RemoteChat -----

    method ChatInvite(self: UserID, id: ChatID, user: UserID, sealedKey: Bytes) returns (r: Outcome)
      requires Tied() && Sound(world, home) && world.HasEntry(self, id)
      modifies Repr
      ensures Tied() && old(Repr) <= Repr && fresh(Repr - old(Repr)) && Sound(world, home)
      ensures user !in old(world).sessions ==> r.Threw? && world == old(world)
      ensures old(world).Takes(self, id) && old(world).Takes(user, id) ==> r.Threw? && world == old(world)
      ensures reliable && old(world).Takes(self, id) && Invitable(old(world), home, old(world).chats[id], user)
              && AllReached(old(world), old(world).chats[id]) && DecryptRSA(cipher, keys(user), sealedKey).Success? ==>
        r.Done? && world == Invited(old(world), home, old(world).chats[id], user,
                                    DecryptRSA(cipher, keys(user), sealedKey).value)
      ensures r.Done? && (old(world).Takes(self, id) || home(self) != home(id)) ==>
        && id in old(world).chats && DecryptRSA(cipher, keys(user), sealedKey).Success?
        && Entered(old(world), world, home, servers.Keys, old(world).chats[id], user,
                   DecryptRSA(cipher, keys(user), sealedKey).value)
      ensures r.Threw? ==>
        || NotEntered(old(world), world, home, id, user)
        || (&& home(self) != home(id) && id in old(world).chats && DecryptRSA(cipher, keys(user), sealedKey).Success?
            && Entered(old(world), world, home, servers.Keys, old(world).chats[id], user,
                       DecryptRSA(cipher, keys(user), sealedKey).value))
      ensures if home(self) == home(id) then r != Threw(InterServer) else r in {Done, Threw(InterServer), Threw(Transport)}
    {
      EntryIsFor(self, id);
      match servers[home(self)].sessions[self].chats[id]
      case Local(o) =>
        r := InviteUser(o, user, sealedKey);
      case Remote(c) =>
        var f := Transmit();
        if f.RequestLost? || f.Refused? || home(id) !in servers {
          return Threw(if f.Refused? then InterServer else Transport);
        }
        r := InviteAtServer(user, id, sealedKey);
        if f.ReplyLost? {
          r := Threw(Transport);
        }
    }

    method ChatSend(self: UserID, id: ChatID, message: Bytes) returns (r: Outcome)
      requires Tied() && Sound(world, home) && world.HasEntry(self, id)
      modifies Repr
      ensures Tied() && Repr == old(Repr) && Sound(world, home) && OnlyScreens(old(world), world)
      ensures reliable && old(world).Takes(self, id) && AllReached(old(world), old(world).chats[id]) ==>
        r.Done? && world == TellAll(old(world), old(world).chats[id],
                                    old(world).participants[old(world).chats[id]].Keys, HasSaid(cipher, self, message))
      ensures r.Done? && (old(world).Takes(self, id) || home(self) != home(id)) ==>
        && id in old(world).chats
        && WentRound(old(world), world, servers.Keys, old(world).chats[id], HasSaid(cipher, self, message))
      ensures if home(self) == home(id) then r in {Done, Threw(Transport)}
              else r in {Done, Threw(InterServer), Threw(Transport)}
    {
      EntryIsFor(self, id);
      match servers[home(self)].sessions[self].chats[id]
      case Local(o) =>
        r := SendOut(o, self, message);
        SoundWhateverIsShown(old(world), home, world.screens);
      case Remote(c) =>
        var f := Transmit();
        if f.RequestLost? || f.Refused? || home(id) !in servers {
          return Threw(if f.Refused? then InterServer else Transport);
        }
        r := SendAtServer(self, message, id);
        if f.ReplyLost? {
          r := Threw(Transport);
        }
    }

    /** On the user's own server the user is out of the chat whether or not an exception comes back. */
    method ChatLeave(self: UserID, id: ChatID) returns (r: Outcome)
      requires Tied() && Sound(world, home) && world.HasEntry(self, id)
      modifies Repr
      ensures Tied() && Repr == old(Repr) && Sound(world, home)
      ensures world == old(world)
        || (old(world).Takes(self, id) && OnlyScreens(RemoveParticipant(old(world), old(world).chats[id], self), world))
      ensures old(world).Takes(self, id) && world == old(world) ==> home(self) != home(id)
      ensures reliable && old(world).Takes(self, id)
              && AllReached(RemoveParticipant(old(world), old(world).chats[id], self), old(world).chats[id]) ==>
                r.Done? && world == Parted(old(world), old(world).chats[id], self)
      ensures r.Done? ==>
        && old(world).Takes(self, id) && !world.Takes(self, id)
        && WentRound(RemoveParticipant(old(world), old(world).chats[id], self), world, servers.Keys, old(world).chats[id],
                     HasLeft(self))
      ensures if home(self) == home(id) then r in {Done, Threw(SessionError), Threw(Transport)}
              else r in {Done, Threw(InterServer), Threw(Transport)}
    {
      EntryIsFor(self, id);
      match servers[home(self)].sessions[self].chats[id]
      case Local(o) =>
        r := LeaveChat(o, self);
      case Remote(c) =>
        var f := Transmit();
        if f.RequestLost? || f.Refused? || home(id) !in servers {
          return Threw(if f.Refused? then InterServer else Transport);
        }
        r := LeaveAtServer(self, id);
        if f.ReplyLost? {
          r := Threw(Transport);
        }
    }

    /** What the entry of a session leads to. */
    lemma EntryIsFor(self: UserID, id: ChatID)
      requires Tied() && Sound(world, home) && world.HasEntry(self, id)
      ensures home(self) in servers && servers[home(self)] in Repr && self in servers[home(self)].sessions
      ensures servers[home(self)].sessions[self] in Repr && id in servers[home(self)].sessions[self].chats
      ensures servers[home(self)].sessions[self].chats[id] == world.sessions[self][id]
      ensures match world.sessions[self][id]
              case Local(o) =>
                && o in world.participants && o.chatID == id && home(self) == home(id)
                && (self in world.participants[o] ==> id in world.chats && world.chats[id] == o)
                && (world.Takes(self, id) ==> world.chats[id] == o)
              case Remote(c) => c == id && home(self) != home(id)
      ensures world.Takes(self, id) ==> home(id) in servers
    {
      assert SessionTied(home(self), self) && CallbackAt(world, self);
      assert EntryAt(world, home, self, id) && DepartedAt(world, self, id) && JoinedAt(world, self, id);
      assert FiledAt(world, id);
      if world.Takes(self, id) {
        assert ParticipantAt(world, home, world.chats[id], self);
      }
    }
  }
}
