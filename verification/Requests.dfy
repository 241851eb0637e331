/** Whole runs: any sequence of requests by any users of any servers, local or remote, served one at a time. */
module Requests {
  import opened Identifiers
  import opened Security
  import opened Rooms
  import opened ClientBackend
  import opened Servers
  import opened Worlds
  import opened Federation
  import opened Sessions
  import opened Clients

  predicate WellMade(q: Request) {
    q.Open? ==> |q.key| == SESSION_KEY_SIZE
  }

  /** A generator: any bytes of the wanted length. */
  method RandomBytes(n: nat) returns (bytes: Bytes)
    ensures |bytes| == n
  {
    bytes := *;
    if |bytes| != n {
      bytes := seq(n, _ => 0);
    }
  }

  /** The client of a logged-in user. */
  method FindClient(net: Network, user: UserID) returns (k: Client?)
    requires Valid(net)
    ensures k == null <==> user !in net.world.sessions
    ensures k != null ==> k.user == user && Live(net, k) && k in net.world.screens && k.chats.Keys == net.world.screens[k].Keys
    ensures k != null ==> forall id :: id in k.chats ==> k.chats[id].key == net.world.screens[k][id].key
  {
    assert CallbackAt(net.world, user);
    if user in net.world.sessions {
      SessionOf(net, user);
    }
    if net.home(user) !in net.servers {
      return null;
    }
    assert net.SessionTied(net.home(user), user);
    if user !in net.servers[net.home(user)].sessions {
      return null;
    }
    k := net.servers[net.home(user)].sessions[user].callback;
    assert net.ScreenTied(k);
  }

  /** A user who is not logged in, or a chat that the user's client does not show, is beyond any request. */
  lemma NothingToAsk(w: World, home: string -> Host, t: Table, hosts: set<Host>, q: Request)
    requires Agrees(w, t, {}, {}) && !q.Enter?
    requires q.user !in w.sessions || ((q.Bring? || q.Say? || q.Quit?) && !w.Shows(q.user, q.id))
    ensures Step(t, home, hosts, q) == t
  {
    if q.Bring? || q.Say? || q.Quit? {
      assert ScreenAt(w, t, q.user, q.id) && RoomAt(w, t, q.id);
    }
  }

  lemma TableWellFormed(w: World, t: Table)
    requires Agrees(w, t, {}, {})
    ensures WellFormed(t)
  {
    forall c | c in t.rooms
      ensures t.rooms[c].logs != map[] && t.rooms[c].Members() <= t.online
    {
      assert RoomAt(w, t, c);
    }
  }

  method Serve(net: Network, q: Request, ghost t: Table)
    requires Valid(net) && Routed(net.home) && Settled(net, t) && WellMade(q)
    requires forall u :: net.keys(u).MaximumEncryptSize() >= 0
    modifies net.Repr
    ensures Valid(net) && old(net.Repr) <= net.Repr && fresh(net.Repr - old(net.Repr))
    ensures Settled(net, Step(t, net.home, net.servers.Keys, q))
  {
    if q.Enter? {
      if net.home(q.user) in net.servers {
        var _ := RunLogin(net, q.user, t);
      }
      return;
    }
    var k := FindClient(net, q.user);
    if k == null || ((q.Bring? || q.Say? || q.Quit?) && q.id !in k.chats) {
      if net.reliable {
        NothingToAsk(net.world, net.home, t, net.servers.Keys, q);
      }
      return;
    }
    ServeClient(net, k, q, t);
  }

  method InviteOnce(net: Network, k: Client, id: ChatID, invitee: UserID, ghost t: Table)
    requires Valid(net) && Settled(net, t) && Live(net, k) && k in net.world.screens && id in net.world.screens[k]
    requires net.keys(invitee).MaximumEncryptSize() >= 0
    modifies net.Repr
    ensures Valid(net) && old(net.Repr) <= net.Repr && fresh(net.Repr - old(net.Repr))
    ensures Settled(net, Rooms.Invite(t, k.user, invitee, id))
  {
    var n := net.keys(invitee).MaximumEncryptSize();
    var symkey := RandomBytes(n);
    var iv := RandomBytes(n);
    var seed := RandomBytes(20);
    var sameKey: bool := *;
    var _ := RunInvite(net, k, id, invitee, sameKey, Randomness(symkey, iv, seed), t);
  }

  method ServeClient(net: Network, k: Client, q: Request, ghost t: Table)
    requires Valid(net) && Routed(net.home) && Settled(net, t) && WellMade(q)
    requires forall u :: net.keys(u).MaximumEncryptSize() >= 0
    requires Live(net, k) && k in net.world.screens && k.user == q.user && !q.Enter?
    requires k.chats.Keys == net.world.screens[k].Keys
    requires forall id :: id in k.chats ==> k.chats[id].key == net.world.screens[k][id].key
    requires q.Bring? || q.Say? || q.Quit? ==> q.id in k.chats
    modifies net.Repr
    ensures Valid(net) && old(net.Repr) <= net.Repr && fresh(net.Repr - old(net.Repr))
    ensures Settled(net, Step(t, net.home, net.servers.Keys, q))
  {
    if net.reliable {
      TableWellFormed(net.world, t);
    }
    match q
    case Open(_, key) =>
      var _ := RunInitChat(net, k, key, t);
    case Bring(_, invitee, id) =>
      InviteOnce(net, k, id, invitee, t);
    case Say(_, id, text) =>
      var iv := RandomBytes(|k.chats[id].key|);
      var _, _ := RunSend(net, k, id, text, iv, t);
    case Quit(_, id) =>
      var save := net.Transmit();
      var _ := RunLeaveChat(net, k, id, save.Delivered?, t);
    case Exit(_) =>
      var _ := RunLogout(net, k, t);
  }

  /** As long as nothing fails, the federation does what the table does, whoever asks for what and on whichever
      servers the users and the chats are; whatever fails, it stays sound. */
  method ServeAll(net: Network, qs: seq<Request>, ghost t: Table)
    requires Valid(net) && Routed(net.home) && Settled(net, t) && forall q :: q in qs ==> WellMade(q)
    requires forall u :: net.keys(u).MaximumEncryptSize() >= 0
    modifies net.Repr
    ensures Valid(net) && old(net.Repr) <= net.Repr && fresh(net.Repr - old(net.Repr))
    ensures Settled(net, Run(t, net.home, net.servers.Keys, qs))
  {
    var i := 0;
    while i < |qs|
      invariant 0 <= i <= |qs|
      invariant Valid(net) && old(net.Repr) <= net.Repr && fresh(net.Repr - old(net.Repr))
      invariant Settled(net, Run(t, net.home, net.servers.Keys, qs[..i]))
    {
      Serve(net, qs[i], Run(t, net.home, net.servers.Keys, qs[..i]));
      assert qs[..i + 1] == qs[..i] + [qs[i]];
      RunSnoc(t, net.home, net.servers.Keys, qs[..i], qs[i]);
      i := i + 1;
    }
    assert qs[..|qs|] == qs;
  }

  /** After the requests `qs`, the chat's server, the user's session and the user's client have the user in the chat if and
      only if a request brought the user in and it has not gone away since, and the client shows what members have said
      there since. */
  ghost predicate PlacedBy(w: World, qs: seq<Request>, home: string -> Host, hosts: set<Host>, user: UserID, id: ChatID) {
    && (w.Takes(user, id) <==> exists i :: CameInLast(qs, home, hosts, user, id, i))
    && (w.HasEntry(user, id) <==> exists i :: CameInLast(qs, home, hosts, user, id, i))
    && (w.Shows(user, id) <==> exists i :: CameInLast(qs, home, hosts, user, id, i))
    && forall i: nat :: CameInLast(qs, home, hosts, user, id, i) ==>
         && w.Shows(user, id) && (qs[i].Open? ==> w.ViewOf(user, id).key == qs[i].key)
         && w.ViewOf(user, id).log == Said(Run(NOBODY, home, hosts, qs[..i + 1]), home, hosts, qs[i + 1..], id)
  }

  lemma RequestsPlace(w: World, qs: seq<Request>, home: string -> Host, hosts: set<Host>, user: UserID, id: ChatID)
    requires Agrees(w, Run(NOBODY, home, hosts, qs), {}, {})
    ensures PlacedBy(w, qs, home, hosts, user, id)
  {
    var t := Run(NOBODY, home, hosts, qs);
    assert RoomAt(w, t, id) && SessionAt(w, t, user, id) && ScreenAt(w, t, user, id);
    RunMembers(qs, home, hosts, user, id);
    forall i: nat | CameInLast(qs, home, hosts, user, id, i)
      ensures w.Shows(user, id) && (qs[i].Open? ==> w.ViewOf(user, id).key == qs[i].key)
      ensures w.ViewOf(user, id).log == Said(Run(NOBODY, home, hosts, qs[..i + 1]), home, hosts, qs[i + 1..], id)
    {
      RunLogs(qs, home, hosts, user, id, i);
    }
  }

  /** A federation of new servers, from its first request on. */
  method Lifetime(servers: map<Host, Server>, reliable: bool, cipher: BlockCipher, keys: UserID -> KeyPair, qs: seq<Request>)
    returns (net: Network)
    requires forall h :: h in servers ==> servers[h].hostname == h && servers[h].sessions == map[] && servers[h].chats == map[]
    requires forall u :: keys(u).MaximumEncryptSize() >= 0
    requires reliable ==> forall u :: keys(u).Valid() && keys(u).bits % 8 == 0
    requires forall q :: q in qs ==> WellMade(q)
    modifies servers.Values
    ensures Valid(net) && net.home == HostOf && net.servers == servers
    ensures reliable ==> Agrees(net.world, Run(NOBODY, HostOf, servers.Keys, qs), {}, {})
    ensures reliable ==> forall u :: u in net.world.sessions <==> exists i :: EnteredLast(qs, HostOf, servers.Keys, u, i)
    ensures reliable ==> forall u, c :: PlacedBy(net.world, qs, HostOf, servers.Keys, u, c)
    ensures SameOrder(Run(NOBODY, HostOf, servers.Keys, qs))
  {
    net := new Network(servers, reliable, cipher, keys);
    forall i: nat, h ensures net.home(ChatName(i, h)) == h { ChatNameOwner(i, h); }
    ServeAll(net, qs, NOBODY);
    RunKeeps(NOBODY, HostOf, servers.Keys, qs);
    if reliable {
      forall u ensures u in net.world.sessions <==> exists i :: EnteredLast(qs, HostOf, servers.Keys, u, i) {
        RunOnline(qs, HostOf, servers.Keys, u);
      }
      forall u, c ensures PlacedBy(net.world, qs, HostOf, servers.Keys, u, c) {
        RequestsPlace(net.world, qs, HostOf, servers.Keys, u, c);
      }
    }
  }
}
