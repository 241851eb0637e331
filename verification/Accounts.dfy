/** Where accounts and sessions meet: logging in with a password, deleting the own account (src/server/session.cpp), and
    saving the log of a chat before leaving it (src/client/backend/chat.cpp). */
module Accounts {
  import opened Wrappers
  import opened Identifiers
  import opened Security
  import opened Rooms
  import opened ClientBackend
  import opened Servers
  import opened Worlds
  import opened Federation
  import opened Sessions
  import opened Clients
  import ContactList
  import UserDatabase
  import Authentication

  /** login: the account decides the host, so whoever gets a session is a user of that host. */
  method Login(net: Network, authority: Authentication.Authority, name: UserID, password: Bytes) returns (r: Outcome)
    requires Valid(net) && authority.Valid() && net.home(name) == HostOf(name) && authority.hostname in net.servers
    modifies net.Repr
    ensures Valid(net) && old(net.Repr) <= net.Repr && fresh(net.Repr - old(net.Repr))
    ensures r.Done? ==> old(authority.Accepts(name, password)) && HostOf(name) == authority.hostname
    ensures r.Done? ==> name !in old(net.world).sessions && name in net.world.sessions
    ensures r.Threw? ==> r == Threw(Authentication) && net.world == old(net.world)
    ensures net.reliable && authority.db.reliable && old(authority.Accepts(name, password)) && name !in old(net.world).sessions ==> r.Done?
  {
    var verified := authority.Verify(name, password);
    if verified.Failure? {
      return Threw(Exn.Authentication);
    }
    ghost var k;
    r, k := Sessions.Login(net, name);
  }

  /** deleteUser: only the own account, and the session goes with it. */
  method DeleteUser(net: Network, db: UserDatabase.Database, self: UserID, participant: UserID, sameKey: bool, ghost t: Table)
    returns (r: Outcome)
    requires Valid(net) && self in net.world.sessions && db.Valid() && db !in net.Repr
    requires net.reliable ==> Agrees(net.world, t, {}, {})
    modifies net.Repr, db
    ensures Valid(net) && net.Repr == old(net.Repr) && db.Valid()
    ensures participant != self || !sameKey ==> r == Threw(UserHandling) && db.Contents() == old(db.Contents())
    ensures r.Threw? ==> r == Threw(UserHandling) && net.world == old(net.world)
    ensures r.Done? ==> self in old(db.Contents()) && db.Contents() == old(db.Contents()) - {self}
    ensures r.Done? ==> self !in net.world.sessions
    ensures r.Done? ==> forall c :: net.home(self) == net.home(c) ==> !net.world.Takes(self, c)
    ensures r.Done? && net.reliable ==> Agrees(net.world, Rooms.Logout(t, self), {}, {})
    ensures db.reliable && participant == self && sameKey && self in old(db.Contents()) ==> r.Done?
  {
    if participant != self || !sameKey {
      return Threw(UserHandling);
    }
    var proxy := UserDatabase.GetProxy(db, participant);
    if proxy.Failure? {
      return Threw(UserHandling);
    }
    var deleted := proxy.value.DeleteUser();
    if deleted.Failure? {
      return Threw(UserHandling);
    }
    r := Sessions.Logout(net, self, t);
  }

  // ----- Leaving a chat for good -----

  /** What is saved of the chat that client `k` shows, under the keys of its user. `written` is how a log is laid out
      as bytes. */
  ghost function SealedLog(net: Network, k: Client, id: ChatID, signer: Signer, random: Randomness, written: seq<Message> -> Bytes)
      : Result<UserDatabase.Container, Security.Error>
    requires k in net.world.screens && id in net.world.screens[k]
    reads net
  {
    ContactList.Sealed(ContactList.Keys(net.cipher, net.keys(k.user), signer), random, written(net.world.screens[k][id].log))
  }

  /** saveLog of the user's session: the user's record then has the log under the chat's ID and the time. */
  method SaveLog(net: Network, db: UserDatabase.Database, user: UserID, id: ChatID, timestamp: int,
                 container: UserDatabase.Container)
    returns (ok: bool)
    requires db.Valid()
    modifies db
    ensures db.Valid()
    ensures ok ==> user in old(db.Contents())
    ensures ok ==>
      var account := old(db.Contents())[user];
      db.Contents() == old(db.Contents())[user := account.(logs := account.logs[(id, timestamp) := container])]
    ensures net.reliable && db.reliable && user in old(db.Contents()) ==> ok
  {
    var f := net.Transmit();
    if f.RequestLost? || f.Refused? {
      return false;
    }
    var proxy := UserDatabase.GetProxy(db, user);
    if proxy.Failure? {
      return false;
    }
    var r := proxy.value.SaveLog(id, timestamp, container);
    ok := r.Success? && !f.ReplyLost?;
  }

  /** With proper keys a saved container opens to the text again, and its signature is the user's. */
  ghost predicate OpensTo(cipher: BlockCipher, pair: KeyPair, signer: Signer, container: UserDatabase.Container, text: Bytes) {
    DecryptRSA(cipher, pair, container.data) == Success(text) && signer.verify(text, container.signature)
  }

  lemma Opens(cipher: BlockCipher, pair: KeyPair, signer: Signer, random: Randomness, text: Bytes)
    requires Fits(pair, random)
    ensures var container := ContactList.Sealed(ContactList.Keys(cipher, pair, signer), random, text);
      pair.Valid() && pair.bits % 8 == 0 && signer.Valid() ==>
        container.Success? && OpensTo(cipher, pair, signer, container.value, text)
  {
    if pair.Valid() && pair.bits % 8 == 0 && signer.Valid() {
      ContactList.ContainerOpens(ContactList.Keys(cipher, pair, signer), random, text);
    }
  }

  /** The client seals what it shows of the chat, has it saved, and only then asks to leave. */
  method RunLeaveChat(net: Network, db: UserDatabase.Database, k: Client, id: ChatID, timestamp: int, signer: Signer,
                      random: Randomness, written: seq<Message> -> Bytes, ghost t: Table)
    returns (ok: bool, ghost saved: bool)
    requires Valid(net) && Settled(net, t) && Live(net, k) && k in net.world.screens && id in net.world.screens[k]
    requires db.Valid() && db !in net.Repr && Fits(net.keys(k.user), random)
    modifies net.Repr, db
    ensures Valid(net) && net.Repr == old(net.Repr) && Live(net, k) && db.Valid()
    ensures k in net.world.screens && id !in net.world.screens[k]
    ensures saved ==> old(SealedLog(net, k, id, signer, random, written)).Success? && k.user in old(db.Contents())
    ensures saved ==>
      var (accounts, container) := (old(db.Contents()), old(SealedLog(net, k, id, signer, random, written)).value);
      db.Contents() == accounts[k.user := accounts[k.user].(logs := accounts[k.user].logs[(id, timestamp) := container])]
    ensures saved && net.keys(k.user).Valid() && net.keys(k.user).bits % 8 == 0 && signer.Valid() ==>
      && k.user in db.Contents() && (id, timestamp) in db.Contents()[k.user].logs
      && OpensTo(net.cipher, net.keys(k.user), signer, db.Contents()[k.user].logs[(id, timestamp)],
                 written(old(net.world.screens[k][id].log)))
    ensures saved ==> Settled(net, Leave(t, k.user, id)) && (net.reliable ==> (ok <==> t.IsMember(k.user, id)))
    ensures !saved ==> !ok && net.world == DropView(old(net.world), k, id)
    ensures ok ==> old(net.world).Takes(k.user, id) && !net.world.Takes(k.user, id) && !net.world.HasEntry(k.user, id)
    ensures net.reliable && db.reliable && k.user in old(db.Contents())
            && old(SealedLog(net, k, id, signer, random, written)).Success? ==>
              saved
  {
    assert net.ScreenTied(k);
    var log := k.chats[id].log;
    var cryptLog := ContactList.Sealed(ContactList.Keys(net.cipher, net.keys(k.user), signer), random, written(log));
    var done := false;
    if cryptLog.Success? {
      Opens(net.cipher, net.keys(k.user), signer, random, written(log));
      done := SaveLog(net, db, k.user, id, timestamp, cryptLog.value);
    }
    saved := done;
    ok := Clients.RunLeaveChat(net, k, id, done, t);
  }
}
