/** The accounts of one server (src/server/userdbproxy.cpp) in three tables (misc/deploy.sql). A table is a set of
    rows; each statement is a filter or an insertion that keeps the declared constraints, or fails and does
    nothing. The proxies are proved to keep one record per user name. */
module UserDatabase {
  import opened Wrappers
  import opened Identifiers
  import opened Security

  /** sdc::SecureContainer */
  datatype Container = Container(data: Bytes, signature: Bytes)

  const EMPTY := Container([], [])

  datatype UserRow = UserRow(id: nat, username: UserID, publicKey: Bytes, hash: Bytes, salt: Bytes)

  datatype LogRow = LogRow(id: nat, userID: nat, chatID: ChatID, timestamp: int, content: Container)

  datatype ListRow = ListRow(id: nat, userID: nat, content: Container)

  // ----- What the tables amount to -----

  datatype Account = Account(publicKey: Bytes, hash: Bytes, salt: Bytes, contacts: Option<Container>,
                             logs: map<(ChatID, int), Container>)

  type Accounts = map<UserID, Account>

  ghost predicate UsersUnique(users: set<UserRow>) {
    forall a, b :: a in users && b in users && (a.id == b.id || a.username == b.username) ==> a == b
  }

  ghost predicate LogsUnique(logs: set<LogRow>) {
    forall a, b :: a in logs && b in logs && (a.id == b.id || Key(a) == Key(b)) ==> a == b
  }

  ghost predicate ListsUnique(lists: set<ListRow>) {
    forall a, b :: a in lists && b in lists && (a.id == b.id || a.userID == b.userID) ==> a == b
  }

  function Key(row: LogRow): (nat, ChatID, int) {
    (row.userID, row.chatID, row.timestamp)
  }

  ghost predicate IsUser(users: set<UserRow>, id: nat) {
    exists u :: u in users && u.id == id
  }

  ghost predicate HasContacts(lists: set<ListRow>, id: nat) {
    exists r :: r in lists && r.userID == id
  }

  ghost function ContactsOf(lists: set<ListRow>, id: nat): Option<Container> {
    if HasContacts(lists, id) then (var r :| r in lists && r.userID == id; Some(r.content)) else None
  }

  ghost function LogKeys(logs: set<LogRow>, id: nat): set<(ChatID, int)> {
    set r | r in logs && r.userID == id :: (r.chatID, r.timestamp)
  }

  ghost function LogWith(logs: set<LogRow>, id: nat, k: (ChatID, int)): LogRow
    requires k in LogKeys(logs, id)
  {
    var r :| r in logs && Key(r) == (id, k.0, k.1);
    r
  }

  ghost function LogsOf(logs: set<LogRow>, id: nat): map<(ChatID, int), Container> {
    map k | k in LogKeys(logs, id) :: LogWith(logs, id, k).content
  }

  ghost function AccountOf(u: UserRow, logs: set<LogRow>, lists: set<ListRow>): Account {
    Account(u.publicKey, u.hash, u.salt, ContactsOf(lists, u.id), LogsOf(logs, u.id))
  }

  ghost function Names(users: set<UserRow>): set<UserID> {
    set u | u in users :: u.username
  }

  ghost function UserNamed(users: set<UserRow>, name: UserID): UserRow
    requires name in Names(users)
  {
    var u :| u in users && u.username == name;
    u
  }

  ghost function AllAccounts(users: set<UserRow>, logs: set<LogRow>, lists: set<ListRow>): Accounts {
    map name | name in Names(users) :: AccountOf(UserNamed(users, name), logs, lists)
  }

  /** The rows of a user are what the user's record is made of. */
  lemma TheRows(users: set<UserRow>, logs: set<LogRow>, lists: set<ListRow>)
    requires UsersUnique(users) && LogsUnique(logs) && ListsUnique(lists)
    ensures forall u :: u in users ==> u.username in Names(users) && UserNamed(users, u.username) == u
    ensures forall r :: r in lists ==> HasContacts(lists, r.userID) && ContactsOf(lists, r.userID) == Some(r.content)
    ensures forall r :: r in logs ==>
              (r.chatID, r.timestamp) in LogKeys(logs, r.userID) && LogWith(logs, r.userID, (r.chatID, r.timestamp)) == r
  {}

  // ----- The statements -----

  class Database {
    const reliable: bool
    var users: set<UserRow>
    var chatlog: set<LogRow>
    var contactlist: set<ListRow>
    /** The sequences behind the serial columns. */
    var nextUser: nat
    var nextLog: nat
    var nextList: nat

    /** The constraints of the schema: primary, unique and foreign keys. */
    ghost predicate Valid()
      reads this
    {
      && UsersUnique(users) && LogsUnique(chatlog) && ListsUnique(contactlist)
      && (forall u :: u in users ==> u.id < nextUser)
      && (forall r :: r in chatlog ==> r.id < nextLog && IsUser(users, r.userID))
      && (forall r :: r in contactlist ==> r.id < nextList && IsUser(users, r.userID))
    }

    ghost predicate Unreferred(userID: nat)
      reads this
    {
      (forall r :: r in chatlog ==> r.userID != userID) && (forall r :: r in contactlist ==> r.userID != userID)
    }

    ghost function Contents(): Accounts
      reads this
    {
      AllAccounts(users, chatlog, contactlist)
    }

    constructor (reliable: bool)
      ensures this.reliable == reliable && Valid() && Contents() == map[]
    {
      this.reliable := reliable;
      users, chatlog, contactlist := {}, {}, {};
      nextUser, nextLog, nextList := 0, 0, 0;
    }

    method Execute() returns (ok: bool)
      ensures reliable ==> ok
    {
      ok := *;
      ok := ok || reliable;
    }

    method DeleteLogs(userID: nat) returns (ok: bool)
      requires Valid()
      modifies this`chatlog
      ensures Valid() && (reliable ==> ok)
      ensures chatlog == if ok then set r | r in old(chatlog) && r.userID != userID else old(chatlog)
    {
      ok := Execute();
      if ok {
        chatlog := set r | r in chatlog && r.userID != userID;
      }
    }

    method DeleteLog(userID: nat, chatID: ChatID, timestamp: int) returns (ok: bool)
      requires Valid()
      modifies this`chatlog
      ensures Valid() && (reliable ==> ok)
      ensures chatlog == if ok then set r | r in old(chatlog) && Key(r) != (userID, chatID, timestamp) else old(chatlog)
    {
      ok := Execute();
      if ok {
        chatlog := set r | r in chatlog && Key(r) != (userID, chatID, timestamp);
      }
    }

    method DeleteContacts(userID: nat) returns (ok: bool)
      requires Valid()
      modifies this`contactlist
      ensures Valid() && (reliable ==> ok)
      ensures contactlist == if ok then set r | r in old(contactlist) && r.userID != userID else old(contactlist)
    {
      ok := Execute();
      if ok {
        contactlist := set r | r in contactlist && r.userID != userID;
      }
    }

    /** Refused while a log or a contact list refers to the user. */
    method DeleteUserNamed(username: UserID) returns (ok: bool)
      requires Valid()
      modifies this`users
      ensures Valid()
      ensures ok ==> forall u :: u in old(users) && u.username == username ==> Unreferred(u.id)
      ensures reliable && (forall u :: u in old(users) && u.username == username ==> Unreferred(u.id)) ==> ok
      ensures users == if ok then set u | u in old(users) && u.username != username else old(users)
    {
      ok := Execute();
      var gone := set u | u in users && u.username == username :: u.id;
      ok := ok && (forall r | r in chatlog :: r.userID !in gone) && (forall r | r in contactlist :: r.userID !in gone);
      if ok {
        ghost var before := users;
        users := set u | u in users && u.username != username;
        forall r | r in chatlog ensures IsUser(users, r.userID) {
          var u :| u in before && u.id == r.userID;
          assert u in users;
        }
        forall r | r in contactlist ensures IsUser(users, r.userID) {
          var u :| u in before && u.id == r.userID;
          assert u in users;
        }
      }
    }

    method InsertUser(username: UserID, publicKey: Bytes, hash: Bytes, salt: Bytes) returns (ok: bool)
      requires Valid()
      modifies this`users, this`nextUser
      ensures Valid()
      ensures ok ==> forall u :: u in old(users) ==> u.username != username
      ensures reliable && (forall u :: u in old(users) ==> u.username != username) ==> ok
      ensures users == if ok then old(users) + {UserRow(old(nextUser), username, publicKey, hash, salt)} else old(users)
    {
      ok := Execute();
      ok := ok && forall u | u in users :: u.username != username;
      ghost var before := users;
      if ok {
        users := users + {UserRow(nextUser, username, publicKey, hash, salt)};
      }
      nextUser := nextUser + 1;
      forall r | r in chatlog ensures IsUser(users, r.userID) {
        var u :| u in before && u.id == r.userID;
        assert u in users;
      }
      forall r | r in contactlist ensures IsUser(users, r.userID) {
        var u :| u in before && u.id == r.userID;
        assert u in users;
      }
    }

    method InsertContacts(userID: nat, content: Container) returns (ok: bool)
      requires Valid()
      modifies this`contactlist, this`nextList
      ensures Valid()
      ensures ok ==> IsUser(users, userID) && forall r :: r in old(contactlist) ==> r.userID != userID
      ensures reliable && IsUser(users, userID) && (forall r :: r in old(contactlist) ==> r.userID != userID) ==> ok
      ensures contactlist == if ok then old(contactlist) + {ListRow(old(nextList), userID, content)} else old(contactlist)
    {
      ok := Execute();
      ok := ok && (exists u | u in users :: u.id == userID) && forall r | r in contactlist :: r.userID != userID;
      if ok {
        contactlist := contactlist + {ListRow(nextList, userID, content)};
      }
      nextList := nextList + 1;
    }

    method InsertLog(userID: nat, chatID: ChatID, timestamp: int, content: Container) returns (ok: bool)
      requires Valid()
      modifies this`chatlog, this`nextLog
      ensures Valid()
      ensures ok ==> IsUser(users, userID) && forall r :: r in old(chatlog) ==> Key(r) != (userID, chatID, timestamp)
      ensures reliable && IsUser(users, userID) && (forall r :: r in old(chatlog) ==> Key(r) != (userID, chatID, timestamp)) ==> ok
      ensures chatlog == if ok then old(chatlog) + {LogRow(old(nextLog), userID, chatID, timestamp, content)} else old(chatlog)
    {
      ok := Execute();
      ok := ok && (exists u | u in users :: u.id == userID)
        && forall r | r in chatlog :: Key(r) != (userID, chatID, timestamp);
      if ok {
        chatlog := chatlog + {LogRow(nextLog, userID, chatID, timestamp, content)};
      }
      nextLog := nextLog + 1;
    }
  }

  // ----- What a request that fails half-way can have done -----

  ghost predicate LostContacts(before: Accounts, after: Accounts, name: UserID) {
    after == before || (name in before && after == before[name := before[name].(contacts := None)])
  }

  ghost predicate LostLog(before: Accounts, after: Accounts, name: UserID, k: (ChatID, int)) {
    after == before || (name in before && after == before[name := before[name].(logs := before[name].logs - {k})])
  }

  ghost predicate LostAll(before: Accounts, after: Accounts, name: UserID) {
    || after == before
    || (name in before && after == before[name := before[name].(logs := map[])])
    || (name in before && after == before[name := before[name].(logs := map[], contacts := None)])
  }

  // ----- The proxies -----

  datatype Failure = UserHandling | NoSuchUser | ContactFailure | LogFailure

  /** One user's window on the database. The row it was made from may be gone by the time it is used. */
  class UserDbProxy {
    const db: Database
    const username: UserID
    const publicKey: Bytes
    const hash: Bytes
    const salt: Bytes
    const id: nat

    constructor (db: Database, row: UserRow)
      ensures this.db == db && username == row.username && publicKey == row.publicKey
      ensures hash == row.hash && salt == row.salt && id == row.id
    {
      this.db, username, publicKey, hash, salt, id := db, row.username, row.publicKey, row.hash, row.salt, row.id;
    }

    /** The user's row is still there. */
    ghost predicate Live()
      reads db
    {
      UserRow(id, username, publicKey, hash, salt) in db.users
    }

    method SaveContactList(container: Container) returns (r: Result<(), Failure>)
      requires db.Valid()
      modifies db
      ensures db.Valid() && db.users == old(db.users)
      ensures Live() && r.Success? ==>
                username in old(db.Contents())
                && db.Contents() == old(db.Contents())[username := old(db.Contents())[username].(contacts := Some(container))]
      ensures Live() && r.Failure? ==> LostContacts(old(db.Contents()), db.Contents(), username)
      ensures r.Failure? ==> r.error == ContactFailure
      ensures db.reliable && Live() ==> r.Success?
    {
      var ok := db.DeleteContacts(id);
      if !ok {
        return Failure(ContactFailure);
      }
      ok := db.InsertContacts(id, container);
      if !ok {
        if Live() {
          ContactsDropped(db.users, db.chatlog, old(db.contactlist), UserRow(id, username, publicKey, hash, salt));
        }
        return Failure(ContactFailure);
      }
      if Live() {
        ContactsSaved(old(db.users), old(db.chatlog), old(db.contactlist), db.contactlist,
                      UserRow(id, username, publicKey, hash, salt), container);
      }
      return Success(());
    }

    method RetrieveContactList() returns (r: Result<Container, Failure>)
      requires db.Valid()
      ensures r.Success? && Live() ==>
                username in db.Contents() && r.value == db.Contents()[username].contacts.GetOr(EMPTY)
      ensures db.reliable ==> r.Success?
      ensures r.Failure? ==> r.error == ContactFailure
    {
      var ok := db.Execute();
      if !ok {
        return Failure(ContactFailure);
      }
      var rows := set row | row in db.contactlist && row.userID == id;
      AtMostOne(rows);
      if |rows| > 1 {
        return Failure(ContactFailure);
      }
      TheRows(db.users, db.chatlog, db.contactlist);
      assert Live() ==> UserNamed(db.users, username).id == id;
      if |rows| == 1 {
        var row :| row in rows;
        return Success(row.content);
      }
      assert rows == {};
      assert forall row :: row in db.contactlist && row.userID == id ==> row in rows;
      return Success(EMPTY);
    }

    method SaveLog(chatID: ChatID, timestamp: int, container: Container) returns (r: Result<(), Failure>)
      requires db.Valid()
      modifies db
      ensures db.Valid() && db.users == old(db.users)
      ensures Live() && r.Success? ==>
        && username in old(db.Contents())
        && var account := old(db.Contents())[username];
           db.Contents() == old(db.Contents())[username := account.(logs := account.logs[(chatID, timestamp) := container])]
      ensures Live() && r.Failure? ==> LostLog(old(db.Contents()), db.Contents(), username, (chatID, timestamp))
      ensures r.Failure? ==> r.error == LogFailure
      ensures db.reliable && Live() ==> r.Success?
    {
      var ok := db.DeleteLog(id, chatID, timestamp);
      if !ok {
        return Failure(LogFailure);
      }
      ok := db.InsertLog(id, chatID, timestamp, container);
      if !ok {
        if Live() {
          LogDropped(db.users, old(db.chatlog), db.contactlist, UserRow(id, username, publicKey, hash, salt),
                     (chatID, timestamp));
        }
        return Failure(LogFailure);
      }
      if Live() {
        LogSaved(old(db.users), old(db.chatlog), db.chatlog, old(db.contactlist),
                 UserRow(id, username, publicKey, hash, salt), (chatID, timestamp), container);
      }
      return Success(());
    }

    /** The cursor goes through the rows in no particular order. */
    method RetrieveLoglist() returns (r: Result<seq<(ChatID, int)>, Failure>)
      requires db.Valid()
      ensures r.Success? && Live() ==>
        && username in db.Contents()
        && (forall k :: k in r.value <==> k in db.Contents()[username].logs)
        && (forall i, j :: 0 <= i < j < |r.value| ==> r.value[i] != r.value[j])
      ensures db.reliable ==> r.Success?
      ensures r.Failure? ==> r.error == LogFailure
    {
      var ok := db.Execute();
      if !ok {
        return Failure(LogFailure);
      }
      var rows := set row | row in db.chatlog && row.userID == id;
      var todo := rows;
      var list: seq<(ChatID, int)> := [];
      while todo != {}
        invariant todo <= rows
        invariant forall k :: k in list <==> k in LogKeys(rows - todo, id)
        invariant forall i, j :: 0 <= i < j < |list| ==> list[i] != list[j]
        decreases todo
      {
        var row :| row in todo;
        assert (row.chatID, row.timestamp) !in list by {
          assert forall other :: other in rows - todo ==> Key(other) != Key(row);
        }
        list := list + [(row.chatID, row.timestamp)];
        todo := todo - {row};
      }
      TheRows(db.users, db.chatlog, db.contactlist);
      assert Live() ==> UserNamed(db.users, username).id == id;
      assert rows - todo == rows && LogKeys(rows, id) == LogKeys(db.chatlog, id);
      return Success(list);
    }

    method RetrieveLog(chatID: ChatID, timestamp: int) returns (r: Result<Container, Failure>)
      requires db.Valid()
      ensures r.Success? && Live() ==>
        && username in db.Contents() && (chatID, timestamp) in db.Contents()[username].logs
        && r.value == db.Contents()[username].logs[(chatID, timestamp)]
      ensures db.reliable && Live() && username in db.Contents() && (chatID, timestamp) in db.Contents()[username].logs ==>
                r.Success?
      ensures r.Failure? ==> r.error == LogFailure
    {
      var ok := db.Execute();
      if !ok {
        return Failure(LogFailure);
      }
      var rows := set row | row in db.chatlog && Key(row) == (id, chatID, timestamp);
      AtMostOne(rows);
      TheRows(db.users, db.chatlog, db.contactlist);
      assert Live() ==> UserNamed(db.users, username).id == id;
      assert forall row :: row in db.chatlog && Key(row) == (id, chatID, timestamp) ==> row in rows;
      if |rows| != 1 {
        assert |rows| == 0;
        return Failure(LogFailure);
      }
      var row :| row in rows;
      return Success(row.content);
    }

    /** What refers to the user goes first. */
    method DeleteUser() returns (r: Result<(), Failure>)
      requires db.Valid()
      modifies db
      ensures db.Valid()
      ensures old(Live()) && r.Success? ==> db.Contents() == old(db.Contents()) - {username}
      ensures old(Live()) && r.Failure? ==> LostAll(old(db.Contents()), db.Contents(), username)
      ensures r.Failure? ==> r.error == UserHandling
      ensures db.reliable && old(Live()) ==> r.Success?
    {
      ghost var row := UserRow(id, username, publicKey, hash, salt);
      var ok := db.DeleteLogs(id);
      if !ok {
        return Failure(UserHandling);
      }
      ok := db.DeleteContacts(id);
      if !ok {
        if row in old(db.users) {
          LogsDropped(db.users, old(db.chatlog), db.contactlist, row);
        }
        return Failure(UserHandling);
      }
      ok := db.DeleteUserNamed(username);
      if !ok {
        if row in old(db.users) {
          ContentsDropped(db.users, old(db.chatlog), old(db.contactlist), row);
        }
        return Failure(UserHandling);
      }
      if row in old(db.users) {
        UserDeleted(old(db.users), old(db.chatlog), old(db.contactlist), db.users, db.chatlog, db.contactlist, row);
      }
      return Success(());
    }
  }

  /** The connection is opened, and the user's row is looked for. */
  method GetProxy(db: Database, username: UserID) returns (r: Result<UserDbProxy, Failure>)
    requires db.Valid()
    ensures r.Success? ==> username in db.Contents()
    ensures r.Failure? ==> r.error == UserHandling || (r.error == NoSuchUser && username !in db.Contents())
    ensures db.reliable ==> r != Failure(UserHandling)
    ensures r.Success? ==> fresh(r.value) && r.value.db == db && r.value.username == username && r.value.Live()
    ensures r.Success? ==>
      var account := db.Contents()[username];
      r.value.publicKey == account.publicKey && r.value.hash == account.hash && r.value.salt == account.salt
  {
    var ok := db.Execute();
    if !ok {
      return Failure(UserHandling);
    }
    TheRows(db.users, db.chatlog, db.contactlist);
    var rows := set u | u in db.users && u.username == username;
    if rows == {} {
      assert forall u :: u in db.users && u.username == username ==> u in rows;
      return Failure(NoSuchUser);
    }
    var row :| row in rows;
    var proxy := new UserDbProxy(db, row);
    return Success(proxy);
  }

  /** A new user has no contacts and no logs, whoever had the name before. */
  method CreateUser(db: Database, username: UserID, publicKey: Bytes, hash: Bytes, salt: Bytes) returns (r: Result<(), Failure>)
    requires db.Valid()
    modifies db
    ensures db.Valid()
    ensures r.Success? ==> username !in old(db.Contents())
    ensures db.Contents() == if r.Success? then old(db.Contents())[username := Account(publicKey, hash, salt, None, map[])]
                             else old(db.Contents())
    ensures db.reliable && username !in old(db.Contents()) ==> r.Success?
    ensures r.Failure? ==> r.error == UserHandling
  {
    TheRows(db.users, db.chatlog, db.contactlist);
    var ok := db.InsertUser(username, publicKey, hash, salt);
    if !ok {
      return Failure(UserHandling);
    }
    UserCreated(old(db.users), db.users, db.chatlog, db.contactlist, UserRow(old(db.nextUser), username, publicKey, hash, salt));
    return Success(());
  }

  // ----- What the statements come to -----

  lemma AtMostOne<T>(s: set<T>)
    requires forall a, b :: a in s && b in s ==> a == b
    ensures |s| <= 1
  {
    if s != {} {
      var x :| x in s;
      assert s == {x};
    }
  }

  lemma ContactsSaved(users: set<UserRow>, logs: set<LogRow>, lists: set<ListRow>, lists': set<ListRow>, u: UserRow, c: Container)
    requires UsersUnique(users) && LogsUnique(logs) && ListsUnique(lists) && ListsUnique(lists') && u in users
    requires forall r :: r in lists && r.userID != u.id ==> r in lists'
    requires forall r :: r in lists' && r.userID != u.id ==> r in lists
    requires exists r :: r in lists' && r.userID == u.id && r.content == c
    ensures u.username in AllAccounts(users, logs, lists)
    ensures AllAccounts(users, logs, lists') ==
            AllAccounts(users, logs, lists)[u.username := AllAccounts(users, logs, lists)[u.username].(contacts := Some(c))]
  {
    TheRows(users, logs, lists);
    TheRows(users, logs, lists');
    forall v | v in users && v != u
      ensures ContactsOf(lists', v.id) == ContactsOf(lists, v.id)
    {
      if HasContacts(lists, v.id) {
        var r :| r in lists && r.userID == v.id;
        assert r in lists';
      }
    }
  }

  lemma ContactsDropped(users: set<UserRow>, logs: set<LogRow>, lists: set<ListRow>, u: UserRow)
    requires UsersUnique(users) && LogsUnique(logs) && ListsUnique(lists) && u in users
    ensures u.username in AllAccounts(users, logs, lists)
    ensures AllAccounts(users, logs, (set r | r in lists && r.userID != u.id)) ==
            AllAccounts(users, logs, lists)[u.username := AllAccounts(users, logs, lists)[u.username].(contacts := None)]
  {
    var lists' := set r | r in lists && r.userID != u.id;
    TheRows(users, logs, lists);
    TheRows(users, logs, lists');
    forall v | v in users && v != u
      ensures ContactsOf(lists', v.id) == ContactsOf(lists, v.id)
    {
      if HasContacts(lists, v.id) {
        var r :| r in lists && r.userID == v.id;
        assert r in lists';
      }
    }
  }

  lemma LogDropped(users: set<UserRow>, logs: set<LogRow>, lists: set<ListRow>, u: UserRow, k: (ChatID, int))
    requires UsersUnique(users) && LogsUnique(logs) && ListsUnique(lists) && u in users
    ensures u.username in AllAccounts(users, logs, lists)
    ensures var before := AllAccounts(users, logs, lists);
            AllAccounts(users, (set r | r in logs && Key(r) != (u.id, k.0, k.1)), lists) ==
            before[u.username := before[u.username].(logs := before[u.username].logs - {k})]
  {
    var logs' := set r | r in logs && Key(r) != (u.id, k.0, k.1);
    TheRows(users, logs, lists);
    TheRows(users, logs', lists);
    forall v | v in users
      ensures LogsOf(logs', v.id) == if v == u then LogsOf(logs, v.id) - {k} else LogsOf(logs, v.id)
    {
      LogsOfDropped(logs, u.id, v.id, k);
    }
  }

  lemma LogsOfDropped(logs: set<LogRow>, u: nat, v: nat, k: (ChatID, int))
    requires LogsUnique(logs)
    ensures LogsOf((set r | r in logs && Key(r) != (u, k.0, k.1)), v) ==
            if v == u then LogsOf(logs, v) - {k} else LogsOf(logs, v)
  {
    TheRows({}, logs, {});
    TheRows({}, (set r | r in logs && Key(r) != (u, k.0, k.1)), {});
  }

  lemma LogsDropped(users: set<UserRow>, logs: set<LogRow>, lists: set<ListRow>, u: UserRow)
    requires UsersUnique(users) && LogsUnique(logs) && ListsUnique(lists) && u in users
    ensures u.username in AllAccounts(users, logs, lists)
    ensures AllAccounts(users, (set r | r in logs && r.userID != u.id), lists) ==
            AllAccounts(users, logs, lists)[u.username := AllAccounts(users, logs, lists)[u.username].(logs := map[])]
  {
    var logs' := set r | r in logs && r.userID != u.id;
    TheRows(users, logs, lists);
    TheRows(users, logs', lists);
    forall v | v in users
      ensures LogsOf(logs', v.id) == if v == u then map[] else LogsOf(logs, v.id)
    {}
  }

  lemma ContentsDropped(users: set<UserRow>, logs: set<LogRow>, lists: set<ListRow>, u: UserRow)
    requires UsersUnique(users) && LogsUnique(logs) && ListsUnique(lists) && u in users
    ensures u.username in AllAccounts(users, logs, lists)
    ensures var before := AllAccounts(users, logs, lists);
      AllAccounts(users, (set r | r in logs && r.userID != u.id), (set r | r in lists && r.userID != u.id)) ==
      before[u.username := before[u.username].(logs := map[], contacts := None)]
  {
    LogsDropped(users, logs, lists, u);
    ContactsDropped(users, (set r | r in logs && r.userID != u.id), lists, u);
  }

  lemma LogSaved(users: set<UserRow>, logs: set<LogRow>, logs': set<LogRow>, lists: set<ListRow>, u: UserRow,
                 k: (ChatID, int), c: Container)
    requires UsersUnique(users) && LogsUnique(logs) && LogsUnique(logs') && ListsUnique(lists) && u in users
    requires forall r :: r in logs && Key(r) != (u.id, k.0, k.1) ==> r in logs'
    requires forall r :: r in logs' && Key(r) != (u.id, k.0, k.1) ==> r in logs
    requires exists r :: r in logs' && Key(r) == (u.id, k.0, k.1) && r.content == c
    ensures u.username in AllAccounts(users, logs, lists)
    ensures var before := AllAccounts(users, logs, lists);
            var account := before[u.username];
            AllAccounts(users, logs', lists) == before[u.username := account.(logs := account.logs[k := c])]
  {
    TheRows(users, logs, lists);
    forall v | v in users
      ensures LogsOf(logs', v.id) == if v == u then LogsOf(logs, v.id)[k := c] else LogsOf(logs, v.id)
    {
      LogsOfSaved(logs, logs', u.id, v.id, k, c);
    }
  }

  lemma LogsOfSaved(logs: set<LogRow>, logs': set<LogRow>, u: nat, v: nat, k: (ChatID, int), c: Container)
    requires LogsUnique(logs) && LogsUnique(logs')
    requires forall r :: r in logs && Key(r) != (u, k.0, k.1) ==> r in logs'
    requires forall r :: r in logs' && Key(r) != (u, k.0, k.1) ==> r in logs
    requires exists r :: r in logs' && Key(r) == (u, k.0, k.1) && r.content == c
    ensures LogsOf(logs', v) == if v == u then LogsOf(logs, v)[k := c] else LogsOf(logs, v)
  {
    TheRows({}, logs, {});
    TheRows({}, logs', {});
  }

  lemma UserDeleted(users: set<UserRow>, logs: set<LogRow>, lists: set<ListRow>,
                    users': set<UserRow>, logs': set<LogRow>, lists': set<ListRow>, u: UserRow)
    requires UsersUnique(users) && LogsUnique(logs) && ListsUnique(lists) && u in users
    requires users' == (set v | v in users && v.username != u.username)
    requires logs' == (set r | r in logs && r.userID != u.id) && lists' == (set r | r in lists && r.userID != u.id)
    ensures AllAccounts(users', logs', lists') == AllAccounts(users, logs, lists) - {u.username}
  {
    TheRows(users, logs, lists);
    TheRows(users', logs', lists');
    forall v | v in users'
      ensures ContactsOf(lists', v.id) == ContactsOf(lists, v.id) && LogsOf(logs', v.id) == LogsOf(logs, v.id)
    {
    }
  }

  lemma UserCreated(users: set<UserRow>, users': set<UserRow>, logs: set<LogRow>, lists: set<ListRow>, u: UserRow)
    requires UsersUnique(users) && UsersUnique(users') && LogsUnique(logs) && ListsUnique(lists)
    requires users' == users + {u} && u !in users
    requires (forall r :: r in logs ==> IsUser(users, r.userID)) && (forall r :: r in lists ==> IsUser(users, r.userID))
    ensures AllAccounts(users', logs, lists) ==
            AllAccounts(users, logs, lists)[u.username := Account(u.publicKey, u.hash, u.salt, None, map[])]
  {
    TheRows(users, logs, lists);
    TheRows(users', logs, lists);
    forall r | r in logs ensures r.userID != u.id { var v :| v in users && v.id == r.userID; }
    forall r | r in lists ensures r.userID != u.id { var v :| v in users && v.id == r.userID; }
  }

  // ----- Runs -----

  datatype Request =
    | Register(name: UserID, publicKey: Bytes, hash: Bytes, salt: Bytes)
    | StoreContacts(name: UserID, content: Container)
    | StoreLog(name: UserID, key: (ChatID, int), content: Container)
    | Delete(name: UserID)

  /** What a request does to the records: nothing, if it is about a name that is taken, or one that is not there. */
  ghost function Apply(a: Accounts, q: Request): Accounts {
    match q
    case Register(name, publicKey, hash, salt) =>
      if name in a then a else a[name := Account(publicKey, hash, salt, None, map[])]
    case StoreContacts(name, content) => if name in a then a[name := a[name].(contacts := Some(content))] else a
    case StoreLog(name, key, content) =>
      if name in a then a[name := a[name].(logs := a[name].logs[key := content])] else a
    case Delete(name) => a - {name}
  }

  /** What a request can have done that failed: at most what it is about is gone. */
  ghost predicate Lost(before: Accounts, after: Accounts, q: Request) {
    match q
    case Register(_, _, _, _) => after == before
    case StoreContacts(name, _) => LostContacts(before, after, name)
    case StoreLog(name, key, _) => LostLog(before, after, name, key)
    case Delete(name) => LostAll(before, after, name)
  }

  ghost function Replay(qs: seq<Request>): Accounts {
    if qs == [] then map[] else Apply(Replay(qs[..|qs| - 1]), qs[|qs| - 1])
  }

  /** What the records are in between requests any of which may have failed. */
  ghost predicate AreStates(qs: seq<Request>, states: seq<Accounts>) {
    && |states| == |qs| + 1 && states[0] == map[]
    && forall i :: 0 <= i < |qs| ==> Follows(states[i], states[i + 1], qs[i])
  }

  ghost predicate Follows(before: Accounts, after: Accounts, q: Request) {
    after == Apply(before, q) || Lost(before, after, q)
  }

  /** As the session does it: a new proxy for each request. */
  method Perform(db: Database, q: Request) returns (done: bool)
    requires db.Valid()
    modifies db
    ensures db.Valid()
    ensures done ==> db.Contents() == Apply(old(db.Contents()), q)
    ensures !done ==> Lost(old(db.Contents()), db.Contents(), q)
    ensures db.reliable ==> db.Contents() == Apply(old(db.Contents()), q)
    ensures db.reliable ==> (done <==> (q.name in old(db.Contents()) <==> !q.Register?))
  {
    if q.Register? {
      var r := CreateUser(db, q.name, q.publicKey, q.hash, q.salt);
      return r.Success?;
    }
    var proxy := GetProxy(db, q.name);
    if proxy.Failure? {
      assert q.name !in db.Contents() ==> db.Contents() - {q.name} == db.Contents();
      return false;
    }
    match q
    case StoreContacts(_, content) =>
      var r := proxy.value.SaveContactList(content);
      done := r.Success?;
    case StoreLog(_, key, content) =>
      var r := proxy.value.SaveLog(key.0, key.1, content);
      done := r.Success?;
    case Delete(_) =>
      var r := proxy.value.DeleteUser();
      done := r.Success?;
  }

  lemma OneMoreState(qs: seq<Request>, states: seq<Accounts>, q: Request, a: Accounts)
    requires AreStates(qs, states) && Follows(states[|qs|], a, q)
    ensures AreStates(qs + [q], states + [a]) && Replay(qs + [q]) == Apply(Replay(qs), q)
  {
    assert (qs + [q])[..|qs|] == qs;
  }

  method PerformAll(db: Database, qs: seq<Request>) returns (ghost states: seq<Accounts>)
    requires db.Valid() && db.Contents() == map[]
    modifies db
    ensures db.Valid() && (db.reliable ==> db.Contents() == Replay(qs))
    ensures AreStates(qs, states) && db.Contents() == states[|qs|]
  {
    var i := 0;
    states := [db.Contents()];
    assert qs[..0] == [];
    while i < |qs|
      invariant 0 <= i <= |qs| && db.Valid() && (db.reliable ==> db.Contents() == Replay(qs[..i]))
      invariant AreStates(qs[..i], states) && db.Contents() == states[i]
    {
      var _ := Perform(db, qs[i]);
      assert qs[..i + 1] == qs[..i] + [qs[i]];
      OneMoreState(qs[..i], states, qs[i], db.Contents());
      states := states + [db.Contents()];
      i := i + 1;
    }
    assert qs[..|qs|] == qs;
  }

  /** The places where a user's content is kept. */
  datatype Slot = ContactSlot | LogSlot(key: (ChatID, int))

  ghost predicate Keeps(a: Accounts, name: UserID, slot: Slot, content: Container) {
    && name in a
    && match slot
       case ContactSlot => a[name].contacts == Some(content)
       case LogSlot(key) => key in a[name].logs && a[name].logs[key] == content
  }

  ghost predicate Stores(q: Request, name: UserID, slot: Slot) {
    match q
    case StoreContacts(n, _) => n == name && slot.ContactSlot?
    case StoreLog(n, key, _) => n == name && slot == LogSlot(key)
    case _ => false
  }

  /** Whatever fails, nothing is kept but what was stored under that name and in that place. */
  lemma {:induction false} KeepsNothingElse(qs: seq<Request>, states: seq<Accounts>, n: nat, name: UserID, slot: Slot,
                                            content: Container)
    requires AreStates(qs, states) && n <= |qs| && Keeps(states[n], name, slot, content)
    ensures exists i :: 0 <= i < n && Stores(qs[i], name, slot) && qs[i].content == content
  {
    if n > 0 {
      if Keeps(states[n - 1], name, slot, content) {
        KeepsNothingElse(qs, states, n - 1, name, slot, content);
      } else {
        AddsOnlyWhatIsStored(states[n - 1], states[n], qs[n - 1], name, slot, content);
      }
    }
  }

  lemma AddsOnlyWhatIsStored(before: Accounts, after: Accounts, q: Request, name: UserID, slot: Slot, content: Container)
    requires Follows(before, after, q) && Keeps(after, name, slot, content) && !Keeps(before, name, slot, content)
    ensures Stores(q, name, slot) && q.content == content
  {}

  /** Request `i` is the last that stored something there, and the user was not deleted since. */
  ghost predicate LastStored(qs: seq<Request>, name: UserID, slot: Slot, content: Container, i: nat) {
    && i < |qs| && Stores(qs[i], name, slot) && qs[i].content == content && name in Replay(qs[..i])
    && forall j :: i < j < |qs| ==> qs[j] != Delete(name) && !Stores(qs[j], name, slot)
  }

  /** What is kept is exactly what was stored last since its owner registered: the contents of a deleted user never
      come back with the name. */
  lemma {:induction false} KeepsWhatWasLastStored(qs: seq<Request>, name: UserID, slot: Slot, content: Container)
    ensures Keeps(Replay(qs), name, slot, content) <==> exists i :: LastStored(qs, name, slot, content, i)
  {
    if qs != [] {
      var n := |qs| - 1;
      var before := qs[..n];
      KeepsWhatWasLastStored(before, name, slot, content);
      assert forall i: nat :: i <= n ==> before[..i] == qs[..i];
      var q := qs[n];
      if Stores(q, name, slot) && q.content == content && name in Replay(before) {
        assert LastStored(qs, name, slot, content, n);
      } else if q == Delete(name) || Stores(q, name, slot) {
        assert forall i :: !LastStored(qs, name, slot, content, i);
      } else {
        assert Keeps(Replay(qs), name, slot, content) == Keeps(Replay(before), name, slot, content);
        forall i
          ensures LastStored(qs, name, slot, content, i) == LastStored(before, name, slot, content, i)
        {
        }
      }
    }
  }

  /** Request `i` registered the user, and the user was not deleted since. */
  ghost predicate RegisteredLast(qs: seq<Request>, name: UserID, i: nat) {
    && i < |qs| && qs[i].Register? && qs[i].name == name && name !in Replay(qs[..i])
    && forall j :: i < j < |qs| ==> qs[j] != Delete(name)
  }

  ghost predicate SameIdentity(a: Account, b: Account) {
    a.publicKey == b.publicKey && a.hash == b.hash && a.salt == b.salt
  }

  lemma ApplyKeepsIdentity(a: Accounts, q: Request, name: UserID)
    ensures name in Apply(a, q) <==> (q.Register? && q.name == name) || (name in a && q != Delete(name))
    ensures name in a && q != Delete(name) ==> SameIdentity(Apply(a, q)[name], a[name])
    ensures q.Register? && q.name == name && name !in a ==>
              SameIdentity(Apply(a, q)[name], Account(q.publicKey, q.hash, q.salt, None, map[]))
  {}

  /** Whoever registered has a record until it is deleted, with the key, hash and salt it registered with. */
  lemma {:induction false} KeepsWhoRegistered(qs: seq<Request>, name: UserID)
    ensures name in Replay(qs) <==> exists i :: RegisteredLast(qs, name, i)
    ensures forall i: nat :: RegisteredLast(qs, name, i) ==>
      name in Replay(qs) && SameIdentity(Replay(qs)[name], Account(qs[i].publicKey, qs[i].hash, qs[i].salt, None, map[]))
  {
    if qs != [] {
      var n := |qs| - 1;
      var before, q := qs[..n], qs[n];
      KeepsWhoRegistered(before, name);
      ApplyKeepsIdentity(Replay(before), q, name);
      if q.Register? && q.name == name && name !in Replay(before) {
        assert RegisteredLast(qs, name, n);
      }
      forall i: nat
        ensures RegisteredLast(qs, name, i) <==>
          (RegisteredLast(before, name, i) && q != Delete(name))
          || (i == n && q.Register? && q.name == name && name !in Replay(before))
      {
        RegisteredOnce(qs, name, i);
      }
    }
  }

  lemma RegisteredOnce(qs: seq<Request>, name: UserID, i: nat)
    requires qs != []
    ensures var (n, before) := (|qs| - 1, qs[..|qs| - 1]);
      RegisteredLast(qs, name, i) <==>
        (RegisteredLast(before, name, i) && qs[n] != Delete(name))
        || (i == n && qs[n].Register? && qs[n].name == name && name !in Replay(before))
  {
    var n := |qs| - 1;
    if i <= n {
      assert qs[..n][..i] == qs[..i];
    }
  }
}
