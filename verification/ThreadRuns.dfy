/** What holds in every run of interleaved threads in which no call fails: each property in every run whose steps obey
    its rules, and of the invariant behind it also that it holds throughout only in those runs. */
module ThreadRuns {
  import opened Sequences
  import opened Identifiers
  import opened Threads
  import opened ThreadSafety
  import opened ThreadNames
  import opened ThreadViews
  import opened ThreadHistories
  import ThreadMail

  /** Every state of the run satisfies the invariant. */
  ghost predicate Always(r: Run, inv: State -> bool) {
    inv(r.state) && (r.Then? ==> Always(r.before, inv))
  }

  lemma {:induction false} AlongFewer(r: Run, rules: set<Rule>, fewer: set<Rule>)
    requires Along(r, rules) && fewer <= rules
    ensures Along(r, fewer)
  {
    if r.Then? {
      AlongFewer(r.before, rules, fewer);
    }
  }

  // ----- The invariants over runs, with the rules they need -----

  ghost predicate Placed(s: State) { Inv(s) }
  ghost predicate Named(s: State) { NameInv(s) }
  ghost predicate Screened(s: State) { Inv(s) && ScreenInv(s) }
  ghost predicate Current(s: State) { Inv(s) && CoverInv(s) && UsersInv(s) }
  ghost predicate Ordered(s: State) { Inv(s) && OrderInv(s) }
  ghost predicate Told(s: State) { Inv(s) && NameInv(s) && SeenInv(s) }
  ghost predicate Keyed(s: State) { Inv(s) && NameInv(s) && KeyInv(s) }
  ghost predicate Lasting(s: State) { Inv(s) && LastsInv(s) }

  lemma {:induction false} RunPlaced(r: Run)
    requires IsRun(r)
    ensures Always(r, Placed) <==> Along(r, {UnlistEmpty})
  {
    match r
    case Start(s) => InvInitial(s);
    case Then(before, a, s) =>
      RunPlaced(before);
      if Placed(before.state) {
        NextExact(before.state, a, s);
      }
  }

  lemma {:induction false} RunNamed(r: Run)
    requires IsRun(r)
    ensures Always(r, Named) <==> Along(r, {UnlistFiled})
  {
    match r
    case Start(s) =>
    case Then(before, a, s) =>
      RunNamed(before);
      if Named(before.state) {
        NextNames(before.state, a, s);
      }
  }

  lemma {:induction false} RunScreened(r: Run)
    requires IsRun(r)
    ensures Always(r, Screened) <==> Along(r, {UnlistEmpty, FileAlone, FileQuiet})
  {
    match r
    case Start(s) =>
      InvInitial(s);
      ViewsInitial(s);
    case Then(before, a, s) =>
      RunScreened(before);
      if Screened(before.state) {
        NextExact(before.state, a, s);
        NextCovers(before.state, a, s);
        NextScreens(before.state, a, s);
      }
  }

  lemma {:induction false} RunCurrent(r: Run)
    requires IsRun(r)
    ensures Always(r, Current) <==> Along(r, {UnlistEmpty, FileAlone, CloseLeft})
  {
    match r
    case Start(s) =>
      InvInitial(s);
      ViewsInitial(s);
    case Then(before, a, s) =>
      RunCurrent(before);
      if Current(before.state) {
        NextExact(before.state, a, s);
        NextCovers(before.state, a, s);
        if Obeys(before.state, a, FileAlone) {
          NextUsers(before.state, a, s);
        }
      }
  }

  lemma {:induction false} RunOrdered(r: Run)
    requires IsRun(r)
    ensures Always(r, Ordered) <==> Along(r, {UnlistEmpty})
  {
    match r
    case Start(s) =>
      InvInitial(s);
      HistoriesInitial(s);
    case Then(before, a, s) =>
      RunOrdered(before);
      if Ordered(before.state) {
        NextExact(before.state, a, s);
        NextOrder(before.state, a, s);
      }
  }

  lemma {:induction false} RunTold(r: Run)
    requires IsRun(r)
    ensures Always(r, Told) <==> Along(r, {UnlistEmpty, UnlistFiled})
  {
    match r
    case Start(s) =>
      InvInitial(s);
      HistoriesInitial(s);
    case Then(before, a, s) =>
      RunTold(before);
      if Told(before.state) {
        NextExact(before.state, a, s);
        NextNames(before.state, a, s);
        NextSeen(before.state, a, s);
      }
  }

  lemma {:induction false} RunKeyed(r: Run)
    requires IsRun(r)
    ensures Always(r, Keyed) <==> Along(r, {UnlistEmpty, UnlistFiled, HandKey})
  {
    match r
    case Start(s) =>
      InvInitial(s);
      ViewsInitial(s);
    case Then(before, a, s) =>
      RunKeyed(before);
      if Keyed(before.state) {
        NextExact(before.state, a, s);
        NextNames(before.state, a, s);
        NextKeys(before.state, a, s);
      }
  }

  lemma {:induction false} RunLasting(r: Run)
    requires IsRun(r)
    ensures Always(r, Lasting) <==> Along(r, {UnlistEmpty, FilePresent})
  {
    match r
    case Start(s) =>
      InvInitial(s);
      ViewsInitial(s);
    case Then(before, a, s) =>
      RunLasting(before);
      if Lasting(before.state) {
        NextExact(before.state, a, s);
        if Obeys(before.state, a, UnlistEmpty) {
          NextLasts(before.state, a, s);
        }
      }
  }

  // ----- Theorems -----

  /** No client ever takes the branch for a message from a user who is not in the chat. */
  lemma {:induction false} NothingIsDropped(r: Run)
    requires IsRun(r) && Along(r, {UnlistEmpty, FileAlone, FileQuiet})
    ensures !r.state.dropped
  {
    RunScreened(r);
  }

  /** A message that reaches a user who is in the chat is logged. */
  lemma {:induction false} MembersLog(r: Run, t: Tid, to: UserID)
    requires IsRun(r) && Along(r, {UnlistEmpty, FileAlone, CloseLeft})
    requires CanDeliver(r.state, t, to) && IsShownIn(r.state, r.state.threads[t].at.room, to)
    ensures var (p, s, s') := (r.state.threads[t], r.state, DoDeliver(r.state, t, to));
      && s.Shows(to, p.op.id) && s'.Shows(to, p.op.id)
      && s'.clients[to][p.op.id].log == s.clients[to][p.op.id].log + [Receipt(p.user, p.turn, p.op.id, p.op.text)]
  {
    var s := r.state;
    RunCurrent(r);
    Knows(s, t);
    assert UsersAt(s, s.threads[t].at.room, to);
  }

  /** The sender of a message gets it, too, whether its session has the chat itself or a stand-in. */
  lemma {:induction false} SenderGetsIt(r: Run, r0: Run, t: Tid)
    requires IsRun(r) && Along(r0, {UnlistEmpty}) && ThreadMail.GoesOnFrom(r, r0)
    requires r0.Then? && r0.action == Snapshot(t) && t in r0.before.state.threads && r0.before.state.threads[t].at.HasRoom?
    requires t in r.state.threads && r.state.threads[t].at.Finished? && r.state.threads[t].user in r.state.inbox
    ensures r.state.threads[t].op.Send?
    ensures ThreadMail.ArrivedOnce(r.state.threads[t], r.state.inbox[r.state.threads[t].user])
  {
    var u := r.state.threads[t].user;
    ThreadMail.Prefix(r, r0);
    RunPlaced(r0);
    Knows(r0.before.state, t);
    ThreadMail.MembersGetIt(r, r0, t, u);
  }

  /** Whenever nobody holds the participants mutex of a chat, every member's client shows exactly the participants. */
  lemma {:induction false} QuietRoom(r: Run, o: RoomRef, user: UserID)
    requires IsRun(r) && Along(r, {UnlistEmpty, FileAlone, CloseLeft})
    requires IsShownIn(r.state, o, user) && r.state.IsFree(RoomLock(o))
    ensures var room := r.state.rooms[o];
      r.state.Shows(user, room.id) && r.state.clients[user][room.id].users == room.members
  {
    RunCurrent(r);
    FreeIsIdle(r.state, o);
    assert UsersAt(r.state, o, user);
  }

  /** And what it has seen of joins and leaves is the last that happened in the chat. */
  lemma {:induction false} QuietOrder(r: Run, o: RoomRef, user: UserID)
    requires IsRun(r) && Along(r, {UnlistEmpty})
    requires IsShownIn(r.state, o, user) && r.state.IsFree(RoomLock(o)) && r.state.Shows(user, r.state.rooms[o].id)
    ensures IsSuffix(r.state.clients[user][r.state.rooms[o].id].seen, r.state.rooms[o].history)
  {
    RunOrdered(r);
    FreeIsIdle(r.state, o);
    assert OrderAt(r.state, o, user);
    assert r.state.rooms[o].Story(user) == r.state.rooms[o].history;
  }

  /** So of two members one has seen the last that the other has seen, in the same order. */
  lemma {:induction false} SameOrder(r: Run, o: RoomRef, u: UserID, v: UserID)
    requires IsRun(r) && Along(r, {UnlistEmpty}) && r.state.IsFree(RoomLock(o))
    requires IsShownIn(r.state, o, u) && r.state.Shows(u, r.state.rooms[o].id)
    requires IsShownIn(r.state, o, v) && r.state.Shows(v, r.state.rooms[o].id)
    ensures var (a, b) := (r.state.clients[u][r.state.rooms[o].id].seen, r.state.clients[v][r.state.rooms[o].id].seen);
      IsSuffix(a, b) || IsSuffix(b, a)
  {
    QuietOrder(r, o, u);
    QuietOrder(r, o, v);
    var (a, b) := (r.state.clients[u][r.state.rooms[o].id].seen, r.state.clients[v][r.state.rooms[o].id].seen);
    TwoSuffixes(a, b, r.state.rooms[o].history);
  }

  lemma TwoSuffixes(a: seq<Change>, b: seq<Change>, history: seq<Change>)
    requires IsSuffix(a, history) && IsSuffix(b, history)
    ensures IsSuffix(a, b) || IsSuffix(b, a)
  {
    var (i, j) := (|history| - |a|, |history| - |b|);
    if i <= j {
      assert history[i..][j - i..] == history[j..];
    } else {
      assert history[j..][i - j..] == history[i..];
    }
  }

  /** The user last got the chat when its history was `i` changes long: then the user joined or, for the creator, then
      its client filed the chat; and nothing of the user's own comes later. */
  ghost predicate GotChat(room: Room, user: UserID, i: nat) {
    && i <= |room.history| && Joined(user) !in room.history[i..] && Left(user) !in room.history[i..]
    && ((0 < i && room.history[i - 1] == Joined(user)) || (user == room.creator && room.stage == Filed(i)))
    && (user == room.creator ==> room.stage.Filed? && room.stage.at <= i)
  }

  lemma GotOnce(room: Room, user: UserID, i: nat, j: nat)
    requires GotChat(room, user, i) && GotChat(room, user, j)
    ensures i == j
  {
    NotLater(room, user, i, j);
    NotLater(room, user, j, i);
  }

  lemma NotLater(room: Room, user: UserID, i: nat, j: nat)
    requires GotChat(room, user, i) && GotChat(room, user, j)
    ensures i >= j
  {
    assert forall k :: i <= k < |room.history| ==> room.history[k] == room.history[i..][k - i];
  }

  /** `seen` is all the joins and leaves since the user got the chat. */
  ghost predicate HasSeen(room: Room, user: UserID, seen: seq<Change>) {
    IsSuffix(seen, room.history) && GotChat(room, user, |room.history| - |seen|)
  }

  lemma {:induction false} QuietHistory(r: Run, o: RoomRef, user: UserID)
    requires IsRun(r) && Along(r, {UnlistEmpty, UnlistFiled})
    requires IsShownIn(r.state, o, user) && r.state.IsFree(RoomLock(o)) && r.state.Shows(user, r.state.rooms[o].id)
    ensures HasSeen(r.state.rooms[o], user, r.state.clients[user][r.state.rooms[o].id].seen)
  {
    RunTold(r);
    FreeIsIdle(r.state, o);
    assert SeenAt(r.state, o, user);
    assert r.state.rooms[o].Story(user) == r.state.rooms[o].history;
  }

  /** So any two members have both seen all that happened since the later of them got the chat, in the same order. */
  ghost predicate SeenAlike(room: Room, u: UserID, v: UserID, a: seq<Change>, b: seq<Change>) {
    var (n, k) := (|room.history|, if |a| <= |b| then |a| else |b|);
    && |a| <= n && |b| <= n && GotChat(room, u, n - |a|) && GotChat(room, v, n - |b|)
    && a[|a| - k..] == room.history[n - k..] == b[|b| - k..]
  }

  lemma {:induction false} SameChanges(r: Run, o: RoomRef, u: UserID, v: UserID)
    requires IsRun(r) && Along(r, {UnlistEmpty, UnlistFiled}) && r.state.IsFree(RoomLock(o))
    requires IsShownIn(r.state, o, u) && r.state.Shows(u, r.state.rooms[o].id)
    requires IsShownIn(r.state, o, v) && r.state.Shows(v, r.state.rooms[o].id)
    ensures SeenAlike(r.state.rooms[o], u, v, r.state.clients[u][r.state.rooms[o].id].seen,
                      r.state.clients[v][r.state.rooms[o].id].seen)
  {
    QuietHistory(r, o, u);
    QuietHistory(r, o, v);
    AlikeOf(r.state.rooms[o], u, v, r.state.clients[u][r.state.rooms[o].id].seen,
            r.state.clients[v][r.state.rooms[o].id].seen);
  }

  lemma AlikeOf(room: Room, u: UserID, v: UserID, a: seq<Change>, b: seq<Change>)
    requires HasSeen(room, u, a) && HasSeen(room, v, b)
    ensures SeenAlike(room, u, v, a, b)
  {
    SharedEnd(room.history, a, b, if |a| <= |b| then |a| else |b|);
  }

  lemma SharedEnd(history: seq<Change>, a: seq<Change>, b: seq<Change>, k: nat)
    requires IsSuffix(a, history) && IsSuffix(b, history) && k <= |a| && k <= |b|
    ensures a[|a| - k..] == history[|history| - k..] == b[|b| - k..]
  {
    var n := |history|;
    assert history[n - |a|..][|a| - k..] == history[n - k..] == history[n - |b|..][|b| - k..];
  }

  /** Whoever is in a chat has the key that its creator made for it. */
  lemma {:induction false} SameKey(r: Run, o: RoomRef, user: UserID)
    requires IsRun(r) && Along(r, {UnlistEmpty, UnlistFiled, HandKey})
    requires IsShownIn(r.state, o, user) && r.state.Shows(user, r.state.rooms[o].id)
    ensures r.state.clients[user][r.state.rooms[o].id].key == r.state.rooms[o].key
  {
    RunKeyed(r);
    assert KeyAt(r.state, o, user);
  }

  /** Whenever nobody holds the mutex of a user's session or that of the chat, the session leads to a chat exactly if
      the user is in the chat that its server's map has under that ID. */
  lemma {:induction false} QuietSession(r: Run, user: UserID, id: ChatID)
    requires IsRun(r) && Along(r, {UnlistEmpty}) && user in r.state.sessions && r.state.IsFree(SessionLock(user))
    requires id in r.state.chats ==>
      && r.state.IsFree(RoomLock(r.state.chats[id]))
      && r.state.chats[id] in r.state.rooms && !r.state.rooms[r.state.chats[id]].stage.Listed?
    ensures Found(r.state, user, id).Some? <==> id in r.state.chats && user in r.state.rooms[r.state.chats[id]].members
    ensures Found(r.state, user, id).Some? ==> Found(r.state, user, id).value == r.state.chats[id]
  {
    var s := r.state;
    RunPlaced(r);
    NobodyLeavesFree(s, user);
    assert EntryAt(s, user, id) && ListedAt(s, id);
    if id in s.chats {
      FreeIsIdle(s, s.chats[id]);
      assert MemberAt(s, s.chats[id], user) && KeptAt(s, s.chats[id]);
    }
    if id in s.sessions[user].entries && s.sessions[user].entries[id].Direct? {
      var o := s.sessions[user].entries[id].room;
      assert KeptAt(s, o);
      if o in s.rooms && s.rooms[o].Guest().Some? {
        HostIsMember(s, o);
      }
    }
  }

  /** Two threads that are creating chats never have the same ID. */
  lemma {:induction false} NamesAreNotShared(r: Run, t1: Tid, t2: Tid)
    requires IsRun(r) && Along(r, {UnlistFiled}) && t1 in r.state.threads && t2 in r.state.threads && t1 != t2
    requires r.state.threads[t1].at.Owning? || r.state.threads[t1].at.Filing?
    requires r.state.threads[t2].at.Owning? || r.state.threads[t2].at.Filing?
    ensures var (o1, o2) := (r.state.threads[t1].at.room, r.state.threads[t2].at.room);
      o1 in r.state.rooms && o2 in r.state.rooms && r.state.rooms[o1].id != r.state.rooms[o2].id
  {
    var s := r.state;
    RunNamed(r);
    assert MakerAt(s, t1) && MakerAt(s, t2);
    assert NewAt(s, s.threads[t1].at.room) && NewAt(s, s.threads[t2].at.room);
  }

  /** When an ID is handed out, a session that has it is just taking its user out of the earlier chat. */
  lemma {:induction false} ReusedInSessions(r: Run, t: Tid, o: RoomRef, user: UserID)
    requires IsRun(r) && Along(r, {UnlistEmpty}) && CanListChat(r.state, t, o) && user in r.state.sessions
    ensures var id := NextName(r.state.chats.Keys, r.state.home(r.state.threads[t].user));
      id in r.state.sessions[user].entries ==> IsLeaving(r.state, user, id)
  {
    var s := r.state;
    RunPlaced(r);
    var id := NextName(s.chats.Keys, s.home(s.threads[t].user));
    assert EntryAt(s, user, id);
    if id in s.sessions[user].entries && s.sessions[user].entries[id].Direct? {
      var q := s.sessions[user].entries[id].room;
      assert KeptAt(s, q);
      if q in s.rooms && s.rooms[q].Guest().Some? {
        HostIsMember(s, q);
      }
    }
  }

  /** And a client that shows it has a thread under way that will close the earlier chat. */
  lemma {:induction false} ReusedAtClients(r: Run, t: Tid, o: RoomRef, user: UserID)
    requires IsRun(r) && Along(r, {UnlistEmpty, FilePresent}) && CanListChat(r.state, t, o)
    ensures var id := NextName(r.state.chats.Keys, r.state.home(r.state.threads[t].user));
      r.state.Shows(user, id) ==> IsGoing(r.state, user, id)
  {
    RunLasting(r);
    assert LastsAt(r.state, user, NextName(r.state.chats.Keys, r.state.home(r.state.threads[t].user)));
  }
}
